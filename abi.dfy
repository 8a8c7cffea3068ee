/**
 * Values shared by the whole plugin: error results, the host ABI's schema
 * records (arb_field_info, arb_random_variable_info, arb_ion_info), the
 * mechanism kinds and the step entry points.
 */
module Abi {

  const TwoTo32: int := 0x1_0000_0000
  const TwoTo64: int := 0x1_0000_0000_0000_0000

  /** arb_size_type: the host's 32-bit unsigned size type. */
  type uint32 = x: int | 0 <= x < 0x1_0000_0000

  /** The exceptions the plugin raises (all of them end the current call). */
  datatype Error =
    | RuntimeError(msg: string)   // std::runtime_error with its message
    | OutOfRange                  // std::out_of_range thrown by vector::at
    | BadFunctionCall             // std::bad_function_call: an empty handler was called

  datatype Result<T> = Ok(value: T) | Err(error: Error)

  datatype Outcome = Pass | Fail(error: Error)

  datatype Option<T> = None | Some(value: T)

  /** An IEEE-754 double, carried by its bit pattern; the model never computes with it. */
  datatype Float64 = Float64(bits: bv64)

  const Zero: Float64 := Float64(0)
  /** std::numeric_limits<double>::max() and its negation. */
  const DblMax: Float64 := Float64(0x7FEF_FFFF_FFFF_FFFF)
  const NegDblMax: Float64 := Float64(0xFFEF_FFFF_FFFF_FFFF)

  /** arb_mechanism_kind. */
  datatype Kind = Density | Point | Junction

  /**
   * A `const char *` handed to the host: the position of its interned copy
   * in the owning mechanism's intern store.
   */
  type CStr = nat

  /** arb_field_info: name, unit, default, lower and upper bound. */
  datatype FieldInfo = FieldInfo(name: CStr, unit: CStr, defaultValue: Float64, lo: Float64, hi: Float64)

  /** arb_random_variable_info. */
  datatype RandomVariableInfo = RandomVariableInfo(name: CStr, index: uint32)

  /** arb_ion_info: the seven usage flags and the expected valence. */
  datatype IonInfo = IonInfo(
    name: CStr,
    writeIntConcentration: bool,
    writeExtConcentration: bool,
    useDiffConcentration: bool,
    writeRevPotential: bool,
    readRevPotential: bool,
    readValence: bool,
    verifyValence: bool,
    expectedValence: int)

  /** A user-supplied Python callable, opaque to the plugin. */
  datatype Handler = Handler(id: nat)

  /** The four stages that have a user handler. */
  datatype Stage = Init | AdvanceState | ComputeCurrents | WriteIons

  /** The six entry points of the host's interface table. */
  datatype Entry = Step(stage: Stage) | ApplyEvents | PostEvent

  /** A host pointer: only whether it is null matters here. */
  datatype Ptr = Null | Live
}
