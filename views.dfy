/**
 * The call context handed to a handler, `PP` (main.cpp:50-69, 144-160), the
 * bounded array it exports, `ArbPPArray` (main.cpp:35-46), and the ion
 * block view `ArbIonState` (main.cpp:28-33, 375-384).
 *
 * Every view is `width` long: the per-instance count the host passes for
 * this call. Host pointers are modelled by whether they are null.
 */
module Views {
  import opened Abi
  import opened Mechanism

  const NullArrayMsg: string := "trying to make a nullpointer into a numpy array"
  const EmptyStateMsg: string := "empty state_vars"
  const StateRangeMsg: string := "state out of range"
  const EmptyParamMsg: string := "empty parameters"
  const EmptyRandomMsg: string := "empty random"
  const EmptyIonsMsg: string := "empty ion_states"
  /** The range message `param`, `random` and `ions` all use. */
  const ParamRangeMsg: string := "param out of range"

  /** ArbPPArray: a length, a host pointer and a read-only flag. */
  datatype PPArray = PPArray(size: nat, raw: Ptr, ro: bool)

  /** What a successful `to_numpy` exports: the length and the array's read-only flag. */
  datatype View = View(length: nat, readOnly: bool)

  /** A host array of per-field pointers (`double**`), itself possibly null. */
  datatype PtrTable = NullTable | Table(entries: seq<Ptr>)

  /** arb_ion_state: one pointer per ion quantity. */
  datatype IonBlock = IonBlock(
    currentDensity: Ptr,
    conductivity: Ptr,
    reversalPotential: Ptr,
    internalConcentration: Ptr,
    externalConcentration: Ptr,
    diffusiveConcentration: Ptr,
    ionicCharge: Ptr,
    index: Ptr)

  /** The host's array of ion blocks, possibly null. */
  datatype IonTable = NullIons | Ions(blocks: seq<IonBlock>)

  /** arb_mechanism_ppack, restricted to what the plugin reads. */
  datatype PPack = PPack(
    width: uint32,
    mechanismId: uint32,
    nodeIndex: Ptr,
    vecV: Ptr,
    vecI: Ptr,
    vecG: Ptr,
    temperatureDegC: Ptr,
    diamUm: Ptr,
    areaUm2: Ptr,
    stateVars: PtrTable,
    parameters: PtrTable,
    randomNumbers: PtrTable,
    ionStates: IonTable)

  /** The per-node arrays exposed as `v`, `i`, `g`, `t_degC`, `diam_um`, `area_um2`. */
  datatype NodeField = V | I | G | TDegC | DiamUm | AreaUm2

  /** The sub-arrays of an ion block. */
  datatype IonField =
    | CurrentDensity | Conductivity | ReversalPotential | InternalConcentration
    | ExternalConcentration | DiffusiveConcentration | IonicCharge | Index

  /** `PP`: the host's parameter pack and the mechanism the call was resolved to. */
  datatype PP = PP(pp: PPack, mech: Mech)

  /** `ArbIonState`: the call's width and the ion block it points at. */
  datatype IonState = IonState(size: nat, block: IonBlock)

  /** The host's part of the ABI: a non-null table has an entry for each declared field. */
  predicate Covers(table: PtrTable, count: nat)
  {
    table.Table? ==> count <= |table.entries|
  }

  predicate CoversIons(table: IonTable, count: nat)
  {
    table.Ions? ==> count <= |table.blocks|
  }

  /** `to_numpy`: refuses a null pointer, otherwise exports the array's size. */
  function ToNumpy(a: PPArray): (r: Result<View>)
    ensures r.Ok? <==> a.raw.Live?
    ensures r.Err? ==> r.error == RuntimeError(NullArrayMsg)
    ensures r.Ok? ==> r.value.length == a.size && r.value.readOnly == a.ro
  {
    if a.raw.Null? then Err(RuntimeError(NullArrayMsg)) else Ok(View(a.size, a.ro))
  }

  /** `node_index`: the read-only per-instance index array. */
  function NodeIndex(ctx: PP): (r: Result<View>)
    ensures r.Ok? <==> ctx.pp.nodeIndex.Live?
    ensures r.Err? ==> r.error == RuntimeError(NullArrayMsg)
    ensures r.Ok? ==> r.value == View(ctx.pp.width, true)
  {
    ToNumpy(PPArray(ctx.pp.width, ctx.pp.nodeIndex, true))
  }

  function NodePtr(pp: PPack, f: NodeField): Ptr
  {
    match f
    case V => pp.vecV
    case I => pp.vecI
    case G => pp.vecG
    case TDegC => pp.temperatureDegC
    case DiamUm => pp.diamUm
    case AreaUm2 => pp.areaUm2
  }

  /** `v`, `i`, `g`, `t_degC`, `diam_um`, `area_um2`: writable and `width` long. */
  function NodeView(ctx: PP, f: NodeField): (r: Result<View>)
    ensures r.Ok? <==> NodePtr(ctx.pp, f).Live?
    ensures r.Err? ==> r.error == RuntimeError(NullArrayMsg)
    ensures r.Ok? ==> r.value == View(ctx.pp.width, false)
  {
    ToNumpy(PPArray(ctx.pp.width, NodePtr(ctx.pp, f), false))
  }

  /** `state(idx)`: null table first, then the declared count, then the entry itself. */
  function State(ctx: PP, idx: nat): (r: Result<View>)
    reads ctx.mech
    requires Covers(ctx.pp.stateVars, |ctx.mech.stateVars|)
    ensures r.Ok? <==> ctx.pp.stateVars.Table? && idx < |ctx.mech.stateVars| && ctx.pp.stateVars.entries[idx].Live?
    ensures ctx.pp.stateVars.NullTable? ==> r == Err(RuntimeError(EmptyStateMsg))
    ensures ctx.pp.stateVars.Table? && idx >= |ctx.mech.stateVars| ==> r == Err(RuntimeError(StateRangeMsg))
    ensures r.Ok? ==> r.value == View(ctx.pp.width, false)
  {
    if ctx.pp.stateVars.NullTable? then Err(RuntimeError(EmptyStateMsg))
    else if idx >= |ctx.mech.stateVars| then Err(RuntimeError(StateRangeMsg))
    else ToNumpy(PPArray(ctx.pp.width, ctx.pp.stateVars.entries[idx], false))
  }

  /** `param(idx)`: same guards as `state`, over the parameters. */
  function Param(ctx: PP, idx: nat): (r: Result<View>)
    reads ctx.mech
    requires Covers(ctx.pp.parameters, |ctx.mech.parameters|)
    ensures r.Ok? <==> ctx.pp.parameters.Table? && idx < |ctx.mech.parameters| && ctx.pp.parameters.entries[idx].Live?
    ensures ctx.pp.parameters.NullTable? ==> r == Err(RuntimeError(EmptyParamMsg))
    ensures ctx.pp.parameters.Table? && idx >= |ctx.mech.parameters| ==> r == Err(RuntimeError(ParamRangeMsg))
    ensures r.Ok? ==> r.value == View(ctx.pp.width, false)
  {
    if ctx.pp.parameters.NullTable? then Err(RuntimeError(EmptyParamMsg))
    else if idx >= |ctx.mech.parameters| then Err(RuntimeError(ParamRangeMsg))
    else ToNumpy(PPArray(ctx.pp.width, ctx.pp.parameters.entries[idx], false))
  }

  /** `random(idx)`: same guards, over the random variables; the array is marked read-only. */
  function Random(ctx: PP, idx: nat): (r: Result<View>)
    reads ctx.mech
    requires Covers(ctx.pp.randomNumbers, |ctx.mech.randomVariables|)
    ensures r.Ok? <==> ctx.pp.randomNumbers.Table? && idx < |ctx.mech.randomVariables| && ctx.pp.randomNumbers.entries[idx].Live?
    ensures ctx.pp.randomNumbers.NullTable? ==> r == Err(RuntimeError(EmptyRandomMsg))
    ensures ctx.pp.randomNumbers.Table? && idx >= |ctx.mech.randomVariables| ==> r == Err(RuntimeError(ParamRangeMsg))
    ensures r.Ok? ==> r.value == View(ctx.pp.width, true)
  {
    if ctx.pp.randomNumbers.NullTable? then Err(RuntimeError(EmptyRandomMsg))
    else if idx >= |ctx.mech.randomVariables| then Err(RuntimeError(ParamRangeMsg))
    else ToNumpy(PPArray(ctx.pp.width, ctx.pp.randomNumbers.entries[idx], true))
  }

  /** `ions(idx)`: null table first, then the declared count; the block's own address is never null. */
  function Ions(ctx: PP, idx: nat): (r: Result<IonState>)
    reads ctx.mech
    requires CoversIons(ctx.pp.ionStates, |ctx.mech.ions|)
    ensures r.Ok? <==> ctx.pp.ionStates.Ions? && idx < |ctx.mech.ions|
    ensures ctx.pp.ionStates.NullIons? ==> r == Err(RuntimeError(EmptyIonsMsg))
    ensures ctx.pp.ionStates.Ions? && idx >= |ctx.mech.ions| ==> r == Err(RuntimeError(ParamRangeMsg))
    ensures r.Ok? ==> r.value.size == ctx.pp.width && r.value.block == ctx.pp.ionStates.blocks[idx]
  {
    if ctx.pp.ionStates.NullIons? then Err(RuntimeError(EmptyIonsMsg))
    else if idx >= |ctx.mech.ions| then Err(RuntimeError(ParamRangeMsg))
    else Ok(IonState(ctx.pp.width, ctx.pp.ionStates.blocks[idx]))
  }

  function IonPtr(b: IonBlock, f: IonField): Ptr
  {
    match f
    case CurrentDensity => b.currentDensity
    case Conductivity => b.conductivity
    case ReversalPotential => b.reversalPotential
    case InternalConcentration => b.internalConcentration
    case ExternalConcentration => b.externalConcentration
    case DiffusiveConcentration => b.diffusiveConcentration
    case IonicCharge => b.ionicCharge
    case Index => b.index
  }

  /** The eight properties of an `ArbIonState`: each writable and as long as the ion state's size. */
  function IonView(s: IonState, f: IonField): (r: Result<View>)
    ensures r.Ok? <==> IonPtr(s.block, f).Live?
    ensures r.Err? ==> r.error == RuntimeError(NullArrayMsg)
    ensures r.Ok? ==> r.value == View(s.size, false)
  {
    ToNumpy(PPArray(s.size, IonPtr(s.block, f), false))
  }

  /**
   * Whatever array a handler obtains through a context, directly or through
   * an ion state, it is exactly `width` long.
   */
  lemma {:induction false} EveryViewHasWidth(ctx: PP, idx: nat, f: NodeField, g: IonField)
    requires Covers(ctx.pp.stateVars, |ctx.mech.stateVars|)
    requires Covers(ctx.pp.parameters, |ctx.mech.parameters|)
    requires Covers(ctx.pp.randomNumbers, |ctx.mech.randomVariables|)
    requires CoversIons(ctx.pp.ionStates, |ctx.mech.ions|)
    ensures NodeIndex(ctx).Ok? ==> NodeIndex(ctx).value.length == ctx.pp.width
    ensures NodeView(ctx, f).Ok? ==> NodeView(ctx, f).value.length == ctx.pp.width
    ensures State(ctx, idx).Ok? ==> State(ctx, idx).value.length == ctx.pp.width
    ensures Param(ctx, idx).Ok? ==> Param(ctx, idx).value.length == ctx.pp.width
    ensures Random(ctx, idx).Ok? ==> Random(ctx, idx).value.length == ctx.pp.width
    ensures Ions(ctx, idx).Ok? && IonView(Ions(ctx, idx).value, g).Ok? ==>
              IonView(Ions(ctx, idx).value, g).value.length == ctx.pp.width
  {
  }

  /**
   * The last declared state variable can be viewed, the next index cannot:
   * an index handed out by `add_state` addresses a view, and nothing beyond.
   */
  lemma StateBoundary(ctx: PP)
    requires ctx.pp.stateVars.Table? && |ctx.mech.stateVars| > 0
    requires |ctx.mech.stateVars| <= |ctx.pp.stateVars.entries|
    requires forall k :: 0 <= k < |ctx.mech.stateVars| ==> ctx.pp.stateVars.entries[k].Live?
    ensures State(ctx, |ctx.mech.stateVars| - 1) == Ok(View(ctx.pp.width, false))
    ensures State(ctx, |ctx.mech.stateVars|) == Err(RuntimeError(StateRangeMsg))
  {
  }
}
