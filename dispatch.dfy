/**
 * The host-facing tables and the index arithmetic of the step dispatcher
 * (main.cpp:164-205, 237-241).
 *
 * The host numbers mechanisms in the reverse of registration order, so
 * `init`, `advance_state`, `compute_currents` and `write_ions` compute
 * `mechs.size() - mechanism_id - 1` in `size_t`, store it in an `int` and
 * pass that back to `vector::at`, which converts it to `size_t` again.
 */
module Dispatch {
  import opened Abi
  import opened Lifecycle

  const IntMin: int := -0x8000_0000
  const IntLimit: int := 0x8000_0000

  /** Subtraction of two `size_t` values: wraps modulo 2^64. */
  function SizeSub(a: int, b: int): (r: nat)
    ensures r < TwoTo64
  {
    (a - b) % TwoTo64
  }

  /** Conversion of an unsigned value to a 32-bit `int`: keeps the low 32 bits, two's complement. */
  function ToInt32(x: nat): (r: int)
    ensures IntMin <= r < IntLimit
    ensures (r - x) % TwoTo32 == 0
  {
    var low := x % TwoTo32;
    if low < IntLimit then low else low - TwoTo32
  }

  /** Conversion of an `int` to `size_t`, as `vector::at` receives it. */
  function ToSize(i: int): (r: nat)
    ensures r < TwoTo64
    ensures 0 <= i < TwoTo64 ==> r == i
  {
    i % TwoTo64
  }

  /**
   * The slot index the step entry points compute: `size_t` subtraction, then
   * narrowing to a 32-bit `int`. It is a 32-bit value that agrees with the
   * exact difference modulo 2^32.
   */
  function SlotIndex(count: nat, mechanismId: uint32): (idx: int)
    ensures IntMin <= idx < IntLimit
    ensures (idx - (count - mechanismId - 1)) % TwoTo32 == 0
  {
    var wide := SizeSub(SizeSub(count, mechanismId), 1);
    assert (wide - (count - mechanismId - 1)) % TwoTo64 == 0;
    ToInt32(wide)
  }

  /**
   * With at most 2^31 registered mechanisms, `mechs.at(idx)` finds a slot
   * exactly when the host's id is below the number of mechanisms, and the
   * slot it finds is the id counted from the end.
   */
  lemma SlotIndexInRange(count: nat, mechanismId: uint32)
    ensures count <= IntLimit ==> (ToSize(SlotIndex(count, mechanismId)) < count <==> mechanismId < count)
    ensures count <= IntLimit && mechanismId < count ==> SlotIndex(count, mechanismId) == count - mechanismId - 1
  {
    // An id at or past the count makes the first subtraction wrap; narrowing
    // then gives a value that is negative or at least the count, which `at`
    // rejects either way.
  }

  /**
   * The host id that reaches registry slot `k`, and the converse: every slot
   * is reached by exactly one id.
   */
  lemma ReversedIds(count: nat, k: nat, mechanismId: uint32)
    requires count <= IntLimit && k < count
    ensures mechanismId < count && SlotIndex(count, mechanismId) == k <==> mechanismId == count - 1 - k
  {
    if mechanismId < count {
      SlotIndexInRange(count, mechanismId);
    }
    if mechanismId == count - 1 - k {
      SlotIndexInRange(count, mechanismId);
    }
  }

  /** arb_backend_kind. */
  datatype Backend = Cpu | Gpu

  /** arb_mechanism_interface: alignment, partition width and the six entry points. */
  datatype Iface = Iface(
    partitionWidth: nat,
    backend: Backend,
    alignment: nat,
    initMechanism: Entry,
    computeCurrents: Entry,
    applyEvents: Entry,
    advanceState: Entry,
    writeIons: Entry,
    postEvent: Entry)

  /** The six slots of an interface table, in declaration order. */
  function Slots(t: Iface): seq<Entry>
  {
    [t.initMechanism, t.computeCurrents, t.applyEvents, t.advanceState, t.writeIons, t.postEvent]
  }

  /** `make_cpu_iface`: only after the freeze; one fixed CPU table. */
  function MakeCpuIface(frozen: bool): (r: Result<Iface>)
    ensures r.Ok? <==> frozen
    ensures r.Err? ==> r.error == RuntimeError(ModifyAfterLoadMsg)
    ensures r.Ok? ==> r.value.backend == Cpu && r.value.partitionWidth == 1 && r.value.alignment == 8
    ensures r.Ok? ==> r.value.initMechanism == Step(Init) && r.value.advanceState == Step(AdvanceState)
    ensures r.Ok? ==> r.value.computeCurrents == Step(ComputeCurrents) && r.value.writeIons == Step(WriteIons)
    ensures r.Ok? ==> r.value.applyEvents == ApplyEvents && r.value.postEvent == PostEvent
  {
    match FrozenCheckAsWritten(frozen, true)
    case Fail(e) => Err(e)
    case Pass =>
      Ok(Iface(1, Cpu, 8, Step(Init), Step(ComputeCurrents), ApplyEvents,
               Step(AdvanceState), Step(WriteIons), PostEvent))
  }

  /** The CPU table routes every one of the six entry points, each through exactly one slot. */
  lemma CpuTableComplete(e: Entry)
    ensures var t := MakeCpuIface(true).value;
            e in Slots(t) && forall i, j :: 0 <= i < j < 6 ==> Slots(t)[i] != Slots(t)[j]
  {
    match e
    case Step(s) => match s { case Init => case AdvanceState => case ComputeCurrents => case WriteIons => }
    case ApplyEvents =>
    case PostEvent =>
  }

  /** `null_interface`: the "no implementation" answer for the GPU. */
  function NullInterface(): (r: Option<Iface>)
    ensures r == None
  {
    None
  }

  /** What a catalogue record's three factory slots hold. */
  datatype TypeFactory = MakeInputTypeFn
  datatype IfaceFactory = MakeCpuIfaceFn | NullInterfaceFn

  /** arb_mechanism: a type factory and one interface factory per backend. */
  datatype PluginRecord = PluginRecord(typeFactory: TypeFactory, iCpu: IfaceFactory, iGpu: IfaceFactory)

  /** The `mechanism_template` every catalogue entry copies. */
  const Template: PluginRecord := PluginRecord(MakeInputTypeFn, MakeCpuIfaceFn, NullInterfaceFn)

  /** The host asks a record for its interface on a backend. */
  function RequestInterface(rec: PluginRecord, backend: Backend, frozen: bool): Result<Option<Iface>>
  {
    var factory := if backend == Cpu then rec.iCpu else rec.iGpu;
    match factory
    case NullInterfaceFn => Ok(NullInterface())
    case MakeCpuIfaceFn =>
      match MakeCpuIface(frozen)
      case Err(e) => Err(e)
      case Ok(t) => Ok(Some(t))
  }

  /**
   * Through the template, the GPU answer is always "no implementation", and
   * the CPU answer is the CPU table exactly when the registry is frozen.
   */
  lemma TemplateInterfaces(frozen: bool)
    ensures RequestInterface(Template, Gpu, frozen) == Ok(None)
    ensures RequestInterface(Template, Cpu, frozen).Ok? <==> frozen
    ensures frozen ==> RequestInterface(Template, Cpu, frozen) == Ok(Some(MakeCpuIface(true).value))
  {
  }
}
