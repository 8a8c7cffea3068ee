/**
 * The mechanism type the host receives from `make_input_type`
 * (main.cpp:207-233), and the call-counter protocol behind it: the host
 * calls the factory once per catalogue entry, and each call hands out the
 * next mechanism in registration order.
 */
module Exporter {
  import opened Abi
  import opened Lifecycle

  const TooManyCallsMsg: string := "called > size(mechs) times; arbor internals changed?"
  const Fingerprint: string := "<placeholder>"

  /**
   * arb_mechanism_type. The host gets pointers to the mechanism's own schema
   * lists; here the lists are the values behind those pointers.
   */
  datatype MechType = MechType(
    fingerprint: string,
    name: string,
    kind: Kind,
    isLinear: bool,
    hasPostEvents: bool,
    globals: seq<FieldInfo>,
    nGlobals: nat,
    ions: seq<IonInfo>,
    nIons: nat,
    stateVars: seq<FieldInfo>,
    nStateVars: nat,
    parameters: seq<FieldInfo>,
    nParameters: nat,
    randomVariables: seq<RandomVariableInfo>,
    nRandomVariables: nat)

  /** Every count the host reads matches the list it describes. */
  predicate Counted(t: MechType)
  {
    && t.nGlobals == |t.globals|
    && t.nIons == |t.ions|
    && t.nStateVars == |t.stateVars|
    && t.nParameters == |t.parameters|
    && t.nRandomVariables == |t.randomVariables|
  }

  /**
   * One call of `make_input_type` over the registered types: its result and
   * the new value of the call counter.
   */
  function NextType(frozen: bool, types: seq<MechType>, counter: nat): (out: (Result<MechType>, nat))
    ensures out.0.Ok? <==> frozen && counter < |types|
    ensures out.1 == if out.0.Ok? then counter + 1 else counter
    ensures out.0.Ok? ==> out.0.value == types[counter]
    ensures !frozen ==> out.0 == Err(RuntimeError(ModifyAfterLoadMsg))
    ensures frozen && counter >= |types| ==> out.0 == Err(RuntimeError(TooManyCallsMsg))
  {
    match FrozenCheckAsWritten(frozen, true)
    case Fail(e) => (Err(e), counter)
    case Pass =>
      if counter >= |types| then (Err(RuntimeError(TooManyCallsMsg)), counter)
      else (Ok(types[counter]), counter + 1)
  }

  /** The results of `calls` consecutive calls, starting from a given counter. */
  function Calls(frozen: bool, types: seq<MechType>, counter: nat, calls: nat): (rs: seq<Result<MechType>>)
    ensures |rs| == calls
    decreases calls
  {
    if calls == 0 then []
    else
      var (r, next) := NextType(frozen, types, counter);
      [r] + Calls(frozen, types, next, calls - 1)
  }

  /**
   * After the freeze, call number `j` (from 0) returns the type registered at
   * position `counter + j`, and every call past the last one fails.
   */
  lemma {:induction false} CallsInOrder(types: seq<MechType>, counter: nat, calls: nat, j: nat)
    requires j < calls
    ensures Calls(true, types, counter, calls)[j] ==
              if counter + j < |types| then Ok(types[counter + j]) else Err(RuntimeError(TooManyCallsMsg))
    decreases j
  {
    var (r, next) := NextType(true, types, counter);
    assert Calls(true, types, counter, calls) == [r] + Calls(true, types, next, calls - 1);
    if j > 0 {
      CallsInOrder(types, next, calls - 1, j - 1);
      if counter >= |types| {
        assert next == counter;
      }
    }
  }

  /**
   * A full export from a fresh counter: the host's |types| calls return the
   * types in registration order, and one call more fails.
   */
  lemma {:induction false} ExportInOrder(types: seq<MechType>)
    ensures var rs := Calls(true, types, 0, |types| + 1);
            && (forall k :: 0 <= k < |types| ==> rs[k] == Ok(types[k]))
            && rs[|types|] == Err(RuntimeError(TooManyCallsMsg))
  {
    var rs := Calls(true, types, 0, |types| + 1);
    forall k | 0 <= k < |types|
      ensures rs[k] == Ok(types[k])
    {
      CallsInOrder(types, 0, |types| + 1, k);
    }
    CallsInOrder(types, 0, |types| + 1, |types|);
  }

  /** Before the freeze every call fails and the counter never moves. */
  lemma {:induction false} CallsBeforeLoad(types: seq<MechType>, counter: nat, calls: nat, j: nat)
    requires j < calls
    ensures Calls(false, types, counter, calls)[j] == Err(RuntimeError(ModifyAfterLoadMsg))
    decreases j
  {
    if j > 0 {
      CallsBeforeLoad(types, counter, calls - 1, j - 1);
    }
  }
}
