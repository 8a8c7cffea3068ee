/**
 * The process-wide registry (main.cpp:162-248, 266-269): the `mechs`
 * vector, the freeze flag, the static call counter of `make_input_type`,
 * the static record vector of `get_catalogue`, and the step entry points
 * that resolve a host call to a registered mechanism.
 *
 * Lifecycle: open while `frozen` is false (registration and schema edits
 * succeed, export fails), frozen after the first `get_catalogue` (the
 * reverse). Nothing ever sets the flag back.
 */
module PluginRegistry {
  import opened Abi
  import opened Lifecycle
  import opened Mechanism
  import opened Views
  import opened Dispatch
  import opened Exporter

  /** What a step entry point does: call one handler with a context, or nothing. */
  datatype Call = Invoke(slot: nat, handler: Handler, ctx: PP) | Inert

  /** The mechanism type `make_input_type` builds from a mechanism: scalars copied, lists shared. */
  function TypeOf(m: Mech): (t: MechType)
    reads m
    ensures Counted(t)
    ensures t.fingerprint == Fingerprint && t.name == m.name && t.kind == m.kind
    ensures t.isLinear == m.isLinear && t.hasPostEvents == m.hasPostEvents
    ensures t.globals == m.globals && t.ions == m.ions && t.stateVars == m.stateVars
    ensures t.parameters == m.parameters && t.randomVariables == m.randomVariables
  {
    MechType(Fingerprint, m.name, m.kind, m.isLinear, m.hasPostEvents,
             m.globals, |m.globals|, m.ions, |m.ions|, m.stateVars, |m.stateVars|,
             m.parameters, |m.parameters|, m.randomVariables, |m.randomVariables|)
  }

  /** The types of the registered mechanisms, in registration order. */
  function TypesOf(ms: seq<Mech>): (ts: seq<MechType>)
    reads ms
    ensures |ts| == |ms|
    ensures forall k :: 0 <= k < |ms| ==> ts[k] == TypeOf(ms[k])
  {
    if ms == [] then [] else [TypeOf(ms[0])] + TypesOf(ms[1..])
  }

  /** `n` copies of the catalogue template. */
  function Copies(n: nat): (rs: seq<PluginRecord>)
    ensures |rs| == n && forall k :: 0 <= k < n ==> rs[k] == Template
  {
    seq(n, _ => Template)
  }

  lemma CopiesAppend(a: nat, b: nat)
    ensures Copies(a) + Copies(b) == Copies(a + b)
  {
  }

  class Registry {
    const flag: FreezeFlag
    var mechs: seq<Mech>
    var callCounter: nat           // the static `call_counter` of make_input_type
    var mechanisms: seq<PluginRecord>   // the static vector of get_catalogue
    ghost var loads: nat           // how many times get_catalogue has run

    /**
     * Frozen exactly once the catalogue has been loaded; the export counter
     * stays within the registered mechanisms; the record vector holds one
     * template per mechanism per load.
     */
    ghost predicate Valid()
      reads this, flag
    {
      && (flag.frozen <==> loads > 0)
      && (!flag.frozen ==> callCounter == 0)
      && callCounter <= |mechs|
      && mechanisms == Copies(loads * |mechs|)
    }

    /** Process start: open, empty, nothing exported. */
    constructor ()
      ensures Valid() && fresh(flag)
      ensures !flag.frozen && mechs == [] && callCounter == 0 && mechanisms == []
    {
      flag := new FreezeFlag();
      mechs := [];
      callCounter := 0;
      mechanisms := [];
      loads := 0;
    }

    /** The Python-level `register`: append the mechanism while open. */
    method Register(m: Mech) returns (r: Outcome)
      requires Valid()
      modifies this`mechs
      ensures Valid()
      ensures r.Pass? <==> !flag.frozen
      ensures r.Fail? ==> r.error == RuntimeError(CallBeforeLoadMsg)
      ensures mechs == if r.Pass? then old(mechs) + [m] else old(mechs)
    {
      r := FrozenCheckAsWritten(flag.frozen, false);
      if r.Pass? {
        mechs := mechs + [m];
      }
    }

    /**
     * `get_catalogue`: one template per registered mechanism is appended to
     * the record vector, which is never cleared; the count is reported and
     * the registry frozen for good.
     */
    method GetCatalogue() returns (n: nat, records: seq<PluginRecord>)
      requires Valid()
      modifies this`mechanisms, this`loads, flag
      ensures Valid()
      ensures flag.frozen
      ensures n == |mechs|
      ensures mechanisms == old(mechanisms) + Copies(|mechs|)
      ensures records == mechanisms
      ensures n <= |records| && forall k :: 0 <= k < n ==> records[k] == Template
    {
      var i := 0;
      while i < |mechs|
        invariant 0 <= i <= |mechs|
        invariant mechanisms == old(mechanisms) + Copies(i)
        invariant loads == old(loads)
      {
        mechanisms := mechanisms + [Template];
        i := i + 1;
      }
      n := |mechs|;
      flag.frozen := true;
      loads := loads + 1;
      records := mechanisms;
      ghost var before := old(loads);
      assert loads * n == before * n + n;
      CopiesAppend(before * n, n);
    }

    /**
     * `make_input_type`: after the freeze, the type of the mechanism the
     * counter points at, advancing the counter; fails before the freeze and
     * once every mechanism has been handed out.
     */
    method MakeInputType() returns (r: Result<MechType>)
      requires Valid()
      modifies this`callCounter
      ensures Valid()
      ensures (r, callCounter) == NextType(flag.frozen, TypesOf(mechs), old(callCounter))
      ensures r.Ok? <==> flag.frozen && old(callCounter) < |mechs|
      ensures r.Ok? ==> r.value == TypeOf(mechs[old(callCounter)]) && callCounter == old(callCounter) + 1
      ensures r.Err? ==> callCounter == old(callCounter)
      ensures flag.frozen && old(callCounter) >= |mechs| ==> r == Err(RuntimeError(TooManyCallsMsg))
    {
      var check := FrozenCheckAsWritten(flag.frozen, true);
      if check.Fail? {
        return Err(check.error);
      }
      if callCounter >= |mechs| {
        return Err(RuntimeError(TooManyCallsMsg));
      }
      var m := mechs[callCounter];
      callCounter := callCounter + 1;
      r := Ok(TypeOf(m));
    }

    /**
     * `init`, `advance_state`, `compute_currents`, `write_ions`: find the
     * mechanism at the reversed host id through `vector::at` and call its
     * handler for that stage; `apply_events` and `post_event` do nothing.
     */
    function Resolve(entry: Entry, pp: PPack): (r: Result<Call>)
      reads this, mechs
      ensures !entry.Step? ==> r == Ok(Inert)
      ensures entry.Step? && |mechs| <= IntLimit && pp.mechanismId >= |mechs| ==> r == Err(OutOfRange)
      ensures entry.Step? && |mechs| <= IntLimit && pp.mechanismId < |mechs| ==>
                var slot := |mechs| - pp.mechanismId - 1;
                var h := mechs[slot].HandlerFor(entry.stage);
                r == if h.Some? then Ok(Invoke(slot, h.value, PP(pp, mechs[slot]))) else Err(BadFunctionCall)
      ensures r.Ok? && r.value.Invoke? ==>
                r.value.slot < |mechs| && r.value.ctx == PP(pp, mechs[r.value.slot])
    {
      match entry
      case ApplyEvents => Ok(Inert)
      case PostEvent => Ok(Inert)
      case Step(stage) =>
        SlotIndexInRange(|mechs|, pp.mechanismId);
        var at := ToSize(SlotIndex(|mechs|, pp.mechanismId));
        if at >= |mechs| then Err(OutOfRange)
        else
          match mechs[at].HandlerFor(stage)
          case None => Err(BadFunctionCall)
          case Some(h) => Ok(Invoke(at, h, PP(pp, mechs[at])))
    }

    /**
     * The host id `|mechs| - 1 - k` reaches the mechanism registered k-th,
     * whatever stage is called, and no other id does.
     */
    lemma IdReachesSlot(stage: Stage, pp: PPack, k: nat)
      requires |mechs| <= IntLimit && k < |mechs|
      requires mechs[k].HandlerFor(stage).Some?
      ensures (Resolve(Step(stage), pp).Ok? && Resolve(Step(stage), pp).value.slot == k)
                <==> pp.mechanismId == |mechs| - 1 - k
    {
    }
  }
}
