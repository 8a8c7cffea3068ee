/**
 * Clients of the registry, in the order the Python glue and the host use
 * it: schema edits and registration, catalogue load, one type export per
 * mechanism, then step calls. Everything asserted here follows from the
 * contracts alone.
 */
module Scenario {
  import opened Abi
  import opened Lifecycle
  import opened Mechanism
  import opened Views
  import opened Dispatch
  import opened Exporter
  import opened PluginRegistry

  /** Schema edits on a fresh mechanism while the registry is open. */
  method BuildWhileOpen()
  {
    var reg := new Registry();
    var a := new Mech();
    var x := a.AddState(reg.flag, "x", "mV", Zero);
    var y := a.AddState(reg.flag, "y", "mV", Zero);
    assert x == Ok(0) && y == Ok(1);
    var ca := a.AddIon(reg.flag, "ca", true, false, false, false, true, false, true, 2);
    assert ca == Ok(0) && |a.store| == 5;
    var ok := reg.Register(a);
    assert ok.Pass? && reg.mechs == [a];
  }

  /** Loading the catalogue closes every mutator, with the source's message. */
  method LoadThenLate(reg: Registry, a: Mech, b: Mech)
    requires reg.Valid() && !reg.flag.frozen && reg.mechs == [a, b]
    requires a.Valid() && |a.stateVars| == 2
    modifies reg, reg.flag, a
  {
    var n, records := reg.GetCatalogue();
    assert n == 2 && records == [Template, Template];
    var late := a.AddState(reg.flag, "z", "mV", Zero);
    assert late == Err(RuntimeError(CallBeforeLoadMsg)) && |a.stateVars| == 2;
    var ok := reg.Register(b);
    assert ok.Fail? && reg.mechs == [a, b];
  }

  /** The host's export loop over two mechanisms: one type each, in registration order, then a failure. */
  method ExportTwo(reg: Registry, a: Mech, b: Mech)
    requires reg.Valid() && reg.flag.frozen && reg.callCounter == 0 && reg.mechs == [a, b]
    modifies reg
  {
    var t0 := reg.MakeInputType();
    assert t0 == Ok(TypeOf(a));
    var t1 := reg.MakeInputType();
    assert t1 == Ok(TypeOf(b));
    var t2 := reg.MakeInputType();
    assert t2 == Err(RuntimeError(TooManyCallsMsg));
  }

  /** Host id 1 of two is the mechanism registered first; its state views are `width` long. */
  method StepCalls(reg: Registry, a: Mech, b: Mech)
    requires reg.mechs == [a, b] && |a.stateVars| == 2
    requires a.HandlerFor(ComputeCurrents) == Some(Handler(7)) && a.HandlerFor(Init) == None
  {
    var pp := PPack(5, 1, Live, Live, Live, Live, Live, Live, Live,
                    Table([Live, Live]), NullTable, NullTable, NullIons);
    var call := reg.Resolve(Step(ComputeCurrents), pp);
    assert call == Ok(Invoke(0, Handler(7), PP(pp, a)));
    assert State(PP(pp, a), 1) == Ok(View(5, false));
    assert State(PP(pp, a), 2) == Err(RuntimeError(StateRangeMsg));
    assert Param(PP(pp, a), 0) == Err(RuntimeError(EmptyParamMsg));
    var other := reg.Resolve(Step(Init), pp);
    assert other == Err(BadFunctionCall);
    var stray := reg.Resolve(Step(Init), pp.(mechanismId := 2));
    assert stray == Err(OutOfRange);
    var inert := reg.Resolve(ApplyEvents, pp);
    assert inert == Ok(Inert);
  }
}
