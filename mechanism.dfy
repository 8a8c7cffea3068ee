/**
 * One user-defined mechanism, `ArbMech` (main.cpp:71-142), with the
 * setters the Python binding adds around it (main.cpp:272-340).
 *
 * The five schema lists and the intern store only ever grow. Every schema
 * string (field names and units, random-variable and ion names) is a
 * position in the intern store, whose earlier entries never change, so a
 * pointer given out stays valid.
 */
module Mechanism {
  import opened Abi
  import opened Lifecycle

  /** A C string as the host reads it: the characters, then one NUL. */
  predicate IsInterned(s: string)
  {
    |s| > 0 && s[|s| - 1] == '\0'
  }

  /**
   * What a C reader sees of a character sequence: everything before the
   * first NUL.
   */
  function CText(s: string): (c: string)
    ensures c <= s && '\0' !in c
    ensures |c| < |s| ==> s[|c|] == '\0'
  {
    if s == [] || s[0] == '\0' then [] else [s[0]] + CText(s[1..])
  }

  /** A string without NUL reads back whole; one with a NUL is cut at the first. */
  lemma CTextWhole(s: string)
    ensures CText(s) == s <==> '\0' !in s
  {
  }

  /** Appending the terminator `intern` adds changes nothing a C reader sees. */
  lemma {:induction false} CTextAppendNul(s: string)
    ensures CText(s + "\0") == CText(s)
  {
    if s != [] && s[0] != '\0' {
      assert (s + "\0")[1..] == s[1..] + "\0";
      CTextAppendNul(s[1..]);
    }
  }

  class Mech {
    var store: seq<string>       // `_intern`
    var name: string
    var kind: Kind
    var isLinear: bool
    var hasPostEvents: bool
    var globals: seq<FieldInfo>
    var ions: seq<IonInfo>
    var stateVars: seq<FieldInfo>
    var parameters: seq<FieldInfo>
    var randomVariables: seq<RandomVariableInfo>
    var initHandler: Option<Handler>
    var advanceStateHandler: Option<Handler>
    var computeCurrentsHandler: Option<Handler>
    var writeIonsHandler: Option<Handler>

    /**
     * Every interned string is NUL-terminated, every schema string points
     * into the store, and the store holds exactly the strings the add_*
     * calls interned: two per global, state variable and parameter, one per
     * random variable and ion.
     */
    ghost predicate Valid()
      reads this
    {
      && (forall k :: 0 <= k < |store| ==> IsInterned(store[k]))
      && (forall f :: f in globals ==> f.name < |store| && f.unit < |store|)
      && (forall f :: f in stateVars ==> f.name < |store| && f.unit < |store|)
      && (forall f :: f in parameters ==> f.name < |store| && f.unit < |store|)
      && (forall v :: v in randomVariables ==> v.name < |store|)
      && (forall i :: i in ions ==> i.name < |store|)
      && |store| == 2 * (|globals| + |stateVars| + |parameters|) + |randomVariables| + |ions|
    }

    /** The characters the host reads behind an interned pointer: up to the first NUL. */
    function Text(ref: CStr): string
      reads this
      requires Valid() && ref < |store|
    {
      CText(store[ref])
    }

    /** The handler attached for a stage, if any. */
    function HandlerFor(stage: Stage): Option<Handler>
      reads this
    {
      match stage
      case Init => initHandler
      case AdvanceState => advanceStateHandler
      case ComputeCurrents => computeCurrentsHandler
      case WriteIons => writeIonsHandler
    }

    constructor ()
      ensures Valid()
      ensures name == "mech" && kind == Density && !isLinear && !hasPostEvents
      ensures store == [] && globals == [] && ions == [] && stateVars == []
      ensures parameters == [] && randomVariables == []
      ensures forall s :: HandlerFor(s) == None
    {
      store := [];
      name := "mech";
      kind := Density;
      isLinear := false;
      hasPostEvents := false;
      globals := [];
      ions := [];
      stateVars := [];
      parameters := [];
      randomVariables := [];
      initHandler := None;
      advanceStateHandler := None;
      computeCurrentsHandler := None;
      writeIonsHandler := None;
    }

    /** `intern`: store a NUL-terminated copy and hand out its position. */
    method Intern(s: string) returns (ref: CStr)
      modifies this`store
      ensures store == old(store) + [s + "\0"]
      ensures ref == |old(store)|
    {
      ref := |store|;
      store := store + [s + "\0"];
    }

    /** The record add_global, add_state and add_parameter build: name and unit interned, in that order. */
    method NewField(name: string, unit: string, defaultValue: Float64) returns (f: FieldInfo)
      modifies this`store
      ensures store == old(store) + [name + "\0", unit + "\0"]
      ensures f == FieldInfo(|old(store)|, |old(store)| + 1, defaultValue, NegDblMax, DblMax)
    {
      var n := Intern(name);
      var u := Intern(unit);
      f := FieldInfo(n, u, defaultValue, NegDblMax, DblMax);
    }

    method AddGlobal(flag: FreezeFlag, name: string, unit: string, defaultValue: Float64) returns (r: Result<nat>)
      requires Valid()
      modifies this`store, this`globals
      ensures Valid()
      ensures r.Ok? <==> !flag.frozen
      ensures r.Err? ==> r.error == RuntimeError(CallBeforeLoadMsg) && store == old(store) && globals == old(globals)
      ensures r.Ok? ==> r.value == |old(globals)| && store == old(store) + [name + "\0", unit + "\0"]
      ensures r.Ok? ==> globals == old(globals) + [FieldInfo(|old(store)|, |old(store)| + 1, defaultValue, NegDblMax, DblMax)]
      ensures r.Ok? ==> Text(globals[r.value].name) == CText(name) && Text(globals[r.value].unit) == CText(unit)
    {
      var check := FrozenCheckAsWritten(flag.frozen, false);
      if check.Fail? {
        return Err(check.error);
      }
      var f := NewField(name, unit, defaultValue);
      globals := globals + [f];
      r := Ok(|globals| - 1);
      assert store[f.name] == name + "\0" && store[f.unit] == unit + "\0";
      CTextAppendNul(name);
      CTextAppendNul(unit);
    }

    method AddState(flag: FreezeFlag, name: string, unit: string, defaultValue: Float64) returns (r: Result<nat>)
      requires Valid()
      modifies this`store, this`stateVars
      ensures Valid()
      ensures r.Ok? <==> !flag.frozen
      ensures r.Err? ==> r.error == RuntimeError(CallBeforeLoadMsg) && store == old(store) && stateVars == old(stateVars)
      ensures r.Ok? ==> r.value == |old(stateVars)| && store == old(store) + [name + "\0", unit + "\0"]
      ensures r.Ok? ==> stateVars == old(stateVars) + [FieldInfo(|old(store)|, |old(store)| + 1, defaultValue, NegDblMax, DblMax)]
      ensures r.Ok? ==> Text(stateVars[r.value].name) == CText(name) && Text(stateVars[r.value].unit) == CText(unit)
    {
      var check := FrozenCheckAsWritten(flag.frozen, false);
      if check.Fail? {
        return Err(check.error);
      }
      var f := NewField(name, unit, defaultValue);
      stateVars := stateVars + [f];
      r := Ok(|stateVars| - 1);
      assert store[f.name] == name + "\0" && store[f.unit] == unit + "\0";
      CTextAppendNul(name);
      CTextAppendNul(unit);
    }

    method AddParameter(flag: FreezeFlag, name: string, unit: string, defaultValue: Float64) returns (r: Result<nat>)
      requires Valid()
      modifies this`store, this`parameters
      ensures Valid()
      ensures r.Ok? <==> !flag.frozen
      ensures r.Err? ==> r.error == RuntimeError(CallBeforeLoadMsg) && store == old(store) && parameters == old(parameters)
      ensures r.Ok? ==> r.value == |old(parameters)| && store == old(store) + [name + "\0", unit + "\0"]
      ensures r.Ok? ==> parameters == old(parameters) + [FieldInfo(|old(store)|, |old(store)| + 1, defaultValue, NegDblMax, DblMax)]
      ensures r.Ok? ==> Text(parameters[r.value].name) == CText(name) && Text(parameters[r.value].unit) == CText(unit)
    {
      var check := FrozenCheckAsWritten(flag.frozen, false);
      if check.Fail? {
        return Err(check.error);
      }
      var f := NewField(name, unit, defaultValue);
      parameters := parameters + [f];
      r := Ok(|parameters| - 1);
      assert store[f.name] == name + "\0" && store[f.unit] == unit + "\0";
      CTextAppendNul(name);
      CTextAppendNul(unit);
    }

    /** add_random: the slot index is cast to the host's 32-bit size type. */
    method AddRandom(flag: FreezeFlag, name: string, index: nat) returns (r: Result<nat>)
      requires Valid()
      modifies this`store, this`randomVariables
      ensures Valid()
      ensures r.Ok? <==> !flag.frozen
      ensures r.Err? ==> r.error == RuntimeError(CallBeforeLoadMsg) && store == old(store) && randomVariables == old(randomVariables)
      ensures r.Ok? ==> r.value == |old(randomVariables)| && store == old(store) + [name + "\0"]
      ensures r.Ok? ==> randomVariables == old(randomVariables) + [RandomVariableInfo(|old(store)|, index % TwoTo32)]
      ensures r.Ok? ==> Text(randomVariables[r.value].name) == CText(name)
    {
      var check := FrozenCheckAsWritten(flag.frozen, false);
      if check.Fail? {
        return Err(check.error);
      }
      var n := Intern(name);
      randomVariables := randomVariables + [RandomVariableInfo(n, index % TwoTo32)];
      r := Ok(|randomVariables| - 1);
      assert store[n] == name + "\0";
      CTextAppendNul(name);
    }

    method AddIon(flag: FreezeFlag, name: string,
                  writeIntConcentration: bool, writeExtConcentration: bool,
                  useDiffConcentration: bool, writeRevPotential: bool,
                  readRevPotential: bool, readValence: bool, verifyValence: bool,
                  expectedValence: int)
      returns (r: Result<nat>)
      requires Valid()
      modifies this`store, this`ions
      ensures Valid()
      ensures r.Ok? <==> !flag.frozen
      ensures r.Err? ==> r.error == RuntimeError(CallBeforeLoadMsg) && store == old(store) && ions == old(ions)
      ensures r.Ok? ==> r.value == |old(ions)| && store == old(store) + [name + "\0"]
      ensures r.Ok? ==> ions == old(ions) + [IonInfo(|old(store)|, writeIntConcentration, writeExtConcentration,
                                                     useDiffConcentration, writeRevPotential, readRevPotential,
                                                     readValence, verifyValence, expectedValence)]
      ensures r.Ok? ==> Text(ions[r.value].name) == CText(name)
    {
      var check := FrozenCheckAsWritten(flag.frozen, false);
      if check.Fail? {
        return Err(check.error);
      }
      var n := Intern(name);
      ions := ions + [IonInfo(n, writeIntConcentration, writeExtConcentration, useDiffConcentration,
                              writeRevPotential, readRevPotential, readValence, verifyValence, expectedValence)];
      r := Ok(|ions| - 1);
      assert store[n] == name + "\0";
      CTextAppendNul(name);
    }

    /** set_name: not guarded by the freeze. */
    method SetName(name: string)
      modifies this`name
      ensures this.name == name
    {
      this.name := name;
    }

    /** set_kind_point as written: after the freeze check it stores the density kind. */
    method SetKindPoint(flag: FreezeFlag) returns (r: Outcome)
      modifies this`kind
      ensures r.Pass? <==> !flag.frozen
      ensures r.Fail? ==> r.error == RuntimeError(CallBeforeLoadMsg) && kind == old(kind)
      ensures r.Pass? ==> kind == Density
    {
      r := FrozenCheckAsWritten(flag.frozen, false);
      if r.Pass? {
        kind := Density;
      }
    }

    /**
     * set_kind_point as its name says: after the freeze check (kept as
     * written) it stores the point kind.
     */
    method SetKindPointIntended(flag: FreezeFlag) returns (r: Outcome)
      modifies this`kind
      ensures r.Pass? <==> !flag.frozen
      ensures r.Fail? ==> r.error == RuntimeError(CallBeforeLoadMsg) && kind == old(kind)
      ensures r.Pass? ==> kind == Point
    {
      r := FrozenCheckAsWritten(flag.frozen, false);
      if r.Pass? {
        kind := Point;
      }
    }

    /**
     * set_init, set_advance_state, set_compute_currents, set_write_ions:
     * not guarded by the freeze; None is an empty std::function.
     */
    method SetHandler(stage: Stage, h: Option<Handler>)
      modifies this`initHandler, this`advanceStateHandler, this`computeCurrentsHandler, this`writeIonsHandler
      ensures forall s :: HandlerFor(s) == if s == stage then h else old(HandlerFor(s))
    {
      match stage
      case Init => initHandler := h;
      case AdvanceState => advanceStateHandler := h;
      case ComputeCurrents => computeCurrentsHandler := h;
      case WriteIons => writeIonsHandler := h;
    }
  }
}
