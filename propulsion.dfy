/** The propulsion subsystem builders
    (aviary/subsystems/propulsion/propulsion_builder.py): their default names,
    the variables they promote in a mission, and the parameters the core
    builder declares. */
module Propulsion {
  import opened Values

  /** Name of a generic propulsion builder when none is given. */
  const DefaultName := "propulsion"
  /** Name of the core propulsion builder when none is given. */
  const CoreDefaultName := "core_propulsion"

  const NumEngines := "aircraft:engine:num_engines"
  const EngineScaleFactor := "aircraft:engine:scale_factor"

  datatype Kind = Base | Core

  /** A propulsion subsystem builder: which class it is and the name it was given. */
  datatype Builder = Builder(kind: Kind, name: string)

  /** `PropulsionBuilderBase(name)`: a missing name becomes `DefaultName`. */
  function NewBase(name: Option<string>): (b: Builder)
    ensures b.kind == Base
    ensures name.Some? ==> b.name == name.value
    ensures name.None? ==> b.name == DefaultName
  {
    Builder(Base, if name.Some? then name.value else DefaultName)
  }

  /** `CorePropulsionBuilder(name, **kwargs)`: a missing name becomes
      `CoreDefaultName`, never the base class's default; extra keyword
      arguments are accepted and ignored. */
  function NewCore(name: Option<string>, kwargs: map<string, Value>): (b: Builder)
    ensures b.kind == Core
    ensures name.Some? ==> b.name == name.value
    ensures name.None? ==> b.name == CoreDefaultName && b.name != DefaultName
  {
    var given := if name.Some? then name.value else CoreDefaultName;
    Builder(Core, NewBase(Some(given)).name)
  }

  /** OpenMDAO-style glob matching of a promotion pattern against a variable
      name: `*` matches any run of characters, every other character itself. */
  predicate Matches(pattern: string, name: string)
    decreases |pattern| + |name|
  {
    if pattern == [] then name == []
    else if pattern[0] == '*' then
      Matches(pattern[1..], name) || (name != [] && Matches(pattern, name[1..]))
    else
      name != [] && pattern[0] == name[0] && Matches(pattern[1..], name[1..])
  }

  /** Whether some pattern of a promotion list matches `name`. */
  predicate Promotes(patterns: seq<string>, name: string) {
    exists p :: p in patterns && Matches(p, name)
  }

  /** `mission_inputs(**kwargs)`: every input of the mission subsystem is promoted. */
  function MissionInputs(b: Builder, kwargs: map<string, Value>): seq<string> {
    ["*"]
  }

  /** `mission_outputs(**kwargs)`: every output of the mission subsystem is promoted. */
  function MissionOutputs(b: Builder, kwargs: map<string, Value>): seq<string> {
    ["*"]
  }

  /** The pattern `*` matches every name. */
  lemma {:induction false} StarMatchesAll(name: string)
    ensures Matches("*", name)
    decreases |name|
  {
    if name == [] {
      assert Matches("", name);
    } else {
      StarMatchesAll(name[1..]);
    }
  }

  /** Whatever builder and keyword arguments, every mission variable is promoted
      both as an input and as an output. */
  lemma MissionPromotesEverything(b: Builder, kwargs: map<string, Value>, name: string)
    ensures Promotes(MissionInputs(b, kwargs), name)
    ensures Promotes(MissionOutputs(b, kwargs), name)
  {
    StarMatchesAll(name);
    assert "*" in MissionInputs(b, kwargs) && "*" in MissionOutputs(b, kwargs);
  }

  /** Metadata of one declared parameter: `{'shape': shape, 'static_target': staticTarget}`. */
  datatype Param = Param(shape: seq<nat>, staticTarget: bool)

  /** The number of engine types: `len` of the stored engine counts; `None` for
      the inputs is an AttributeError, a missing key a KeyError, a value without
      a length a TypeError. */
  function EngineTypeCount(aviaryInputs: Option<AviaryValues>): (r: Result<nat, Error>)
    ensures aviaryInputs.None? ==> r == Failure(AttributeError("get_val"))
    ensures aviaryInputs.Some? && NumEngines !in aviaryInputs.value ==> r == Failure(KeyError(NumEngines))
    ensures aviaryInputs.Some? && NumEngines in aviaryInputs.value ==> r == Len(aviaryInputs.value[NumEngines].value)
  {
    if aviaryInputs.None? then Failure(AttributeError("get_val"))
    else
      var v := GetVal(aviaryInputs.value, NumEngines);
      if v.Failure? then Failure(v.error) else Len(v.value)
  }

  /** The parameters the core builder declares: the engine scale factor alone,
      one value per engine type, a static target. They are declared exactly
      when the inputs hold a sized engine-count value; otherwise the error of
      the count propagates. */
  function Parameters(aviaryInputs: Option<AviaryValues>): (r: Result<map<string, Param>, Error>)
    ensures r.Success? <==>
      (aviaryInputs.Some? && NumEngines in aviaryInputs.value
       && Len(aviaryInputs.value[NumEngines].value).Success?)
    ensures r.Failure? ==> r.error == EngineTypeCount(aviaryInputs).error
    ensures r.Success? ==>
      (r.value.Keys == {EngineScaleFactor}
       && r.value[EngineScaleFactor] == Param([Len(aviaryInputs.value[NumEngines].value).value], true))
  {
    var n := EngineTypeCount(aviaryInputs);
    if n.Failure? then Failure(n.error)
    else Success(map[EngineScaleFactor := Param([n.value], true)])
  }

  /** `CorePropulsionBuilder.get_parameters(aviary_inputs, phase_info)`.
      `engineVariables` stands for the registry listing every engine and
      nacelle variable; the table the loop fills from it is discarded, so
      the result is the same for every registry. The phase information is
      never read and is not a parameter. */
  method GetParameters(b: Builder, aviaryInputs: Option<AviaryValues>, engineVariables: seq<string>)
    returns (r: Result<map<string, Param>, Error>)
    requires b.kind == Core
    ensures r == Parameters(aviaryInputs)
  {
    if aviaryInputs.None? {
      return Failure(AttributeError("get_val"));
    }
    var inputs := aviaryInputs.value;
    var counts := GetVal(inputs, NumEngines);
    if counts.Failure? {
      return Failure(counts.error);
    }
    var numEngineType := Len(counts.value);
    if numEngineType.Failure? {
      return Failure(numEngineType.error);
    }
    var params: map<string, Param> := map[];
    var i := 0;
    while i < |engineVariables|
      invariant 0 <= i <= |engineVariables|
      invariant forall v :: v in params ==> v in inputs && params[v] == Param([numEngineType.value], true)
    {
      var variable := engineVariables[i];
      if variable in inputs {
        params := params[variable := Param([numEngineType.value], true)];
      }
      i := i + 1;
    }
    params := map[];
    params := params[EngineScaleFactor := Param([numEngineType.value], true)];
    return Success(params);
  }
}
