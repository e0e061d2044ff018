/** The default phase table of the two-degree-of-freedom shooting ("SGM") mission:
    one record per flight phase, built from four sub-tables joined by dictionary
    spread-merges (aviary/interface/default_phase_info/two_dof_fiti_copy.py). */
module PhaseTable {
  import opened Values

  /** The SGM phase classes a record points at. */
  datatype Builder =
    | SGMGroundroll | SGMRotation | SGMAscentCombined | SGMAccel
    | SGMClimb | SGMCruise | SGMDescent

  datatype SpeedType = EAS | TAS | MACH

  datatype AlphaMode = RequiredLift | Other

  /** The `ode_args` dictionary handed to every phase; only its `aviary_options`
      entry is read by the modelled code. */
  datatype OdeArgs = OdeArgs(aviaryOptions: Option<AviaryValues>)

  /** A keyword argument of a phase's `kwargs` dictionary. */
  datatype Arg =
    | SpeedTypeArg(speedType: SpeedType)
    | UnitsArg(units: string)
    | AlphaModeArg(alphaMode: AlphaMode)
    | OdeArgsArg(odeArgs: OdeArgs)
    | SimupyArgs(entries: map<string, Value>)

  /** One phase record. `kwargs`, `user_options` and `descent_phase` may be absent. */
  datatype Phase = Phase(
    builder: Builder,
    kwargs: Option<map<string, Arg>>,
    userOptions: Option<map<string, Value>>,
    initialGuesses: map<string, Value>,
    descentPhase: Option<bool>)

  /** One `name: record` item of an insertion-ordered dictionary. */
  datatype Entry = Entry(name: string, info: Phase)

  /** An insertion-ordered dictionary from phase name to phase record, as its items in order. */
  type Table = seq<Entry>

  /** The keys of a table, in order. */
  function Names(t: Table): (ns: seq<string>)
    ensures |ns| == |t|
    ensures forall i :: 0 <= i < |t| ==> ns[i] == t[i].name
  {
    seq(|t|, i requires 0 <= i < |t| => t[i].name)
  }

  /** Every key occurs once, as in a dictionary. */
  ghost predicate Valid(t: Table) {
    forall i, j :: 0 <= i < j < |t| ==> t[i].name != t[j].name
  }

  // Option names used by the modelled code.
  const UserOptionsKey := "user_options"
  const AltTrigger := "alt_trigger"
  const SpeedTrigger := "speed_trigger"
  const MachOption := "mach"
  const EasOption := "EAS"
  /** `Dynamic.Mission.THROTTLE`, spelled as in Aviary's variable registry. */
  const Throttle := "throttle"
  /** `Aircraft.Design.MAX_FUSELAGE_PITCH_ANGLE`, spelled as in Aviary's variable registry. */
  const MaxFuselagePitchAngle := "aircraft:design:max_fuselage_pitch_angle"

  /** The module constants `cruise_alt = 35e3,` and `cruise_mach = .8,`: the trailing
      commas make both of them one-element tuples. */
  const CruiseAlt: Value := Tuple([Num(35000.0)])
  const CruiseMach: Value := Tuple([Num(0.8)])

  /** Validity depends on the keys alone. */
  lemma ValidSameNames(t: Table, t': Table)
    requires Valid(t) && Names(t') == Names(t)
    ensures Valid(t')
  {
    forall i, j | 0 <= i < j < |t'| ensures t'[i].name != t'[j].name {
      assert Names(t')[i] == Names(t)[i] && Names(t')[j] == Names(t)[j];
    }
  }

  /** The position of `name` in the table, if present. */
  function IndexOf(t: Table, name: string): (r: Option<nat>)
    ensures r.Some? ==> r.value < |t| && t[r.value].name == name
    ensures r.None? <==> name !in Names(t)
  {
    if t == [] then None
    else if t[0].name == name then Some(0)
    else
      assert Names(t) == [t[0].name] + Names(t[1..]);
      match IndexOf(t[1..], name)
      case None => None
      case Some(i) => Some(i + 1)
  }

  /** In a valid table the position of a key is the only one holding it. */
  lemma IndexOfUnique(t: Table, name: string, i: nat)
    requires Valid(t) && i < |t| && t[i].name == name
    ensures IndexOf(t, name) == Some(i)
  {
    assert name in Names(t);
  }

  /** `d[name]`, or `None` when the key is absent. */
  function Get(t: Table, name: string): Option<Phase> {
    match IndexOf(t, name)
    case Some(i) => Some(t[i].info)
    case None => None
  }

  /** `d[name] = info`: an existing key keeps its place, a new key goes last. */
  function Put(t: Table, name: string, info: Phase): (r: Table)
    ensures name in Names(t) ==> Names(r) == Names(t)
    ensures name !in Names(t) ==> Names(r) == Names(t) + [name]
    ensures Entry(name, info) in r
    ensures forall j :: 0 <= j < |t| && t[j].name != name ==> r[j] == t[j]
  {
    match IndexOf(t, name)
    case Some(i) => t[i := Entry(name, info)]
    case None => t + [Entry(name, info)]
  }

  /** `{**a, **b}`: the items of `b` are put into `a` one after another, so the
      keys of `a` keep their places, keys only in `b` follow in `b`'s order, and
      on a shared key the record from `b` wins. */
  function Merge(a: Table, b: Table): (r: Table)
    ensures |a| <= |r| && Names(r)[..|a|] == Names(a)
    ensures forall n :: n in Names(r) <==> n in Names(a) || n in Names(b)
    decreases |b|
  {
    if b == [] then a
    else
      assert Names(b) == [b[0].name] + Names(b[1..]);
      Merge(Put(a, b[0].name, b[0].info), b[1..])
  }

  /** Putting an item keeps the keys distinct. */
  lemma PutValid(t: Table, name: string, info: Phase)
    requires Valid(t)
    ensures Valid(Put(t, name, info))
  {
  }

  /** Reading a key after putting one. */
  lemma PutGet(t: Table, name: string, info: Phase, other: string)
    requires Valid(t)
    ensures Get(Put(t, name, info), other) == if other == name then Some(info) else Get(t, other)
  {
    var r := Put(t, name, info);
    PutValid(t, name, info);
    if other == name {
      var i :| 0 <= i < |r| && r[i].name == name && r[i].info == info;
      IndexOfUnique(r, name, i);
    } else {
      match IndexOf(t, other)
      case Some(i) => IndexOfUnique(r, other, i);
      case None =>
        assert other !in Names(r);
    }
  }

  /** A spread-merge of valid tables is valid. */
  lemma {:induction false} MergeValid(a: Table, b: Table)
    requires Valid(a)
    ensures Valid(Merge(a, b))
    decreases |b|
  {
    if b != [] {
      PutValid(a, b[0].name, b[0].info);
      MergeValid(Put(a, b[0].name, b[0].info), b[1..]);
    }
  }

  /** Reading a valid table through its first item. */
  lemma GetFirst(b: Table, name: string)
    requires Valid(b) && b != []
    ensures name in Names(b) <==> name == b[0].name || name in Names(b[1..])
    ensures Get(b, name) == if name == b[0].name then Some(b[0].info) else Get(b[1..], name)
  {
    assert Names(b) == [b[0].name] + Names(b[1..]);
    if name != b[0].name {
      match IndexOf(b[1..], name)
      case Some(i) => IndexOfUnique(b, name, i + 1);
      case None =>
    }
  }

  /** The spread-merge drops no key, and a key of `b` reads as in `b`, any other as in `a`. */
  lemma {:induction false} MergeGet(a: Table, b: Table, name: string)
    requires Valid(a) && Valid(b)
    ensures Get(Merge(a, b), name) == if name in Names(b) then Get(b, name) else Get(a, name)
    decreases |b|
  {
    if b != [] {
      PutValid(a, b[0].name, b[0].info);
      MergeGet(Put(a, b[0].name, b[0].info), b[1..], name);
      PutGet(a, b[0].name, b[0].info, name);
      GetFirst(b, name);
    }
  }

  /** A key that is not yet present is appended. */
  lemma PutNew(a: Table, e: Entry)
    requires e.name !in Names(a)
    ensures Put(a, e.name, e.info) == a + [e]
  {
  }

  /** Moving the first item of `b` to the end of `a` keeps the two key lists disjoint. */
  lemma ShiftDisjoint(a: Table, b: Table)
    requires Valid(b) && b != []
    requires forall n :: n in Names(a) ==> n !in Names(b)
    ensures b[0].name !in Names(a) && Valid(b[1..])
    ensures forall n :: n in Names(a + [b[0]]) ==> n !in Names(b[1..])
  {
    assert Names(b) == [b[0].name] + Names(b[1..]);
    assert Names(a + [b[0]]) == Names(a) + [b[0].name];
  }

  /** Appending an item with a new key keeps the keys distinct. */
  lemma AppendValid(a: Table, e: Entry)
    requires Valid(a) && e.name !in Names(a)
    ensures Valid(a + [e])
  {
  }

  /** Moving the first element of `b` to the end of `a` keeps the concatenation. */
  lemma ShiftConcat<T>(a: seq<T>, b: seq<T>)
    requires b != []
    ensures a + [b[0]] + b[1..] == a + b
  {
    assert b == [b[0]] + b[1..];
  }

  /** When the keys are disjoint the spread-merge is a plain concatenation: both
      orders are kept and no record is dropped or replaced. */
  lemma {:induction false} MergeDisjoint(a: Table, b: Table)
    requires Valid(a) && Valid(b)
    requires forall n :: n in Names(a) ==> n !in Names(b)
    ensures Merge(a, b) == a + b
    ensures Valid(a + b)
    decreases |b|
  {
    if b == [] {
      assert a + b == a;
    } else {
      var a' := a + [b[0]];
      ShiftDisjoint(a, b);
      PutNew(a, b[0]);
      AppendValid(a, b[0]);
      MergeDisjoint(a', b[1..]);
      ShiftConcat(a, b);
    }
  }

  // The four sub-tables of the module, and their merge.

  function Groundroll(): Phase {
    Phase(SGMGroundroll, None,
      Some(map["attr:VR_value" := Pair(Text("SGMGroundroll_velocity_trigger"), "kn")]),
      map[], None)
  }

  function Rotation(): Phase {
    Phase(SGMRotation, None, Some(map[]), map[], None)
  }

  function Ascent(): Phase {
    Phase(SGMAscentCombined, None,
      Some(map[
        "t_init_gear" := Pair(Num(10000.0), "s"),
        "t_init_flaps" := Pair(Num(10000.0), "s"),
        "dt_gear" := Pair(Num(7.0), "s"),
        "dt_flaps" := Pair(Num(3.0), "s"),
        "rotation.start_rotation" := Pair(Num(10000.0), "s"),
        "attr:fuselage_angle_max" := Pair(Text(MaxFuselagePitchAngle), "deg")]),
      map[], None)
  }

  function Accel(): Phase {
    Phase(SGMAccel, None, Some(map[]), map[], None)
  }

  function TakeoffPhases(): Table {
    [Entry("groundroll", Groundroll()), Entry("rotation", Rotation()), Entry("ascent", Ascent()), Entry("accel", Accel())]
  }

  /** `input_speed_type`, `input_speed_units` and `speed_trigger_units` keyword arguments. */
  function SpeedKwargs(speedType: SpeedType, inputUnits: string, triggerUnits: string): map<string, Arg>
  {
    map[
      "input_speed_type" := SpeedTypeArg(speedType),
      "input_speed_units" := UnitsArg(inputUnits),
      "speed_trigger_units" := UnitsArg(triggerUnits)]
  }

  function Climb1(): Phase {
    Phase(SGMClimb, Some(SpeedKwargs(EAS, "kn", "unitless")),
      Some(map[
        AltTrigger := Pair(Num(10000.0), "ft"),
        EasOption := Pair(Num(250.0), "kn"),
        SpeedTrigger := Pair(CruiseMach, "unitless")]),
      map[], None)
  }

  function Climb2(): Phase {
    Phase(SGMClimb, Some(SpeedKwargs(EAS, "kn", "unitless")),
      Some(map[
        AltTrigger := Pair(CruiseAlt, "ft"),
        EasOption := Pair(Num(270.0), "kn"),
        SpeedTrigger := Pair(CruiseMach, "unitless")]),
      map[], None)
  }

  function Climb3(): Phase {
    Phase(SGMClimb, Some(SpeedKwargs(MACH, "unitless", "kn")),
      Some(map[
        AltTrigger := Pair(CruiseAlt, "ft"),
        MachOption := Pair(CruiseMach, "unitless"),
        SpeedTrigger := Pair(Num(0.0), "kn")]),
      map[], None)
  }

  function ClimbPhases(): Table {
    [Entry("climb1", Climb1()), Entry("climb2", Climb2()), Entry("climb3", Climb3())]
  }

  /** `ascent_phases = {**takeoff_phases, **climb_phases}`. */
  function AscentPhases(): Table {
    Merge(TakeoffPhases(), ClimbPhases())
  }

  function Cruise(): Phase {
    Phase(SGMCruise,
      Some(map[
        "input_speed_type" := SpeedTypeArg(MACH),
        "input_speed_units" := UnitsArg("unitless"),
        "alpha_mode" := AlphaModeArg(RequiredLift)]),
      Some(map[MachOption := Pair(CruiseMach, "unitless")]),
      map[], None)
  }

  function CruisePhase(): Table {
    [Entry("cruise", Cruise())]
  }

  function Desc1(): Phase {
    Phase(SGMDescent, Some(SpeedKwargs(MACH, "unitless", "kn")),
      Some(map[
        AltTrigger := Pair(Num(10000.0), "ft"),
        MachOption := Pair(CruiseMach, "unitless"),
        SpeedTrigger := Pair(Num(350.0), "kn"),
        Throttle := Pair(Num(0.0), "unitless")]),
      map[], Some(true))
  }

  function Desc2(): Phase {
    Phase(SGMDescent, Some(SpeedKwargs(EAS, "kn", "kn")),
      Some(map[
        AltTrigger := Pair(Num(10000.0), "ft"),
        EasOption := Pair(Num(350.0), "kn"),
        SpeedTrigger := Pair(Num(0.0), "kn"),
        Throttle := Pair(Num(0.0), "unitless")]),
      map[], Some(true))
  }

  function Desc3(): Phase {
    Phase(SGMDescent, Some(SpeedKwargs(EAS, "kn", "kn")),
      Some(map[
        AltTrigger := Pair(Num(1000.0), "ft"),
        EasOption := Pair(Num(250.0), "kn"),
        SpeedTrigger := Pair(Num(0.0), "kn"),
        Throttle := Pair(Num(0.0), "unitless")]),
      map[], Some(true))
  }

  function DescentPhases(): Table {
    [Entry("desc1", Desc1()), Entry("desc2", Desc2()), Entry("desc3", Desc3())]
  }

  /** The module-level `phase_info`: `{**ascent_phases, **cruise_phase, **descent_phases}`. */
  function DefaultPhaseInfo(): Table {
    Merge(Merge(AscentPhases(), CruisePhase()), DescentPhases())
  }

  const DefaultOrder: seq<string> :=
    ["groundroll", "rotation", "ascent", "accel", "climb1", "climb2", "climb3",
     "cruise", "desc1", "desc2", "desc3"]

  lemma NamesConcat(a: Table, b: Table)
    ensures Names(a + b) == Names(a) + Names(b)
  {
  }

  /** Distinct keys, read off the key list. */
  lemma ValidByNames(t: Table)
    requires forall i, j :: 0 <= i < j < |t| ==> Names(t)[i] != Names(t)[j]
    ensures Valid(t)
  {
    forall i, j | 0 <= i < j < |t| ensures t[i].name != t[j].name {
      assert Names(t)[i] != Names(t)[j];
    }
  }

  /** The facts about the four literal orders that the merges need. */
  lemma LiteralOrders(takeoff: seq<string>, climb: seq<string>, cruise: seq<string>, descent: seq<string>)
    requires takeoff == ["groundroll", "rotation", "ascent", "accel"]
    requires climb == ["climb1", "climb2", "climb3"]
    requires cruise == ["cruise"]
    requires descent == ["desc1", "desc2", "desc3"]
    ensures forall i, j :: 0 <= i < j < |takeoff| ==> takeoff[i] != takeoff[j]
    ensures forall i, j :: 0 <= i < j < |climb| ==> climb[i] != climb[j]
    ensures forall i, j :: 0 <= i < j < |descent| ==> descent[i] != descent[j]
    ensures forall n :: n in takeoff ==> n !in climb
    ensures forall n :: n in takeoff + climb ==> n !in cruise
    ensures forall n :: n in takeoff + climb + cruise ==> n !in descent
    ensures takeoff + climb + cruise + descent == DefaultOrder
    ensures forall i, j :: 0 <= i < j < |DefaultOrder| ==> DefaultOrder[i] != DefaultOrder[j]
  {
  }

  /** Merging four tables whose keys are the four literal orders of the module. */
  lemma {:induction false} MergeFour(takeoff: Table, climb: Table, cruise: Table, descent: Table)
    requires Names(takeoff) == ["groundroll", "rotation", "ascent", "accel"]
    requires Names(climb) == ["climb1", "climb2", "climb3"]
    requires Names(cruise) == ["cruise"]
    requires Names(descent) == ["desc1", "desc2", "desc3"]
    ensures Merge(Merge(Merge(takeoff, climb), cruise), descent) == takeoff + climb + cruise + descent
    ensures Names(takeoff + climb + cruise + descent) == DefaultOrder
    ensures Valid(takeoff + climb + cruise + descent)
  {
    LiteralOrders(Names(takeoff), Names(climb), Names(cruise), Names(descent));
    ValidByNames(takeoff);
    ValidByNames(climb);
    ValidByNames(cruise);
    ValidByNames(descent);
    NamesConcat(takeoff, climb);
    NamesConcat(takeoff + climb, cruise);
    NamesConcat(takeoff + climb + cruise, descent);
    MergeDisjoint(takeoff, climb);
    MergeDisjoint(takeoff + climb, cruise);
    MergeDisjoint(takeoff + climb + cruise, descent);
  }

  lemma SubTables()
    ensures Names(TakeoffPhases()) == ["groundroll", "rotation", "ascent", "accel"]
    ensures Names(ClimbPhases()) == ["climb1", "climb2", "climb3"]
    ensures Names(CruisePhase()) == ["cruise"]
    ensures Names(DescentPhases()) == ["desc1", "desc2", "desc3"]
  {
  }

  /** The sub-tables share no key, so the default table is their concatenation:
      all eleven phases, in the order they are written, each key once. */
  lemma DefaultPhaseInfoIsConcatenation()
    ensures DefaultPhaseInfo() == TakeoffPhases() + ClimbPhases() + CruisePhase() + DescentPhases()
    ensures Names(DefaultPhaseInfo()) == DefaultOrder
    ensures Valid(DefaultPhaseInfo())
  {
    SubTables();
    MergeFour(TakeoffPhases(), ClimbPhases(), CruisePhase(), DescentPhases());
  }

  /** The concatenation of the four sub-tables, item by item. */
  lemma ConcatenationItems(t: Table)
    requires t == TakeoffPhases() + ClimbPhases() + CruisePhase() + DescentPhases()
    ensures t ==
      [Entry("groundroll", Groundroll()), Entry("rotation", Rotation()), Entry("ascent", Ascent()),
       Entry("accel", Accel()), Entry("climb1", Climb1()), Entry("climb2", Climb2()),
       Entry("climb3", Climb3()), Entry("cruise", Cruise()), Entry("desc1", Desc1()),
       Entry("desc2", Desc2()), Entry("desc3", Desc3())]
  {
  }

  /** A descent record: flagged, with the throttle option `(0, 'unitless')`. */
  ghost predicate IsDescentRecord(p: Phase) {
    && p.descentPhase == Some(true)
    && p.userOptions.Some?
    && Throttle in p.userOptions.value
    && p.userOptions.value[Throttle] == Pair(Num(0.0), "unitless")
  }

  lemma NonDescentRecords()
    ensures Groundroll().descentPhase.None? && Rotation().descentPhase.None?
    ensures Ascent().descentPhase.None? && Accel().descentPhase.None?
    ensures Climb1().descentPhase.None? && Climb2().descentPhase.None?
    ensures Climb3().descentPhase.None? && Cruise().descentPhase.None?
  {
  }

  lemma DescentRecords()
    ensures IsDescentRecord(Desc1()) && IsDescentRecord(Desc2()) && IsDescentRecord(Desc3())
  {
  }

  /** The descent flags of a table laid out like the default one, given its records. */
  lemma FlagsByPosition(t: Table, g: Phase, r: Phase, a: Phase, ac: Phase, c1: Phase, c2: Phase, c3: Phase,
                        cr: Phase, d1: Phase, d2: Phase, d3: Phase)
    requires t ==
      [Entry("groundroll", g), Entry("rotation", r), Entry("ascent", a), Entry("accel", ac),
       Entry("climb1", c1), Entry("climb2", c2), Entry("climb3", c3), Entry("cruise", cr),
       Entry("desc1", d1), Entry("desc2", d2), Entry("desc3", d3)]
    requires g.descentPhase.None? && r.descentPhase.None? && a.descentPhase.None? && ac.descentPhase.None?
    requires c1.descentPhase.None? && c2.descentPhase.None? && c3.descentPhase.None? && cr.descentPhase.None?
    requires IsDescentRecord(d1) && IsDescentRecord(d2) && IsDescentRecord(d3)
    ensures forall i :: 0 <= i < |t| ==>
      (t[i].info.descentPhase == Some(true) <==> t[i].name in {"desc1", "desc2", "desc3"})
    ensures forall i :: 0 <= i < |t| && t[i].name !in {"desc1", "desc2", "desc3"} ==> t[i].info.descentPhase.None?
    ensures forall i :: 0 <= i < |t| && t[i].name in {"desc1", "desc2", "desc3"} ==> IsDescentRecord(t[i].info)
  {
  }

  /** Exactly the three descent phases carry `descent_phase: True`, each with a
      throttle option of `(0, 'unitless')`; no other phase has the flag. */
  lemma DescentPhasesFlagged()
    ensures forall i :: 0 <= i < |DefaultPhaseInfo()| ==>
      (DefaultPhaseInfo()[i].info.descentPhase == Some(true) <==> DefaultPhaseInfo()[i].name in {"desc1", "desc2", "desc3"})
    ensures forall i :: 0 <= i < |DefaultPhaseInfo()| && DefaultPhaseInfo()[i].name !in {"desc1", "desc2", "desc3"} ==>
      DefaultPhaseInfo()[i].info.descentPhase.None?
    ensures forall i :: 0 <= i < |DefaultPhaseInfo()| && DefaultPhaseInfo()[i].name in {"desc1", "desc2", "desc3"} ==>
      IsDescentRecord(DefaultPhaseInfo()[i].info)
  {
    var t := DefaultPhaseInfo();
    DefaultPhaseInfoIsConcatenation();
    ConcatenationItems(t);
    NonDescentRecords();
    DescentRecords();
    FlagsByPosition(t, Groundroll(), Rotation(), Ascent(), Accel(), Climb1(), Climb2(), Climb3(),
      Cruise(), Desc1(), Desc2(), Desc3());
  }

  /** Looking up the key at a known position of a valid table. */
  lemma GetAt(t: Table, i: nat, name: string)
    requires Valid(t) && i < |t| && t[i].name == name
    ensures Get(t, name) == Some(t[i].info)
  {
    IndexOfUnique(t, name, i);
  }

  /** The records found under `climb2` and `cruise` in a table laid out like the default one. */
  lemma LookupsByPosition(t: Table, g: Phase, r: Phase, a: Phase, ac: Phase, c1: Phase, c2: Phase, c3: Phase,
                          cr: Phase, d1: Phase, d2: Phase, d3: Phase)
    requires Valid(t)
    requires t ==
      [Entry("groundroll", g), Entry("rotation", r), Entry("ascent", a), Entry("accel", ac),
       Entry("climb1", c1), Entry("climb2", c2), Entry("climb3", c3), Entry("cruise", cr),
       Entry("desc1", d1), Entry("desc2", d2), Entry("desc3", d3)]
    ensures Get(t, "climb2") == Some(c2) && Get(t, "cruise") == Some(cr)
  {
    GetAt(t, 5, "climb2");
    GetAt(t, 7, "cruise");
  }

  /** Because of the trailing commas, the default Mach and altitude options hold
      one-element tuples rather than numbers. */
  lemma OneTupleRecords()
    ensures Climb2().userOptions.Some? && Cruise().userOptions.Some?
    ensures AltTrigger in Climb2().userOptions.value && SpeedTrigger in Climb2().userOptions.value
    ensures MachOption in Cruise().userOptions.value
    ensures Climb2().userOptions.value[AltTrigger] == Pair(Tuple([Num(35000.0)]), "ft")
    ensures Climb2().userOptions.value[SpeedTrigger] == Pair(Tuple([Num(0.8)]), "unitless")
    ensures Cruise().userOptions.value[MachOption] == Pair(Tuple([Num(0.8)]), "unitless")
  {
  }

  /** In the default table, `climb2` and `cruise` hold those records. */
  lemma DefaultCruiseValuesAreOneTuples()
    ensures Get(DefaultPhaseInfo(), "climb2") == Some(Climb2())
    ensures Get(DefaultPhaseInfo(), "cruise") == Some(Cruise())
  {
    var t := DefaultPhaseInfo();
    DefaultPhaseInfoIsConcatenation();
    ConcatenationItems(t);
    LookupsByPosition(t, Groundroll(), Rotation(), Ascent(), Accel(), Climb1(), Climb2(), Climb3(),
      Cruise(), Desc1(), Desc2(), Desc3());
  }
}
