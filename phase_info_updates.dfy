/** The two functions of aviary/interface/default_phase_info/two_dof_fiti_copy.py
    that change a phase table: `phase_info_parameterization`, which writes the
    design cruise altitude and Mach number into the user options of five phases,
    and `add_default_sgm_args`, which gives every phase its `ode_args` and
    `simupy_args` keyword arguments. Both change the table in place; the class
    `PhaseInfo` holds the table, and the functions here specify its methods. */
module PhaseInfoUpdates {
  import opened Values
  import opened PhaseTable

  // Hierarchical names of the design inputs read by the parameterization.
  const DesignRange := "mission:design:range"
  const DesignCruiseAltitude := "mission:design:cruise_altitude"
  const DesignGrossMass := "mission:design:gross_mass"
  const DesignMach := "mission:design:mach"

  // Keyword-argument names added by `add_default_sgm_args`.
  const OdeArgsKey := "ode_args"
  const SimupyArgsKey := "simupy_args"
  const AviaryOptionsKey := "aviary_options"
  const VerbosityKey := "verbosity"

  /** The state a table is left in by an operation that may stop with an
      exception: the (possibly partly updated) table and the exception, if any. */
  datatype Outcome = Outcome(phases: Table, error: Option<Error>)

  // ---------------------------------------------------------------------------
  // phase_info_parameterization
  // ---------------------------------------------------------------------------

  /** The assignment `phase_info[phase]['user_options'][option] = value`. */
  datatype OptionWrite = OptionWrite(phase: string, option: string, value: Value)

  /** The phase exists and has a `user_options` dictionary, so a write to it succeeds. */
  predicate Writable(t: Table, phase: string) {
    match IndexOf(t, phase)
    case None => false
    case Some(i) => t[i].info.userOptions.Some?
  }

  /** One option write. A missing phase raises `KeyError(phase)`, a phase without
      user options raises `KeyError('user_options')`; otherwise the option is set
      (added or replaced) in that phase. */
  function WriteOption(t: Table, w: OptionWrite): (r: Result<Table, Error>)
    ensures r.Success? <==> Writable(t, w.phase)
    ensures w.phase !in Names(t) ==> r == Failure(KeyError(w.phase))
    ensures w.phase in Names(t) && !Writable(t, w.phase) ==> r == Failure(KeyError(UserOptionsKey))
  {
    match IndexOf(t, w.phase)
    case None => Failure(KeyError(w.phase))
    case Some(i) =>
      match t[i].info.userOptions
      case None => Failure(KeyError(UserOptionsKey))
      case Some(options) => Success(t[i := Entry(w.phase, t[i].info.(userOptions := Some(options[w.option := w.value])))])
  }

  /** A successful write keeps the keys and their order, sets the option in the
      written phase, and changes nothing else. */
  lemma WriteOptionEffect(t: Table, w: OptionWrite)
    requires Valid(t) && WriteOption(t, w).Success?
    ensures |WriteOption(t, w).value| == |t| && Names(WriteOption(t, w).value) == Names(t)
    ensures forall j :: 0 <= j < |t| && t[j].name != w.phase ==> WriteOption(t, w).value[j] == t[j]
    ensures forall j :: 0 <= j < |t| && t[j].name == w.phase ==>
      WriteOption(t, w).value[j] == Entry(w.phase, t[j].info.(userOptions := Some(t[j].info.userOptions.value[w.option := w.value])))
  {
    var i := IndexOf(t, w.phase).value;
    assert Names(WriteOption(t, w).value) == Names(t);
    assert forall j :: 0 <= j < |t| && t[j].name == w.phase ==> j == i;
  }

  /** The table and exception left by one write. */
  function WriteOutcome(t: Table, w: OptionWrite): Outcome {
    match WriteOption(t, w)
    case Success(t') => Outcome(t', None)
    case Failure(e) => Outcome(t, Some(e))
  }

  /** A sequence of option writes in order, stopping at the first exception with
      the earlier writes already made. */
  function ApplyWrites(t: Table, ws: seq<OptionWrite>): Outcome
    decreases |ws|
  {
    if ws == [] then Outcome(t, None)
    else
      match WriteOption(t, ws[0])
      case Failure(e) => Outcome(t, Some(e))
      case Success(t') => ApplyWrites(t', ws[1..])
  }

  /** `ApplyWrites` on a suffix of the writes, one step unfolded. */
  lemma ApplyWritesStep(t: Table, ws: seq<OptionWrite>, k: nat)
    requires k < |ws|
    ensures WriteOutcome(t, ws[k]).error.Some? ==> ApplyWrites(t, ws[k..]) == WriteOutcome(t, ws[k])
    ensures WriteOutcome(t, ws[k]).error.None? ==> ApplyWrites(t, ws[k..]) == ApplyWrites(WriteOutcome(t, ws[k]).phases, ws[k + 1..])
  {
    assert ws[k..][0] == ws[k] && ws[k..][1..] == ws[k + 1..];
  }

  /** The seven writes of the parameterization, in the order of the source. */
  function DesignWrites(alt: Value, mach: Value): seq<OptionWrite> {
    [ OptionWrite("climb1", SpeedTrigger, mach),
      OptionWrite("climb2", AltTrigger, alt),
      OptionWrite("climb2", SpeedTrigger, mach),
      OptionWrite("climb3", AltTrigger, alt),
      OptionWrite("climb3", MachOption, mach),
      OptionWrite("cruise", MachOption, mach),
      OptionWrite("desc1", MachOption, mach) ]
  }

  /** `phase_info_parameterization` once the design inputs are fetched: `alt` and
      `mach` are the `(value, units)` pairs `get_item` returns for the cruise
      altitude and Mach number (`(None, None)` when absent; `get_item` never
      raises). The range and gross mass are fetched too but never used, so they
      do not appear here. */
  function Parameterized(t: Table, alt: Value, mach: Value): Outcome {
    ApplyWrites(t, DesignWrites(alt, mach))
  }

  /** Reference definition of a successful parameterization, phase by phase:
      the options each target phase receives. */
  function DesignUpdate(e: Entry, alt: Value, mach: Value): Entry {
    match e.info.userOptions
    case None => e
    case Some(o) =>
      if e.name == "climb1" then Entry(e.name, e.info.(userOptions := Some(o[SpeedTrigger := mach])))
      else if e.name == "climb2" then Entry(e.name, e.info.(userOptions := Some(o[AltTrigger := alt][SpeedTrigger := mach])))
      else if e.name == "climb3" then Entry(e.name, e.info.(userOptions := Some(o[AltTrigger := alt][MachOption := mach])))
      else if e.name == "cruise" then Entry(e.name, e.info.(userOptions := Some(o[MachOption := mach])))
      else if e.name == "desc1" then Entry(e.name, e.info.(userOptions := Some(o[MachOption := mach])))
      else e
  }

  /** Reference definition of the exception of a write sequence, read off the
      table before any write: the first write whose phase is missing or has no
      user options decides it. */
  function FirstFailure(t: Table, ws: seq<OptionWrite>): Option<Error>
    decreases |ws|
  {
    if ws == [] then None
    else if ws[0].phase !in Names(t) then Some(KeyError(ws[0].phase))
    else if !Writable(t, ws[0].phase) then Some(KeyError(UserOptionsKey))
    else FirstFailure(t, ws[1..])
  }

  /** A successful write changes neither the keys nor which phases are writable. */
  lemma WritePreserves(t: Table, w: OptionWrite, phase: string)
    requires Valid(t) && WriteOption(t, w).Success?
    ensures Valid(WriteOption(t, w).value)
    ensures Writable(WriteOption(t, w).value, phase) <==> Writable(t, phase)
  {
    var r := WriteOption(t, w).value;
    WriteOptionEffect(t, w);
    assert Valid(r) by {
      forall i, j | 0 <= i < j < |r| ensures r[i].name != r[j].name {
        assert Names(r)[i] == Names(t)[i] && Names(r)[j] == Names(t)[j];
      }
    }
    match IndexOf(t, phase)
    case None =>
      assert phase !in Names(r);
    case Some(i) =>
      IndexOfUnique(r, phase, i);
  }

  /** The exception of a write sequence is the one read off the original table:
      writes never make a later write fail or succeed. */
  lemma {:induction false} ApplyWritesError(t: Table, ws: seq<OptionWrite>)
    requires Valid(t)
    ensures ApplyWrites(t, ws).error == FirstFailure(t, ws)
    ensures Names(ApplyWrites(t, ws).phases) == Names(t)
    ensures Valid(ApplyWrites(t, ws).phases)
    ensures forall phase :: Writable(ApplyWrites(t, ws).phases, phase) <==> Writable(t, phase)
    decreases |ws|
  {
    if ws != [] {
      match WriteOption(t, ws[0])
      case Failure(e) =>
      case Success(t') =>
        WritePreserves(t, ws[0], ws[0].phase);
        forall phase ensures Writable(t', phase) <==> Writable(t, phase) {
          WritePreserves(t, ws[0], phase);
        }
        ApplyWritesError(t', ws[1..]);
        FirstFailureWritable(t, t', ws[1..]);
    }
  }

  /** Two tables with the same keys and the same writable phases fail alike. */
  lemma {:induction false} FirstFailureWritable(t: Table, t': Table, ws: seq<OptionWrite>)
    requires Names(t) == Names(t')
    requires forall phase :: Writable(t', phase) <==> Writable(t, phase)
    ensures FirstFailure(t, ws) == FirstFailure(t', ws)
    decreases |ws|
  {
    if ws != [] {
      FirstFailureWritable(t, t', ws[1..]);
    }
  }

  /** All five target phases exist and have user options. */
  predicate TargetsWritable(t: Table) {
    Writable(t, "climb1") && Writable(t, "climb2") && Writable(t, "climb3")
    && Writable(t, "cruise") && Writable(t, "desc1")
  }

  /** Seven writes raise nothing exactly when each of their phases is writable. */
  lemma FirstFailureSeven(t: Table, ws: seq<OptionWrite>)
    requires |ws| == 7
    ensures FirstFailure(t, ws).None? <==>
      Writable(t, ws[0].phase) && Writable(t, ws[1].phase) && Writable(t, ws[2].phase) && Writable(t, ws[3].phase)
      && Writable(t, ws[4].phase) && Writable(t, ws[5].phase) && Writable(t, ws[6].phase)
  {
    assert ws[0..] == ws && ws[7..] == [];
    FirstFailureStep(t, ws, 0);
    FirstFailureStep(t, ws, 1);
    FirstFailureStep(t, ws, 2);
    FirstFailureStep(t, ws, 3);
    FirstFailureStep(t, ws, 4);
    FirstFailureStep(t, ws, 5);
    FirstFailureStep(t, ws, 6);
  }

  /** `FirstFailure` on a suffix of the writes, one step unfolded. */
  lemma FirstFailureStep(t: Table, ws: seq<OptionWrite>, k: nat)
    requires k < |ws|
    ensures FirstFailure(t, ws[k..]).None? <==> Writable(t, ws[k].phase) && FirstFailure(t, ws[k + 1..]).None?
  {
    assert ws[k..][0] == ws[k] && ws[k..][1..] == ws[k + 1..];
  }

  /** The parameterization raises exactly when one of the five target phases is
      missing or has no user options, and the exception names the first such
      phase (in write order) or `'user_options'`; the keys never change. */
  lemma ParameterizedError(t: Table, alt: Value, mach: Value)
    requires Valid(t)
    ensures Parameterized(t, alt, mach).error.None? <==> TargetsWritable(t)
    ensures Parameterized(t, alt, mach).error == FirstFailure(t, DesignWrites(alt, mach))
    ensures Names(Parameterized(t, alt, mach).phases) == Names(t)
  {
    ApplyWritesError(t, DesignWrites(alt, mach));
    FirstFailureSeven(t, DesignWrites(alt, mach));
  }

  /** The effect of one write on one item. */
  function WriteEntry(e: Entry, w: OptionWrite): Entry {
    if w.phase == e.name && e.info.userOptions.Some? then
      Entry(e.name, e.info.(userOptions := Some(e.info.userOptions.value[w.option := w.value])))
    else e
  }

  /** The effect of a write sequence on one item, taken on its own. */
  function EntryAfter(e: Entry, ws: seq<OptionWrite>): Entry
    decreases |ws|
  {
    if ws == [] then e else EntryAfter(WriteEntry(e, ws[0]), ws[1..])
  }

  /** A write sequence that raises nothing acts on every item separately. */
  lemma {:induction false} ApplyWritesEffect(t: Table, ws: seq<OptionWrite>)
    requires Valid(t) && ApplyWrites(t, ws).error.None?
    ensures |ApplyWrites(t, ws).phases| == |t|
    ensures forall j :: 0 <= j < |t| ==> ApplyWrites(t, ws).phases[j] == EntryAfter(t[j], ws)
    decreases |ws|
  {
    if ws != [] {
      var t' := WriteOption(t, ws[0]).value;
      WriteOptionEffect(t, ws[0]);
      WritePreserves(t, ws[0], ws[0].phase);
      ApplyWritesEffect(t', ws[1..]);
      forall j | 0 <= j < |t| ensures EntryAfter(t'[j], ws[1..]) == EntryAfter(t[j], ws) {
        if t[j].name == ws[0].phase {
          IndexOfUnique(t, ws[0].phase, j);
        }
        assert t'[j] == WriteEntry(t[j], ws[0]);
      }
    }
  }

  /** Seven writes on one item, one after another. */
  lemma EntryAfterSeven(e: Entry, ws: seq<OptionWrite>)
    requires |ws| == 7
    ensures EntryAfter(e, ws) ==
      WriteEntry(WriteEntry(WriteEntry(WriteEntry(WriteEntry(WriteEntry(WriteEntry(
        e, ws[0]), ws[1]), ws[2]), ws[3]), ws[4]), ws[5]), ws[6])
  {
    var e1 := WriteEntry(e, ws[0]);
    var e2 := WriteEntry(e1, ws[1]);
    var e3 := WriteEntry(e2, ws[2]);
    var e4 := WriteEntry(e3, ws[3]);
    var e5 := WriteEntry(e4, ws[4]);
    var e6 := WriteEntry(e5, ws[5]);
    assert EntryAfter(e6, ws[6..]) == WriteEntry(e6, ws[6]) by { assert ws[6..][1..] == []; }
    assert EntryAfter(e5, ws[5..]) == EntryAfter(e6, ws[6..]) by { assert ws[5..][1..] == ws[6..]; }
    assert EntryAfter(e4, ws[4..]) == EntryAfter(e5, ws[5..]) by { assert ws[4..][1..] == ws[5..]; }
    assert EntryAfter(e3, ws[3..]) == EntryAfter(e4, ws[4..]) by { assert ws[3..][1..] == ws[4..]; }
    assert EntryAfter(e2, ws[2..]) == EntryAfter(e3, ws[3..]) by { assert ws[2..][1..] == ws[3..]; }
    assert EntryAfter(e1, ws[1..]) == EntryAfter(e2, ws[2..]) by { assert ws[1..][1..] == ws[2..]; }
  }

  // `DesignEntryAfter` by target phase, one lemma per phase: each case is a
  // separate proof so that none of them grows too costly for the verifier.

  lemma DesignEntryAfterClimb1(e: Entry, alt: Value, mach: Value)
    requires e.name == "climb1"
    ensures EntryAfter(e, DesignWrites(alt, mach)) == DesignUpdate(e, alt, mach)
  {
    EntryAfterSeven(e, DesignWrites(alt, mach));
  }

  lemma DesignEntryAfterClimb2(e: Entry, alt: Value, mach: Value)
    requires e.name == "climb2"
    ensures EntryAfter(e, DesignWrites(alt, mach)) == DesignUpdate(e, alt, mach)
  {
    EntryAfterSeven(e, DesignWrites(alt, mach));
  }

  lemma DesignEntryAfterClimb3(e: Entry, alt: Value, mach: Value)
    requires e.name == "climb3"
    ensures EntryAfter(e, DesignWrites(alt, mach)) == DesignUpdate(e, alt, mach)
  {
    EntryAfterSeven(e, DesignWrites(alt, mach));
  }

  lemma DesignEntryAfterCruise(e: Entry, alt: Value, mach: Value)
    requires e.name == "cruise"
    ensures EntryAfter(e, DesignWrites(alt, mach)) == DesignUpdate(e, alt, mach)
  {
    EntryAfterSeven(e, DesignWrites(alt, mach));
  }

  lemma DesignEntryAfterDesc1(e: Entry, alt: Value, mach: Value)
    requires e.name == "desc1"
    ensures EntryAfter(e, DesignWrites(alt, mach)) == DesignUpdate(e, alt, mach)
  {
    EntryAfterSeven(e, DesignWrites(alt, mach));
  }

  lemma DesignEntryAfterOther(e: Entry, alt: Value, mach: Value)
    requires e.name !in {"climb1", "climb2", "climb3", "cruise", "desc1"}
    ensures EntryAfter(e, DesignWrites(alt, mach)) == DesignUpdate(e, alt, mach)
  {
    EntryAfterSeven(e, DesignWrites(alt, mach));
  }

  /** The seven writes, on one item, are the reference update. */
  lemma DesignEntryAfter(e: Entry, alt: Value, mach: Value)
    ensures EntryAfter(e, DesignWrites(alt, mach)) == DesignUpdate(e, alt, mach)
  {
    if e.name == "climb1" {
      DesignEntryAfterClimb1(e, alt, mach);
    } else if e.name == "climb2" {
      DesignEntryAfterClimb2(e, alt, mach);
    } else if e.name == "climb3" {
      DesignEntryAfterClimb3(e, alt, mach);
    } else if e.name == "cruise" {
      DesignEntryAfterCruise(e, alt, mach);
    } else if e.name == "desc1" {
      DesignEntryAfterDesc1(e, alt, mach);
    } else {
      DesignEntryAfterOther(e, alt, mach);
    }
  }

  /** A parameterization that raises nothing leaves every phase as the reference
      update says: the five target phases get the design altitude and Mach pairs
      in the listed options, every other option and every other phase is as
      before, and the keys keep their order. */
  lemma ParameterizedEffect(t: Table, alt: Value, mach: Value)
    requires Valid(t) && Parameterized(t, alt, mach).error.None?
    ensures Names(Parameterized(t, alt, mach).phases) == Names(t)
    ensures forall j :: 0 <= j < |t| ==> Parameterized(t, alt, mach).phases[j] == DesignUpdate(t[j], alt, mach)
  {
    ApplyWritesError(t, DesignWrites(alt, mach));
    ApplyWritesEffect(t, DesignWrites(alt, mach));
    forall j | 0 <= j < |t| ensures EntryAfter(t[j], DesignWrites(alt, mach)) == DesignUpdate(t[j], alt, mach) {
      DesignEntryAfter(t[j], alt, mach);
    }
  }

  /** The reference update is idempotent. */
  lemma DesignUpdateIdempotent(e: Entry, alt: Value, mach: Value)
    ensures DesignUpdate(DesignUpdate(e, alt, mach), alt, mach) == DesignUpdate(e, alt, mach)
  {
    match e.info.userOptions
    case None =>
    case Some(o) =>
      assert o[AltTrigger := alt][SpeedTrigger := mach][AltTrigger := alt][SpeedTrigger := mach]
        == o[AltTrigger := alt][SpeedTrigger := mach];
      assert o[AltTrigger := alt][MachOption := mach][AltTrigger := alt][MachOption := mach]
        == o[AltTrigger := alt][MachOption := mach];
      assert o[SpeedTrigger := mach][SpeedTrigger := mach] == o[SpeedTrigger := mach];
      assert o[MachOption := mach][MachOption := mach] == o[MachOption := mach];
  }

  /** Parameterizing a parameterized table again raises nothing and changes nothing. */
  lemma ParameterizedIdempotent(t: Table, alt: Value, mach: Value)
    requires Valid(t) && Parameterized(t, alt, mach).error.None?
    ensures Parameterized(Parameterized(t, alt, mach).phases, alt, mach) == Parameterized(t, alt, mach)
  {
    var r := Parameterized(t, alt, mach).phases;
    ApplyWritesError(t, DesignWrites(alt, mach));
    ParameterizedError(t, alt, mach);
    ParameterizedError(r, alt, mach);
    ParameterizedEffect(t, alt, mach);
    ParameterizedEffect(r, alt, mach);
    var r2 := Parameterized(r, alt, mach).phases;
    forall j | 0 <= j < |r| ensures r2[j] == r[j] {
      DesignUpdateIdempotent(t[j], alt, mach);
    }
  }

  // ---------------------------------------------------------------------------
  // add_default_sgm_args
  // ---------------------------------------------------------------------------

  /** `verbosity, _ = options.get_item('verbosity', default=(Verbosity.QUIET))` as
      written: the default is the bare enumeration member, not a pair, so the
      unpacking raises when the key is absent. */
  function LookupVerbosityAsWritten(options: AviaryValues): Result<Value, Error> {
    UnpackFirst(GetItemOr(options, VerbosityKey, Level(Quiet)))
  }

  /** The lookup with a pair as default, `(Verbosity.QUIET, None)`: the stored
      verbosity, or `QUIET` when there is none. */
  function LookupVerbosity(options: AviaryValues): (v: Value)
    ensures VerbosityKey in options ==> v == options[VerbosityKey].value
    ensures VerbosityKey !in options ==> v == Level(Quiet)
  {
    var r := UnpackFirst(GetItemOr(options, VerbosityKey, Tuple([Level(Quiet), Null])));
    assert r.Success?;
    r.value
  }

  /** Without a stored verbosity the lookup as written raises a TypeError. */
  lemma VerbosityDefaultNotUnpackable(options: AviaryValues)
    requires VerbosityKey !in options
    ensures LookupVerbosityAsWritten(options).Failure?
    ensures LookupVerbosityAsWritten(options).error.TypeError?
  {
  }

  /** With a stored verbosity the lookup as written and the corrected one agree. */
  lemma VerbosityLookupsAgree(options: AviaryValues)
    requires VerbosityKey in options
    ensures LookupVerbosityAsWritten(options) == Success(LookupVerbosity(options))
  {
  }

  /** Which look-up of the stored verbosity the loop performs: the one written
      in the function, with a bare default, or the one with a pair as default. */
  datatype Reading = AsWritten | Corrected

  /** The look-up of the stored verbosity under a reading. Whenever it succeeds
      it finds the corrected value; it fails only as written, exactly when no
      verbosity is stored, and then with a TypeError. */
  function LookupWith(reading: Reading, options: AviaryValues): (r: Result<Value, Error>)
    ensures r.Success? ==> r.value == LookupVerbosity(options)
    ensures r.Failure? <==> reading == AsWritten && VerbosityKey !in options
    ensures r.Failure? ==> r.error.TypeError?
  {
    if reading == AsWritten then LookupVerbosityAsWritten(options) else Success(LookupVerbosity(options))
  }

  /** Whether looking the verbosity up in `ode_args` raises: there are no
      `aviary_options`, or the look-up in them fails. */
  predicate LookupFails(odeArgs: OdeArgs, reading: Reading) {
    odeArgs.aviaryOptions.None? || LookupWith(reading, odeArgs.aviaryOptions.value).Failure?
  }

  /** The exception a failing look-up raises: the KeyError for a missing
      `'aviary_options'`, else the TypeError of the unpacking. */
  function LookupError(odeArgs: OdeArgs, reading: Reading): (e: Error)
    requires LookupFails(odeArgs, reading)
    ensures odeArgs.aviaryOptions.None? ==> e == KeyError(AviaryOptionsKey)
    ensures odeArgs.aviaryOptions.Some? ==> e.TypeError?
  {
    if odeArgs.aviaryOptions.None? then KeyError(AviaryOptionsKey)
    else LookupWith(reading, odeArgs.aviaryOptions.value).error
  }

  /** Whether a record still needs `simupy_args`, i.e. the verbosity. */
  predicate NeedsSimupyArgs(p: Phase) {
    p.kwargs.None? || SimupyArgsKey !in p.kwargs.value
  }

  /** `kwargs = info.get('kwargs', {})` followed by the `ode_args` default. */
  function KwargsWithOdeArgs(p: Phase, odeArgs: OdeArgs): map<string, Arg> {
    var kwargs := if p.kwargs.Some? then p.kwargs.value else map[];
    if OdeArgsKey in kwargs then kwargs else kwargs[OdeArgsKey := OdeArgsArg(odeArgs)]
  }

  /** The outcome of one loop iteration: the record and the verbosity carried on,
      or the record as left by an exception. */
  datatype Step = Filled(info: Phase, verbosity: Value) | Stopped(info: Phase, error: Error)

  /** One iteration of the loop of `add_default_sgm_args`. The caller's
      `verbosity` (`Null` standing for `None`) is looked up in
      `ode_args['aviary_options']` only when a record needs `simupy_args` and no
      verbosity is known yet; the value found is kept for later records. If the
      look-up raises (the KeyError for `'aviary_options'`, or the TypeError of
      the unpacking as written), a record that had `kwargs` keeps the `ode_args`
      already put into that same dictionary, and one that had none is left as
      it was. */
  function FillStep(p: Phase, odeArgs: OdeArgs, verbosity: Value, reading: Reading): Step {
    var kwargs := KwargsWithOdeArgs(p, odeArgs);
    var partial := if p.kwargs.Some? then p.(kwargs := Some(kwargs)) else p;
    if SimupyArgsKey in kwargs then Filled(p.(kwargs := Some(kwargs)), verbosity)
    else if verbosity != Null then
      Filled(p.(kwargs := Some(kwargs[SimupyArgsKey := SimupyArgs(map[VerbosityKey := verbosity])])), verbosity)
    else
      match odeArgs.aviaryOptions
      case None => Stopped(partial, KeyError(AviaryOptionsKey))
      case Some(options) =>
        var r := LookupWith(reading, options);
        if r.Failure? then Stopped(partial, r.error)
        else Filled(p.(kwargs := Some(kwargs[SimupyArgsKey := SimupyArgs(map[VerbosityKey := r.value])])), r.value)
  }

  /** The loop from position `i` on. */
  function FillFrom(t: Table, i: nat, odeArgs: OdeArgs, verbosity: Value, reading: Reading): (r: Outcome)
    requires i <= |t|
    ensures |r.phases| == |t|
    decreases |t| - i
  {
    if i == |t| then Outcome(t, None)
    else
      match FillStep(t[i].info, odeArgs, verbosity, reading)
      case Stopped(info, e) => Outcome(t[i := Entry(t[i].name, info)], Some(e))
      case Filled(info, v) => FillFrom(t[i := Entry(t[i].name, info)], i + 1, odeArgs, v, reading)
  }

  /** `add_default_sgm_args(phase_info, ode_args, verbosity)`. */
  function SgmArgs(t: Table, odeArgs: OdeArgs, verbosity: Value, reading: Reading): Outcome {
    FillFrom(t, 0, odeArgs, verbosity, reading)
  }

  /** The verbosity every filled record receives: the caller's, else the stored
      one (`QUIET` when none is stored). */
  function EffectiveVerbosity(odeArgs: OdeArgs, verbosity: Value): Value {
    if verbosity != Null then verbosity
    else match odeArgs.aviaryOptions
      case None => Null
      case Some(options) => LookupVerbosity(options)
  }

  /** Reference definition of a filled record: the missing `ode_args` and
      `simupy_args` keyword arguments are added, nothing else changes. */
  function FilledRecord(p: Phase, odeArgs: OdeArgs, v: Value): Phase {
    var kwargs := KwargsWithOdeArgs(p, odeArgs);
    p.(kwargs := Some(if SimupyArgsKey in kwargs then kwargs else kwargs[SimupyArgsKey := SimupyArgs(map[VerbosityKey := v])]))
  }

  /** The first position at or after `i` whose record needs `simupy_args`, or `|t|`. */
  function FirstNeedingSimupy(t: Table, i: nat): (k: nat)
    requires i <= |t|
    ensures i <= k <= |t|
    ensures forall j :: i <= j < k ==> !NeedsSimupyArgs(t[j].info)
    ensures k < |t| ==> NeedsSimupyArgs(t[k].info)
    decreases |t| - i
  {
    if i == |t| || NeedsSimupyArgs(t[i].info) then i else FirstNeedingSimupy(t, i + 1)
  }

  /** One iteration fills its record with the effective verbosity and carries a
      verbosity with the same effective value. */
  lemma FillStepFills(p: Phase, odeArgs: OdeArgs, verbosity: Value, reading: Reading)
    requires FillStep(p, odeArgs, verbosity, reading).Filled?
    ensures FillStep(p, odeArgs, verbosity, reading).info == FilledRecord(p, odeArgs, EffectiveVerbosity(odeArgs, verbosity))
    ensures EffectiveVerbosity(odeArgs, FillStep(p, odeArgs, verbosity, reading).verbosity) == EffectiveVerbosity(odeArgs, verbosity)
  {
  }

  /** The loop from position `i` on never changes the keys or the positions before `i`. */
  lemma {:induction false} FillFromShape(t: Table, i: nat, odeArgs: OdeArgs, verbosity: Value, reading: Reading)
    requires i <= |t|
    ensures Names(FillFrom(t, i, odeArgs, verbosity, reading).phases) == Names(t)
    ensures forall j :: 0 <= j < i ==> FillFrom(t, i, odeArgs, verbosity, reading).phases[j] == t[j]
    decreases |t| - i
  {
    if i < |t| {
      var t' := t[i := Entry(t[i].name, FillStep(t[i].info, odeArgs, verbosity, reading).info)];
      assert Names(t') == Names(t);
      if FillStep(t[i].info, odeArgs, verbosity, reading).Filled? {
        FillFromShape(t', i + 1, odeArgs, FillStep(t[i].info, odeArgs, verbosity, reading).verbosity, reading);
      }
    }
  }

  /** The loop raises exactly when a record needing `simupy_args` is met with no
      verbosity known and a look-up that fails; the exception is then the one
      that look-up raises. */
  lemma {:induction false} FillFromError(t: Table, i: nat, odeArgs: OdeArgs, verbosity: Value, reading: Reading)
    requires i <= |t|
    ensures FillFrom(t, i, odeArgs, verbosity, reading).error.Some? <==>
      (verbosity == Null && LookupFails(odeArgs, reading) && FirstNeedingSimupy(t, i) < |t|)
    ensures FillFrom(t, i, odeArgs, verbosity, reading).error.Some? ==>
      FillFrom(t, i, odeArgs, verbosity, reading).error == Some(LookupError(odeArgs, reading))
    decreases |t| - i
  {
    if i < |t| {
      var t' := t[i := Entry(t[i].name, FillStep(t[i].info, odeArgs, verbosity, reading).info)];
      match FillStep(t[i].info, odeArgs, verbosity, reading)
      case Stopped(info, e) =>
      case Filled(info, v) =>
        FillFromError(t', i + 1, odeArgs, v, reading);
        if !NeedsSimupyArgs(t[i].info) {
          FirstNeedingSimupyAgree(t, t', i + 1);
        }
    }
  }

  /** Without an exception, every record from `i` on is filled with the effective verbosity. */
  lemma {:induction false} FillFromFilled(t: Table, i: nat, odeArgs: OdeArgs, verbosity: Value, reading: Reading)
    requires i <= |t|
    requires FillFrom(t, i, odeArgs, verbosity, reading).error.None?
    ensures forall j :: i <= j < |t| ==>
      FillFrom(t, i, odeArgs, verbosity, reading).phases[j].info == FilledRecord(t[j].info, odeArgs, EffectiveVerbosity(odeArgs, verbosity))
    decreases |t| - i
  {
    if i < |t| {
      var t' := t[i := Entry(t[i].name, FillStep(t[i].info, odeArgs, verbosity, reading).info)];
      var v := FillStep(t[i].info, odeArgs, verbosity, reading).verbosity;
      FillStepFills(t[i].info, odeArgs, verbosity, reading);
      FillFromShape(t', i + 1, odeArgs, v, reading);
      FillFromFilled(t', i + 1, odeArgs, v, reading);
    }
  }

  /** With an exception, the records from `i` up to the failing one are filled
      (their `ode_args` added, nothing needing the verbosity), the failing one has
      only the `ode_args` put into its existing `kwargs`, and the rest are untouched. */
  lemma FillFromStopped(t: Table, i: nat, odeArgs: OdeArgs, verbosity: Value, reading: Reading)
    requires i <= |t|
    requires FillFrom(t, i, odeArgs, verbosity, reading).error.Some?
    ensures FirstNeedingSimupy(t, i) < |t|
    ensures forall j :: i <= j < FirstNeedingSimupy(t, i) ==>
      FillFrom(t, i, odeArgs, verbosity, reading).phases[j].info == FilledRecord(t[j].info, odeArgs, Null)
    ensures var k := FirstNeedingSimupy(t, i);
      FillFrom(t, i, odeArgs, verbosity, reading).phases[k].info
        == if t[k].info.kwargs.Some? then t[k].info.(kwargs := Some(KwargsWithOdeArgs(t[k].info, odeArgs))) else t[k].info
    ensures forall j :: FirstNeedingSimupy(t, i) < j < |t| ==> FillFrom(t, i, odeArgs, verbosity, reading).phases[j] == t[j]
  {
    FillFromStoppedPrefix(t, i, odeArgs, verbosity, reading);
    FillFromStoppedRest(t, i, odeArgs, verbosity, reading);
  }

  /** The records before the failing one, in `FillFromStopped`. */
  lemma {:induction false} FillFromStoppedPrefix(t: Table, i: nat, odeArgs: OdeArgs, verbosity: Value, reading: Reading)
    requires i <= |t|
    requires FillFrom(t, i, odeArgs, verbosity, reading).error.Some?
    ensures FirstNeedingSimupy(t, i) < |t|
    ensures forall j :: i <= j < FirstNeedingSimupy(t, i) ==>
      FillFrom(t, i, odeArgs, verbosity, reading).phases[j].info == FilledRecord(t[j].info, odeArgs, Null)
    decreases |t| - i
  {
    FillFromError(t, i, odeArgs, verbosity, reading);
    var t' := t[i := Entry(t[i].name, FillStep(t[i].info, odeArgs, verbosity, reading).info)];
    match FillStep(t[i].info, odeArgs, verbosity, reading)
    case Stopped(info, e) =>
    case Filled(info, v) =>
      assert FillFrom(t, i, odeArgs, verbosity, reading) == FillFrom(t', i + 1, odeArgs, v, reading);
      FirstNeedingSimupyAgree(t, t', i + 1);
      FillFromShape(t', i + 1, odeArgs, v, reading);
      FillFromStoppedPrefix(t', i + 1, odeArgs, v, reading);
  }

  /** The failing record and those after it, in `FillFromStopped`. */
  lemma {:induction false} FillFromStoppedRest(t: Table, i: nat, odeArgs: OdeArgs, verbosity: Value, reading: Reading)
    requires i <= |t|
    requires FillFrom(t, i, odeArgs, verbosity, reading).error.Some?
    ensures FirstNeedingSimupy(t, i) < |t|
    ensures var k := FirstNeedingSimupy(t, i);
      FillFrom(t, i, odeArgs, verbosity, reading).phases[k].info
        == if t[k].info.kwargs.Some? then t[k].info.(kwargs := Some(KwargsWithOdeArgs(t[k].info, odeArgs))) else t[k].info
    ensures forall j :: FirstNeedingSimupy(t, i) < j < |t| ==> FillFrom(t, i, odeArgs, verbosity, reading).phases[j] == t[j]
    decreases |t| - i
  {
    FillFromError(t, i, odeArgs, verbosity, reading);
    var t' := t[i := Entry(t[i].name, FillStep(t[i].info, odeArgs, verbosity, reading).info)];
    match FillStep(t[i].info, odeArgs, verbosity, reading)
    case Stopped(info, e) =>
    case Filled(info, v) =>
      assert FillFrom(t, i, odeArgs, verbosity, reading) == FillFrom(t', i + 1, odeArgs, v, reading);
      FirstNeedingSimupyAgree(t, t', i + 1);
      FillFromStoppedRest(t', i + 1, odeArgs, v, reading);
  }

  /** Two tables agreeing from position `i` on have the same first record needing `simupy_args` there. */
  lemma {:induction false} FirstNeedingSimupyAgree(t: Table, t': Table, i: nat)
    requires i <= |t| == |t'|
    requires forall j :: i <= j < |t| ==> t'[j] == t[j]
    ensures FirstNeedingSimupy(t, i) == FirstNeedingSimupy(t', i)
    decreases |t| - i
  {
    if i < |t| {
      FirstNeedingSimupyAgree(t, t', i + 1);
    }
  }

  /** A filled record has both keyword arguments; every keyword argument it had
      is kept, a missing `ode_args` is the given one, a missing `simupy_args`
      holds exactly the given verbosity, and no other field changes. */
  lemma FilledRecordProperties(p: Phase, odeArgs: OdeArgs, v: Value)
    ensures FilledRecord(p, odeArgs, v).kwargs.Some?
    ensures OdeArgsKey in FilledRecord(p, odeArgs, v).kwargs.value
    ensures SimupyArgsKey in FilledRecord(p, odeArgs, v).kwargs.value
    ensures p.kwargs.Some? ==> forall k :: k in p.kwargs.value ==>
      k in FilledRecord(p, odeArgs, v).kwargs.value && FilledRecord(p, odeArgs, v).kwargs.value[k] == p.kwargs.value[k]
    ensures (p.kwargs.None? || OdeArgsKey !in p.kwargs.value) ==>
      FilledRecord(p, odeArgs, v).kwargs.value[OdeArgsKey] == OdeArgsArg(odeArgs)
    ensures NeedsSimupyArgs(p) ==>
      FilledRecord(p, odeArgs, v).kwargs.value[SimupyArgsKey] == SimupyArgs(map[VerbosityKey := v])
    ensures FilledRecord(p, odeArgs, v).(kwargs := p.kwargs) == p
  {
  }

  /** A record that already has both keyword arguments is left as it is. */
  lemma FilledRecordComplete(p: Phase, odeArgs: OdeArgs, v: Value)
    requires p.kwargs.Some? && OdeArgsKey in p.kwargs.value && SimupyArgsKey in p.kwargs.value
    ensures FilledRecord(p, odeArgs, v) == p
  {
  }

  /** `add_default_sgm_args` keeps the keys and their order. It raises exactly
      when no verbosity is given, some record lacks `simupy_args`, and either
      `ode_args` has no `aviary_options` (a KeyError) or, as written, the options
      store no verbosity (a TypeError). Otherwise every record is filled with the
      effective verbosity. */
  lemma SgmArgsResult(t: Table, odeArgs: OdeArgs, verbosity: Value, reading: Reading)
    ensures Names(SgmArgs(t, odeArgs, verbosity, reading).phases) == Names(t)
    ensures SgmArgs(t, odeArgs, verbosity, reading).error.Some? <==>
      (verbosity == Null
       && (odeArgs.aviaryOptions.None? || (reading == AsWritten && VerbosityKey !in odeArgs.aviaryOptions.value))
       && exists j :: 0 <= j < |t| && NeedsSimupyArgs(t[j].info))
    ensures SgmArgs(t, odeArgs, verbosity, reading).error.Some? && odeArgs.aviaryOptions.None? ==>
      SgmArgs(t, odeArgs, verbosity, reading).error == Some(KeyError(AviaryOptionsKey))
    ensures SgmArgs(t, odeArgs, verbosity, reading).error.Some? && odeArgs.aviaryOptions.Some? ==>
      SgmArgs(t, odeArgs, verbosity, reading).error.value.TypeError?
    ensures SgmArgs(t, odeArgs, verbosity, reading).error.None? ==> forall j :: 0 <= j < |t| ==>
      SgmArgs(t, odeArgs, verbosity, reading).phases[j].info == FilledRecord(t[j].info, odeArgs, EffectiveVerbosity(odeArgs, verbosity))
  {
    FillFromShape(t, 0, odeArgs, verbosity, reading);
    FillFromError(t, 0, odeArgs, verbosity, reading);
    if SgmArgs(t, odeArgs, verbosity, reading).error.None? {
      FillFromFilled(t, 0, odeArgs, verbosity, reading);
    }
    var k := FirstNeedingSimupy(t, 0);
    if k < |t| {
      assert NeedsSimupyArgs(t[k].info);
    }
  }

  /** After a call that raised nothing every record has both keyword arguments,
      so a second call raises nothing and changes nothing. */
  lemma SgmArgsIdempotent(t: Table, odeArgs: OdeArgs, verbosity: Value, reading: Reading)
    requires SgmArgs(t, odeArgs, verbosity, reading).error.None?
    ensures forall j :: 0 <= j < |t| ==> !NeedsSimupyArgs(SgmArgs(t, odeArgs, verbosity, reading).phases[j].info)
    ensures SgmArgs(SgmArgs(t, odeArgs, verbosity, reading).phases, odeArgs, verbosity, reading) == SgmArgs(t, odeArgs, verbosity, reading)
  {
    var r := SgmArgs(t, odeArgs, verbosity, reading).phases;
    var v := EffectiveVerbosity(odeArgs, verbosity);
    SgmArgsResult(t, odeArgs, verbosity, reading);
    forall j | 0 <= j < |t| ensures !NeedsSimupyArgs(r[j].info) && OdeArgsKey in r[j].info.kwargs.value {
      FilledRecordProperties(t[j].info, odeArgs, v);
    }
    SgmArgsResult(r, odeArgs, verbosity, reading);
    var r2 := SgmArgs(r, odeArgs, verbosity, reading).phases;
    forall j | 0 <= j < |r| ensures r2[j] == r[j] {
      FilledRecordComplete(r[j].info, odeArgs, v);
      assert Names(r2)[j] == Names(r)[j];
    }
  }

  /** A verbosity given by the caller is never looked up: the call raises nothing
      and every record that lacked `simupy_args` gets exactly that verbosity. */
  lemma SgmArgsGivenVerbosity(t: Table, odeArgs: OdeArgs, verbosity: Value, reading: Reading)
    requires verbosity != Null
    ensures SgmArgs(t, odeArgs, verbosity, reading).error.None?
    ensures forall j :: 0 <= j < |t| && NeedsSimupyArgs(t[j].info) ==>
      SgmArgs(t, odeArgs, verbosity, reading).phases[j].info.kwargs == Some(KwargsWithOdeArgs(t[j].info, odeArgs)[SimupyArgsKey := SimupyArgs(map[VerbosityKey := verbosity])])
  {
    SgmArgsResult(t, odeArgs, verbosity, reading);
  }

  /** With no verbosity given and none stored in the options, records that lacked
      `simupy_args` get `QUIET`. */
  lemma SgmArgsQuietByDefault(t: Table, options: AviaryValues)
    requires VerbosityKey !in options
    ensures SgmArgs(t, OdeArgs(Some(options)), Null, Corrected).error.None?
    ensures forall j :: 0 <= j < |t| && NeedsSimupyArgs(t[j].info) ==>
      SgmArgs(t, OdeArgs(Some(options)), Null, Corrected).phases[j].info.kwargs
        == Some(KwargsWithOdeArgs(t[j].info, OdeArgs(Some(options)))[SimupyArgsKey := SimupyArgs(map[VerbosityKey := Level(Quiet)])])
  {
    SgmArgsResult(t, OdeArgs(Some(options)), Null, Corrected);
  }

  /** As written, with no verbosity given and none stored in the options, the
      first record lacking `simupy_args` raises a TypeError: the records before
      it are filled, it keeps only the `ode_args` put into its existing
      `kwargs`, and the records after it are untouched. */
  lemma SgmArgsAsWrittenRaises(t: Table, options: AviaryValues, k: nat)
    requires VerbosityKey !in options
    requires k < |t| && NeedsSimupyArgs(t[k].info)
    requires forall j :: 0 <= j < k ==> !NeedsSimupyArgs(t[j].info)
    ensures SgmArgs(t, OdeArgs(Some(options)), Null, AsWritten).error.Some?
    ensures SgmArgs(t, OdeArgs(Some(options)), Null, AsWritten).error.value.TypeError?
    ensures forall j :: 0 <= j < k ==>
      SgmArgs(t, OdeArgs(Some(options)), Null, AsWritten).phases[j].info == FilledRecord(t[j].info, OdeArgs(Some(options)), Null)
    ensures SgmArgs(t, OdeArgs(Some(options)), Null, AsWritten).phases[k].info
      == if t[k].info.kwargs.Some? then t[k].info.(kwargs := Some(KwargsWithOdeArgs(t[k].info, OdeArgs(Some(options))))) else t[k].info
    ensures forall j :: k < j < |t| ==> SgmArgs(t, OdeArgs(Some(options)), Null, AsWritten).phases[j] == t[j]
  {
    var odeArgs := OdeArgs(Some(options));
    FirstNeedingSimupyIs(t, 0, k);
    FillFromError(t, 0, odeArgs, Null, AsWritten);
    FillFromStopped(t, 0, odeArgs, Null, AsWritten);
  }

  /** `FirstNeedingSimupy` finds the first record needing `simupy_args`. */
  lemma {:induction false} FirstNeedingSimupyIs(t: Table, i: nat, k: nat)
    requires i <= k < |t| && NeedsSimupyArgs(t[k].info)
    requires forall j :: i <= j < k ==> !NeedsSimupyArgs(t[j].info)
    ensures FirstNeedingSimupy(t, i) == k
    decreases k - i
  {
    if i < k {
      FirstNeedingSimupyIs(t, i + 1, k);
    }
  }

  /** Whether the two look-ups agree for the whole loop: a verbosity is given,
      or there are no options (both raise the KeyError), or a verbosity is stored. */
  predicate ReadingsAgreeFor(odeArgs: OdeArgs, verbosity: Value) {
    verbosity != Null || odeArgs.aviaryOptions.None? || VerbosityKey in odeArgs.aviaryOptions.value
  }

  /** Under that condition both readings take the same loop step. */
  lemma FillStepReadingsAgree(p: Phase, odeArgs: OdeArgs, verbosity: Value)
    requires ReadingsAgreeFor(odeArgs, verbosity)
    ensures FillStep(p, odeArgs, verbosity, AsWritten) == FillStep(p, odeArgs, verbosity, Corrected)
    ensures FillStep(p, odeArgs, verbosity, Corrected).Filled? ==>
      ReadingsAgreeFor(odeArgs, FillStep(p, odeArgs, verbosity, Corrected).verbosity)
  {
  }

  /** Under that condition the loop from position `i` on has the same outcome
      under both readings. */
  lemma {:induction false} FillFromReadingsAgree(t: Table, i: nat, odeArgs: OdeArgs, verbosity: Value)
    requires i <= |t|
    requires ReadingsAgreeFor(odeArgs, verbosity)
    ensures FillFrom(t, i, odeArgs, verbosity, AsWritten) == FillFrom(t, i, odeArgs, verbosity, Corrected)
    decreases |t| - i
  {
    if i < |t| {
      FillStepReadingsAgree(t[i].info, odeArgs, verbosity);
      match FillStep(t[i].info, odeArgs, verbosity, Corrected)
      case Stopped(info, e) =>
      case Filled(info, v) =>
        FillFromReadingsAgree(t[i := Entry(t[i].name, info)], i + 1, odeArgs, v);
    }
  }

  /** The function as written and as corrected differ only when no verbosity is
      given, the options store none, and some record lacks `simupy_args`:
      whenever a verbosity is given or stored, or there are no options, they
      give the same outcome. */
  lemma SgmArgsReadingsAgree(t: Table, odeArgs: OdeArgs, verbosity: Value)
    requires ReadingsAgreeFor(odeArgs, verbosity)
    ensures SgmArgs(t, odeArgs, verbosity, AsWritten) == SgmArgs(t, odeArgs, verbosity, Corrected)
  {
    FillFromReadingsAgree(t, 0, odeArgs, verbosity);
  }
}
