/** The `phase_info` dictionary as a mutable object: the two functions of
    aviary/interface/default_phase_info/two_dof_fiti_copy.py that update it in
    place, each proved to do what the functions of `PhaseInfoUpdates` specify. */
module PhaseInfoState {
  import opened Values
  import opened PhaseTable
  import opened PhaseInfoUpdates

  /** An insertion-ordered dictionary of phase records, updated in place. */
  class PhaseInfo {
    var entries: Table

    /** Every key occurs once. */
    ghost predicate Valid()
      reads this
    {
      PhaseTable.Valid(entries)
    }

    constructor (t: Table)
      requires PhaseTable.Valid(t)
      ensures Valid() && entries == t
    {
      entries := t;
    }

    /** `phase_info[phase]['user_options'][option] = value`: raises as
        `WriteOption` says and then changes nothing, otherwise makes that write. */
    method SetUserOption(phase: string, option: string, value: Value) returns (error: Option<Error>)
      requires Valid()
      modifies this
      ensures Valid()
      ensures Outcome(entries, error) == WriteOutcome(old(entries), OptionWrite(phase, option, value))
    {
      var index := IndexOf(entries, phase);
      if index.None? {
        return Some(KeyError(phase));
      }
      var i := index.value;
      var info := entries[i].info;
      if info.userOptions.None? {
        return Some(KeyError(UserOptionsKey));
      }
      var options := info.userOptions.value;
      options := options[option := value];
      entries := entries[i := Entry(phase, info.(userOptions := Some(options)))];
      WriteOptionEffect(old(entries), OptionWrite(phase, option, value));
      ValidSameNames(old(entries), entries);
      error := None;
    }

    /** `SetUserOption` for the `k`-th write of `ws`, a sequence begun on the
        table `t0`: what the whole sequence does from `t0` is what its remaining
        writes do from here. */
    method SetUserOptionOf(ghost t0: Table, ws: seq<OptionWrite>, k: nat) returns (error: Option<Error>)
      requires Valid() && k < |ws|
      requires ApplyWrites(t0, ws) == ApplyWrites(entries, ws[k..])
      modifies this
      ensures Valid()
      ensures error.None? ==> ApplyWrites(t0, ws) == ApplyWrites(entries, ws[k + 1..])
      ensures error.Some? ==> ApplyWrites(t0, ws) == Outcome(entries, error)
    {
      ApplyWritesStep(entries, ws, k);
      error := SetUserOption(ws[k].phase, ws[k].option, ws[k].value);
    }

    /** Two consecutive writes of `ws`, from position `k`: the pairs of
        assignments made to one phase. */
    method SetTwoUserOptionsOf(ghost t0: Table, ws: seq<OptionWrite>, k: nat) returns (error: Option<Error>)
      requires Valid() && k + 1 < |ws|
      requires ApplyWrites(t0, ws) == ApplyWrites(entries, ws[k..])
      modifies this
      ensures Valid()
      ensures error.None? ==> ApplyWrites(t0, ws) == ApplyWrites(entries, ws[k + 2..])
      ensures error.Some? ==> ApplyWrites(t0, ws) == Outcome(entries, error)
    {
      error := SetUserOptionOf(t0, ws, k);
      if error.Some? { return; }
      error := SetUserOptionOf(t0, ws, k + 1);
    }

    /** Four consecutive writes of `ws`, from position `k`, as two pairs. */
    method SetFourUserOptionsOf(ghost t0: Table, ws: seq<OptionWrite>, k: nat) returns (error: Option<Error>)
      requires Valid() && k + 3 < |ws|
      requires ApplyWrites(t0, ws) == ApplyWrites(entries, ws[k..])
      modifies this
      ensures Valid()
      ensures error.None? ==> ApplyWrites(t0, ws) == ApplyWrites(entries, ws[k + 4..])
      ensures error.Some? ==> ApplyWrites(t0, ws) == Outcome(entries, error)
    {
      error := SetTwoUserOptionsOf(t0, ws, k);
      if error.Some? { return; }
      error := SetTwoUserOptionsOf(t0, ws, k + 2);
    }

    /** Six consecutive writes of `ws`, from position `k`, as three pairs. */
    method SetSixUserOptionsOf(ghost t0: Table, ws: seq<OptionWrite>, k: nat) returns (error: Option<Error>)
      requires Valid() && k + 5 < |ws|
      requires ApplyWrites(t0, ws) == ApplyWrites(entries, ws[k..])
      modifies this
      ensures Valid()
      ensures error.None? ==> ApplyWrites(t0, ws) == ApplyWrites(entries, ws[k + 6..])
      ensures error.Some? ==> ApplyWrites(t0, ws) == Outcome(entries, error)
    {
      error := SetFourUserOptionsOf(t0, ws, k);
      if error.Some? { return; }
      error := SetTwoUserOptionsOf(t0, ws, k + 4);
    }

    /** The seven assignments of the parameterization, made one after another
        in the order of `ws`, stopping at the first that raises: one to
        `climb1`, then two each to `climb2` and `climb3`, then one each to
        `cruise` and `desc1`. */
    method SetOptionsInOrder(ws: seq<OptionWrite>) returns (error: Option<Error>)
      requires Valid() && |ws| == 7
      modifies this
      ensures Valid()
      ensures Outcome(entries, error) == ApplyWrites(old(entries), ws)
    {
      ghost var t0 := entries;
      assert ws[0..] == ws;
      error := SetUserOptionOf(t0, ws, 0);
      if error.Some? { return; }
      error := SetSixUserOptionsOf(t0, ws, 1);
      if error.Some? { return; }
      assert ws[7..] == [];
    }

    /** `phase_info_parameterization(phase_info, post_mission_info, aviary_inputs)`:
        the post-mission information is handed back unchanged, and the table ends
        as `Parameterized` says, including the writes made before an exception. */
    method Parameterize<P>(postMissionInfo: P, inputs: AviaryValues) returns (post: P, error: Option<Error>)
      requires Valid()
      modifies this
      ensures Valid()
      ensures Outcome(entries, error)
        == Parameterized(old(entries), GetItem(inputs, DesignCruiseAltitude), GetItem(inputs, DesignMach))
      ensures post == postMissionInfo
    {
      post := postMissionInfo;
      var _ := GetItem(inputs, DesignRange);
      var alt := GetItem(inputs, DesignCruiseAltitude);
      var _ := GetItem(inputs, DesignGrossMass);
      var mach := GetItem(inputs, DesignMach);
      error := SetOptionsInOrder(DesignWrites(alt, mach));
    }

    /** `add_default_sgm_args(phase_info, ode_args, verbosity)`, with `Null`
        standing for a verbosity of `None` and `reading` choosing the look-up of
        the stored verbosity: the table ends as `SgmArgs` says, including the
        partial update left by an exception. */
    method AddDefaultSgmArgs(odeArgs: OdeArgs, verbosity: Value, reading: Reading) returns (error: Option<Error>)
      requires Valid()
      modifies this
      ensures Valid()
      ensures Outcome(entries, error) == SgmArgs(old(entries), odeArgs, verbosity, reading)
    {
      FillFromShape(entries, 0, odeArgs, verbosity, reading);
      var v := verbosity;
      var i := 0;
      while i < |entries|
        invariant 0 <= i <= |entries| == |old(entries)|
        invariant SgmArgs(old(entries), odeArgs, verbosity, reading) == FillFrom(entries, i, odeArgs, v, reading)
      {
        var info := entries[i].info;
        var kwargs := if info.kwargs.Some? then info.kwargs.value else map[];
        if OdeArgsKey !in kwargs {
          kwargs := kwargs[OdeArgsKey := OdeArgsArg(odeArgs)];
        }
        if SimupyArgsKey !in kwargs {
          if v == Null {
            var found := if odeArgs.aviaryOptions.None? then Failure(KeyError(AviaryOptionsKey))
                         else LookupWith(reading, odeArgs.aviaryOptions.value);
            if found.Failure? {
              if info.kwargs.Some? {
                entries := entries[i := Entry(entries[i].name, info.(kwargs := Some(kwargs)))];
              }
              error := Some(found.error);
              ValidSameNames(old(entries), entries);
              return;
            }
            v := found.value;
          }
          kwargs := kwargs[SimupyArgsKey := SimupyArgs(map[VerbosityKey := v])];
        }
        entries := entries[i := Entry(entries[i].name, info.(kwargs := Some(kwargs)))];
        i := i + 1;
      }
      error := None;
      ValidSameNames(old(entries), entries);
    }
  }
}
