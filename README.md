# Aviary: two-degree-of-freedom phase table, taxi fuel and propulsion builder

This project models three pieces of Aviary, the NASA aircraft design and
mission analysis tool, in Dafny, and proves properties of the model.

- **The default phase table of the two-degree-of-freedom shooting mission**
  (`aviary/interface/default_phase_info/two_dof_fiti_copy.py`):
  - the insertion-ordered dictionary of eleven phases, built from four
    sub-tables by spread-merges;
  - `phase_info_parameterization`, which writes the design cruise altitude
    and Mach number into seven user options of five phases;
  - `add_default_sgm_args`, which gives every phase the `ode_args` and
    `simupy_args` keyword arguments it lacks.

  The table is a sequence of `(name, record)` items with distinct names
  (module `PhaseTable`). The two updaters change the table in place, so they
  are methods of the class `PhaseInfoState.PhaseInfo`. Each method is proved
  equal to a specification function of module `PhaseInfoUpdates`, and the
  properties are proved about those functions. Exceptions are modelled
  together with the partial update the source leaves behind when it raises.
  `add_default_sgm_args` is modelled under two readings of its look-up of
  the stored verbosity: as written, where a missing verbosity raises a
  `TypeError`, and as evidently intended (see "Findings"). The two are
  proved to agree whenever a verbosity is given or stored.
- **The taxi fuel component** (`aviary/mission/gasp_based/phases/taxi_component.py`):
  - fuel burnt while taxiing is minus the fuel-flow input times the taxi duration;
  - the mass after taxi is the gross mass less that fuel;
  - the Jacobian holds the partial derivatives of both.

  The formulas are functions on `real`. `compute` and `compute_partials`
  are methods that write into output and Jacobian objects. Module `Taxi`.
- **The propulsion subsystem builders** (`aviary/subsystems/propulsion/propulsion_builder.py`):
  - default builder names;
  - the wildcard promotion lists of the mission subsystem;
  - the parameters `CorePropulsionBuilder.get_parameters` declares. Its
    engine-variable loop fills a table that is then discarded.

  Module `Propulsion`.

Module `Values` holds the Python values the code handles and the exceptions
it can raise. It also holds the two look-ups of Aviary's option container
that the code uses: `get_item`, which returns a `(value, units)` pair or its
default and never raises, and `get_val`, which raises `KeyError` on a
missing key. The container itself (`aviary/utils/aviary_values.py`) is not
part of this model.

Variable names such as `mission:design:mach` are spelled as in Aviary's
variable registry (`aviary/variable_info/variables.py`). That registry is
not part of this model, and the proofs rely only on these names being
distinct.

## Model

| member | source | states |
|---|---|---|
| Values.GetItemOr | aviary/interface/default_phase_info/two_dof_fiti_copy.py:241-242 | `get_item(key, default)` gives the stored `(value, units)` pair when the key is present; otherwise it hands back the default unchanged and does not raise |
| Values.GetItem | aviary/interface/default_phase_info/two_dof_fiti_copy.py:214-217 | `get_item(key)` always gives a pair and never raises: the stored `(value, units)` when the key is present, `(None, None)` when it is missing |
| Values.UnpackFirst | aviary/interface/default_phase_info/two_dof_fiti_copy.py:241 | unpacking into two targets succeeds exactly when the value has length two, and yields the first element of a tuple, an array or a two-character string; an iterable of another length raises `ValueError`, a value without a length raises `TypeError` |
| Values.Len | aviary/subsystems/propulsion/propulsion_builder.py:57 | `len` is defined exactly for strings, tuples and arrays, and gives their element or character count; any other value raises `TypeError` |
| Values.GetVal | aviary/subsystems/propulsion/propulsion_builder.py:57 | `get_val(key)` succeeds exactly when the key is present, with the stored value; otherwise it raises `KeyError(key)` |
| PhaseTable.IndexOf | aviary/interface/default_phase_info/two_dof_fiti_copy.py:219 | `phase_info[name]` finds an item holding `name`; it finds none exactly when `name` is not a key |
| PhaseTable.Put | aviary/interface/default_phase_info/two_dof_fiti_copy.py:113-116 | `d[name] = info`: an existing key keeps its place, a new key goes last; the item is in the result and items under other keys are unchanged |
| PhaseTable.Merge | aviary/interface/default_phase_info/two_dof_fiti_copy.py:113-116 | `{**a, **b}` keeps the keys of `a` first and in their places, and its keys are exactly those of `a` and `b` |
| PhaseTable.PutValid | aviary/interface/default_phase_info/two_dof_fiti_copy.py:113-116 | putting an item into a dictionary keeps its keys distinct |
| PhaseTable.PutGet | aviary/interface/default_phase_info/two_dof_fiti_copy.py:113-116 | after `d[name] = info`, `name` reads `info` and every other key reads as before |
| PhaseTable.MergeValid | aviary/interface/default_phase_info/two_dof_fiti_copy.py:187-191 | a spread-merge `{**a, **b}` of dictionaries is a dictionary, with distinct keys |
| PhaseTable.MergeGet | aviary/interface/default_phase_info/two_dof_fiti_copy.py:113-116 | in `{**a, **b}` a key of `b` reads as in `b` and any other key reads as in `a`, so no key is dropped |
| PhaseTable.MergeDisjoint | aviary/interface/default_phase_info/two_dof_fiti_copy.py:113-116 | when the key sets are disjoint, `{**a, **b}` is the items of `a` followed by those of `b` |
| PhaseTable.MergeFour | aviary/interface/default_phase_info/two_dof_fiti_copy.py:187-191 | merging four tables keyed by the takeoff, climb, cruise and descent names gives their concatenation, with the eleven names in order and distinct |
| PhaseTable.Groundroll | aviary/interface/default_phase_info/two_dof_fiti_copy.py:27-35 | the groundroll record: builder `SGMGroundroll`, no `kwargs`, the one user option `attr:VR_value` |
| PhaseTable.Rotation | aviary/interface/default_phase_info/two_dof_fiti_copy.py:36-42 | the rotation record: builder `SGMRotation`, empty user options |
| PhaseTable.Ascent | aviary/interface/default_phase_info/two_dof_fiti_copy.py:43-57 | the ascent record: builder `SGMAscentCombined`, gear, flap and rotation times and the fuselage pitch limit as user options |
| PhaseTable.Accel | aviary/interface/default_phase_info/two_dof_fiti_copy.py:58-64 | the accel record: builder `SGMAccel`, empty user options |
| PhaseTable.TakeoffPhases | aviary/interface/default_phase_info/two_dof_fiti_copy.py:26-65 | `takeoff_phases`: groundroll, rotation, ascent, accel in that order |
| PhaseTable.Climb1 | aviary/interface/default_phase_info/two_dof_fiti_copy.py:67-81 | the climb1 record: EAS speed keyword arguments, trigger 10000 ft, 250 kn EAS, the cruise Mach as speed trigger |
| PhaseTable.Climb2 | aviary/interface/default_phase_info/two_dof_fiti_copy.py:82-96 | the climb2 record: EAS speed keyword arguments, the cruise altitude as trigger, 270 kn EAS, the cruise Mach as speed trigger |
| PhaseTable.Climb3 | aviary/interface/default_phase_info/two_dof_fiti_copy.py:97-111 | the climb3 record: Mach speed keyword arguments, the cruise altitude as trigger, the cruise Mach, speed trigger 0 kn |
| PhaseTable.ClimbPhases | aviary/interface/default_phase_info/two_dof_fiti_copy.py:66-112 | `climb_phases`: climb1, climb2, climb3 in that order |
| PhaseTable.AscentPhases | aviary/interface/default_phase_info/two_dof_fiti_copy.py:113-116 | `ascent_phases` is the spread-merge of the takeoff and climb tables |
| PhaseTable.Cruise | aviary/interface/default_phase_info/two_dof_fiti_copy.py:118-131 | the cruise record: Mach speed type, unitless units and required-lift alpha mode, the cruise Mach as its one user option |
| PhaseTable.CruisePhase | aviary/interface/default_phase_info/two_dof_fiti_copy.py:117-132 | `cruise_phase`: the cruise record alone |
| PhaseTable.Desc1 | aviary/interface/default_phase_info/two_dof_fiti_copy.py:134-150 | the desc1 record: Mach speed keyword arguments, trigger 10000 ft, the cruise Mach, speed trigger 350 kn, zero throttle, flagged as descent |
| PhaseTable.Desc2 | aviary/interface/default_phase_info/two_dof_fiti_copy.py:151-167 | the desc2 record: EAS speed keyword arguments, trigger 10000 ft, 350 kn EAS, speed trigger 0 kn, zero throttle, flagged as descent |
| PhaseTable.Desc3 | aviary/interface/default_phase_info/two_dof_fiti_copy.py:168-184 | the desc3 record: EAS speed keyword arguments, trigger 1000 ft, 250 kn EAS, speed trigger 0 kn, zero throttle, flagged as descent |
| PhaseTable.DescentPhases | aviary/interface/default_phase_info/two_dof_fiti_copy.py:133-185 | `descent_phases`: desc1, desc2, desc3 in that order |
| PhaseTable.DefaultPhaseInfo | aviary/interface/default_phase_info/two_dof_fiti_copy.py:187-191 | the module-level `phase_info`, the spread-merge of the ascent, cruise and descent tables (its keys and order are stated by `DefaultPhaseInfoIsConcatenation`) |
| PhaseTable.SubTables | aviary/interface/default_phase_info/two_dof_fiti_copy.py:26-185 | the keys of the four sub-tables, in literal order |
| PhaseTable.DefaultPhaseInfoIsConcatenation | aviary/interface/default_phase_info/two_dof_fiti_copy.py:26-191 | the default table has exactly groundroll, rotation, ascent, accel, climb1, climb2, climb3, cruise, desc1, desc2 and desc3, in that order, with distinct keys; the merges drop nothing |
| PhaseTable.NonDescentRecords | aviary/interface/default_phase_info/two_dof_fiti_copy.py:26-132 | no takeoff, climb or cruise record has a `descent_phase` entry |
| PhaseTable.DescentRecords | aviary/interface/default_phase_info/two_dof_fiti_copy.py:133-185 | each descent record has `descent_phase: True` and the throttle option `(0, 'unitless')` |
| PhaseTable.DescentPhasesFlagged | aviary/interface/default_phase_info/two_dof_fiti_copy.py:133-185 | in the default table, exactly desc1, desc2 and desc3 carry the descent flag and the zero throttle option |
| PhaseTable.OneTupleRecords | aviary/interface/default_phase_info/two_dof_fiti_copy.py:23-24 | because of the trailing commas, the default altitude and Mach options of climb2 and cruise hold one-element tuples, not numbers |
| PhaseTable.DefaultCruiseValuesAreOneTuples | aviary/interface/default_phase_info/two_dof_fiti_copy.py:187-191 | the default table holds those records under `climb2` and `cruise` |
| PhaseInfoUpdates.WriteOption | aviary/interface/default_phase_info/two_dof_fiti_copy.py:219 | a nested option write succeeds exactly when the phase exists and has user options; a missing phase raises `KeyError(phase)`, a phase without user options raises `KeyError('user_options')` |
| PhaseInfoUpdates.ApplyWrites | aviary/interface/default_phase_info/two_dof_fiti_copy.py:219-229 | option writes made one after another, stopping at the first exception with the earlier writes kept (its properties are `ApplyWritesError` and `ApplyWritesEffect`) |
| PhaseInfoUpdates.WriteOptionEffect | aviary/interface/default_phase_info/two_dof_fiti_copy.py:219 | a successful write keeps the keys and their order, sets the option in the written phase and changes nothing else |
| PhaseInfoUpdates.WritePreserves | aviary/interface/default_phase_info/two_dof_fiti_copy.py:219-229 | a write keeps the keys distinct and does not change which phases can be written |
| PhaseInfoUpdates.ApplyWritesError | aviary/interface/default_phase_info/two_dof_fiti_copy.py:219-229 | a sequence of writes raises the error of its first write whose phase, in the original table, is missing or has no user options; it keeps the keys |
| PhaseInfoUpdates.FirstFailureSeven | aviary/interface/default_phase_info/two_dof_fiti_copy.py:219-229 | seven writes raise nothing exactly when each of their phases can be written |
| PhaseInfoUpdates.DesignWrites | aviary/interface/default_phase_info/two_dof_fiti_copy.py:219-229 | the seven assignments, in source order: Mach to climb1 `speed_trigger`; altitude and Mach to climb2 `alt_trigger` and `speed_trigger`; altitude and Mach to climb3 `alt_trigger` and `mach`; Mach to cruise and desc1 `mach` |
| PhaseInfoUpdates.Parameterized | aviary/interface/default_phase_info/two_dof_fiti_copy.py:214-229 | the parameterization on the fetched altitude and Mach pairs is those seven writes (its properties are `ParameterizedError`, `ParameterizedEffect` and `ParameterizedIdempotent`) |
| PhaseInfoUpdates.ParameterizedError | aviary/interface/default_phase_info/two_dof_fiti_copy.py:194-231 | the parameterization raises nothing exactly when climb1, climb2, climb3, cruise and desc1 all exist with user options; otherwise it raises the `KeyError` of the first write that fails; it keeps the keys |
| PhaseInfoUpdates.ApplyWritesEffect | aviary/interface/default_phase_info/two_dof_fiti_copy.py:219-229 | writes that raise nothing act on every item separately |
| PhaseInfoUpdates.DesignEntryAfter | aviary/interface/default_phase_info/two_dof_fiti_copy.py:219-229 | the seven writes leave each phase as the reference update does |
| PhaseInfoUpdates.ParameterizedEffect | aviary/interface/default_phase_info/two_dof_fiti_copy.py:214-231 | after a successful parameterization the Mach pair is in the `speed_trigger` of climb1 and climb2 and the `mach` of climb3, cruise and desc1, and the altitude pair is in the `alt_trigger` of climb2 and climb3; other phases, other options and other fields are unchanged, and the keys keep their order; range and gross mass do not enter |
| PhaseInfoUpdates.DesignUpdateIdempotent | aviary/interface/default_phase_info/two_dof_fiti_copy.py:219-229 | applying the reference update twice is the same as applying it once |
| PhaseInfoUpdates.ParameterizedIdempotent | aviary/interface/default_phase_info/two_dof_fiti_copy.py:194-231 | parameterizing an already parameterized table with the same inputs raises nothing and changes nothing |
| PhaseInfoUpdates.LookupVerbosity | aviary/interface/default_phase_info/two_dof_fiti_copy.py:240-242 | the verbosity lookup with the corrected default gives the stored verbosity, or `Verbosity.QUIET` when none is stored |
| PhaseInfoUpdates.VerbosityDefaultNotUnpackable | aviary/interface/default_phase_info/two_dof_fiti_copy.py:240-242 | as written, the lookup raises a `TypeError` whenever no verbosity is stored, because its default `Verbosity.QUIET` is not a pair |
| PhaseInfoUpdates.VerbosityLookupsAgree | aviary/interface/default_phase_info/two_dof_fiti_copy.py:240-242 | when a verbosity is stored, the lookup as written and the corrected one agree |
| PhaseInfoUpdates.LookupVerbosityAsWritten | aviary/interface/default_phase_info/two_dof_fiti_copy.py:241-242 | the verbosity look-up as written: `get_item` with the bare `Verbosity.QUIET` as default, then unpacking into two targets (its failure case is stated by `VerbosityDefaultNotUnpackable`) |
| PhaseInfoUpdates.LookupWith | aviary/interface/default_phase_info/two_dof_fiti_copy.py:240-242 | under either reading the look-up, when it succeeds, finds the stored verbosity or `QUIET`; it fails exactly under the reading as written with no verbosity stored, and then with a `TypeError` |
| PhaseInfoUpdates.LookupError | aviary/interface/default_phase_info/two_dof_fiti_copy.py:241 | a failing look-up raises `KeyError('aviary_options')` when `ode_args` has no options and a `TypeError` otherwise |
| PhaseInfoUpdates.FillStep | aviary/interface/default_phase_info/two_dof_fiti_copy.py:236-244 | one loop iteration: `ode_args` added when missing, then `simupy_args` from the known verbosity or a look-up; a failing look-up stops with the record as the exception leaves it (its properties are `FillStepFills` and `FillFromStopped`) |
| PhaseInfoUpdates.FillFrom | aviary/interface/default_phase_info/two_dof_fiti_copy.py:235-244 | the loop from a given position, stopping at the first exception, keeps the number of items |
| PhaseInfoUpdates.FirstNeedingSimupy | aviary/interface/default_phase_info/two_dof_fiti_copy.py:239 | the first record at or after a position that lacks `simupy_args`; every record before it has them |
| PhaseInfoUpdates.FillStepFills | aviary/interface/default_phase_info/two_dof_fiti_copy.py:236-244 | one loop iteration that raises nothing fills its record with the effective verbosity, and it keeps that verbosity for the later records |
| PhaseInfoUpdates.FillFromShape | aviary/interface/default_phase_info/two_dof_fiti_copy.py:235-244 | the loop keeps the keys and never changes a record it has already passed |
| PhaseInfoUpdates.FillFromError | aviary/interface/default_phase_info/two_dof_fiti_copy.py:235-244 | the loop raises exactly when it meets a record lacking `simupy_args` with no verbosity known and a look-up that fails; the exception is the one that look-up raises |
| PhaseInfoUpdates.FillFromFilled | aviary/interface/default_phase_info/two_dof_fiti_copy.py:235-244 | when the loop raises nothing, every record is filled with the effective verbosity |
| PhaseInfoUpdates.FillFromStopped | aviary/interface/default_phase_info/two_dof_fiti_copy.py:235-244 | when the loop raises, the records before the failing one are filled; the failing one keeps its kwargs, with `ode_args` added only if it had a kwargs dictionary; the rest are untouched |
| PhaseInfoUpdates.FirstNeedingSimupyAgree | aviary/interface/default_phase_info/two_dof_fiti_copy.py:239 | tables that agree from a position on have the same first record lacking `simupy_args` there |
| PhaseInfoUpdates.FilledRecordProperties | aviary/interface/default_phase_info/two_dof_fiti_copy.py:236-244 | a filled record has both `ode_args` and `simupy_args`; its existing kwargs entries are kept; `ode_args` is added only when missing; a missing `simupy_args` becomes `{'verbosity': v}`; nothing outside `kwargs` changes |
| PhaseInfoUpdates.FilledRecordComplete | aviary/interface/default_phase_info/two_dof_fiti_copy.py:237-239 | a record that already has both keyword arguments is left as it is |
| PhaseInfoUpdates.SgmArgsResult | aviary/interface/default_phase_info/two_dof_fiti_copy.py:234-244 | `add_default_sgm_args` keeps the keys. It raises exactly when no verbosity is given, some record lacks `simupy_args`, and either `ode_args` has no `aviary_options` (then `KeyError('aviary_options')`) or, under the look-up as written, the options store no verbosity (then a `TypeError`). Otherwise every record is filled with one effective verbosity |
| PhaseInfoUpdates.SgmArgs | aviary/interface/default_phase_info/two_dof_fiti_copy.py:234-244 | `add_default_sgm_args` as the loop `FillFrom` run from the first record, under a given reading of the look-up (its properties are `SgmArgsResult` and the lemmas after it) |
| PhaseInfoUpdates.SgmArgsIdempotent | aviary/interface/default_phase_info/two_dof_fiti_copy.py:234-244 | after a call that raised nothing every record has both keyword arguments, and a second call changes nothing |
| PhaseInfoUpdates.SgmArgsGivenVerbosity | aviary/interface/default_phase_info/two_dof_fiti_copy.py:239-243 | a verbosity given by the caller is never looked up; the call raises nothing and every filled record receives the caller's verbosity |
| PhaseInfoUpdates.SgmArgsQuietByDefault | aviary/interface/default_phase_info/two_dof_fiti_copy.py:239-243 | under the corrected look-up, with no verbosity given and none stored in the options, the call raises nothing and records lacking `simupy_args` receive `Verbosity.QUIET` |
| PhaseInfoUpdates.SgmArgsAsWrittenRaises | aviary/interface/default_phase_info/two_dof_fiti_copy.py:239-243 | as written, with no verbosity given and none stored, the first record lacking `simupy_args` raises a `TypeError`; the records before it are filled, it keeps only the `ode_args` put into its existing `kwargs`, and the rest are untouched |
| PhaseInfoUpdates.FillStepReadingsAgree | aviary/interface/default_phase_info/two_dof_fiti_copy.py:239-243 | when a verbosity is given or stored, or there are no options, one iteration is the same under both readings, and the condition holds for the next iteration |
| PhaseInfoUpdates.FillFromReadingsAgree | aviary/interface/default_phase_info/two_dof_fiti_copy.py:235-244 | under that condition the loop from any position has the same outcome under both readings |
| PhaseInfoUpdates.SgmArgsReadingsAgree | aviary/interface/default_phase_info/two_dof_fiti_copy.py:234-244 | `add_default_sgm_args` as written and as corrected give the same table and exception whenever a verbosity is given or stored, or there are no options |
| PhaseInfoState.PhaseInfo.constructor | aviary/interface/default_phase_info/two_dof_fiti_copy.py:187-191 | the object holds the given table, with distinct keys |
| PhaseInfoState.PhaseInfo.SetUserOption | aviary/interface/default_phase_info/two_dof_fiti_copy.py:219 | one in-place nested write leaves the table and the exception that `WriteOption` specifies |
| PhaseInfoState.PhaseInfo.SetUserOptionOf | aviary/interface/default_phase_info/two_dof_fiti_copy.py:219-229 | the `k`-th in-place write of a sequence moves the remaining work one write on, or ends with the sequence's outcome |
| PhaseInfoState.PhaseInfo.SetTwoUserOptionsOf | aviary/interface/default_phase_info/two_dof_fiti_copy.py:221-222 | two consecutive in-place writes move the remaining work two writes on, or end with the sequence's outcome |
| PhaseInfoState.PhaseInfo.SetFourUserOptionsOf | aviary/interface/default_phase_info/two_dof_fiti_copy.py:221-224 | four consecutive in-place writes move the remaining work four writes on, or end with the sequence's outcome |
| PhaseInfoState.PhaseInfo.SetSixUserOptionsOf | aviary/interface/default_phase_info/two_dof_fiti_copy.py:221-229 | six consecutive in-place writes move the remaining work six writes on, or end with the sequence's outcome |
| PhaseInfoState.PhaseInfo.SetOptionsInOrder | aviary/interface/default_phase_info/two_dof_fiti_copy.py:219-229 | seven in-place writes in order leave the table and exception of `ApplyWrites`, including earlier writes kept when a later one raises |
| PhaseInfoState.PhaseInfo.Parameterize | aviary/interface/default_phase_info/two_dof_fiti_copy.py:194-231 | `phase_info_parameterization` ends in the state `Parameterized` specifies on the fetched altitude and Mach pairs, and returns `post_mission_info` unchanged |
| PhaseInfoState.PhaseInfo.AddDefaultSgmArgs | aviary/interface/default_phase_info/two_dof_fiti_copy.py:234-244 | the in-place loop, under either look-up of the stored verbosity, ends in the state `SgmArgs` specifies, including the partial update left by the `KeyError` or the `TypeError` |
| Taxi.TaxiFuel | aviary/mission/gasp_based/phases/taxi_component.py:44-45 | a non-positive flow rate over a non-negative duration burns non-negative fuel; no flow or no time burns none |
| Taxi.MassAfterTaxi | aviary/mission/gasp_based/phases/taxi_component.py:46 | mass after taxi plus taxi fuel is the gross mass, and the mass is at most the gross mass while fuel is consumed |
| Taxi.FuelSlope | aviary/mission/gasp_based/phases/taxi_component.py:49-51 | the fuel changes by `-duration` per unit of flow rate, the value stored as its partial |
| Taxi.MassSlopes | aviary/mission/gasp_based/phases/taxi_component.py:39-53 | the mass changes by `duration` per unit of flow rate and by 1 per unit of gross mass |
| Taxi.PartialsAreDerivatives | aviary/mission/gasp_based/phases/taxi_component.py:34-53 | the Jacobian has exactly the three declared partials, none of fuel with respect to gross mass, and each is the derivative of its compute formula |
| Taxi.Partials | aviary/mission/gasp_based/phases/taxi_component.py:39-53 | the Jacobian `setup` declares with the constant partial, completed by the two flow-rate partials of `compute_partials` (its properties are `PartialsAreDerivatives` and `SetupAndComputePartials`) |
| Taxi.TaxiFuelComponent.constructor | aviary/mission/gasp_based/phases/taxi_component.py:9-10 | the component keeps its `(value, units)` duration option |
| Taxi.TaxiFuelComponent.Compute | aviary/mission/gasp_based/phases/taxi_component.py:42-46 | inputs are taken in declaration order, flow then gross mass, and only the duration's value is used; the fuel and mass outputs are set to `TaxiFuel` and `MassAfterTaxi`, and other outputs are kept |
| Taxi.TaxiFuelComponent.ComputePartials | aviary/mission/gasp_based/phases/taxi_component.py:48-53 | the two flow-rate partials are set to `-duration` and `duration`; the constant partial and other entries are kept |
| Taxi.SetupAndComputePartials | aviary/mission/gasp_based/phases/taxi_component.py:34-53 | the Jacobian declared in `setup` and completed by `compute_partials` is `Partials`, which holds the derivatives |
| Propulsion.NewBase | aviary/subsystems/propulsion/propulsion_builder.py:25-33 | a propulsion builder without a name is named `'propulsion'`; a given name is kept |
| Propulsion.NewCore | aviary/subsystems/propulsion/propulsion_builder.py:44-48 | a core propulsion builder without a name is named `'core_propulsion'`, not the base default; a given name is kept; extra keyword arguments are ignored |
| Propulsion.MissionInputs | aviary/subsystems/propulsion/propulsion_builder.py:35-36 | `mission_inputs` is the one pattern `*` (that it promotes every input is `MissionPromotesEverything`) |
| Propulsion.MissionOutputs | aviary/subsystems/propulsion/propulsion_builder.py:38-39 | `mission_outputs` is the one pattern `*` (that it promotes every output is `MissionPromotesEverything`) |
| Propulsion.StarMatchesAll | aviary/subsystems/propulsion/propulsion_builder.py:35-39 | the promotion pattern `*` matches every variable name |
| Propulsion.MissionPromotesEverything | aviary/subsystems/propulsion/propulsion_builder.py:35-39 | whatever the builder and arguments, the mission input and output lists promote every variable |
| Propulsion.EngineTypeCount | aviary/subsystems/propulsion/propulsion_builder.py:56-57 | the engine-type count is the `len` of the stored engine counts; `None` inputs raise `AttributeError`, a missing key raises `KeyError`, an unsized value raises `TypeError` |
| Propulsion.Parameters | aviary/subsystems/propulsion/propulsion_builder.py:56-70 | parameters are declared exactly when the inputs hold a sized engine-count value; they are then exactly `{SCALE_FACTOR: {'shape': (n,), 'static_target': True}}` with `n` that size |
| Propulsion.GetParameters | aviary/subsystems/propulsion/propulsion_builder.py:56-70 | `get_parameters` returns `Parameters`, whatever the engine-variable registry its discarded loop walks |

## Left out

- `CorePropulsionBuilder.report`, `build_pre_mission` and `build_mission`: they write a report file and construct OpenMDAO groups whose classes are not part of this model.
- Builder `meta_data`: it is only passed on to the base class, so it is not modelled.
- The `phase_info` argument of `get_parameters`: it is never read.
- `aviary/subsystems/premission.py` and the reserve-mission example script: OpenMDAO group assembly and an optimizer driver, not part of this model.
- The engine-variable registry `_get_engine_variables()` is a parameter of `GetParameters`, since its result is discarded anyway.
- The `AviaryValues` container internals and unit conversion: `get_val` returns the stored value unconverted.
- The SGM integrator classes named by `builder`: a record holds only which one it names.
- Floating-point rounding in the taxi arithmetic: it is modelled on `real`.
- Aliasing: one `ode_args` dictionary is shared by every phase, and the sub-tables share their records with the merged table. The model works on values, so a later in-place change to a shared object is not seen through its other references.
- OpenMDAO's own handling of the declared partials: `setup` declares the two flow-rate partials without a value. The model's Jacobian holds only entries that were written.
- Propulsion.MissionInputs / Propulsion.MissionOutputs: promotion matching is modelled with `*` and literal characters only, not the full glob syntax.
- Python's `int`/`float` distinction: every number is a `real`.
- An `ode_args` dictionary whose `aviary_options` entry is present but `None`: the model has only a present container or a missing key (`KeyError('aviary_options')`). The `AttributeError` that `None.get_item` would raise is not modelled.

## Findings

| source | as written | input that shows it | evidently intended | confidence | as-written member | corrected member |
|---|---|---|---|---|---|---|
| aviary/interface/default_phase_info/two_dof_fiti_copy.py:240-242 | `verbosity, _ = ode_args['aviary_options'].get_item('verbosity', default=(Verbosity.QUIET))`. The parentheses do not make a tuple, so the default is the bare `Verbosity.QUIET`, and `get_item` hands it back unchanged when no verbosity is stored. | `add_default_sgm_args` with `verbosity=None`, an `aviary_options` without `'verbosity'`, and a phase lacking `simupy_args`: unpacking `Verbosity.QUIET` into two targets raises `TypeError` | the default `(Verbosity.QUIET, None)`, giving `Verbosity.QUIET` | medium, not executed; it relies on `get_item` returning the default unchanged | PhaseInfoUpdates.LookupVerbosityAsWritten, run through the whole loop as `SgmArgs(…, AsWritten)` (shown by PhaseInfoUpdates.VerbosityDefaultNotUnpackable and PhaseInfoUpdates.SgmArgsAsWrittenRaises) | PhaseInfoUpdates.LookupVerbosity, run as `SgmArgs(…, Corrected)` (see PhaseInfoUpdates.SgmArgsQuietByDefault; the two agree whenever a verbosity is given or stored, by PhaseInfoUpdates.SgmArgsReadingsAgree) |
