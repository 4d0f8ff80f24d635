# MyArm leader–follower mapping, verified model

This Dafny project models the computational core of the MyArm leader–follower
teleoperation repository. A MyArm C650 (the leader arm, moved by hand) drives a
MyArm M750 (the follower arm).

- **Mapping engine** (`mapping.dfy`): every leader joint angle is shifted by its
  home offset, normalised within the leader range and mapped onto the follower
  range. That range is reversed for inverted joints, and the result is clamped
  to the follower limits. The gripper angle becomes an integer 0–100 value.
- **Configuration** (`config.dfy`): the constants as one datatype value (leader
  and follower limits, gains, home offsets, gripper endpoints).
- **Calibration solver** (`solve_mapping.dfy`, `csv_log.dfy`): reads a leader
  log and a baseline log, scales the baseline time, resamples it, fits a line
  per joint and derives new follower limits from the fit.
- **Trajectory comparison** (`compare_trajectories.dfy`): the same log reading
  (without the empty-file guard, and failing on ragged rows), its own time-scaling rule, and the leader rows
  passed through the mapping engine.
- **Direct teleoperation** (`mimick.dfy`): the official gripper equation, the
  seven-joint M750 limit table, `flexible_parameters` and the frame filter of the
  teleop loop.
- **Limit learner** (`set_limits.dfy`): running min/max over accepted readings,
  floor/ceiling integer limits, and the `M750_LIMITS` text block it writes.
- **Range monitor** (`range_monitor.dfy`): seven sentinel-initialised min/max
  slots and the final report with "N/A" cells.
- **Config-vs-firmware check** (`check_limits.dfy`): ordered configured pairs
  compared with firmware limits at a one-degree tolerance, with the `all_match`
  flag.
- **Log analyser** (`analyze_log.dfy`): per-joint list accumulation from CSV
  dictionaries, then bias, ranges and saturation percentages.

Shared pieces:

- `wrappers.dfy`: `Option`/`Result`.
- `numeric.dfy`: Python's `sum`, `min`, `max`, `int`, `round`, `math.floor`,
  `math.ceil`, and the two-sided clamp.

Modelling choices:

- Angles are mathematical reals.
- A CSV cell is an `Option<real>`; `None` stands for text that `float` rejects.
- Device reads (leader frames, follower readings, firmware limits) are inputs
  of the methods.
- Crashes the code does not catch are `Failure` values, not preconditions:
  - an `IndexError` on a reading that is too long;
  - `StopIteration` on an empty file;
  - `TypeError` on a short DictReader row;
  - numpy's `ValueError` on angle rows of different widths.
- The two library numerics of the solver are function-typed parameters of
  `SolveMapping.Solve`:
  - scipy's `interp1d` (`interp`);
  - sklearn's `LinearRegression` (`regress`).

Behaviour of the code worth noting:

- `process_gripper` truncates with `int(val)` (utils/mapping.py:109); it does not
  round to nearest. `Mapping.GripperTruncationExample` exhibits a value of 99.5
  that gives 99.
- The solver's main path applies no near-zero slope guard: a slope of 0 collapses
  the proposed range to a point (`SolveMapping.FlatFitCollapsesRange`). The
  guard exists only in `suggest_limits`, which returns the current limits
  silently and which `main` never calls.
- The solver scales baseline time whenever the baseline duration is positive. The
  comparison script also requires a positive leader duration. The two rules
  differ (`CompareTrajectories.ScalingRulesDiffer`).
- With leader ±160, follower ±165 and an inverted J1, an input of 200° clamps
  to −165.0 (`Mapping.InvertedJ1Scenario`).

## Model

| member | source | states |
|---|---|---|
| Config.DefaultFollowerLimits | config.py:36-43 | six follower pairs, each stored in ascending order |
| Config.DefaultGains | config.py:48-55 | six gains, negative exactly on J1 and J6 |
| Config.DefaultHomeAngles | config.py:17 | six home offsets: 0 for J1–J4, −25 for J5, +23 for J6 |
| Config.DefaultLeaderLimits | config.py:59-67 | seven leader pairs, ascending, none degenerate |
| Config.DefaultGripperEndpoints | config.py:6-7 | the closed gripper angle lies above the open one |
| Numeric.SeqMin | analysis_scripts/analyze_log.py:83-84 | `min` of a non-empty list is an element and below every element |
| Numeric.SeqMax | analysis_scripts/analyze_log.py:83-84 | `max` of a non-empty list is an element and above every element |
| Numeric.Floor | control_scripts/set_limits.py:126 | `int(np.floor(x))` is the integer r with r <= x < r+1 |
| Numeric.Ceil | control_scripts/set_limits.py:127 | `int(np.ceil(x))` is the integer r with x <= r < x+1 |
| Numeric.Trunc | utils/mapping.py:109 | `int(x)` drops the fraction toward zero, for both signs |
| Numeric.RoundHalfEven | control_scripts/mimick.py:9 | `round` lands within 0.5 of x, and exact halves go to the even neighbour |
| Numeric.Clamp | utils/mapping.py:88-89 | the clamp stays within [lo, hi] and is the identity inside it |
| Mapping.MapValueEndpoints | utils/mapping.py:8-10 | `map_value` sends in_min to out_min and in_max to out_max |
| Mapping.MapValueRoundTrip | utils/mapping.py:8-10 | mapping back with the ranges swapped recovers the input |
| Mapping.MapJoint | utils/mapping.py:34-91 | one joint: the normalised value and the target equal the per-joint map, and the target lies inside the follower range |
| Mapping.ProcessArmAngles | utils/mapping.py:12-93 | the loop computes, for every joint, the normalised value and the clamped target; short input is returned unchanged with []; with six or more inputs both results have six entries, each inside its follower range |
| Mapping.JointTargetSafe | utils/mapping.py:84-89 | for any real input, the joint output lies in [min, max] of the follower pair |
| Mapping.ShortInputUnchanged | utils/mapping.py:26-27 | fewer than six angles come back as (angles, []) |
| Mapping.ExtraEntriesIgnored | utils/mapping.py:29-33 | entries after index 5 do not influence either result |
| Mapping.NormalizedInverse | utils/mapping.py:46-51 | the normalised value maps back to the offset input angle within the leader range |
| Mapping.NormalizedNotClamped | utils/mapping.py:48-55 | normalised values are not clamped: an input one range-width above the top gives 2 |
| Mapping.DegenerateRangeMidpoint | utils/mapping.py:50-53 | an empty leader range gives norm 0.5 and the follower midpoint for every input |
| Mapping.DirectEndpoints | utils/mapping.py:73-82 | for a non-inverted joint, leader min goes to the first follower value and leader max to the second |
| Mapping.InvertedEndpoints | utils/mapping.py:73-82 | for an inverted joint, leader min goes to the second follower value and leader max to the first |
| Mapping.InvertedCases | utils/mapping.py:63-71 | definition: a joint is inverted iff its gain is negative; without a gain entry, iff it is J1 or J6 |
| Mapping.InRangeInterpolates | utils/mapping.py:80-89 | for a norm in [0,1], the output is the unclamped interpolation between the directed endpoints |
| Mapping.InvertedJ1Scenario | utils/mapping.py:33-91 | with leader ±160, follower ±165 and an inverted J1: 0 → 0, −160 → 165, 200 → −165 (clamped) |
| Mapping.ProcessGripper | utils/mapping.py:95-109 | the gripper value is an integer in [0, 100] |
| Mapping.GripperEndpoints | utils/mapping.py:103 | the closed angle gives 0 and the open angle gives 100 |
| Mapping.GripperSaturates | utils/mapping.py:105-107 | angles beyond the closed end give 0, angles beyond the open end give 100 |
| Mapping.GripperTruncates | utils/mapping.py:109 | the result is the floor of the clamped linear value |
| Mapping.GripperTruncationExample | utils/mapping.py:109 | with the shipped constants, a linear value of 99.5 yields 99, where rounding would give 100 |
| Mapping.GripperMonotone | utils/mapping.py:103-109 | opening the gripper further never lowers the value |
| CsvLog.ParseAll | analysis_scripts/solve_mapping.py:48 | the angle list parses iff every cell parses, and then holds the parsed values in order |
| CsvLog.RowAngles | analysis_scripts/solve_mapping.py:48 | `row[1:7]` yields at most six angles, as many as the row provides |
| CsvLog.KeptRows | analysis_scripts/solve_mapping.py:41-52 | no more kept rows than input rows, each with a parsed time and parsed angles |
| CsvLog.KeptRowsAppend | analysis_scripts/solve_mapping.py:41-52 | the kept rows of two logs in a row are the kept rows of the first followed by those of the second, so the input order is kept |
| CsvLog.KeptRowsFromInput | analysis_scripts/solve_mapping.py:41-52 | every kept row is an input row |
| CsvLog.KeptRowsComplete | analysis_scripts/solve_mapping.py:41-52 | every input row whose time and angles parse is kept |
| CsvLog.KeptRowsWhole | analysis_scripts/solve_mapping.py:41-52 | a log whose every row parses is kept whole |
| CsvLog.KeptImpliesStart | analysis_scripts/solve_mapping.py:43-44 | if any row is kept, a start time has been set |
| CsvLog.ParsedShape | analysis_scripts/solve_mapping.py:41-54 | one timestamp per data row, one per kept row, each row at most six wide |
| CsvLog.ParsedAt | analysis_scripts/solve_mapping.py:43-52 | kept row k gives the timestamp (its time − the start time) and its parsed angles |
| CsvLog.RunIsParsed | analysis_scripts/solve_mapping.py:40-54 | running the row loop step by step yields exactly the declarative timestamps and angle rows |
| CsvLog.NoStartNoRows | analysis_scripts/solve_mapping.py:43-44 | without any parsable time, no row is kept |
| CsvLog.DroppedRowStillSetsStart | analysis_scripts/solve_mapping.py:43-51 | a row whose time parses but whose angles do not is dropped, yet it still fixes the start time |
| CsvLog.ReadRows | analysis_scripts/solve_mapping.py:40-54 | the row loop, with its mutable start time, yields the relative times and angle rows of the kept rows |
| SolveMapping.ReadCsv | analysis_scripts/solve_mapping.py:25-54 | an empty file gives two empty series; otherwise the header is skipped and the rows are parsed |
| SolveMapping.TimeScaledDuration | analysis_scripts/solve_mapping.py:119-130 | scaling keeps one time per sample; a positive baseline duration is stretched to the leader's; otherwise the times stay unchanged |
| SolveMapping.TimeScaledKeepsOrder | analysis_scripts/solve_mapping.py:125-130 | scaling by a positive factor keeps the order of timestamps |
| SolveMapping.DeriveLimits | analysis_scripts/solve_mapping.py:196-201 | the proposed range has width m·(in_max − in_min) |
| SolveMapping.DerivedLimitsReproduceFit | analysis_scripts/solve_mapping.py:183-201 | normalising in the leader range, then mapping onto the derived range, gives m·x + c |
| SolveMapping.EngineReproducesFit | analysis_scripts/solve_mapping.py:196-201 | with the derived limits installed on a non-inverted joint with zero offset, the live engine outputs m·x + c inside the leader range |
| SolveMapping.InvertedJointMirrorsFit | analysis_scripts/solve_mapping.py:196-201 | on an inverted joint the same limits give the mirror image t_min + t_max − (m·x + c) |
| SolveMapping.IdentityFitKeepsRange | analysis_scripts/solve_mapping.py:196-201 | slope 1 and intercept 0 reproduce the leader range |
| SolveMapping.FlatFitCollapsesRange | analysis_scripts/solve_mapping.py:196-201 | slope 0 collapses the range to (c, c): there is no slope guard |
| SolveMapping.SuggestLimits | analysis_scripts/solve_mapping.py:56-76 | a slope below 0.01 in magnitude keeps the limits; otherwise the width is divided by the slope and the centre moves by −intercept |
| SolveMapping.SuggestLimitsIdentity | analysis_scripts/solve_mapping.py:65-74 | slope 1 and intercept 0 keep the current limits |
| SolveMapping.Column | analysis_scripts/solve_mapping.py:150-151 | definition: the column has one entry per row: entry i of each row |
| SolveMapping.Resampled | analysis_scripts/solve_mapping.py:136-139 | one resampled baseline value per leader timestamp |
| SolveMapping.JointProposal | analysis_scripts/solve_mapping.py:148-206 | definition: the proposal carries the fitted slope and intercept, and the limits derived from them |
| SolveMapping.Proposals | analysis_scripts/solve_mapping.py:148-206 | one proposal for each of the six joints |
| SolveMapping.ResampleColumns | analysis_scripts/solve_mapping.py:134-139 | the array holds, for every leader time and joint, the interpolated baseline value |
| SolveMapping.FitJoints | analysis_scripts/solve_mapping.py:146-206 | six proposals, each from the fit of the leader column against the resampled column |
| SolveMapping.Solve | analysis_scripts/solve_mapping.py:111-206 | malformed columns fail; empty data fails; otherwise the result is the six proposals built from the parsed, time-scaled and resampled logs |
| SolveMapping.ProposalReproducesFit | analysis_scripts/solve_mapping.py:196-206 | a proposal installed as follower limits reproduces its own fit |
| CompareTrajectories.ReadCsv | analysis_scripts/compare_trajectories.py:14-51 | an empty file raises StopIteration at `next(reader)`; kept angle rows of different widths make `np.array(data)` raise; otherwise the rows after the header are parsed into a rectangular matrix |
| CompareTrajectories.ShortSecondRowIsRagged | analysis_scripts/compare_trajectories.py:44-51 | a full row followed by a two-angle row is ragged, so the read fails |
| CompareTrajectories.Duration | analysis_scripts/compare_trajectories.py:97-98 | definition: the duration is the last relative time, or 0 for an empty series |
| CompareTrajectories.AlignBaseline | analysis_scripts/compare_trajectories.py:103-108 | baseline times are stretched to the leader duration only when both durations are positive; otherwise they are unchanged |
| CompareTrajectories.ScalingRulesDiffer | analysis_scripts/compare_trajectories.py:103-108 | with a zero leader duration the solver collapses the baseline times while the comparison keeps them |
| CompareTrajectories.ScalingRulesAgree | analysis_scripts/compare_trajectories.py:103-108 | the two rules coincide when the leader duration is positive or the baseline duration is not |
| CompareTrajectories.PredictOutputs | analysis_scripts/compare_trajectories.py:110-118 | one predicted row per leader row, each the first result of `process_arm_angles`, inside the follower ranges |
| CompareTrajectories.Compare | analysis_scripts/compare_trajectories.py:90-118 | the leader is read first: StopIteration iff the leader is empty, or it reads and the baseline is empty; RaggedRows iff the leader is ragged, or it is not empty and the baseline is ragged; otherwise it returns the parsed leader, the aligned baseline times and the predictions |
| Mimick.LimitInfo | control_scripts/mimick.py:12-20 | seven (min, max) pairs with min < max |
| Mimick.GripperEquationEndpoints | control_scripts/mimick.py:9 | the equation sends 0.08 to −1 and −95.27 to −123, which the J7 limit clamps to −118 |
| Mimick.FlexibleParameters | control_scripts/mimick.py:45-74 | a list of length other than 7 is returned as is; otherwise the converted angles are clamped joint by joint into the limit table |
| Mimick.InsideLimitsUnchanged | control_scripts/mimick.py:63-72 | a converted angle already inside its limits passes through |
| Mimick.NoRollbackClampsOnly | control_scripts/mimick.py:56-72 | without rollback each angle is only clamped |
| Mimick.RollbackConversion | control_scripts/mimick.py:56-72 | with rollback the gripper goes through the equation, J2 and J3 are negated and the other joints are unchanged, then all are clamped |
| Mimick.AcceptFrameIff | control_scripts/mimick.py:121-126 | a frame is forwarded iff it exists, is non-empty and every value lies in [−200, 200] |
| Mimick.Teleop | control_scripts/mimick.py:115-136 | the loop sends one converted command per accepted frame, in order; every seven-value command lies within the limit table |
| Mimick.ShortFrameBypassesClamp | control_scripts/mimick.py:50-51 | a six-value frame whose J2 value lies above J2's limit (83) and within ±200 is forwarded unclamped |
| Mimick.NonSevenFrameUnclamped | control_scripts/mimick.py:50-51 | any accepted frame of a length other than seven is sent exactly as read |
| SetLimits.RunMinIsLowerBound | control_scripts/set_limits.py:105-109 | the running minimum is below the first reading and below every accepted reading |
| SetLimits.RunMaxIsUpperBound | control_scripts/set_limits.py:105-110 | the running maximum is above the first reading and above every accepted reading |
| SetLimits.RunMinIsAttained | control_scripts/set_limits.py:105-109 | the running minimum is a value actually read |
| SetLimits.RunMaxIsAttained | control_scripts/set_limits.py:105-110 | the running maximum is a value actually read |
| SetLimits.ExtremesMonotone | control_scripts/set_limits.py:105-110 | a further reading never raises a minimum nor lowers a maximum, and lies between them when accepted |
| SetLimits.ExtremesStep | control_scripts/set_limits.py:107-110 | one more reading moves a joint's minimum or maximum only when it is accepted and goes beyond it |
| SetLimits.Absorb | control_scripts/set_limits.py:108-110 | the inner loop lowers each of the six minimums to the reading where it is smaller, raises each maximum likewise, and leaves later slots alone |
| SetLimits.MinBelowMax | control_scripts/set_limits.py:96-108 | min ≤ max holds throughout the run |
| SetLimits.Learn | control_scripts/set_limits.py:96-110 | exits without a first reading; an IndexError comes iff the first reading is shorter than six and a full reading follows; otherwise min/max are the running extremes of each joint |
| SetLimits.NewLimits | control_scripts/set_limits.py:119-128 | six integer pairs (floor of min, ceiling of max), enclosing the learned extremes within one degree; `None` is the IndexError at line 126 when fewer than six values were learned (a short first reading and no full reading after it) |
| SetLimits.LimitsEncloseExtremes | control_scripts/set_limits.py:123-127 | outward rounding keeps the learned interval inside the integer limits |
| SetLimits.NatText | control_scripts/set_limits.py:59 | the decimal text of a natural number is non-empty and all digits |
| SetLimits.NatTextRoundTrip | control_scripts/set_limits.py:59 | reading the digits back gives the number |
| SetLimits.IntTextRoundTrip | control_scripts/set_limits.py:59 | an integer's text, including the sign, reads back as the integer, and it heads its `.1f` form |
| SetLimits.LimitLineFields | control_scripts/set_limits.py:59 | each block line holds both limits at fixed positions, and they read back unchanged |
| SetLimits.Lines | control_scripts/set_limits.py:31-59 | definition: one line per pair, in pair order |
| SetLimits.LinesOrder | control_scripts/set_limits.py:31-59 | pair k's line sits between the lines of the earlier and the later pairs |
| SetLimits.LineOrder | control_scripts/set_limits.py:30-60 | in the block, pair k's line follows the header and the earlier lines, and precedes the later lines and the bracket |
| SetLimits.ConfigBlock | control_scripts/set_limits.py:30-60 | the string built by `+=` is the header, one line per pair, then the closing bracket |
| RangeMonitor.LowestIsLowerBound | control_scripts/c650_range_monitor.py:55-61 | a min slot is ≤ 999 and ≤ every value that reached it |
| RangeMonitor.HighestIsUpperBound | control_scripts/c650_range_monitor.py:55-62 | a max slot is ≥ −999 and ≥ every value that reached it |
| RangeMonitor.LowestIsAttained | control_scripts/c650_range_monitor.py:44-61 | a min slot holds its sentinel or a value actually read |
| RangeMonitor.HighestIsAttained | control_scripts/c650_range_monitor.py:44-62 | a max slot holds its sentinel or a value actually read |
| RangeMonitor.UntouchedSlotKeepsSentinels | control_scripts/c650_range_monitor.py:44-62 | a slot that no reading reached keeps 999 / −999 |
| RangeMonitor.StepEffect | control_scripts/c650_range_monitor.py:55-62 | a reading shorter than six changes nothing; no reading raises a min or lowers a max; an updated slot brackets its new value |
| RangeMonitor.SlotStep | control_scripts/c650_range_monitor.py:55-62 | one more reading moves a slot only when it covers that slot and goes beyond its extreme |
| RangeMonitor.Widen | control_scripts/c650_range_monitor.py:57-62 | the update loop succeeds iff the reading has at most seven values, and then lowers each covered minimum and raises each covered maximum |
| RangeMonitor.Report | control_scripts/c650_range_monitor.py:79-84 | one (min, max) row per counted joint; a cell is N/A iff its slot holds the sentinel |
| RangeMonitor.Monitor | control_scripts/c650_range_monitor.py:44-84 | fails with IndexError iff some accepted reading has more than seven values; otherwise the report comes from the running extremes |
| RangeMonitor.ReportFitsSlots | control_scripts/c650_range_monitor.py:79 | without a crash the report never counts past the seven slots |
| RangeMonitor.UnreachedSlotReportsNotAvailable | control_scripts/c650_range_monitor.py:81-83 | a slot no reading reached is reported N/A on both sides |
| RangeMonitor.ReachedSlotReportsMinimum | control_scripts/c650_range_monitor.py:81-83 | a slot reached by a value below 999 shows a number no larger than that value |
| RangeMonitor.SixValueReadingsLeaveSeventhSlot | control_scripts/c650_range_monitor.py:57-62 | six-value readings never reach the gripper slot, which keeps its sentinels |
| RangeMonitor.SentinelValueReadsAsNotAvailable | control_scripts/c650_range_monitor.py:82 | a genuine reading of exactly 999.0 is reported N/A |
| CheckLimits.Canonical | control_scripts/check_limits_match.py:42-44 | the configured pair in ascending order, whatever its stored order |
| CheckLimits.Rows | control_scripts/check_limits_match.py:38-58 | definition: joints 1 to 6, joint i+1 checked against configured pair i |
| CheckLimits.CheckLimitsMatch | control_scripts/check_limits_match.py:36-59 | fails iff fewer than six pairs are configured; otherwise gives the per-joint statuses, and all_match holds iff no joint mismatches |
| CheckLimits.StatusIgnoresStoredOrder | control_scripts/check_limits_match.py:42-44 | swapping a stored pair does not change its verdict |
| CheckLimits.OkIff | control_scripts/check_limits_match.py:55-58 | OK iff both firmware limits lie within one degree of the ordered configured pair |
| CheckLimits.FaithfulFirmwarePasses | control_scripts/check_limits_match.py:55-59 | firmware within a degree of the ordered pairs passes on every joint |
| CheckLimits.UnreadableFirmwareStillMatches | control_scripts/check_limits_match.py:47-52 | when every firmware read fails, every joint is skipped and all_match stays true |
| AnalyzeLog.Mean | analysis_scripts/analyze_log.py:16-18 | mean([]) is 0; otherwise mean × length equals the sum |
| AnalyzeLog.MeanBounds | analysis_scripts/analyze_log.py:16-18 | the mean of bounded values keeps the bounds |
| AnalyzeLog.Diffs | analysis_scripts/analyze_log.py:79 | pairwise out − in, as long as the shorter list |
| AnalyzeLog.SumOfDiffs | analysis_scripts/analyze_log.py:79-80 | the sum of the differences is the difference of the sums |
| AnalyzeLog.BiasIsDifferenceOfMeans | analysis_scripts/analyze_log.py:79-80 | the bias is the mean output minus the mean input |
| AnalyzeLog.ReadGripperOut | analysis_scripts/analyze_log.py:57 | a log without `Gripper_Out` gives 0 |
| AnalyzeLog.JointSeries | analysis_scripts/analyze_log.py:50-67 | a joint's three lists have the same length, at most one entry per row |
| AnalyzeLog.Collect | analysis_scripts/analyze_log.py:43-67 | definition: the dictionary has keys 1 to 7, each holding that joint's samples in row order |
| AnalyzeLog.ReadRow | analysis_scripts/analyze_log.py:52-67 | the per-joint loop over one row crashes iff some joint hits `float(None)`; otherwise every joint's lists grow by that joint's sample of the row |
| AnalyzeLog.CollectedIsCollect | analysis_scripts/analyze_log.py:43-67 | any dictionary with keys 1 to 7 holding each joint's series is exactly the collected dictionary |
| AnalyzeLog.ReadAll | analysis_scripts/analyze_log.py:43-67 | the nested loop fails iff some row hits `float(None)`; otherwise it builds exactly the collected dictionary |
| AnalyzeLog.GripperSeriesDefaults | analysis_scripts/analyze_log.py:56-58 | joint 7 records norm 0.0, and output 0.0 when the column is missing |
| AnalyzeLog.TakenIff | analysis_scripts/analyze_log.py:53-67 | an arm joint takes a row iff its input, output and norm cells all parse |
| AnalyzeLog.SatCount | analysis_scripts/analyze_log.py:89 | the saturation count is at most the number of norms |
| AnalyzeLog.SatPercent | analysis_scripts/analyze_log.py:89-90 | the saturation percentage lies in [0, 100] |
| AnalyzeLog.SatCountExtremes | analysis_scripts/analyze_log.py:89-90 | no saturated norm gives a count of 0; all saturated gives the full length |
| AnalyzeLog.Summarize | analysis_scripts/analyze_log.py:78-92 | the ranges are ordered and the saturation is a percentage |
| AnalyzeLog.CollectedBalanced | analysis_scripts/analyze_log.py:63-65 | every joint's three lists stay the same length |
| AnalyzeLog.ReportedJoints | analysis_scripts/analyze_log.py:70-76 | only arm joints 1–6 with recorded inputs are reported |
| AnalyzeLog.ReportedJointsOrdered | analysis_scripts/analyze_log.py:70 | reported joints come in increasing order |
| AnalyzeLog.ReportedJointsComplete | analysis_scripts/analyze_log.py:76 | every arm joint with an input is reported |
| AnalyzeLog.ArmSummaries | analysis_scripts/analyze_log.py:70-92 | definition: one summary per reported joint, from that joint's lists |
| AnalyzeLog.GripperSummary | analysis_scripts/analyze_log.py:97-102 | a gripper line exists iff a gripper input was recorded, and its ranges are ordered |
| AnalyzeLog.ReportBias | analysis_scripts/analyze_log.py:79-80 | each reported bias equals mean(out) − mean(in) for that joint |
| AnalyzeLog.Analyze | analysis_scripts/analyze_log.py:43-102 | fails iff some row crashes; otherwise the report comes from the collected dictionary |

## Left out

- Serial and hardware I/O are not modelled:
  - port selection, connecting, servo release, firmware writes, sleeps;
  - the live displays and all printing.
  
  Device reads are method inputs.
- File plumbing is left out: `glob`/mtime file selection, argument parsing, `sys.exit` on a missing file, and the regex rewrite of `config.py` (control_scripts/set_limits.py:62-72). The model stops at the text block.
- Floating point is not modelled: angles are reals, and `float` parsing is an `Option<real>` cell. NaN and infinities, which `float` accepts, are not represented.
- SolveMapping.Solve: the interpolation and the regression are parameters, so the model does not state scipy's extrapolation or sklearn's least squares. For identical logs the model states the limits only from a fit of (1, 0) onward (`SolveMapping.IdentityFitKeepsRange`).
- SolveMapping.Solve: `r2 = reg.score` and the final `round(…, 1)` of the proposals (analysis_scripts/solve_mapping.py:156, 206) are left out, because both are display-only or floating-point formatting.
- SolveMapping.SuggestLimits: its `round(…, 1)` is not modelled; the contract is stated before rounding.
- SolveMapping.Solve requires six leader and six follower pairs. The code indexes `C650_LIMITS[i]` and `M750_LIMITS[i]` for i < 6, and the configuration always provides them.
- SolveMapping.Solve: numpy behaviour on ragged rows is a `MalformedColumns` failure, and in the comparison script a `RaggedRows` failure (`CompareTrajectories.ReadCsv`). numpy's exact error text and dtype rules are not modelled.
- Mapping.ProcessGripper: requires distinct gripper endpoints; equal ones make `map_value` raise ZeroDivisionError (utils/mapping.py:10). The shipped endpoints (config.py:6-7) are distinct.
- SetLimits.ConfigBlock: `f"{mn:.1f}"` is modelled for integers only (digits followed by `.0`). That is all the learner writes, since the limits come from floor and ceiling.
- SetLimits.Learn: the `KeyboardInterrupt` that ends the loop is the end of the input sequence.
- RangeMonitor.Monitor: the `KeyboardInterrupt` that ends the loop is likewise the end of the input sequence. A reading interrupted mid-call is not modelled.
- Mimick.Teleop: the `OSError` retry counter (control_scripts/mimick.py:141-148) and the serial writes are left out. The loop is modelled on the frames that were read.
- Aliasing is not modelled: lists are Dafny sequences. `list(angles)` copies in the source, so no sharing is lost.
- Concurrency and the GUIs are left out: the monitor thread and the Tk scripts fall outside this core.
