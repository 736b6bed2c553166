# smart-edit in Dafny

smart-edit turns a transcribed video into an edit. This project models four parts of it and proves properties of them.

- **The edit-script engine.** It gives every transcript segment a cut decision: KEEP, REMOVE or SPEED_UP, with a reason, a confidence and a speed factor. Rules make the first verdict, and an analysis of the content can override it. The engine then softens the decisions when too little is kept, adds fades at sentence boundaries, forces a keep when nothing is kept and repairs bad timings. Finally it derives the transitions, the pacing adjustments, the final duration and the compression ratio, and packs everything into an edit script.
- **Camera-angle assignment.** It puts every kept cut of an edit script on one of several cameras, using one of four strategies: single camera, round robin, speaker based or smart. A report summarises the result: usage per camera, the number of switches and a balance score.
- **The project models.** These are video files and their camera ids, processing progress and results, export options, and the project container with its add, remove, camera-mapping and validation operations.
- **The numbers of the XML export.** This covers which segments are exported, the clip frames, the timeline positions and the sequence lengths for single-camera and multicam projects.

The modules follow the source files:

| file | module | models |
|---|---|---|
| wrappers.dfy | `Wrappers` | `Option` and `Result` |
| text.dfy | `Text` | Python's `str.strip`, `str.endswith` and `isupper`, and decimal rendering |
| script_generation.dfy | `ScriptGeneration` | `smart_edit/script_generation.py` |
| angle_assignment.dfy | `AngleAssignment` | `smart_edit/angle_assignment.py` |
| models.dfy | `Models` | `smart_edit/core/models.py` |
| xml_export.dfy | `XmlExport` | the arithmetic of `smart_edit/xml_export.py` |

**The source's own shape.** The source changes its lists and objects in place, and the model does the same.

- The decision list of an edit script is an `array<CutDecision>`.
- The engine's passes (`_optimize_decisions`, `_ensure_smooth_transitions`, `_validate_decisions`) and the assignment strategies update that array element by element.
- Each of those methods is proved equal to a function of the old contents, for example `Smoothed`, `Validated` or `RoundRobinCuts`. The lemmas about those functions state what the source promises.
- The project is a class whose `videoFiles` sequence `AddVideoFile` and `RemoveVideoFile` reassign.
- The loops that only compute a value are methods with loop invariants, each proved equal to its specification function. These are the rule-based analysis, transitions, pacing, duration metrics, the usage tally, the clip placement and the maximum end time.

**The analysis service is an input.** It is the parameter `aiAnswer` of `GenerateScript`: `None` stands for a failed call or unusable JSON, and `Some(a)` for the parsed lists. When the service is disabled or fails, the rule-based analysis is used, as in the source.

**The code is followed over the docstrings.**

- An empty transcript makes `_optimize_decisions` divide by zero. `GenerateScript` returns `Failure` for it, and `OptimizeDecisions` reports `ok == false`.
- `_assign_smart` counts kept cuts since the last switch. The model keeps those counters exactly as the code does, with -999 as the initial switch position.

## Model

| member | source | states |
|---|---|---|
| Text.TrimEnd | smart_edit/script_generation.py:357 | the result is a prefix of the text, everything dropped is whitespace, and it does not end in whitespace |
| Text.TrimStart | smart_edit/script_generation.py:357 | the result is a suffix of the text, everything dropped is whitespace, and it does not start with whitespace |
| Text.Strip | smart_edit/script_generation.py:357 | `str.strip()`: whitespace dropped from both ends |
| Text.IsSpace | smart_edit/script_generation.py:357 | the characters `str.isspace` accepts |
| Text.IsUpper | smart_edit/script_generation.py:426 | `isupper` of one character, for ASCII capitals |
| Text.StripEndsWith | smart_edit/script_generation.py:424 | `strip().endswith(c)` for a visible character depends only on the last non-blank character |
| Text.NatToString | smart_edit/core/models.py:348 | the decimal rendering is non-empty and all digits, and has one digit exactly below 10 |
| Text.NatToStringInjective | smart_edit/core/models.py:348 | different numbers render differently, which makes the generated camera names distinct |
| ScriptGeneration.FillerRule | smart_edit/script_generation.py:337-338 | filler removal is on, the segment has filler, and it is not a main point or topic introduction |
| ScriptGeneration.PauseRule | smart_edit/script_generation.py:344-345 | pause removal is on and the pause after the segment exceeds the threshold |
| ScriptGeneration.IsImportantContent | smart_edit/script_generation.py:351 | the content type is main point, topic introduction or conclusion |
| ScriptGeneration.IsQuestion | smart_edit/script_generation.py:357 | the stripped text ends with a question mark |
| ScriptGeneration.SlowRule | smart_edit/script_generation.py:363 | slow speech that is not a conclusion |
| ScriptGeneration.EarlierRuleFires | smart_edit/script_generation.py:337-361 | one of the four rules tried before the slow-speech rule applies |
| ScriptGeneration.RuleVerdict | smart_edit/script_generation.py:328-367 | the rule chain removes exactly when the filler or long-pause rule fires, with high confidence; important content and questions that are not removed are high-confidence keeps; it speeds up exactly when no earlier rule fires and the speech is slow and not a conclusion, at `min(1.2, max_speed_increase)` with medium confidence; when no rule fires it is the medium-confidence default keep at speed 1 |
| ScriptGeneration.AnalyzeSegment | smart_edit/script_generation.py:324-388 | an id in the key list is a high-confidence KEEP; an id only in the removable list is a medium-confidence REMOVE; otherwise the rule verdict stands; a speed factor is present exactly for speed changes; the decision copies the segment's id, times and text |
| ScriptGeneration.InitialDecisions | smart_edit/script_generation.py:291-293 | one decision per segment |
| ScriptGeneration.CountAction | smart_edit/script_generation.py:308 | the number of decisions with an action, never more than there are decisions |
| ScriptGeneration.CountActionZero | smart_edit/script_generation.py:307 | the count of an action is zero exactly when no decision has it |
| ScriptGeneration.KeptAndRemovedBounded | smart_edit/script_generation.py:178-179 | the kept and removed counts together never exceed the number of decisions |
| ScriptGeneration.CountActionSameActions | smart_edit/script_generation.py:395 | the action counts depend only on the actions |
| ScriptGeneration.KeepRatioLow | smart_edit/script_generation.py:395-397 | fewer than 30% of the decisions are KEEP |
| ScriptGeneration.IsSoftRemove | smart_edit/script_generation.py:400-401 | a remove that is not high-confidence |
| ScriptGeneration.Softened | smart_edit/script_generation.py:397-404 | each remove that is not high-confidence becomes a low-confidence keep with the conservative suffix on its reason; everything else is unchanged; afterwards every remove is high-confidence |
| ScriptGeneration.Soften | smart_edit/script_generation.py:400-404 | a remove that is not high-confidence becomes a low-confidence keep with the conservative suffix; anything else is unchanged |
| ScriptGeneration.SentenceBreak | smart_edit/script_generation.py:420-426 | two kept decisions where the first ends a sentence and the second starts with a capital |
| ScriptGeneration.SoftenedCounts | smart_edit/script_generation.py:397-404 | softening moves exactly the soft removes from the remove count to the keep count |
| ScriptGeneration.Smoothed | smart_edit/script_generation.py:411-431 | only fade durations change, a fade is only added to a kept decision, both sides of every sentence boundary get the 0.3 s fade, and no other decision changes |
| ScriptGeneration.FadedByStep | smart_edit/script_generation.py:414-429 | looking at boundary `i` adds only decisions `i` and `i + 1` to the faded set, and only at a sentence break |
| ScriptGeneration.FadedUpToStep | smart_edit/script_generation.py:414-429 | one loop step fades both sides of a sentence break and nothing else |
| ScriptGeneration.FadedUpToAll | smart_edit/script_generation.py:414-431 | after the last adjacent pair, every sentence boundary has been faded |
| ScriptGeneration.EnsureSmoothTransitions | smart_edit/script_generation.py:411-431 | the in-place pass leaves the array equal to the smoothed list |
| ScriptGeneration.OptimizeDecisions | smart_edit/script_generation.py:390-409 | on a non-empty list the array becomes the optimised list; an empty list is the division-by-zero error and is left unchanged |
| ScriptGeneration.Optimized | smart_edit/script_generation.py:390-409 | softening when fewer than 30% are kept, then smoothing; one decision per input decision |
| ScriptGeneration.OptimizedAt | smart_edit/script_generation.py:390-409 | optimising changes only the action, reason, confidence and fade of a decision; it ends up KEEP exactly when it was kept, or was a soft remove while fewer than 30% were kept |
| ScriptGeneration.ForceKeep | smart_edit/script_generation.py:312-314 | the forced low-confidence keep with its fixed reason |
| ScriptGeneration.FixTiming | smart_edit/script_generation.py:318-320 | an end time not after the start becomes the start plus 0.1 s |
| ScriptGeneration.Validated | smart_edit/script_generation.py:303-322 | every end time follows its start, and only bad timings are repaired, by 0.1 s; when nothing was kept the first decision is forced to a low-confidence KEEP and the rest are untouched |
| ScriptGeneration.ValidatedHasKeep | smart_edit/script_generation.py:307-314 | a validated non-empty list always keeps something |
| ScriptGeneration.ValidatedAt | smart_edit/script_generation.py:303-322 | each decision keeps its start and changes only its end, except the one forced keep |
| ScriptGeneration.ValidateDecisions | smart_edit/script_generation.py:303-322 | the in-place pass leaves the array equal to the validated list |
| ScriptGeneration.GenerateCutDecisions | smart_edit/script_generation.py:287-301 | it succeeds exactly on a non-empty transcript, with the analysed, optimised and validated decisions |
| ScriptGeneration.CutDecisionsFor | smart_edit/script_generation.py:287-301 | the engine yields one decision per segment |
| ScriptGeneration.CutDecisionTrace | smart_edit/script_generation.py:287-301 | each output decision is the rule-chain decision for its segment, with only the repaired end, a softened soft remove or the one forced keep as differences |
| ScriptGeneration.CutDecisionsShape | smart_edit/script_generation.py:291-320 | the output is numbered by position, keeps each segment's start and text, and has well-formed timings |
| ScriptGeneration.CutDecisionsKeepSomething | smart_edit/script_generation.py:307-314 | the engine always keeps at least one segment |
| ScriptGeneration.KeySegmentKept | smart_edit/script_generation.py:370-373 | a segment the analysis calls key is always a high-confidence KEEP in the output |
| ScriptGeneration.RemovableSegmentOutcome | smart_edit/script_generation.py:374-377 | a segment listed only as removable is removed, or is a low-confidence keep after softening or forcing |
| ScriptGeneration.SpeedFactorsKept | smart_edit/script_generation.py:363-367 | the output never slows down, and every speed-up carries `min(1.2, max_speed_increase)` |
| ScriptGeneration.SlowSegmentSpedUp | smart_edit/script_generation.py:287-301 | a slow, non-conclusion segment that no earlier rule and no analysis list claims is a speed-up in the engine's output, at `min(1.2, max_speed_increase)` |
| ScriptGeneration.IdsWhere | smart_edit/script_generation.py:241-247 | the ids listed are exactly those whose segment matches, in increasing order |
| ScriptGeneration.IsKeyContent | smart_edit/script_generation.py:242 | a main point or topic introduction |
| ScriptGeneration.IsRemovableContent | smart_edit/script_generation.py:244 | not key, and with filler or of supporting type |
| ScriptGeneration.IsTransitionContent | smart_edit/script_generation.py:246 | neither key nor removable, and of transition type |
| ScriptGeneration.RuleBasedContentAnalysis | smart_edit/script_generation.py:235-256 | the one-pass loop builds the three rule-based id lists |
| ScriptGeneration.RuleBasedAnalysisPartition | smart_edit/script_generation.py:241-247 | the key, removable and transition lists are disjoint and sorted |
| ScriptGeneration.RuleBasedAnalysis | smart_edit/script_generation.py:235-256 | the three id lists of the rule-based analysis |
| ScriptGeneration.ChosenAnalysis | smart_edit/script_generation.py:196-233 | the service's answer when it is enabled and answered, the rule-based analysis otherwise |
| ScriptGeneration.FillerRemovedWithoutAnalysisService | smart_edit/script_generation.py:244-245 | under the rule-based analysis, a filler segment that is not a main point is removed even with filler removal switched off |
| ScriptGeneration.EditedDecisions | smart_edit/script_generation.py:440 | the edited decisions are exactly the KEEP, SPEED_UP and SLOW_DOWN ones, in order |
| ScriptGeneration.EditedDecisionsAppend | smart_edit/script_generation.py:440 | selecting the edited decisions distributes over concatenation and keeps or drops a single decision by its action, so order and multiplicity are kept |
| ScriptGeneration.InEdit | smart_edit/script_generation.py:440 | KEEP, SPEED_UP or SLOW_DOWN |
| ScriptGeneration.TransitionBetween | smart_edit/script_generation.py:447-467 | a gap over 1 s gives a 0.5 s fade; otherwise a sentence end gives a 0 s cut, and anything else a 0.3 s cross fade; the transition joins the two segment ids |
| ScriptGeneration.GenerateTransitions | smart_edit/script_generation.py:433-469 | no transitions when disabled; otherwise exactly one per consecutive pair of edited decisions |
| ScriptGeneration.TransitionsOf | smart_edit/script_generation.py:433-469 | the transitions are empty when disabled, and otherwise one per consecutive pair of edited decisions |
| ScriptGeneration.SpeedOrOne | smart_edit/script_generation.py:479 | `speed_factor or 1.0`: an absent or zero factor reads as 1, so the factor is never zero |
| ScriptGeneration.Adjustment | smart_edit/script_generation.py:478-488 | the adjustment of one decision: its length, that length divided by the factor, the factor and the reason |
| ScriptGeneration.AdjustmentScales | smart_edit/script_generation.py:477-488 | the suggested duration played at the factor lasts the original duration |
| ScriptGeneration.PacingAdjustments | smart_edit/script_generation.py:471-490 | one adjustment per speed-changing decision |
| ScriptGeneration.PacingAdjustmentsFromSpeedChanges | smart_edit/script_generation.py:476-488 | every adjustment is the adjustment of some speed-changing decision |
| ScriptGeneration.AdjustmentFor | smart_edit/script_generation.py:478-488 | one adjustment: the suggested duration played at its factor lasts the original duration |
| ScriptGeneration.GeneratePacingAdjustments | smart_edit/script_generation.py:471-490 | the loop produces exactly those adjustments |
| ScriptGeneration.SegmentDuration | smart_edit/script_generation.py:501-505 | a decision that is not removed lasts its length, divided by its speed factor when it changes speed |
| ScriptGeneration.EffectiveDuration | smart_edit/script_generation.py:497-507 | 0 for a removed decision; its length divided by the factor for a speed change; otherwise its length |
| ScriptGeneration.FinalDuration | smart_edit/script_generation.py:495-507 | the sum of the effective durations |
| ScriptGeneration.FinalDurationStep | smart_edit/script_generation.py:497-507 | loop step of `CalculateDurationMetrics`: the sum over a prefix grows by the next decision's effective duration |
| ScriptGeneration.CalculateDurationMetrics | smart_edit/script_generation.py:492-511 | the final duration is the sum of effective durations; the ratio times the original duration is the final duration, and it is 0 without a positive original duration |
| ScriptGeneration.FinalDurationAllKept | smart_edit/script_generation.py:498-507 | with nothing removed or re-timed, the edit lasts the full span |
| ScriptGeneration.FinalDurationAtMostSpan | smart_edit/script_generation.py:498-507 | with good timings and speed-ups only, the edit is never longer than its material |
| ScriptGeneration.FinalDurationPositive | smart_edit/script_generation.py:498-507 | non-negative durations with one positive give a positive total |
| ScriptGeneration.FinalDurationNonNegative | smart_edit/script_generation.py:498-507 | non-negative effective durations give a non-negative total |
| ScriptGeneration.CutDecisionsLastPositiveTime | smart_edit/script_generation.py:287-301 | the engine's edit of a non-empty transcript lasts a positive time |
| ScriptGeneration.EffectiveDurationNonNegative | smart_edit/script_generation.py:500-507 | a well-timed decision never lasts a negative time, and a kept one lasts a positive time |
| ScriptGeneration.EditScript.constructor | smart_edit/script_generation.py:76-84 | the script holds exactly the fields it is built from |
| ScriptGeneration.GenerateScript | smart_edit/script_generation.py:142-194 | fails exactly on an empty transcript; otherwise the script's cuts, transitions, pacing, durations, compression ratio and metadata counts all derive from the engine's decisions under the chosen analysis |
| AngleAssignment.KeptCuts | smart_edit/angle_assignment.py:125 | only KEEP and SPEED_UP cuts, in order |
| AngleAssignment.IsKept | smart_edit/angle_assignment.py:72 | KEEP or SPEED_UP |
| AngleAssignment.KeptCutsAppend | smart_edit/angle_assignment.py:125 | filtering distributes over concatenation |
| AngleAssignment.KeptCutsAt | smart_edit/angle_assignment.py:125-127 | the kept cut at a position is the kept cut of its rank |
| AngleAssignment.SingleCameraCuts | smart_edit/angle_assignment.py:69-78 | every kept cut goes on the one camera, and other cuts are untouched |
| AngleAssignment.AssignSingleCamera | smart_edit/angle_assignment.py:69-78 | the in-place pass yields the single-camera list |
| AngleAssignment.RoundRobinCuts | smart_edit/angle_assignment.py:80-94 | every kept cut goes on the camera of its rank modulo the camera count; one cut per input cut |
| AngleAssignment.RoundRobinCutsIndex | smart_edit/angle_assignment.py:84-91 | loop step of `AssignRoundRobinAt`: position `j` of the round-robin list is the cut the loop writes there |
| AngleAssignment.AssignRoundRobinAt | smart_edit/angle_assignment.py:84-91 | one loop step assigns one position and advances the index modulo the camera count |
| AngleAssignment.AssignRoundRobin | smart_edit/angle_assignment.py:80-94 | the in-place pass yields the round-robin list |
| AngleAssignment.RoundRobinAlternates | smart_edit/angle_assignment.py:80-94 | with two or more cameras, consecutive kept cuts never share a camera index |
| AngleAssignment.KeptRankSkips | smart_edit/angle_assignment.py:85 | positions without a kept cut leave the index unchanged |
| AngleAssignment.SpeakerNext | smart_edit/angle_assignment.py:102-113 | the camera advances modulo the count exactly when there was a last speaker and the speaker differs; the speaker is remembered |
| AngleAssignment.SpeakerRun | smart_edit/angle_assignment.py:96-116 | the index stays within the cameras, starts at 0, and the last speaker is that of the last kept cut |
| AngleAssignment.SpeakerSwitchesExactlyOnChange | smart_edit/angle_assignment.py:104-106 | with two or more cameras, the camera changes between consecutive kept cuts if and only if the speaker changes |
| AngleAssignment.SpeakerCutsStep | smart_edit/angle_assignment.py:101-113 | one position of the pass: an unkept cut is untouched; a kept cut advances the speaker state and takes its camera |
| AngleAssignment.SpeakerCuts | smart_edit/angle_assignment.py:96-116 | the speaker-based list: one cut per input cut |
| AngleAssignment.AssignSpeakerAt | smart_edit/angle_assignment.py:101-113 | one loop step assigns one position and returns the speaker state after it |
| AngleAssignment.AssignSpeakerBased | smart_edit/angle_assignment.py:96-116 | the in-place pass yields the speaker-based list |
| AngleAssignment.ProposedSwitch | smart_edit/angle_assignment.py:135-159 | the first of speaker change, important content, maximum run and variety that applies |
| AngleAssignment.SwitchesAt | smart_edit/angle_assignment.py:161-170 | a proposed switch is carried out unless ping-pong avoidance vetoes it, which it never does for a speaker change |
| AngleAssignment.SmartStep | smart_edit/angle_assignment.py:169-182 | a switch advances the camera modulo the count, resets the run and records the rank; the run then grows by one and the speaker is remembered |
| AngleAssignment.SmartRun | smart_edit/angle_assignment.py:120-182 | the smart state after the first `k` kept cuts; its camera index lies within the cameras |
| AngleAssignment.SmartRunInvariant | smart_edit/angle_assignment.py:118-182 | the last switch is at an earlier rank, and the cuts on the current camera are at least one and at most the cuts since that switch |
| AngleAssignment.SmartSpeakerChangeSwitches | smart_edit/angle_assignment.py:136-140 | a change of speaker always switches to the next camera, even right after another switch |
| AngleAssignment.SmartPingPongSuppressed | smart_edit/angle_assignment.py:161-167 | right after a switch, only a speaker change can switch again |
| AngleAssignment.SmartRunBounded | smart_edit/angle_assignment.py:150-152 | no camera holds more than the maximum kept cuts in a row |
| AngleAssignment.SmartSameCameraGrowsRun | smart_edit/angle_assignment.py:170-181 | staying on a camera lengthens its run by one |
| AngleAssignment.SmartSteadyRunGrows | smart_edit/angle_assignment.py:170-181 | `m` steps without a switch give a run of at least `m + 1` |
| AngleAssignment.SmartNoLongRuns | smart_edit/angle_assignment.py:150-152 | among any maximum + 1 consecutive kept cuts the camera changes at least once |
| AngleAssignment.SmartCutsStep | smart_edit/angle_assignment.py:127-182 | one position of the pass: an unkept cut is untouched; a kept cut takes the camera of the smart state after it |
| AngleAssignment.SmartCuts | smart_edit/angle_assignment.py:118-191 | the smart list: one cut per input cut |
| AngleAssignment.DecideSwitch | smart_edit/angle_assignment.py:128-167 | the first applicable reason is proposed, ping-pong may veto it but never a speaker change, and a switch always has a reason |
| AngleAssignment.AssignSmartAt | smart_edit/angle_assignment.py:127-182 | one loop step assigns one position and returns the smart state and kept rank after it |
| AngleAssignment.AssignSmart | smart_edit/angle_assignment.py:118-191 | the in-place pass yields the smart list |
| AngleAssignment.ResolveStrategy | smart_edit/angle_assignment.py:59 | the given strategy name, or the default when it is absent or empty |
| AngleAssignment.AssignedCuts | smart_edit/angle_assignment.py:34-67 | the cut list after assignment, one cut per input cut |
| AngleAssignment.AssignAngles | smart_edit/angle_assignment.py:34-67 | no cameras leave the cuts unchanged; one camera assigns it to all; otherwise the given strategy, or the default one, is dispatched |
| AngleAssignment.AssignmentTouchesOnlyKeptCuts | smart_edit/angle_assignment.py:34-191 | under every strategy an unkept cut is unchanged, and a kept cut changes only its camera id, to one of the given ids |
| AngleAssignment.Bump | smart_edit/angle_assignment.py:208 | bumping adds at most one entry |
| AngleAssignment.BumpCounts | smart_edit/angle_assignment.py:208 | bumping adds the camera to the keys, keeps them distinct and raises only its count, by one |
| AngleAssignment.CamerasOf | smart_edit/angle_assignment.py:205-207 | the non-empty camera ids of the kept cuts, in order |
| AngleAssignment.SwitchCount | smart_edit/angle_assignment.py:209-210 | the number of adjacent camera ids that differ |
| AngleAssignment.UsageOf | smart_edit/angle_assignment.py:205-208 | the usage table built by bumping each camera in turn |
| AngleAssignment.BalanceScore | smart_edit/angle_assignment.py:213-221 | 0 without usage; 1 with one camera; otherwise 1 minus the spread of counts over the total |
| AngleAssignment.UsageSumsToCameras | smart_edit/angle_assignment.py:205-211 | the usage counts add up to the number of cameras tallied |
| AngleAssignment.UsageCountsOccurrences | smart_edit/angle_assignment.py:205-211 | the usage table lists each tallied camera once, with its number of occurrences |
| AngleAssignment.UsageEntriesCount | smart_edit/angle_assignment.py:205-211 | each usage entry holds its camera's number of occurrences |
| AngleAssignment.CountsBounded | smart_edit/angle_assignment.py:215-217 | the smallest count is at most the largest, and the largest at most the total |
| AngleAssignment.BalanceInUnitInterval | smart_edit/angle_assignment.py:213-221 | the balance score lies in [0, 1] |
| AngleAssignment.SwitchCountBounded | smart_edit/angle_assignment.py:209-210 | there are fewer switches than cameras |
| AngleAssignment.CameraAppend | smart_edit/angle_assignment.py:206-211 | one more camera bumps its usage, and adds a switch exactly when it differs from the last one |
| AngleAssignment.AnalysisOf | smart_edit/angle_assignment.py:193-230 | the report is the no-kept-cuts error exactly when there are no kept cuts |
| AngleAssignment.AnalysisCounts | smart_edit/angle_assignment.py:201-230 | the report counts every kept cut, and its usage table holds each camera once with its number of cuts, together at most the kept cuts |
| AngleAssignment.AnalysisRatios | smart_edit/angle_assignment.py:213-230 | there are fewer switches than kept cuts, at least one kept cut per switch, and the balance lies in [0, 1] |
| AngleAssignment.TallyCameras | smart_edit/angle_assignment.py:201-211 | the loop computes the usage table and the switch count of the cameras |
| AngleAssignment.AnalyzeAssignment | smart_edit/angle_assignment.py:193-230 | the method returns the report of the script's kept cuts |
| Models.FileName | smart_edit/core/models.py:68 | `Path(p).name`: after trailing separators are dropped, the longest suffix without a separator, preceded by a separator when shorter; empty only for a path of separators |
| Models.TrimSlashes | smart_edit/core/models.py:68 | a prefix of the path without trailing separators |
| Models.AfterLastSlash | smart_edit/core/models.py:74-76 | `os.path.basename`: the longest suffix without a separator, preceded by a separator when shorter, so empty after a trailing separator |
| Models.AfterLastSlashJoin | smart_edit/core/models.py:74-76 | the base name of `dir/name` is `name` |
| Models.FileNameOfJoin | smart_edit/core/models.py:68 | the name of `dir/name` and of `dir/name/` is `name` |
| Models.LastDot | smart_edit/core/models.py:68 | the last dot of the name, or -1 when there is none |
| Models.StemOfName | smart_edit/core/models.py:68 | the stem of a name drops exactly the suffix after its last dot, and only when that dot is neither first nor last |
| Models.Stem | smart_edit/core/models.py:68 | `Path(p).stem`: a prefix of the file name that differs from it exactly when the last dot is neither first nor last |
| Models.StemOfNameDropsSuffix | smart_edit/core/models.py:68 | the stem of the name `base.ext`, with a non-empty base and a dot-free extension, is `base` |
| Models.StemOfJoin | smart_edit/core/models.py:66-68 | a file at `dir/base.ext` gets the camera id `base` when none is given: its stem is `base` |
| Models.NewVideoFile | smart_edit/core/models.py:54-71 | a missing or empty camera id becomes the path's stem; a given one is kept |
| Models.ProcessingTime | smart_edit/core/models.py:106-110 | the time is present exactly when both times are set and non-zero, and is then their difference |
| Models.IsComplete | smart_edit/core/models.py:95-98 | the stage is COMPLETED |
| Models.IsFailed | smart_edit/core/models.py:100-103 | the stage is FAILED |
| Models.SuccessResult | smart_edit/core/models.py:263-272 | a successful result carries its arguments and no error |
| Models.ErrorResult | smart_edit/core/models.py:274-282 | a failed result carries the error, and its message falls back to the error's text |
| Models.ValidateExportOptions | smart_edit/core/models.py:296-311 | the FPS error appears exactly for a non-positive rate and comes first; the size error appears exactly for a non-positive width or height |
| Models.CameraMapping | smart_edit/core/models.py:213-219 | the mapping from camera id to path, built in file order over the files with both |
| Models.CameraMappingDomain | smart_edit/core/models.py:213-219 | the mapping's keys are exactly the camera ids of files with both an id and a path |
| Models.CameraMappingLastWins | smart_edit/core/models.py:216-218 | a later file with the same camera id overwrites an earlier one |
| Models.FirstWithPath | smart_edit/core/models.py:207-208 | the first file with the path, or -1 when there is none |
| Models.FirstMatchIsFirstWithPath | smart_edit/core/models.py:206-208 | any file that matches with no match before it is the one `FirstWithPath` finds |
| Models.RemoveFirst | smart_edit/core/models.py:205-211 | only the first file with the path is taken out; nothing changes when there is none |
| Models.SmartEditProject.constructor | smart_edit/core/models.py:160-168 | a project created with more than one file is multicam, and `IsMulticam` holds exactly with several files or a multicam type |
| Models.SmartEditProject.IsMulticam | smart_edit/core/models.py:175-178 | more than one file, or a multicam project type |
| Models.SmartEditProject.AddVideoFile | smart_edit/core/models.py:194-203 | the new file is appended, a single-camera project with several files becomes multicam, and the project is then multicam exactly when it has several files or already had the multicam type |
| Models.SmartEditProject.Append | smart_edit/core/models.py:197-201 | the list update and type promotion of adding a file |
| Models.SmartEditProject.RemoveVideoFile | smart_edit/core/models.py:205-211 | it reports whether some file had the path, removes only the first such file, and a multicam-typed project stays multicam |
| Models.SmartEditProject.GetCameraMapping | smart_edit/core/models.py:213-219 | the loop builds the camera mapping of the files |
| Models.SmartEditProject.Validate | smart_edit/core/models.py:221-235 | the no-files error appears exactly when there are no files; the empty-name error appears exactly when the name is blank |
| Models.AddThenRemove | smart_edit/core/models.py:194-211 | adding a file with a new path and removing that path restores the list |
| Models.CameraName | smart_edit/core/models.py:348 | the camera name is never empty |
| Models.CameraNamesDistinct | smart_edit/core/models.py:348 | with several videos the camera names are pairwise different |
| Models.ProjectFiles | smart_edit/core/models.py:347-349 | one file per path, in order, each with its camera name |
| Models.ProjectFilesStep | smart_edit/core/models.py:347-349 | loop step of `CreateProjectFromVideos`: the files for one more path extend the prefix by that path's file |
| Models.CreateProjectFromVideos | smart_edit/core/models.py:326-351 | the project holds the given name and those files, and is multicam exactly with more than one path |
| Models.CreatedProjectMapping | smart_edit/core/models.py:326-351 | in a project created from several paths, `Camera_<i+1>` maps to the `i`-th non-empty path |
| XmlExport.TruncBounds | smart_edit/xml_export.py:140-141 | `int(x)` moves toward zero by less than one |
| XmlExport.TruncMonotonic | smart_edit/xml_export.py:140-141 | `int(x)` never reverses an order |
| XmlExport.Trunc | smart_edit/xml_export.py:140-141 | Python's `int(x)`: truncation toward zero |
| XmlExport.ToFrames | smart_edit/xml_export.py:140-141 | seconds times the frame rate, truncated |
| XmlExport.NtscFlag | smart_edit/xml_export.py:43 | the NTSC flag is TRUE exactly for 24, 30 and 60 fps |
| XmlExport.NewXmlExporter | smart_edit/xml_export.py:38-43 | the exporter keeps its rate and size, and sets the NTSC flag by the rate |
| XmlExport.IsExportable | smart_edit/xml_export.py:91-97 | a segment that is kept (by default) and lasts more than 0.1 s |
| XmlExport.ExportableSegments | smart_edit/xml_export.py:88-99 | exactly the kept segments longer than 0.1 s are chosen |
| XmlExport.ExportableSegmentsAppend | smart_edit/xml_export.py:88-99 | choosing the exportable segments distributes over concatenation and keeps or drops a single segment, so order and multiplicity are kept |
| XmlExport.SelectionFallback | smart_edit/xml_export.py:81-105 | the exportable segments are used, or all segments when none is exportable; the selection is empty only without segments |
| XmlExport.SelectedSegments | smart_edit/xml_export.py:81-105 | nothing without a segment list; the exportable segments, or all segments when none is exportable |
| XmlExport.GetValidSegments | smart_edit/xml_export.py:81-105 | the loop yields that selection |
| XmlExport.MaxEndTime | smart_edit/xml_export.py:122-126 | the maximum is non-negative and bounds every end time |
| XmlExport.MaxEndTimeAttained | smart_edit/xml_export.py:122-126 | the maximum is 0 or some segment's end time |
| XmlExport.SourceDurationFrames | smart_edit/xml_export.py:123-128 | the largest end time plus five minutes, in frames |
| XmlExport.Spans | smart_edit/xml_export.py:136-141 | one frame span per segment, converted with `int(t * fps)` |
| XmlExport.Clips | smart_edit/xml_export.py:135-216 | the clips of the spans with a positive frame length, at most one per span |
| XmlExport.PlaceSpan | smart_edit/xml_export.py:143-216 | a step either skips the span or appends exactly one clip |
| XmlExport.ClipsMatchSpans | smart_edit/xml_export.py:135-216 | every clip copies its span's frames, has a positive length and ends `duration` frames after it starts |
| XmlExport.ClipsEndToEnd | smart_edit/xml_export.py:133-216 | the clips are laid end to end from frame 0, in segment order |
| XmlExport.TimelineTotal | smart_edit/xml_export.py:216-219 | the sequence length is the sum of clip durations, and each clip lasts at least one frame |
| XmlExport.ClipsCoverPositiveSpans | smart_edit/xml_export.py:143-144 | a segment gets a clip exactly when its frame length is positive |
| XmlExport.MasterClipCoversClips | smart_edit/xml_export.py:122-141 | a clip's out frame never runs past the master clip's length |
| XmlExport.MaxSegmentEnd | smart_edit/xml_export.py:122-126 | the loop computes the maximum end time |
| XmlExport.PlaceClips | smart_edit/xml_export.py:133-216 | the clip loop yields the clips and ends at their total length |
| XmlExport.CreateSingleCamTimeline | smart_edit/xml_export.py:107-219 | the single-camera numbers: master clip length, clips and total length |
| XmlExport.MulticamDurationFrames | smart_edit/xml_export.py:436-446 | the largest end time in frames, or ten minutes when it is not positive |
| XmlExport.MulticamNeverEmpty | smart_edit/xml_export.py:442-446 | with a positive rate the multicam sequence is never negative, and is non-empty without positive end times |
| XmlExport.CreateMulticamDuration | smart_edit/xml_export.py:436-446 | the loop computes that length |
| XmlExport.ExportScript | smart_edit/xml_export.py:45-79 | fails without paths or without segments; succeeds exactly when there is something to export and the file was written, with the single-camera layout for one path and the multicam length otherwise |
| XmlExport.ExportNeedsOnlySegments | smart_edit/xml_export.py:101-103 | a script with any segment always has something to export |

## Left out

- The analysis service call: the prompt, the HTTP request and JSON parsing are not modelled. The service's parsed answer is the input `aiAnswer`.
- The service's parsed answer is assumed to be a JSON object whose present keys hold lists of integer ids; a missing key reads as an empty list, as `dict.get(..., [])` does. An answer that is not an object, or a `null`, number or string under one of those keys, makes `_generate_cut_decisions` raise in the source; these answers are not modelled.
- Saving the script as JSON, the module-level convenience wrappers, and logging are not modelled.
- XML text, uuids and file URIs are not modelled, and neither is writing the file. `ExportScript` takes the outcome of `_save_xml` as the boolean `saved`.
- The multicam `try/except` that falls back to the single-camera XML is not modelled: the multicam arithmetic raises nothing here.
- Time, the clock, `generation_time`, `created_date`, the output directory and `ProjectSettings` are not modelled.
- `get_status_summary` and `validate_video_file` are not modelled.
- VideoFile size and existence are not modelled.
- Models.SmartEditProject.Validate: does not check that each video file exists on disk, because the filesystem is not modelled.
- Models.ValidateExportOptions: does not check that the output directory exists, because the filesystem is not modelled.
- Models.FileName: paths use '/' as the only separator, and the path normalisation of `pathlib` (such as dropping `.` components) is not modelled.
- Models.Stem: the same separator and normalisation limits apply.
- Text.IsUpper: only the ASCII capitals 'A' to 'Z' count, while Python's `str.isupper` also accepts capitals such as 'É' or 'Ω'. So a kept decision that starts with such a capital after one ending in '.' gets the 0.3 s fades in the source but not in the model.
- Text.TrimEnd: whitespace follows `str.isspace`; no other Unicode property is modelled.
- XmlExport.MasterClipCoversClips: stated only for segments that carry an end time and a non-negative frame rate. A segment without one is given one second after its start, which can pass the maximum.
- Floating point is exact real arithmetic in the model. IEEE rounding in the 30% keep ratio, the compression ratio and the frame conversions is not modelled.
- `round(balance_score, 2)` in the assignment report is not modelled: the report holds the exact score.
- The reason text for a long pause drops the formatted pause length.
- Cut decisions are values in an array, so object identity and aliasing between the script's list and `kept_cuts` are not modelled. The smart strategy walks the full list with a kept-cut rank, which visits the kept cuts in the same order.
- The smart strategy's final usage dictionary at lines 185-188 is only logged, so it is not modelled.
