# LangGraph control-effectiveness agents, DOCX pagination and HTR dataset tools — a Dafny model

The repository is a set of independent Python scripts. This model covers six groups of them.

- **The self-reflection agent** (`self_reflection.py`). A three-stage LangGraph workflow.
  - It evaluates a control with a language model, reflects on that evaluation, then reassesses it.
  - A `State` object is mutated by each stage.
  - A truthy `error` routes the run to `END`.
  - A Streamlit page shows the results with a few display rules.
- **The control-effectiveness pipelines**, versions 2 to 5 (`effv2.py`, `effectivenessv3.py`, `eff_v4.py`, `effect_v5.py`).
  - Each is a chain of stages over a state dictionary.
  - The stages parse input, count controls or tests, call a model and format a report.
- **The DOCX paginator** (`docxparser2805.py`). It splits a document's paragraphs into numbered pages of at most ten paragraphs, then attaches the tables and the first section's footer.
- **The HTR dataset script** (`htrcode.py`). It covers:
  - loading label lists;
  - balancing the three classes;
  - the train/validation split;
  - grouping a label file by class;
  - writing the label file for generated mixed crops.
- **The mixed-crop generators** (`mixed_crop_gen_2.py`, `mixed_crop_gen_3.py`).
  - Each pads a handwritten crop and a printed crop to a common height and stacks them side by side.
  - Both files define `pad_to_height` identically; `Raster.PadToHeight` models both.

## What is an oracle here

Calls into code that is not part of the model become parameters.

- A language-model reply is `Reply = Answer(text) | Failed(message)`. An exception raised by the client is `Failed` with its `str(e)`.
  - Version 2 asks the model through `Llm`, a function from the request (task and inputs) to a `Reply`.
  - Version 5's three model calls are separate `Reply` parameters.
- `json.loads` is `Decoder`, a function from text to `Parsed(value) | DecodeError`.
- `float()` in version 4 is `FloatParser`, from text to an optional real number.
- Reading the document in version 2 is `Reader`.
- The pydantic validation of version 5's output is a `Validator`.
- OpenCV's `imread` gives `Option<Image>` (`None` for a failed load).
- Python's `random` is `Randomness`, a function whose k-th value is the k-th draw.
  - The model follows the index sequence of CPython's `random.sample` (pool method) and `random.shuffle` over that stream. The k-th index is `rand(k)` reduced by remainder into the range needed.
  - Every contract about them holds for any stream.
- `datetime.now()` is a parameter of the DOCX extraction.

The module `Py` (py_values.dfy) holds the Python semantics the scripts rely on:

- JSON values with dictionaries kept as ordered key lists;
- truthiness;
- subscripting, `.get`, `.items()` and iteration, each with the exception text Python gives;
- `str.strip` over Python's whitespace set, `split`, `join`, `lower`, `int()` and `str()`.

## Model

| member | source | states |
|---|---|---|
| Py.ReprRoundTrip | self_reflection.py:181-192 | `str()` of the KeyError on a missing key is the key's `repr`, whose body reads back as the key between the quote `repr` chose |
| Py.PlainRepr | self_reflection.py:181-192 | a key with no quote, backslash or control character is reported between single quotes, as it is |
| JsonFence.Find | self_reflection.py:89-93 | the index is the first occurrence of the pattern at or after the start, and no occurrence is skipped |
| JsonFence.SkipSpace | self_reflection.py:89-93 | the whitespace the regex's `\s*` consumes: everything skipped is space, and the stop is at the end or at a non-space |
| JsonFence.TrimEnd | self_reflection.py:89-93 | backs up over trailing whitespace: what is dropped is all space, and the new end follows a non-space or meets the start |
| JsonFence.MatchFound | self_reflection.py:89-93 | there is no fence exactly when no "```json" occurs, or no "```" occurs after the first one |
| JsonFence.MatchShape | self_reflection.py:89-93 | a match is the first "```json" and the next "```" after it; the body is surrounded only by whitespace and starts and ends with a non-space |
| JsonFence.BodyHasNoClose | self_reflection.py:89-95 | the extracted JSON text never contains "```" |
| JsonFence.MatchAt | self_reflection.py:89-95 | for the first fence, with its whitespace and body delimited, the decoded text is exactly the body |
| JsonFence.FencedRoundTrip | self_reflection.py:174-178 | text + "```json" + space + body + space + "```" + anything yields exactly the body |
| JsonFence.NoFenceWholeText | self_reflection.py:244-248 | without "```json" the whole reply is decoded |
| JsonFence.UnclosedFenceWholeText | self_reflection.py:89-95 | an opening fence with no closing one also decodes the whole reply |
| SelfReflection.ComputeScores | self_reflection.py:98-100 | the loop computes the score fold over the metrics |
| SelfReflection.ScoreFoldOk | self_reflection.py:98-100 | the score loop succeeds exactly when every metric is a dict holding a `score` |
| SelfReflection.ScoreFoldFresh | self_reflection.py:98-100 | with distinct metric names, the result keeps the earlier entries and maps each metric, in order, to its score |
| SelfReflection.RationaleLinesOk | self_reflection.py:105 | the rationale lines exist exactly when every metric has a `rationale`, and line i is "name: rationale" of metric i |
| SelfReflection.Bullets | self_reflection.py:183-184 | one "- point" line per feedback point, in order |
| SelfReflection.State.constructor | self_reflection.py:429 | the state starts as the initial snapshot of the control text |
| SelfReflection.State.Fail | self_reflection.py:111-113 | an exception sets `error` to its message and `status` to error, and nothing else changes |
| SelfReflection.State.Evaluate | self_reflection.py:25-116 | the in-place stage leaves exactly the state the evaluation step describes |
| SelfReflection.State.StoreEvaluation | self_reflection.py:102-106 | the field writes happen in source order; a failing subscript stops them after the earlier writes |
| SelfReflection.State.Reflect | self_reflection.py:119-196 | the in-place stage leaves exactly the state the reflection step describes |
| SelfReflection.State.Reassess | self_reflection.py:199-265 | the in-place stage leaves exactly the state the reassessment step describes |
| SelfReflection.EvaluateSucceeds | self_reflection.py:98-106 | evaluation ends in `evaluated` exactly when the reply decodes to a well-shaped evaluation |
| SelfReflection.EvaluateWrites | self_reflection.py:98-106 | on success `metrics_evaluation` has exactly the metric keys, each with its score, `rating` = `overall_score`, the rationale is the joined lines, and nothing else changes |
| SelfReflection.EvaluateKeepsEarlierWrites | self_reflection.py:102-104 | a reply without `overall_assessment` leaves `metrics_evaluation` and `rating` written, with error "'overall_assessment'" |
| SelfReflection.EvaluateFrame | self_reflection.py:25-116 | evaluation touches only its own fields, and ends either evaluated with the old error or in error with a message |
| SelfReflection.RecordFrame | self_reflection.py:102-106 | the write sequence touches only rating, assessment, rationale, error and status |
| SelfReflection.ReflectFrame | self_reflection.py:119-196 | reflection touches only `reflection`, `error` and `status` |
| SelfReflection.ReassessFrame | self_reflection.py:199-265 | reassessment touches only the final rating, final assessment, `error` and `status` |
| SelfReflection.DecodeFailureRecorded | self_reflection.py:111-113 | a failed model call or decode makes every stage record that message and change nothing else |
| SelfReflection.ReflectKeepsRawSummary | self_reflection.py:183-193 | a reply without `feedback_points` leaves the raw summary in `reflection` and the error "'feedback_points'" |
| SelfReflection.ReflectSucceeds | self_reflection.py:183-186 | reflection ends in `reflected` exactly when its reply is well shaped, and then stores the composed reflection text |
| SelfReflection.ReassessSucceeds | self_reflection.py:253-255 | reassessment ends in `completed` exactly when its reply is well shaped, storing `final_score` and `final_assessment` |
| SelfReflection.ReflectionLines | self_reflection.py:183-186 | the reflection text splits into summary, blank, heading, one bullet per point, blank and the changes line |
| SelfReflection.BulletsOneLine | self_reflection.py:183-184 | single-line points give single-line bullets |
| SelfReflection.BlockLayout | self_reflection.py:183-186 | splitting the composed block on newlines gives back its parts |
| SelfReflection.EvaluateAccepted | self_reflection.py:98-106 | a well-shaped evaluation reply gives `evaluated` and keeps the error field |
| SelfReflection.ReflectAccepted | self_reflection.py:183-186 | a well-shaped reflection reply gives `reflected` and keeps the error field |
| SelfReflection.ReassessAccepted | self_reflection.py:253-255 | a well-shaped reassessment reply gives `completed` and keeps the error field |
| SelfReflection.Next | self_reflection.py:284-323 | every transition strictly decreases a rank, so a run always ends |
| SelfReflection.RoutingRule | self_reflection.py:268-281 | a node routes to END exactly when `error` is truthy or the node is reassess; otherwise evaluate goes to reflect and reflect to reassess |
| SelfReflection.Nodes | self_reflection.py:437 | the visited nodes of a trace, in order |
| SelfReflection.Statuses | self_reflection.py:437 | the status after each visit, in order |
| SelfReflection.InvokeTrace | self_reflection.py:284-323 | a run starts at evaluate and stops after the first stage that leaves a truthy error |
| SelfReflection.AllStagesRun | self_reflection.py:268-281 | when neither evaluate nor reflect leaves an error, all three stages run in order |
| SelfReflection.ThreeVisits | self_reflection.py:437 | a three-visit trace's nodes and statuses in order |
| SelfReflection.LaterStagesAccepted | self_reflection.py:183-186 | accepted reflection and reassessment replies give reflected then completed and keep the error field |
| SelfReflection.HappyPath | self_reflection.py:19 | with well-shaped replies the statuses are initialized, evaluated, reflected, completed, with no error |
| SelfReflection.EmptyMessageDoesNotStop | self_reflection.py:111-113 | an exception with an empty message sets status error and error "", and the run still goes on to reflect |
| SelfReflection.EmptyMessageRunCompletes | self_reflection.py:268-271 | after such an exception the run reaches completed, still carrying error "" |
| ReflectionUi.ScoreColour | self_reflection.py:464-469 | green exactly for 4 and up, yellow exactly for 3 up to 4, red exactly below 3 |
| ReflectionUi.ColourMonotone | self_reflection.py:504-509 | a higher score never gets a worse colour band |
| ReflectionUi.DiffBadge | self_reflection.py:483-490 | a badge appears exactly when the ratings differ; it is green exactly for a rise and red exactly for a fall |
| ReflectionUi.MagnitudeOf | self_reflection.py:483-490 | the printed magnitude and its "point"/"points" word read back as the magnitude |
| ReflectionUi.DiffRoundTrip | self_reflection.py:483-490 | the badge text reads back to the signed difference |
| ReflectionUi.DiffPlural | self_reflection.py:483-490 | the text ends in "s" exactly when the difference exceeds 1 in magnitude |
| ReflectionUi.RowsOf | self_reflection.py:544-552 | at most one row per line |
| ReflectionUi.MetricLineRow | self_reflection.py:544-552 | a "metric: rationale" line with no colon in the name yields the stripped name and rationale |
| ReflectionUi.RowsOfMetricLines | self_reflection.py:544-552 | such lines yield their rows in order |
| ReflectionUi.RationaleRoundTrip | self_reflection.py:544-552 | splitting the joined rationale text gives back each metric and its rationale, in order |
| ReflectionUi.EvaluationRowsShown | self_reflection.py:105 | after a successful evaluation the page shows one row per metric with its rationale, in order |
| ControlEffectivenessV3.MetricsFields | effectivenessv3.py:12-21 | the metrics record has its eight fields |
| ControlEffectivenessV3.ClassifyRules | effectivenessv3.py:201-208 | a control counts exactly when it is a dict whose `testResult`, if present, is a string; it is key exactly when `isKey` is truthy; it lacks a result exactly when there is no `testResult`; it passed exactly when the result lower-cases to "passed" |
| ControlEffectivenessV3.ClassifyAll | effectivenessv3.py:199-228 | classifies every control, in order |
| ControlEffectivenessV3.CountFoldTally | effectivenessv3.py:199-228 | the counting loop raises exactly when some control raises, and otherwise equals the tally of the classifications |
| ControlEffectivenessV3.KeyPartition | effectivenessv3.py:199-228 | key and non-key counts add up to the number of controls |
| ControlEffectivenessV3.OutcomePartition | effectivenessv3.py:203-228 | in each class, passed + failed + without result is the class count |
| ControlEffectivenessV3.CountControlsTally | effectivenessv3.py:199-232 | every counter equals its count over the classified controls, and availability stays "complete" |
| ControlEffectivenessV3.CountControlsPartition | effectivenessv3.py:199-228 | key + non-key totals equal the number of controls, and the outcome counters partition each class |
| ControlEffectivenessV3.CountControls | effectivenessv3.py:199-228 | the loop computes the counting fold |
| ControlEffectivenessV3.CountedComplete | effectivenessv3.py:231-232 | on the counting path availability is "complete" and at least one total is positive |
| ControlEffectivenessV3.NoControlsRecorded | effectivenessv3.py:180-193 | empty or missing controls set the error, put "no data available" in all seven counts, and mark availability incomplete |
| ControlEffectivenessV3.FormatValue | effectivenessv3.py:351-358 | a value changes exactly when it is 0 under a key ending in `_total` other than `data_availability`, and then becomes "no data available" |
| ControlEffectivenessV3.FormatMetrics | effectivenessv3.py:351-358 | the loop computes the formatting fold |
| ControlEffectivenessV3.FormatFoldPointwise | effectivenessv3.py:351-358 | with distinct keys, formatting is entry by entry in order |
| ControlEffectivenessV3.KeysOfFormatted | effectivenessv3.py:351-358 | formatting keeps the key list |
| ControlEffectivenessV3.FormatIdempotent | effectivenessv3.py:410-417 | formatting twice equals formatting once |
| ControlEffectivenessV3.MetricsKeysDistinct | effectivenessv3.py:12-21 | the metric field names are distinct |
| ControlEffectivenessV3.MetricsReport | effectivenessv3.py:400-419 | the metrics report, field by field: zero totals become "no data available", everything else is copied |
| ControlEffectivenessV3.MetricsFormattedPointwise | effectivenessv3.py:410-417 | the report formats each metric field by itself |
| ControlEffectivenessV3.FormattedMetricsFields | effectivenessv3.py:410-417 | the formatted fields, one by one |
| ControlEffectivenessV3.TotalSuffixes | effectivenessv3.py:351-358 | exactly the two totals end in `_total` |
| ControlEffectivenessV3.ControlEffectivenessAgent.constructor | effectivenessv3.py:89-93 | an agent starts with an empty state, zero metrics and empty results |
| ControlEffectivenessV3.ControlEffectivenessAgent.ParseInputData | effectivenessv3.py:122-165 | the stage leaves the state its parse step describes and keeps the agent fields |
| ControlEffectivenessV3.ControlEffectivenessAgent.CalculateControlMetrics | effectivenessv3.py:167-241 | it re-raises exactly when counting raises; otherwise it writes the metrics and the agent's counters |
| ControlEffectivenessV3.ControlEffectivenessAgent.EvaluateControlEffectiveness | effectivenessv3.py:243-331 | the stage leaves the state its evaluation step describes and keeps the agent fields |
| ControlEffectivenessV3.ControlEffectivenessAgent.GenerateAssessmentReport | effectivenessv3.py:333-374 | it re-raises exactly when the report raises; otherwise the report is stored in the state and in the agent |
| ControlEffectivenessV3.ControlEffectivenessAgent.GetMetricsReport | effectivenessv3.py:400-419 | the agent's counters formatted into the report |
| ControlEffectivenessV3.ControlEffectivenessAgent.Run | effectivenessv3.py:376-398 | the run is the stage chain's report |
| ControlEffectivenessV3.EvaluateGuard | effectivenessv3.py:260-264 | with empty risks or controls two different model replies give the same state: the error and rating "no data available" |
| ControlEffectivenessV3.ParseFalsy | effectivenessv3.py:136-138 | falsy input sets only "Input data not provided" |
| ControlEffectivenessV3.ParseDict | effectivenessv3.py:142-157 | a non-empty dict supplies `risks` and `controls`, each defaulting to [] |
| ControlEffectivenessV3.ParseUnsupported | effectivenessv3.py:147-149 | any other truthy type, a list included, sets "Unsupported input data type: <class>" and no risks |
| ControlEffectivenessV3.ParseFrame | effectivenessv3.py:122-165 | parsing changes only `error`, `risks` and `controls` |
| ControlEffectivenessV3.MetricsFrame | effectivenessv3.py:167-241 | counting changes only `error` and `metrics` |
| ControlEffectivenessV3.EvaluateFrame | effectivenessv3.py:243-331 | evaluation changes only the error, rating and justification |
| ControlEffectivenessV3.ReportKeys | effectivenessv3.py:361-368 | the report has exactly the keys rating, justification and metrics, in that order |
| ControlEffectivenessV3.RunReportKeys | effectivenessv3.py:376-398 | so does the result of every successful run |
| ControlEffectivenessV3.EvaluateCallFailed | effectivenessv3.py:323-329 | a failed model call records "Error in effectiveness evaluation: <message>"; without data the guard answers first |
| ControlEffectivenessV3.RunEvaluationFails | effectivenessv3.py:361-368 | a run whose model call fails reports rating "no data available" and an empty or default justification |
| ControlEffectivenessV4.ToFloat | eff_v4.py:162-163 | conversion succeeds exactly when `float()` accepts the text |
| ControlEffectivenessV4.DropPercent | eff_v4.py:166-178 | removes every "%" and nothing else |
| ControlEffectivenessV4.ReplacePercent | eff_v4.py:166-178 | `.replace` succeeds exactly on a string |
| ControlEffectivenessV4.CountryRecord | eff_v4.py:177-184 | a record exists exactly when the value is a string whose %-less text is a float, and it keeps the country and that float |
| ControlEffectivenessV4.PartitionCountries | eff_v4.py:177-184 | the loop computes the partition fold |
| ControlEffectivenessV4.AppendRecommendations | eff_v4.py:236-242 | the loop appends one line per passed-test recommendation |
| ControlEffectivenessV4.AppendStringEntries | eff_v4.py:245-256 | the loop appends one line per string-valued entry |
| ControlEffectivenessV4.ControlEffectivenessAgent.constructor | eff_v4.py:83-87 | an agent starts with the given state and default metrics |
| ControlEffectivenessV4.ControlEffectivenessAgent.ParseInputData | eff_v4.py:113-143 | the stage leaves the state its parse step describes |
| ControlEffectivenessV4.ControlEffectivenessAgent.ExtractTestMetrics | eff_v4.py:145-212 | the stage applies the extraction outcome; the agent's metrics change only on success |
| ControlEffectivenessV4.ControlEffectivenessAgent.IdentifyPatterns | eff_v4.py:214-267 | the stage leaves the state its pattern step describes |
| ControlEffectivenessV4.ControlEffectivenessAgent.EvaluateControlEffectiveness | eff_v4.py:269-350 | the stage leaves the state its evaluation step describes |
| ControlEffectivenessV4.ControlEffectivenessAgent.RunWorkflow | eff_v4.py:104-108 | the four stages in their edge order |
| ControlEffectivenessV4.ParseOutcome | eff_v4.py:113-143 | a dict or list is stored unchanged, a decodable string is decoded, falsy input gives "Input data not provided", another type is unsupported, and only `parsed_data` or `error` changes |
| ControlEffectivenessV4.FirstWithAt | eff_v4.py:159 | the first list element holding the key is the one used |
| ControlEffectivenessV4.FirstWithNone | eff_v4.py:159 | without such an element the summary is absent |
| ControlEffectivenessV4.PassedCounts | eff_v4.py:160-163 | the passed summary adds its count to the total and leaves the failed count |
| ControlEffectivenessV4.FailedCounts | eff_v4.py:187-192 | the failed summary adds its count to the total and leaves the passed count |
| ControlEffectivenessV4.TotalIsSum | eff_v4.py:160-192 | total tests = passed + failed |
| ControlEffectivenessV4.ExtractionFailureKeepsMetrics | eff_v4.py:209-210 | an exception during extraction records the error and leaves `metrics` and everything else as it was |
| ControlEffectivenessV4.RecordsOk | eff_v4.py:177-184 | every country converts or the whole extraction raises; records keep input order |
| ControlEffectivenessV4.AboveMembers | eff_v4.py:181-182 | the high list holds exactly the records above the threshold |
| ControlEffectivenessV4.BelowMembers | eff_v4.py:183-184 | the low list holds exactly the records below the threshold |
| ControlEffectivenessV4.PartitionByThreshold | eff_v4.py:177-184 | the loop's partition is the filter of the records by both thresholds |
| ControlEffectivenessV4.CountryPartition | eff_v4.py:177-184 | high is above 50 and low below 10, in input order, disjoint, and deviations from 10 to 50 are in neither |
| ControlEffectivenessV4.StringEntryLinesAppend | eff_v4.py:199-200 | the entry lines of concatenated entries concatenate |
| ControlEffectivenessV4.EntryContribution | eff_v4.py:199-200 | a string value gives one "key: value" line; other values give none |
| ControlEffectivenessV4.RangeLineIff | eff_v4.py:236-237 | the range line appears exactly when both Min and Max are present and neither is "N/A", at most once |
| ControlEffectivenessV4.DefectPatternsLead | eff_v4.py:199-200 | the defect patterns are a prefix of the failed-test pattern lines |
| ControlEffectivenessV4.PrefixOfSuffixMembers | eff_v4.py:245-256 | lines of a prefix of the tail are in the whole list |
| ControlEffectivenessV4.MetricsOfFailed | eff_v4.py:159-200 | the metrics come from the first passed summary, then the first failed summary |
| ControlEffectivenessV4.PatternsOfParts | eff_v4.py:227-256 | the pattern list is the passed-test lines followed by the failed-test lines |
| ControlEffectivenessV4.DefectPatternsIdentified | eff_v4.py:199-256 | every defect pattern reappears among the identified patterns |
| ControlEffectivenessV4.EvaluateGuard | eff_v4.py:278-282 | without `parsed_data` the model replies do not matter: the error and rating "no data available" |
| ControlEffectivenessV4.EvaluateFrame | eff_v4.py:269-350 | evaluation changes only the error, rating and justification |
| ControlEffectivenessV4.WorkflowWithoutData | eff_v4.py:104-108 | a run without parsed data ends with the guard's error and keeps the metrics and patterns |
| ControlEffectivenessV5.Key | effect_v5.py:135 | a state key read succeeds exactly when the key is present |
| ControlEffectivenessV5.DashLines | effect_v5.py:193-197 | at most one item per line |
| ControlEffectivenessV5.TextRecommendations | effect_v5.py:193-197 | the text path never yields an empty list |
| ControlEffectivenessV5.Strs | effect_v5.py:193-197 | the strings wrapped in order |
| ControlEffectivenessV5.RecommendationsFromJson | effect_v5.py:187-192 | a dict with `recommendations` yields that value, a list is kept (an empty one too), any other JSON yields [raw content] |
| ControlEffectivenessV5.DashLinesShape | effect_v5.py:193-197 | every kept item is stripped and starts with "- " |
| ControlEffectivenessV5.DashLinesAll | effect_v5.py:193-197 | stripped "- " lines are all kept |
| ControlEffectivenessV5.DashLineKept | effect_v5.py:193-197 | a stripped "- " line is kept |
| ControlEffectivenessV5.TextPathNeverEmpty | effect_v5.py:193-197 | a non-JSON reply yields a non-empty list of strings |
| ControlEffectivenessV5.TextRoundTrip | effect_v5.py:193-197 | dash items joined by newlines come back as those items |
| ControlEffectivenessV5.TextOfDashItems | effect_v5.py:193-197 | the text path of such a reply is the list of items |
| ControlEffectivenessV5.ParseInputCases | effect_v5.py:85-108 | non-string input is both `input` and `parsed_data`; valid JSON replaces the input with its value; invalid JSON keeps the raw input and takes `parsed_data` from the reply or `{"raw_text": ...}`; a failed call raises |
| ControlEffectivenessV5.ParseInputThreads | effect_v5.py:85-108 | a successful parse passes `history` on unchanged and returns exactly `input`, `history` and `parsed_data`; `input` itself may be replaced by its decoded value, as ParseInputCases states |
| ControlEffectivenessV5.ExtractMetricsThreads | effect_v5.py:110-135 | `input` and `history` are passed on unchanged, and `metrics` is added to the three parsed keys |
| ControlEffectivenessV5.AssessThreads | effect_v5.py:137-166 | `input` and `history` are passed on unchanged, and `assessment` is added to the keys received |
| ControlEffectivenessV5.RecommendationsThreads | effect_v5.py:168-206 | `input` and `history` are passed on unchanged, and `recommendations` is added to the keys received |
| ControlEffectivenessV5.FormatThreads | effect_v5.py:208-224 | `input` and `history` are passed on unchanged, only they and `assessment` remain, and `assessment` is the validator's combination of metrics, assessment and recommendations |
| ControlEffectivenessV5.StagesLinks | effect_v5.py:62-81 | a run's six states start from the initial state, and each is the result of the next stage in edge order on the one before |
| ControlEffectivenessV5.RunHistory | effect_v5.py:226-230 | `history` stays [] through all six states, `input` stays the parsed input, and the run returns the validated assessment |
| ControlEffectivenessV2.Successor | effv2.py:107-113 | the successor is the target of an edge from the node, and there is none without such an edge |
| ControlEffectivenessV2.SuccessorAt | effv2.py:107-113 | the first edge from a node decides its successor |
| ControlEffectivenessV2.NodeSuccessor | effv2.py:107-113 | each node's successor is the next one in the chain, the last going to END |
| ControlEffectivenessV2.WalkChain | effv2.py:107-113 | a run from the head of any chain of edges that ends in END visits the chain in order, then END |
| ControlEffectivenessV2.WorkflowIsChain | effv2.py:107-113 | the edges form one unconditional chain from read_document to END |
| ControlEffectivenessV2.ControlEffectivenessAgent.constructor | effv2.py:81-83 | the agent starts with the given state and empty data fields |
| ControlEffectivenessV2.ControlEffectivenessAgent.ReadDocument | effv2.py:118-149 | it raises exactly when its read step does, and otherwise leaves that step's state |
| ControlEffectivenessV2.ControlEffectivenessAgent.Extract | effv2.py:151-346 | one extraction stage, as the shared step describes |
| ControlEffectivenessV2.ControlEffectivenessAgent.ExtractRisks | effv2.py:151-208 | the stage's state, with `risk_data` updated only on a successful decode |
| ControlEffectivenessV2.ControlEffectivenessAgent.ExtractControls | effv2.py:210-269 | the stage's state, with `control_data` updated only on a successful decode |
| ControlEffectivenessV2.ControlEffectivenessAgent.AssessControlEffectiveness | effv2.py:271-346 | the stage's state, with `effectiveness_assessment` updated only on a successful decode |
| ControlEffectivenessV2.ControlEffectivenessAgent.IdentifyGaps | effv2.py:348-368 | without content it records its error; otherwise it proceeds with its inputs |
| ControlEffectivenessV2.ReadOutcome | effv2.py:118-149 | raises exactly without `document_path`; a read failure records its message and leaves `document_content` as it was; a read stores the content and nothing else |
| ControlEffectivenessV2.GuardStops | effv2.py:164-167 | without content a stage sets its own error and stores nothing |
| ControlEffectivenessV2.ExtractFrame | effv2.py:151-346 | a stage leaves every key other than its own, its raw key and `error` unchanged |
| ControlEffectivenessV2.DecodedStored | effv2.py:193-195 | a stored value is written to the stage's key, and only after both model calls answered; otherwise `error` is set |
| ControlEffectivenessV2.DecodeFallback | effv2.py:200-203 | a decode failure stores the empty wrapper, keeps the raw reply under `*_raw` and sets the parse error |
| ControlEffectivenessV2.UpstreamDefaults | effv2.py:224 | missing risks, controls or assessments are passed on as empty wrappers |
| ControlEffectivenessV2.ErrorIgnored | effv2.py:107-113 | an earlier error does not change what a stage does, apart from the error it leaves |
| ControlEffectivenessV2.ReadFailureCascade | effv2.py:131-147 | after a read failure every later stage runs, the last message wins, and gap identification stops |
| ControlEffectivenessV2.EmptyDocument | effv2.py:164-167 | an empty document is stored, but counts as no content for every later stage |
| ControlEffectivenessV2.ChainRaisesOnlyWithoutPath | effv2.py:131-133 | the chain raises exactly when `document_path` is missing, with that message |
| DocxPages.Lines | docxparser2805.py:38-48 | each paragraph classified, in order |
| DocxPages.AttachTable | docxparser2805.py:81-83 | attaching a table keeps the page count |
| DocxPages.AttachTables | docxparser2805.py:81-83 | attaching all tables keeps the page count |
| DocxPages.Paginator.constructor | docxparser2805.py:13-21 | page 1 with empty slots and no pages |
| DocxPages.Paginator.StartNewPage | docxparser2805.py:23-36 | appends the current page under the current number, increments it and starts empty slots |
| DocxPages.Paginator.AddParagraph | docxparser2805.py:38-59 | one loop iteration on the classified paragraph |
| DocxPages.PaginateParagraphs | docxparser2805.py:38-59 | the loop over all paragraphs computes the pagination fold |
| DocxPages.LinesSnoc | docxparser2805.py:38-59 | one more paragraph is one more step |
| DocxPages.AppendTables | docxparser2805.py:81-83 | the loop attaches each table in order |
| DocxPages.ExtractDocxContentByPages | docxparser2805.py:5-98 | the extraction computes the whole-document result |
| DocxPages.FlushGood | docxparser2805.py:23-36 | flushing keeps the good-state invariant |
| DocxPages.BlankSkipped | docxparser2805.py:39-41 | a blank paragraph changes nothing, page break or not |
| DocxPages.HeadingSetsSlot | docxparser2805.py:44-48 | a heading overwrites its slot of the current page, and nothing else changes |
| DocxPages.PageBreakCloses | docxparser2805.py:51-53 | a page break closes the page and drops its own text |
| DocxPages.BodyAppends | docxparser2805.py:55-59 | a body paragraph is appended, and the tenth one flushes the page |
| DocxPages.StepGood | docxparser2805.py:38-59 | every step keeps pages numbered 1, 2, ... with at most ten paragraphs |
| DocxPages.PaginateGood | docxparser2805.py:38-59 | so does the whole loop |
| DocxPages.FlattenSnoc | docxparser2805.py:25-28 | a page's paragraphs follow the earlier pages' |
| DocxPages.FlushWritten | docxparser2805.py:23-36 | flushing loses no paragraph |
| DocxPages.StepWritten | docxparser2805.py:38-59 | a step adds exactly a body paragraph's text |
| DocxPages.PaginateWritten | docxparser2805.py:38-66 | the written paragraphs are exactly the body texts in order |
| DocxPages.StepStarted | docxparser2805.py:38-59 | once content exists it stays, and any non-blank paragraph creates some |
| DocxPages.FlushStarted | docxparser2805.py:23-36 | a flush always leaves a page |
| DocxPages.PaginateStarted | docxparser2805.py:62-66 | some page exists exactly when some paragraph is non-blank |
| DocxPages.CloseGood | docxparser2805.py:62-66 | closing gives numbered pages holding the body texts, none when no paragraph counted, each with at most ten paragraphs |
| DocxPages.AttachTablesLast | docxparser2805.py:81-83 | tables go onto the last page only, in order |
| DocxPages.TablesGoLast | docxparser2805.py:69-83 | with tables there is a last page, created as page 1 when there was none, holding all tables |
| DocxPages.ExtractPages | docxparser2805.py:5-98 | the result's pages are numbered, hold at most ten paragraphs each, and hold the body texts in order |
| DocxPages.TablesKeepParagraphs | docxparser2805.py:69-83 | attaching tables changes no paragraph |
| DocxPages.SameParagraphs | docxparser2805.py:69-89 | pages with the same paragraph lists flatten alike |
| DocxPages.FooterKeepsParagraphs | docxparser2805.py:86-89 | the footer changes no page number and no paragraph |
| DocxPages.RaisesWithoutPages | docxparser2805.py:86-89 | extraction raises exactly when the first section has footer paragraphs and there are neither pages nor tables |
| DocxPages.LinesBlank | docxparser2805.py:39-41 | a paragraph counts exactly when it is non-blank after stripping |
| DocxPages.FooterOnFirstPage | docxparser2805.py:86-89 | the joined footer goes onto page 1 only |
| DocxPages.TablesKeepFooters | docxparser2805.py:69-83 | before the footer step no page carries a footer |
| DocxPages.MetadataDefaults | docxparser2805.py:8-11 | the author defaults to "Unknown" and the creation time to now |
| DocxPages.LonePageBreak | docxparser2805.py:51-53 | a page break alone still emits an empty page 1 |
| HtrDataset.LoadedShape | htrcode.py:148-150 | loaded labels are non-empty and stripped |
| HtrDataset.StripNewline | htrcode.py:148-150 | stripping an entry's line gives back the entry |
| HtrDataset.ListRoundTrip | htrcode.py:148-150 | loading a file of stripped, non-empty lines gives back those lines in order |
| HtrDataset.WriteLabelFile | htrcode.py:117-127 | the loop writes the label line of every created image, in order |
| HtrDataset.MadeExactly | htrcode.py:117-127 | the written indices are exactly the created images, in increasing order |
| HtrDataset.MadeCount | htrcode.py:123-127 | one label line per created image, none for a failed load |
| HtrDataset.Sample | htrcode.py:160-162 | raises "Sample larger than population or is negative" exactly when k exceeds the population; otherwise k elements drawn without replacement |
| HtrDataset.Shuffle | htrcode.py:166 | the list is permuted in place |
| HtrDataset.SampleDistinct | htrcode.py:205-208 | a sample of distinct paths holds distinct paths |
| HtrDataset.Min3 | htrcode.py:157-158 | the smallest of the three counts |
| HtrDataset.Combine | htrcode.py:157-171 | each class sampled down to the smallest count; val + train is a permutation of the 3·min entries; val holds int(n·0.2) of them |
| HtrDataset.SplitPartition | htrcode.py:169-171 | val + train is the shuffled list, and val is a fifth of it rounded down |
| HtrDataset.GroupFold | htrcode.py:196-202 | grouping yields three buckets |
| HtrDataset.GroupByClass | htrcode.py:193-202 | the loop computes the grouping fold of the parsed lines |
| HtrDataset.GroupStep | htrcode.py:196-202 | one line: an error raises, labels 0 to 2 append the path to their bucket, other labels are ignored |
| HtrDataset.GroupStops | htrcode.py:196-202 | after an error the later lines do not matter |
| HtrDataset.BucketSnoc | htrcode.py:201-202 | a bucket grows by the paths with its label |
| HtrDataset.GroupBuckets | htrcode.py:196-202 | when every line parses, bucket c holds the paths labelled c, in order |
| HtrDataset.GroupFirstError | htrcode.py:196-202 | the first line that fails to parse decides the exception |
| HtrDataset.GroupOk | htrcode.py:196-202 | grouping succeeds exactly when every line parses |
| HtrDataset.NoTabRaises | htrcode.py:197-198 | a line without a tab raises "not enough values to unpack (expected 2, got 1)" |
| HtrDataset.TwoTabsRaise | htrcode.py:197-198 | a line with two tabs raises "too many values to unpack (expected 2)" |
| HtrDataset.ParseTabbed | htrcode.py:197-199 | a line with one tab parses exactly when its label is an integer, into path and label |
| HtrDataset.SavePathShape | htrcode.py:124 | generated paths contain no tab or newline |
| HtrDataset.StrippedLabelLine | htrcode.py:124-126 | a label line, stripped, is "path\t2" |
| HtrDataset.LabelLineParses | htrcode.py:124-126 | every written label line groups back into class 2 with its path |
| HtrDataset.Pick | htrcode.py:205-208 | min(5, len) paths drawn without replacement from the bucket |
| Raster.Rows | mixed_crop_gen_2.py:25-27 | n constant rows of the given width |
| Raster.PadToHeight | mixed_crop_gen_2.py:21-27 | the result has the target height and the same width; the image rows sit unchanged below the top pad, and every other row is the border colour |
| Raster.PadBalanced | mixed_crop_gen_3.py:30-37 | the bottom pad is the top pad or one more |
| Raster.PadIdentity | mixed_crop_gen_3.py:30-37 | an image of the target height comes back unchanged |
| Raster.HStack | mixed_crop_gen_2.py:42 | each row is the first image's row followed by the second's |
| Raster.HStackValid | mixed_crop_gen_2.py:42 | stacking gives a valid image as wide as both |
| Raster.PadKeepsPixels | mixed_crop_gen_2.py:25-27 | every pixel reappears shifted down by the top pad |
| Raster.Max | mixed_crop_gen_2.py:37 | the larger height |
| Raster.Stitch | mixed_crop_gen_2.py:36-42 | the stitched image is valid, as tall as the taller input and as wide as both |
| Raster.StitchLeftPixel | mixed_crop_gen_2.py:36-42 | a left-image pixel sits at its own column below its top pad |
| Raster.StitchRightPixel | mixed_crop_gen_2.py:36-42 | a right-image pixel sits after the left width below its top pad |
| Raster.StitchKeepsPixels | mixed_crop_gen_2.py:36-42 | both images can be cut back out of the stitch |
| Raster.StitchPadding | mixed_crop_gen_2.py:36-42 | every pixel outside both images is the padding colour |
| MixedCropGen2.CreateMixedCrop | mixed_crop_gen_2.py:29-43 | None exactly when either image failed to load; otherwise taller height and summed width |
| MixedCropGen2.CropLayout | mixed_crop_gen_2.py:36-42 | the handwritten crop fills the left columns and the printed crop the right, each centred |
| MixedCropGen2.CropBackground | mixed_crop_gen_2.py:15 | everything else is white |
| MixedCropGen3.EdgeColumns | mixed_crop_gen_3.py:23-26 | the first two columns, or the last two, or the whole row when it is narrower |
| MixedCropGen3.EdgePixels | mixed_crop_gen_3.py:23-27 | top-n edge pixels: n times the edge width |
| MixedCropGen3.EdgePixelAt | mixed_crop_gen_3.py:23-27 | the k-th sampled pixel is row k / c, column lo + k % c |
| MixedCropGen3.Sum | mixed_crop_gen_3.py:27-28 | the channel sum is at most 255 per pixel |
| MixedCropGen3.Mean | mixed_crop_gen_3.py:27-28 | the truncated mean m: count·m ≤ sum < count·(m+1) |
| MixedCropGen3.BorderColour | mixed_crop_gen_3.py:20-28 | the per-channel truncated mean over the top min(5, h) rows of the two edge columns |
| MixedCropGen3.SumUniform | mixed_crop_gen_3.py:27-28 | the sum of equal pixels is count times the value |
| MixedCropGen3.UniformEdge | mixed_crop_gen_3.py:20-28 | an image of one colour gives that colour |
| MixedCropGen3.MeanExact | mixed_crop_gen_3.py:27-28 | an exact average is returned as it is |
| MixedCropGen3.CreateMixedCrop | mixed_crop_gen_3.py:39-54 | None exactly when either image failed to load; otherwise taller height and summed width |
| MixedCropGen3.CropBackground | mixed_crop_gen_3.py:46-51 | everything outside both crops is the left image's left-edge colour |
| MixedCropGen3.DriverLoads | mixed_crop_gen_3.py:61-66 | an iteration writes an image exactly when both load, of the same size in either order |
| MixedCropGen3.DriverOrder | mixed_crop_gen_3.py:61-66 | the handwritten crop is on the left on even iterations and right of the printed crop on odd ones |

## Left out

- Language models, LangGraph's runtime, `json.loads`, `float()`, pydantic validation and document reading are oracles, as described above. Prompt texts are kept only as far as they form the request an oracle sees.
- Version 5's states are the dicts the stages return. LangGraph would merge each returned dict into the running state, so a key a stage does not return, such as the initial `assessment: {}` after `_parse_input`, would survive. The model drops it. The run's result is the same, because `_assess_effectiveness` writes `assessment` again.
- Floating point: JSON numbers are integers in the model. Version 4's deviations are exact reals from the `float()` oracle.
- The Streamlit page of `self_reflection.py` beyond its colour, difference and rationale rules: layout, widgets and session state.
- `repr()` and `str()` of strings, lists and dicts, including KeyError and `int()` messages and report lines, follow CPython for ASCII. StrRepr chooses the quote and escapes backslashes, the chosen quote and control characters. Non-printable characters from U+0080 on are written as they are, where CPython writes `\x`, `\u` or `\U` escapes, because the model has no Unicode property table.
- `int()` accepts signs, surrounding whitespace and ASCII digits only. Underscores and non-ASCII digits are not modelled.
- `str.lower` is ASCII only.
- A JSON object whose keys repeat: the decoder oracle is assumed to return each key once.
- Version 4's report builder after line 367 is not part of this model. The file ends there, mid-function.
- Version 2's `generate_recommendations` and `prepare_final_report` are registered as nodes at effv2.py:99-113, but the file ends at line 405, inside `identify_gaps`, without defining them or `invoke`. They are not part of this model. Version 2's verbose printing (`verbose=True`) is not modelled either; only the non-verbose path is.
- Versions 3 and 4 are modelled with `verbose=False` only. Their verbose printing runs inside the `try` blocks, so it can raise. For example, with a dict input whose `risks` is an int, version 3 calls `len(risks)` at effectivenessv3.py:159-160 and records "Error parsing input data: object of type 'int' has no len()". ParseDict and ParseStep succeed on that input.
- Version 2's `identify_gaps` is modelled up to its guard and the inputs it passes to the model.
- Console output (`print`) is not modelled, including the unconditional error print at effv2.py:146.
- `streamlit_app.py`, `mixed_crop_generator.py` and `background_aug.py` are not part of this model.
- File I/O: `imread`, `imwrite`, opening and writing the list and label files, and `Document(...)`. A file's text is a parameter, a written file is the sequence of lines written, and python-docx paragraphs, tables and footers are given as plain strings and styles.
- OpenCV resizing, blur and noise, and Method 1 of `htrcode.py`.
- The loops of the crop-generator drivers and of `htrcode.py`'s Method 2 are I/O around one iteration. One iteration is modelled, and the label file as a sequence of flags "this image was created".
- `random.choice` picks of crop files are inputs.
- Randomness: `Randomness` is an arbitrary stream of draws, so no distribution is modelled. CPython's `sample` uses a set-based method for large populations. The model uses its pool method; its contracts hold for both.
- HtrDataset.Sample and HtrDataset.Shuffle: CPython's `_randbelow` rejection sampling is not modelled. It draws `getrandbits(n.bit_length())` and discards values of n or more, so one index can use up several raw draws. The model reduces one draw by remainder instead. Both reach every index in range, and every contract holds for any stream.
- HtrDataset.ValSize: `int(n*0.2)` is modelled as `n / 5`. The double nearest 0.2 is slightly above 1/5, so the computed product is at least n/5 and, for any list that fits in memory, stays below ⌊n/5⌋ + 1. Truncation therefore gives ⌊n/5⌋.
- Raster.PadToHeight: requires a target no lower than the image, because OpenCV rejects a negative border. The generators only pass the taller height.
- MixedCropGen3.BorderColour: `int(np.mean(...))` is integer division of the channel sum. The sum is an integer well below 2^53, so the float mean truncates to the same value.
- MixedCropGen3.Side: any `side` other than 'left' samples the right edge, as the `else` branch does.

Behaviour of the code that the model reproduces:

- A successful reassessment sets the status to "completed" (self_reflection.py:255). The only statuses the stages write are "evaluated", "reflected", "completed" and "error".
- Only the self-reflection workflow routes on errors (self_reflection.py:267-318). The version 2 to 5 pipelines have unconditional edges, so every stage runs after an error.
- An exception with an empty message sets `status` to error, but `error` is "" and falsy, so the run goes on.
- Version 3 raises when a present `testResult` is not a string, since `.lower()` is called on it (effectivenessv3.py:208).
- The DOCX footer step raises `IndexError` only when the first section's footer has paragraphs and no page exists.
