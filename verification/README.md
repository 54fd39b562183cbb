# Verified models of the Wiii scripts and of the application life cycle

This project models the parts of the repository where a mistake would go unnoticed: the
parsers of server-sent events that different scripts bring along, the in-place merging of
evaluation reports and the counters drawn from them, the two versions of the atomic file
writer, starting and stopping the application, the one-time approvals, the policy benchmark
with its cached backend, and the small algorithms for ranking, percentiles, page batches,
limited replay and strict JSON.  `dafny verify dfyconfig.toml` checks everything.

## How it is built

**Event streams.**  `EventStream` holds one specification: lines are cut into blocks at
blank lines, and a block is dispatched as one event, with or without the rule that it must
have data.  The format is loosely that of section 9.2.6 of the HTML Living Standard
("Interpreting an event stream"); as the scripts do, the last block is dispatched at the end
of input, all leading blanks of data are stripped, and one parser dispatches a named block
without data.  `SmokeReaders` proves the batch parser and the timed incremental reader
against it, `Collectors` the block collector, the collector with a sticky name and the
counter of name lines, `ToolTrace` the trace builder.  `LineSources` says on exactly which
texts the two ways of cutting lines agree, and `StreamAgreement` where the parsers agree with
each other.  `PyText` has the string operations of Python they all use.

**Reports.**  `ReportMerge` gives the merge on values, with a last-match search on ids;
`MergeLaws`, `MergeKeeps`, `MergeTwice` and `MergeFailure` prove its laws; `ReportObjects` is the merge as
the script does it, on objects changed in place through id maps, and refines the values.
`ParityAnalysis` counts turns by lane, class and summary and proves that the counts agree;
`RuntimeCounters` has its provider, model and failover counters.

**Protocols.**  `EvidenceWriter` runs both writers over a volume that records every state and
which contents have reached the disk, with failures at any step.  `Lifecycle` follows the
tasks, jobs and handles that startup acquires to the end of the run.  `ApprovalLedger` keeps the history of appends and
attempts and proves laws of every legal history.  `PolicyRuns` has settings, specifications
and lists as objects, so that aliasing matters.

**Algorithms.**  `StableSort` is what `list.sort` promises; `Ranking`, `OrderStatistics`,
`PageBatches`, `EvalReplay` and `StrictJson` follow the scripts of those names' subjects.
`Folds`, `Fractions` and `Wrappers` are shared helpers.

## What came out

Where a promise does not hold of the code, the exact condition is proved, and an example.

- A run can leave parts live (`Lifecycle.NothingSurvivesIff`).  Even if nothing raises, the
  two Neo4j drivers that the pre-warmed RAG agent opens for itself are never closed, and the
  tasks of recovered course generation jobs are never cancelled (`FaultFreeRunLeaves`,
  `RecoveredJobSurvives`).  Startup can raise with the shared engine open, because the LMS
  step writes its notice unguarded (`SkippedLmsNoticeLeaves`); a failing start message,
  written before the `try`, skips shutdown (`StartMessageLeaves`); the health-probe helper
  loses the task it has made if creating the loop raises (`ProbeLoopFailureLeaves`); the soul
  bridge stays open if connecting raises after initialising (`SoulConnectFailureLeaves`).
- A session that first comes from an overlay is appended as it is.  If it repeats a turn id, a
  field of an earlier turn only is not found, though the overlay supplies it, and applying
  the overlay again brings it back (`MergeLaws.LastOverlayWinsIff`,
  `MergeTwice.MergeTwiceChangesNothingIff`, `RepeatedTurnHidesField`).
- The second file writer notes its temporary path after fsync, so a failing write leaves the
  file behind (`EvidenceWriter.LeavesAloneIff`, `FailedWriteLeaves`).
- The trace builder keeps data lines that have no current name and gives them to the next
  event (`ToolTrace.TraceOwnsDataIff`, `DataBeforeNameLeaks`).
- The readers differ on bare carriage returns (`LineSources.LinesAgreeIff`,
  `SmokeReaders.ReadersDifferOnBareCR`), and the smoke parser differs from the collector on
  named blocks without data (`Collectors.CollectorEqualsSmokeIff`, `NameWithoutData`).
- Merging raises where a falsy value that is no list, such as null or `{}`, stands in place
  of a list (`MergeFailure.MergeRaisesIff`, `NoListTurnsRaise`).
- A page batch with a gap inside sends pages that were processed already; gaps between two
  batches do no harm (`PageBatches.SendsExactlyIff`, `ProcessedPageSentAgain`).  A batch size
  that is not positive never ends (`NeverEndsIff`).  The option for the start
  page is read by the script and never used.
- If `refresh_nested_views` raises while settings are restored, the policy's backend stays
  in the cache (`PolicyRuns.RunPolicy`, `FailedRefreshLeavesPolicyBackend`).
- Exchanging the two lengths does not exchange the classes for some negative lengths
  (`ParityAnalysis.ClassifyMirrorsIff`, `EqualNegativeLengths`).

## Model

| member | source | states |
|---|---|---|
| EventStream.RoundTripIff | maritime-ai-service/scripts/local_demo_smoke.py:215-242 | Printing events as name line, data lines and blank line and parsing the text gives the events back, under any mix of line ends, if and only if every name is nonempty, trimmed and free of breaks and every data line starts with no blank and holds no other break |
| EventStream.CommentedRoundTrip | maritime-ai-service/scripts/local_demo_smoke.py:227-241 | Any text whose lines, comments and unknown fields left out, are the printed events parses to those events |
| EventStream.ParseNormalizes | maritime-ai-service/scripts/local_demo_smoke.py:215-242 | For every text, printing what was parsed and parsing again gives the same events |
| EventStream.EventsPrintable | maritime-ai-service/scripts/local_demo_smoke.py:215-242 | Whatever the lines, the events found are printable ones |
| EventStream.ParseConcat | maritime-ai-service/scripts/local_demo_smoke.py:215-242 | Parsing x, a blank line and y gives the events of x followed by those of y, for all texts |
| EventStream.EventsConcat | maritime-ai-service/scripts/local_demo_smoke.py:227-241 | The same on lines, with or without the rule that an event needs data |
| EventStream.InertLinesInvisible | maritime-ai-service/scripts/local_demo_smoke.py:232-239 | Comment lines and unknown fields never change the events, wherever they stand |
| EventStream.BlocksCutAtBlanks | maritime-ai-service/scripts/local_demo_smoke.py:227-231 | Cutting into blocks loses nothing: the blocks joined by blank lines are the lines, and no block holds a blank line |
| LineSources.LinesAgreeIff | maritime-ai-service/scripts/local_demo_smoke.py:175-178 | Reading up to each newline and stripping the line end sees the lines of `splitlines` if and only if every break in the text is a newline, a carriage return before a newline, or a final carriage return |
| LineSources.IncrementalMatchesBatch | maritime-ai-service/scripts/local_demo_smoke.py:169-190 | On such texts the lines of the incremental reader hold exactly the events of the batch parser |
| SmokeReaders.BatchParser.Flush | maritime-ai-service/scripts/local_demo_smoke.py:220-225 | The parser state after a flush is the block-level dispatch of the state before |
| SmokeReaders.BatchParser.Feed | maritime-ai-service/scripts/local_demo_smoke.py:228-239 | One line changes event name, data lines and events as the line rules say |
| SmokeReaders.ParseSseEvents | maritime-ai-service/scripts/local_demo_smoke.py:215-242 | The line-by-line loop returns the block-level parse of the text |
| SmokeReaders.TimedReader.Flush | maritime-ai-service/scripts/local_demo_smoke.py:152-163 | A dispatched event takes one clock reading and sets the two first-seen times at most once |
| SmokeReaders.TimedReader.Feed | maritime-ai-service/scripts/local_demo_smoke.py:178-189 | One line changes parser state and times as the rules say |
| SmokeReaders.CheckBudget | maritime-ai-service/scripts/local_demo_smoke.py:170-174 | The budget test raises exactly when the total time is limited and the clock reading exceeds it |
| SmokeReaders.ReadLines | maritime-ai-service/scripts/local_demo_smoke.py:169-190 | The reading loop stops before the first line where the budget check fails, with that check behind it, else reads every line |
| SmokeReaders.RequestSseEvents | maritime-ai-service/scripts/local_demo_smoke.py:142-212 | The whole outcome for every text, ending, clock and budget: over budget, idle timeout with the events so far, no data, or the events with their times; equal to the batch parse on clean texts; a read that times out returns no line |
| SmokeReaders.UnfinishedLineUnseen | maritime-ai-service/scripts/local_demo_smoke.py:175-178 | When reading times out, what comes after the last newline is not seen |
| SmokeReaders.WithinIff | maritime-ai-service/scripts/local_demo_smoke.py:170-174 | The budget holds up to a line if and only if no single check before it fails |
| SmokeReaders.TimingLaws | maritime-ai-service/scripts/local_demo_smoke.py:149-212 | For every clock that never goes back: the first-event time is set exactly when there is an event, the first-answer time exactly when an answer with nonblank data is among them, and first event <= first answer <= total |
| SmokeReaders.ReadersDifferOnBareCR | maritime-ai-service/scripts/local_demo_smoke.py:178 | On two data lines parted by bare carriage returns the two readers find different events |
| Collectors.BlockCollector.AppendEvent | maritime-ai-service/scripts/probe_live_lms_test_course_replay.py:641-650 | Appends one event for a block with data, nothing for one without |
| Collectors.CollectBlocks | maritime-ai-service/scripts/probe_live_lms_test_course_replay.py:653-674 | The loop returns the block-level events that need data |
| Collectors.CollectorIsSmokeOnData | maritime-ai-service/scripts/probe_live_lms_test_course_replay.py:641-674 | For every sequence of lines: exactly the smoke parser's blocks that have a data line, in order, with their names and joined data |
| Collectors.CollectorEqualsSmokeIff | maritime-ai-service/scripts/probe_live_lms_test_course_replay.py:647-648 | The two parsers agree on a stream if and only if no block has a name of its own and no data |
| Collectors.NameWithoutData | maritime-ai-service/scripts/probe_live_lms_test_course_replay.py:647-648 | A name line alone is an event to the smoke parser and nothing to the collector |
| Collectors.CollectSticky | maritime-ai-service/scripts/probe_live_provider_runtime.py:662-683 | The loop returns one event per data line, named by the last name line before it |
| Collectors.StickyOnePerDataLine | maritime-ai-service/scripts/probe_live_provider_runtime.py:674-682 | As many events as data lines, in order, each with its own value, on every stream |
| Collectors.SseEventCounts | maritime-ai-service/scripts/analyze_wiii_sync_stream_parity.py:96-117 | The five counters are the numbers of name lines of each kind by lower-cased name |
| Collectors.EventCounts | maritime-ai-service/scripts/probe_live_lms_test_course_replay.py:677-681 | Each name is counted as often as it occurs, and no other name is a key |
| Collectors.StickyEventCounts | maritime-ai-service/scripts/probe_live_provider_runtime.py:697-702 | The same with an empty name counted as message |
| Collectors.CountersAgree | maritime-ai-service/scripts/probe_live_provider_runtime.py:700 | The two counters agree where no event has an empty name |
| Collectors.EmptyNameTellsApart | maritime-ai-service/scripts/probe_live_provider_runtime.py:700 | An event with an empty name is counted differently by the two |
| ToolTrace.TraceBuilder.Commit | maritime-ai-service/scripts/render_thinking_probe_html.py:85-130 | Commits the named group and clears it; without a name nothing changes; it raises exactly when the entry cannot be rendered |
| ToolTrace.TraceBuilder.Feed | maritime-ai-service/scripts/render_thinking_probe_html.py:133-139 | One line commits, names or gathers as the line rules say |
| ToolTrace.ParseStreamToolTrace | maritime-ai-service/scripts/render_thinking_probe_html.py:81-141 | The loop returns the tool entries of the groups the line machine commits, and raises if and only if one of them cannot be rendered |
| ToolTrace.TraceConserves | maritime-ai-service/scripts/render_thinking_probe_html.py:132-140 | On every stream one group per nonempty name line, in order, and every data line goes to exactly one group in order, the last ones staying uncommitted |
| ToolTrace.TraceEntryPerToolLine | maritime-ai-service/scripts/render_thinking_probe_html.py:90-128 | On every stream the trace has one entry per tool name line |
| ToolTrace.TraceOwnsDataIff | maritime-ai-service/scripts/render_thinking_probe_html.py:85-88 | Every event holds just the data lines under its own name if and only if no data line, standing where no naming line came since the last blank line or empty name, has a naming line after it |
| ToolTrace.DataBeforeNameLeaks | maritime-ai-service/scripts/render_thinking_probe_html.py:85-88 | A data line followed by a name line ends up in the event of that name |
| StreamAgreement.TraceIsToolEvents | maritime-ai-service/scripts/render_thinking_probe_html.py:132-141 | Where every block is a name line and then data lines, the trace is the tool events of the block collector, in order |
| StreamAgreement.TraceIsToolEventsIff | maritime-ai-service/scripts/render_thinking_probe_html.py:85-141 | On every stream the trace is the tool events of the block collector if and only if tool name lines stand only in blocks that are tool events, one in each, and what the builder gathers for it, with the data left behind by earlier lines, joins to the data of the block |
| StreamAgreement.BlockParsersAgree | maritime-ai-service/scripts/local_demo_smoke.py:227-241 | On such streams the two block parsers agree |
| StreamAgreement.StickyIsCollectorIff | maritime-ai-service/scripts/probe_live_provider_runtime.py:666-682 | On every stream the sticky collector equals the block collector if and only if every block has at most one data line and the last name line before it in the stream gives the name the block ends up with |
| StreamAgreement.StickyIsCollector | maritime-ai-service/scripts/probe_live_provider_runtime.py:666-682 | Where every block is a name line and one data line, the sticky collector equals the block collector |
| StreamAgreement.StickyIsCollectorWithInert | maritime-ai-service/scripts/probe_live_provider_runtime.py:669-675 | The same with comments and unknown fields anywhere, and both block parsers |
| StreamAgreement.CollectBoth | maritime-ai-service/scripts/probe_live_provider_runtime.py:662-683 | Given the same raw lines the two collectors return the same events exactly under that condition |
| StreamAgreement.TraceIsToolEventsWithInert | maritime-ai-service/scripts/render_thinking_probe_html.py:132-141 | The trace law with comments and unknown fields anywhere, as long as no line is blanks only |
| StreamAgreement.CountsAreCollectorCounts | maritime-ai-service/scripts/analyze_wiii_sync_stream_parity.py:103-117 | On named streams the counter's totals are the collector's events of each kind |
| ReportMerge.MergeInTwoGoes | maritime-ai-service/scripts/analyze_wiii_sync_stream_parity.py:37-74 | Merging overlays xs ++ ys in one call equals merging xs and then ys into the result, failure included, even when ids repeat |
| MergeLaws.MergedSessionIds | maritime-ai-service/scripts/analyze_wiii_sync_stream_parity.py:37-46 | The ids of the merged sessions are those of the base in place, then new nonblank ids in the order first seen |
| MergeLaws.MergeKeepsPlaces | maritime-ai-service/scripts/analyze_wiii_sync_stream_parity.py:37-74 | Sessions and turns keep their places and ids; distinct ids stay distinct |
| MergeKeeps.MergeKeepsContents | maritime-ai-service/scripts/analyze_wiii_sync_stream_parity.py:37-74 | Every session, of the base or first appended from an overlay, keeps its attributes outside the listed fields, its turns' places and ids, and all of each turn whose id is blank or shadowed; a base session whose id is blank, shadowed or in no overlay is unchanged |
| MergeKeeps.MergedTurnIds | maritime-ai-service/scripts/analyze_wiii_sync_stream_parity.py:60-73 | The turn ids of each session are those it came with, then over the whole merge the new nonblank ids in the order the overlays of its id first bring them |
| MergeKeeps.PutSessionKeeps | maritime-ai-service/scripts/analyze_wiii_sync_stream_parity.py:38-73 | One overlay session changes the session it goes to and no other |
| MergeLaws.LastOverlayWinsIff | maritime-ai-service/scripts/analyze_wiii_sync_stream_parity.py:60-73 | Each turn field of the result comes from the last overlay that supplies it, else from the base, if and only if it is not hidden: its session comes from an overlay that repeats the turn id with the field in earlier turns only, and no later overlay supplies it; then it is found nowhere |
| MergeLaws.SessionFieldsFollow | maritime-ai-service/scripts/analyze_wiii_sync_stream_parity.py:48-58 | Each listed session field, by `get`, comes from the last overlay session that has it; one without it keeps the value |
| MergeTwice.MergeTwiceChangesNothingIff | maritime-ai-service/scripts/analyze_wiii_sync_stream_parity.py:30-74 | Applying the same overlay again never raises, and changes nothing that `get` sees if and only if the first time hid no field of a repeated turn |
| MergeTwice.DistinctTurnsHideNothing | maritime-ai-service/scripts/analyze_wiii_sync_stream_parity.py:42-72 | Nor do overlay sessions whose turn ids are distinct |
| MergeTwice.KnownSessionsHideNothing | maritime-ai-service/scripts/analyze_wiii_sync_stream_parity.py:47-72 | Sessions that the base has hide nothing, whatever ids their overlays repeat |
| MergeTwice.RepeatedTurnHidesField | maritime-ai-service/scripts/analyze_wiii_sync_stream_parity.py:42-45 | A new session with one turn id twice and a field in the first turn only: the field is hidden |
| MergeFailure.MergeSucceeds | maritime-ai-service/scripts/analyze_wiii_sync_stream_parity.py:44 | Where no falsy value stands in place of a list, merging never raises and the result has none either |
| MergeFailure.MergeRaisesIff | maritime-ai-service/scripts/analyze_wiii_sync_stream_parity.py:37-72 | Merging raises if and only if some overlay session brings a turn with an id to a session that came, from the base or an earlier overlay, with a falsy value that is no list in place of its turns, or a new session id to a base with such a value in place of its sessions |
| MergeFailure.NoListTurnsRaise | maritime-ai-service/scripts/analyze_wiii_sync_stream_parity.py:70 | One session with such turns and one overlay turn for it raise |
| MergeFailure.NoListBaseRaisesIff | maritime-ai-service/scripts/analyze_wiii_sync_stream_parity.py:44 | With such a value for the sessions of the base, merging raises if and only if an overlay holds a session with an id |
| ReportObjects.MapTurns | maritime-ai-service/scripts/analyze_wiii_sync_stream_parity.py:60-63 | The map holds for each id the last turn object of that id |
| ReportObjects.UpdateTurn | maritime-ai-service/scripts/analyze_wiii_sync_stream_parity.py:73 | Updating the object changes that turn only, and map and list still agree |
| ReportObjects.AppendTurn | maritime-ai-service/scripts/analyze_wiii_sync_stream_parity.py:69-72 | Appends a copy; map and list still agree |
| ReportObjects.PutTurnObject | maritime-ai-service/scripts/analyze_wiii_sync_stream_parity.py:64-73 | The map step does to the values what the last-match search does |
| ReportObjects.PutTurnObjects | maritime-ai-service/scripts/analyze_wiii_sync_stream_parity.py:60-73 | The loop over one overlay session's turns is the fold over their values |
| ReportObjects.CopySession | maritime-ai-service/scripts/analyze_wiii_sync_stream_parity.py:44 | A deep copy: new objects, the same value |
| ReportObjects.AppendSession | maritime-ai-service/scripts/analyze_wiii_sync_stream_parity.py:43-46 | Appends a session; `session_map` and the list still agree |
| ReportObjects.UpdateSessionObject | maritime-ai-service/scripts/analyze_wiii_sync_stream_parity.py:48-73 | Updates fields and turns of one session in place |
| ReportObjects.MapSessions | maritime-ai-service/scripts/analyze_wiii_sync_stream_parity.py:32-35 | `session_map` holds for each id the last session of that id |
| ReportObjects.PutSessionObject | maritime-ai-service/scripts/analyze_wiii_sync_stream_parity.py:38-73 | One overlay session: skipped, merged or appended, as on the values |
| ReportObjects.PutOverlay | maritime-ai-service/scripts/analyze_wiii_sync_stream_parity.py:38-73 | One overlay is the fold over its sessions' values |
| ReportObjects.CopyReport | maritime-ai-service/scripts/analyze_wiii_sync_stream_parity.py:31 | `copy.deepcopy(base)`: new objects, the same value |
| ReportObjects.MergeReportObjects | maritime-ai-service/scripts/analyze_wiii_sync_stream_parity.py:30-74 | The map-and-object form refines the value form on every input; nothing that existed before is modified, so base and overlays are unchanged |
| ParityAnalysis.ClassMeans | maritime-ai-service/scripts/analyze_wiii_sync_stream_parity.py:126-136 | Each class by a condition on the two lengths of which no two meet, so the order of the tests does not matter |
| ParityAnalysis.ClassifyMirrors | maritime-ai-service/scripts/analyze_wiii_sync_stream_parity.py:126-136 | Exchanging the two lengths exchanges missing with missing and thinner with richer and fixes the rest, for every share rule that never lengthens |
| ParityAnalysis.ClassifyMirrorsIff | maritime-ai-service/scripts/analyze_wiii_sync_stream_parity.py:132-135 | On all integers, with exact seven tenths: the exchange holds unless both lengths are negative and neither magnitude is within seven tenths of the other |
| ParityAnalysis.EqualNegativeLengths | maritime-ai-service/scripts/analyze_wiii_sync_stream_parity.py:132-133 | Two equal lengths below -1 count as thinner both ways round |
| ParityAnalysis.CountTurn | maritime-ai-service/scripts/analyze_wiii_sync_stream_parity.py:260-273 | One finding is added to the counters of its lane, made if need be |
| ParityAnalysis.CountClass | maritime-ai-service/scripts/analyze_wiii_sync_stream_parity.py:284-298 | A summary counter is the number of findings of its class |
| ParityAnalysis.RecordTurn | maritime-ai-service/scripts/analyze_wiii_sync_stream_parity.py:203-257 | The finding of one turn, with both runtimes recorded |
| ParityAnalysis.AnalyzeSession | maritime-ai-service/scripts/analyze_wiii_sync_stream_parity.py:201-273 | The inner loop adds the findings of the session's turns that have a side, and keeps lanes and runtime counters those of the findings |
| ParityAnalysis.AnalyzeReport | maritime-ai-service/scripts/analyze_wiii_sync_stream_parity.py:170-314 | Findings in order, lanes, summary and runtime counters of the whole report |
| RuntimeCounters.TransportRuntime | maritime-ai-service/scripts/analyze_wiii_sync_stream_parity.py:147-167 | The runtime of one side, with a route token for each hop that names both ends |
| RuntimeCounters.Bump | maritime-ai-service/scripts/analyze_wiii_sync_stream_parity.py:179-183 | A nonblank key is counted once more, and nothing else changes |
| RuntimeCounters.RuntimeTally.Record | maritime-ai-service/scripts/analyze_wiii_sync_stream_parity.py:185-197 | Provider, model, time and failover counters stay those of everything recorded |
| RuntimeCounters.BucketAddsUp | maritime-ai-service/scripts/analyze_wiii_sync_stream_parity.py:185-187 | A side's provider or model counters together are its answers that name one |
| ParityAnalysis.FindingsOrder | maritime-ai-service/scripts/analyze_wiii_sync_stream_parity.py:275 | The sort key is a strict order of lane, session and turn by code points |
| ParityAnalysis.SortingKeepsTallies | maritime-ai-service/scripts/analyze_wiii_sync_stream_parity.py:275-298 | Sorting puts the findings in order and changes no count |
| ParityAnalysis.LanesConserve | maritime-ai-service/scripts/analyze_wiii_sync_stream_parity.py:272-273 | Over any listing of the lanes, turns add up to the number of findings and each class to its findings |
| ParityAnalysis.LaneIsItsClasses | maritime-ai-service/scripts/analyze_wiii_sync_stream_parity.py:272-273 | Each lane's turns are its six class counters together |
| ParityAnalysis.SummaryConserves | maritime-ai-service/scripts/analyze_wiii_sync_stream_parity.py:282-298 | The turn count is the lanes' turns together, and the five summary classes plus the lanes' sync-missing counters |
| StableSort.SortToOrders | maritime-ai-service/scripts/analyze_wiii_sync_stream_parity.py:275 | A stable insertion sort puts elements in order |
| StableSort.SortToPermutes | maritime-ai-service/scripts/benchmark_gemini_embeddings.py:139 | It keeps the elements |
| StableSort.SortToIsStable | maritime-ai-service/scripts/benchmark_gemini_embeddings.py:139 | Elements the order does not tell apart keep their order |
| EvidenceWriter.ValidateReportOutputPath | tools/wiii_self_harness/safe_report_output.py:17-26 | The loop over the parents gives the verdict: directory first, then symlink, then a live symlinked parent |
| EvidenceWriter.ValidatorsDiffer | maritime-ai-service/scripts/runtime_evidence_output.py:20-32 | The second version accepts whatever the first accepts, and more exactly when all symlinked parents dangle |
| EvidenceWriter.VerdictsNameDifferentErrors | tools/wiii_self_harness/safe_report_output.py:17-26 | When both refuse they name different errors exactly for a directory reached through a link |
| EvidenceWriter.Volume.Rename | maritime-ai-service/scripts/runtime_evidence_output.py:60 | `os.replace` moves the text in one step |
| EvidenceWriter.WriteFlushSync | maritime-ai-service/scripts/runtime_evidence_output.py:56-58 | Until the write block ends well the temporary file holds a beginning of the text, and nothing else changes |
| EvidenceWriter.EmitTemp | maritime-ai-service/scripts/runtime_evidence_output.py:46-58 | The path is noted as soon as the file exists |
| EvidenceWriter.SafeTemp | tools/wiii_self_harness/safe_report_output.py:35-46 | The path is noted only after fsync |
| EvidenceWriter.Publish | maritime-ai-service/scripts/runtime_evidence_output.py:59-61 | The target is replaced unless the last validation or the rename fails |
| EvidenceWriter.Cleanup | maritime-ai-service/scripts/runtime_evidence_output.py:62-67 | `finally` removes the noted file unless unlinking fails |
| EvidenceWriter.EmitJsonPayload | maritime-ai-service/scripts/runtime_evidence_output.py:35-67 | For every pattern of failures, a taken temporary name among them: the call ends at the earliest failing step, in every recorded state the target is old, or complete with its content on the disk, and the temporary file stays exactly when the cleanup itself fails; without a path the text goes to standard output |
| EvidenceWriter.SafeWriteReportText | tools/wiii_self_harness/safe_report_output.py:29-55 | The same old-or-new law; the temporary file also stays when writing, flushing or syncing fails |
| EvidenceWriter.LeaksDiffer | tools/wiii_self_harness/safe_report_output.py:33-55 | Where both fail alike, the second leaves a file that the first removes exactly when write, flush or fsync failed and unlinking works |
| EvidenceWriter.LeavesIff | tools/wiii_self_harness/safe_report_output.py:33-55 | By the steps that fail: the first leaves its file iff it is created, a later step fails and so does unlinking; the second also iff it fails to write, flush or sync |
| EvidenceWriter.LeavesAloneIff | tools/wiii_self_harness/safe_report_output.py:33-55 | Under one plan, exactly when the second leaves a file alone and when the first does |
| EvidenceWriter.FailedWriteLeaves | tools/wiii_self_harness/safe_report_output.py:43-46 | Only the write fails: the second leaves its file and the first does not |
| EvidenceWriter.FirstRefusesNoLater | maritime-ai-service/scripts/runtime_evidence_output.py:41-59 | Under one plan the first version raises wherever the second does, and no later |
| EvidenceWriter.Perform | maritime-ai-service/scripts/runtime_evidence_output.py:35-67 | One requested call of either version ends as its plan says and follows from the files before |
| EvidenceWriter.PerformAll | maritime-ai-service/scripts/runtime_evidence_output.py:35-67 | Any sequence of calls of either version: every state on the way is recorded, and a path at which no call leaves a temporary file holds the text of the last call on it that returned |
| EvidenceWriter.LastReturnedCallWins | maritime-ai-service/scripts/runtime_evidence_output.py:35-67 | Over every chain of finished calls, a path at which no call leaves a temporary file holds the text of the last call on it that returned |
| EvidenceWriter.NeverTornInARun | maritime-ai-service/scripts/runtime_evidence_output.py:46-67 | At every recorded moment of such a run too, or the complete text, on the disk, of the call in progress |
| EvidenceWriter.NeverATornText | maritime-ai-service/scripts/runtime_evidence_output.py:46-67 | The same for a call that is cut off, after any chain of finished ones |
| Lifecycle.ValidateNeo4j | maritime-ai-service/app/main_startup_runtime.py:102-121 | The repository is recorded as soon as it is made, with or without a driver, even if the availability check raises |
| Lifecycle.ValidatePostgresql | maritime-ai-service/app/main_startup_runtime.py:82-99 | The shared engine is live once asked for, if it can be created |
| Lifecycle.OpenDriver | maritime-ai-service/app/repositories/neo4j_knowledge_repository.py:143-171 | A repository opens a driver exactly when Neo4j is enabled and opening works, and never raises |
| Lifecycle.ScheduleRuntimeAudit | maritime-ai-service/app/main_startup_runtime.py:267-304 | Every task made is returned, whatever raises later in the helper |
| Lifecycle.ScheduleModelHealthProbes | maritime-ai-service/app/main_startup_runtime.py:307-335 | Tasks made are returned unless the helper raises after making them |
| Lifecycle.PrewarmRagAgent | maritime-ai-service/app/engine/agentic_rag/rag_agent.py:76-142 | Two more drivers are live exactly when Neo4j is enabled and opening each works; nothing records them |
| Lifecycle.DispatchJobs | maritime-ai-service/app/api/v1/course_generation_runtime.py:175-220 | The jobs whose task is created: at their outline with the document there or at their expansion with the request kept, up to the first that raises |
| Lifecycle.RecoverCourseGenerationJobs | maritime-ai-service/app/main_startup_runtime.py:424-437 | With LMS integration on: the course pool is live if it can be opened, and if claiming works too the tasks made so far stay, whatever raises later |
| Lifecycle.InitializeMcpClient | maritime-ai-service/app/main_startup_runtime.py:440-450 | The client is live exactly when enabled and initialised |
| Lifecycle.StartScheduledExecutor | maritime-ai-service/app/main_startup_runtime.py:453-471 | Returned exactly when enabled and started |
| Lifecycle.StartLivingAgent | maritime-ai-service/app/main_startup_runtime.py:474-510 | Returned exactly when enabled and started, whatever the emotion state does |
| Lifecycle.StartSoulBridge | maritime-ai-service/app/main_startup_runtime.py:574-592 | Live once initialised, returned only if connecting works too |
| Lifecycle.StartMagicLinkMaintenance | maritime-ai-service/app/main_startup_runtime.py:513-571 | Both tasks made are returned, whatever raises later in the helper |
| Lifecycle.BootstrapLmsConnectors | maritime-ai-service/app/main_startup_runtime.py:225-238 | The step raises exactly when its unguarded output does: the skip notice, or the warning after a failure |
| Lifecycle.StartupApplication | maritime-ai-service/app/main_startup_runtime.py:595-636 | Startup raises exactly when observability or the LMS step does; in every case exactly the parts of the helpers called before are live and exactly the dispatched jobs run, and otherwise each part is recorded as its helper returned it |
| Lifecycle.Stop | maritime-ai-service/app/main_shutdown_runtime.py:18-84 | One attempt for a recorded part, none for another; its exception is swallowed |
| Lifecycle.CancelBackgroundTasks | maritime-ai-service/app/main_shutdown_runtime.py:192-209 | The six task cancellations, in order |
| Lifecycle.ShutdownApplication | maritime-ai-service/app/main_shutdown_runtime.py:186-220 | Every wanted part is attempted exactly once, in order, and no failure keeps shutdown from its last step |
| Lifecycle.Lifespan | maritime-ai-service/app/main.py:41-57 | For every run: how it ends, what was attempted, and exactly which parts and recovered jobs are left live, also when startup or the start message raises |
| Lifecycle.EachAttemptedOnce | maritime-ai-service/app/main_shutdown_runtime.py:186-220 | Each part that shutdown tries to stop is attempted exactly once, no other is, and the database engine is last |
| Lifecycle.WhichTasksSurvive | maritime-ai-service/app/main_startup_runtime.py:267-335 | A task of a helper survives a run if and only if startup worked and the start message raised, or it is a probe task whose helper raised after making it and that did not end by itself |
| Lifecycle.LoadedProbesRaiseIff | maritime-ai-service/app/core/config/_settings_base_fields.py:330-335 | With the bounds the settings check, the probe helper raises after making a task exactly when the loop is wanted and creating it raises |
| Lifecycle.NothingSurvivesIff | maritime-ai-service/app/main.py:52-57 | When a run leaves nothing live: if startup raised, iff it did so in observability or neither engine nor driver could be opened; if the start message raised, iff nothing could be started; else iff the probe helper loses nothing still running, no driver or bridge is lost, every handle in use closes and every recovered job has finished |
| Lifecycle.FaultFreeRunLeaves | maritime-ai-service/app/main.py:41-57 | A run in which nothing raises leaves exactly the two drivers of the RAG agent, if Neo4j is enabled, and the unfinished tasks of the jobs it recovered |
| Lifecycle.RecoveredJobSurvives | maritime-ai-service/app/api/v1/course_generation_runtime.py:32-52 | LMS integration on, nothing raising and one recovered job unfinished: its task runs on after shutdown |
| Lifecycle.SkippedLmsNoticeLeaves | maritime-ai-service/app/main_startup_runtime.py:237-238 | LMS integration off and its notice raising: the engine stays open, and the driver of the repository if Neo4j is enabled, nothing else |
| Lifecycle.StartMessageLeaves | maritime-ai-service/app/main.py:53 | The start message raising: everything started stays, the recovered jobs included |
| Lifecycle.ProbeLoopFailureLeaves | maritime-ai-service/app/main_startup_runtime.py:324-335 | Creating the probe loop raising: the probe task stays besides what a run without failure leaves |
| Lifecycle.SoulConnectFailureLeaves | maritime-ai-service/app/main_startup_runtime.py:580-592 | Connecting raising: the soul bridge stays besides what a run without failure leaves |
| ApprovalLedger.FakeStorage.AppendOperationApprovalRecord | maritime-ai-service/scripts/probe_live_wiii_connect_facebook_post_replay.py:114-128 | Forbidden text is refused before any change; else the approval is stored unconsumed |
| ApprovalLedger.FakeStorage.ConsumeOperationApprovalRecord | maritime-ai-service/scripts/probe_live_wiii_connect_facebook_post_replay.py:130-191 | The decision is the one due to the history; blocked attempts leave the approvals unchanged |
| ApprovalLedger.StoredIsLastAppended | maritime-ai-service/scripts/probe_live_wiii_connect_facebook_post_replay.py:124-127 | The stored approval is the last one appended, consumed exactly if it has been since |
| ApprovalLedger.DecisionIff | maritime-ai-service/scripts/probe_live_wiii_connect_facebook_post_replay.py:146-191 | In every run an attempt consumes if and only if the latest approval of its id has its fingerprint and has not been consumed; missing and already-consumed are told apart exactly |
| ApprovalLedger.ConsumedOncePerAppend | maritime-ai-service/scripts/probe_live_wiii_connect_facebook_post_replay.py:158-181 | Between two consuming attempts for an id there is an append of that id |
| ApprovalLedger.ConsumedAtMostAppended | maritime-ai-service/scripts/probe_live_wiii_connect_facebook_post_replay.py:114-191 | Never more consumed than appended, and fewer while an approval is open |
| ApprovalLedger.IdsAreIndependent | maritime-ai-service/scripts/probe_live_wiii_connect_facebook_post_replay.py:146 | What is decided for an id depends only on the events about it |
| PageBatches.UnprocessedPages | maritime-ai-service/scripts/ingest_full_pdf.py:245-246 | The pages to process are exactly the unprocessed ones, increasing |
| PageBatches.GroupPages | maritime-ai-service/scripts/ingest_full_pdf.py:255-261 | The batches are the ranges from first to last page of consecutive groups |
| PageBatches.NeverEndsIff | maritime-ai-service/scripts/ingest_full_pdf.py:257-261 | The counter of the grouping loop stays below the end in every round if and only if there are pages and the batch size is not positive |
| PageBatches.BatchCount | maritime-ai-service/scripts/ingest_full_pdf.py:255-261 | There are n/b batches, rounded up |
| PageBatches.EveryPageCovered | maritime-ai-service/scripts/ingest_full_pdf.py:255-261 | Every unprocessed page lies in the range of its batch |
| PageBatches.RangesIncrease | maritime-ai-service/scripts/ingest_full_pdf.py:255-261 | The ranges are disjoint and increasing |
| PageBatches.SendsExactlyIff | maritime-ai-service/scripts/ingest_full_pdf.py:255-261 | The ranges hold no other page if and only if no batch has a gap inside |
| PageBatches.ProcessedPageSentAgain | maritime-ai-service/scripts/ingest_full_pdf.py:255-261 | A batch of two pages around a processed one sends it again |
| PageBatches.TryBatch | maritime-ai-service/scripts/ingest_full_pdf.py:278-299 | A batch is tried up to its first success and at most MAX_RETRIES times |
| PageBatches.IngestBatches | maritime-ai-service/scripts/ingest_full_pdf.py:274-303 | Failed batches are those whose tries all fail, in order; totals count each success once |
| PageBatches.FailedIff | maritime-ai-service/scripts/ingest_full_pdf.py:301-303 | A batch is reported exactly when all its tries fail |
| StrictJson.RejectDuplicateJsonObjectPairs | tools/wiii_self_harness/strict_json.py:31-41 | The hook returns the pairs in order when the keys differ, else the repeated keys |
| StrictJson.ReportsRepeatedKeys | tools/wiii_self_harness/strict_json.py:34-36 | Exactly the keys that occur at least twice are reported, each once |
| StrictJson.ReportedInOrder | tools/wiii_self_harness/strict_json.py:34-36 | They are reported in the order of their second occurrence |
| StrictJson.NothingReportedIff | tools/wiii_self_harness/strict_json.py:38-41 | The hook accepts exactly the lists with distinct keys |
| StrictJson.LoadsIffStrict | tools/wiii_self_harness/strict_json.py:19-41 | A text is loaded, unchanged, if and only if names are unique in every object at every depth and no constant occurs (section 4 of RFC 8259) |
| StrictJson.LoadTellsStrict | tools/wiii_self_harness/strict_json.py:27-41 | Any error is the complaint about some part of the text |
| Ranking.TopKOrder | maritime-ai-service/scripts/benchmark_gemini_embeddings.py:129-140 | min(k, n) different documents of the list |
| Ranking.RankedTies | maritime-ai-service/scripts/benchmark_gemini_embeddings.py:139 | Of two places in the ranking the first holds the document with the higher score, or with the same score and the earlier place |
| Ranking.KeptArePreferred | maritime-ai-service/scripts/benchmark_gemini_embeddings.py:139-140 | A kept document scores more than a dropped one, or the same and stands earlier |
| Ranking.RecallGrows | maritime-ai-service/scripts/benchmark_gemini_embeddings.py:122-126 | Recall lies in [0, 1], never falls as k grows, and is 1 exactly when all relevant documents are among the first k |
| Ranking.ReciprocalRank | maritime-ai-service/scripts/benchmark_gemini_embeddings.py:115-119 | The loop returns one over the place of the first relevant document |
| Ranking.RankAgainstRecall | maritime-ai-service/scripts/benchmark_gemini_embeddings.py:115-126 | Recall at k is positive if and only if the reciprocal rank is at least 1/k |
| Ranking.OverlapIsJaccard | maritime-ai-service/scripts/benchmark_gemini_embeddings.py:204-207 | The overlap lies in [0, 1], is symmetric, is 1 exactly for equal sets and 0 exactly for disjoint ones not both empty |
| Ranking.AverageTopKOverlap | maritime-ai-service/scripts/benchmark_gemini_embeddings.py:195-208 | The loop averages the overlaps; no query raises |
| Ranking.AverageIsOneIff | maritime-ai-service/scripts/benchmark_gemini_embeddings.py:195-208 | The average is 1 exactly when the two models agree on every query |
| OrderStatistics.PercentileSplits | maritime-ai-service/scripts/benchmark_gemini_embeddings.py:211-216 | For 0 < pct <= 100 at least pct per cent of the samples are no greater, and fewer are less |
| OrderStatistics.PercentileOutside | maritime-ai-service/scripts/benchmark_gemini_embeddings.py:215 | Outside that range the least or the greatest sample is given |
| OrderStatistics.P95IndexInRange | maritime-ai-service/scripts/replay_eval.py:179 | The index is in range for every n and not below the middle |
| OrderStatistics.StatsAreOrdered | maritime-ai-service/scripts/replay_eval.py:175-185 | least <= median <= p95 <= greatest |
| OrderStatistics.P95Splits | maritime-ai-service/scripts/eval_summary.py:84-94 | How many samples lie above and below the p95, to half a place |
| EvalReplay.Run | maritime-ai-service/scripts/replay_eval.py:267-280 | Exactly the first min(limit, total) records of all sessions are replayed, in order, and no session is read beyond the limit |
| EvalReplay.FlagRegressions | maritime-ai-service/scripts/replay_eval.py:133-149 | The loop returns the flagged diffs with their flags |
| EvalReplay.FlaggedAreTheRegressed | maritime-ai-service/scripts/replay_eval.py:136-149 | The flagged are exactly the failed ones and those across a threshold, in order |
| EvalReplay.MatchRateIsARate | maritime-ai-service/scripts/replay_eval.py:158-168 | The match rate lies in [0, 1] and is 1 exactly when something was compared and all of it matched |
| PolicyRuns.SnapshotRuntimeSettings | maritime-ai-service/scripts/benchmark_embedding_retrieval_paths.py:140-148 | The copy has the same values and a list of its own |
| PolicyRuns.RestoreRuntimeSettings | maritime-ai-service/scripts/benchmark_embedding_retrieval_paths.py:151-160 | All six settings are put back; the caches are dropped unless the refresh raises |
| PolicyRuns.ApplyPolicy | maritime-ai-service/scripts/benchmark_embedding_retrieval_paths.py:163-170 | The four settings are those of the policy, the list is a new one, the caches are dropped |
| PolicyRuns.Runtime.GetEmbeddingBackend | maritime-ai-service/app/engine/embedding_runtime.py:771-793 | The cached backend, or a new one for the settings in force; where building it raises the cache stays empty |
| PolicyRuns.MeasureSemanticContext | maritime-ai-service/scripts/benchmark_embedding_retrieval_paths.py:265-300 | The rows at the end, for every pattern of failures |
| PolicyRuns.RunPolicy | maritime-ai-service/scripts/benchmark_embedding_retrieval_paths.py:336-365 | Whatever fails or changes the settings meanwhile: whether it raises, the six settings as they were, no earlier list changed, both caches exactly, also where building the backend raises, and the cached backend current if and only if the refresh of the restoring works, or nothing was built, or the policy equals the settings, or it was not applied and the cache was current before; backends handed out were those for the settings in force |
| PolicyRuns.FailedRefreshLeavesPolicyBackend | maritime-ai-service/scripts/benchmark_embedding_retrieval_paths.py:151-160 | Only the refresh of the restoring raises: the policy's backend stays cached |
| PolicyRuns.RunPolicies | maritime-ai-service/scripts/benchmark_embedding_retrieval_paths.py:457-458 | Over any sequence of runs: it stops at the first that raises, the settings end as they were, the rows are those after the runs begun, and the caches are as the last run leaves them |
| PolicyRuns.OtherUsersKeepRows | maritime-ai-service/scripts/benchmark_embedding_retrieval_paths.py:180-188 | Over any number of runs, users other than the temporary ones keep their rows |
| PolicyRuns.TemporaryUsersAreGone | maritime-ai-service/scripts/benchmark_embedding_retrieval_paths.py:272-300 | A temporary user that some run came to is gone afterwards when its deletes work |
| PolicyRuns.TemporaryUserIsGone | maritime-ai-service/scripts/benchmark_embedding_retrieval_paths.py:272-300 | When the deletes work the temporary user's rows are gone, and other users' rows are never touched |
| PolicyRuns.UserLeftIff | maritime-ai-service/scripts/benchmark_embedding_retrieval_paths.py:272-300 | Exactly when rows of the temporary user are left |

## Left out

- HTTP requests and status errors, UTF-8 decoding and the line iteration of httpx: the text delivered, the way it ends and the clock readings are inputs.
- JSON decoding in the collectors and the rendering of trace entries: events carry their data as text, and which entries cannot be rendered is an input. The collectors' fallback to the raw text is therefore not visible.
- Unicode: the blanks and line breaks of Python are listed character by character in `PyText`; `lower` is a parameter.
- Values of reports are opaque contents together with the text they stand for as an id; reports are trees of separate objects, so a base that shares one object between two places is not covered.
- ReportMerge.MergeInTwoGoes: stated on values; the object form is tied to it by `ReportObjects.MergeReportObjects`.
- ReportMerge.PutSession: falsy values that are no lists are one value of the model; truthy ones in place of a list are not covered.
- The parity analysis without the rendered details of findings, the means of processing times and the event counts of raw files; the counters are maps, so the order of their keys is not kept.
- ParityAnalysis.AnalyzeReport: `int(n * 0.7)` and `lower` are parameters, because 90 * 0.7 is below 63 in floating point.
- EvidenceWriter.EmitJsonPayload: the rendered text is an input, the temporary name is the one `tempfile` ends up with, which may be taken, and other processes change what the validations see but not the files.
- EvidenceWriter.SafeWriteReportText: the newline translation that text mode does on some systems is not modelled; the text is what is to be in the file.
- Exceptions other than ordinary ones, such as the cancellation of startup or shutdown, and the scheduling of tasks: a cancelled task ends when it is awaited.
- Calls of the logger: they are taken not to raise anywhere, because Python's logging reports the failure of a handler instead of raising it; output by `print` may raise.
- Lifecycle.StartupApplication: what the model libraries, tracing, error reporting and Alembic keep for themselves are no parts, and helpers that acquire none are no steps. A part that fails to start does so throughout startup, also where several helpers ask for it, as for the engine. A start that raises has started nothing, except where the code initialises and connects in two calls.
- Lifecycle.Lifespan: while serving, the pools, browser and engine that shutdown closes may be opened on demand; what else requests open (the asyncpg pool for administration, the engine of the health check, drivers of single queries and of the chat service) is not modelled, nor what the event loop does with tasks once the run is over.
- Lifecycle.RecoverCourseGenerationJobs: the rows that claiming returns, fifty at most, are an input.
- ApprovalLedger.FakeStorage.AppendOperationApprovalRecord: which texts are forbidden is an input; connection and audit records are not modelled.
- PageBatches.GroupPages: asks for a positive batch size, without which the loop does not end; the delays between tries are left out.
- StrictJson.LoadsIffStrict: texts are represented by their trees, so syntax errors and the file are not modelled.
- OrderStatistics.StatsAreOrdered: 0.95 is exact, and the rounding of the reported numbers to two or three digits is left out.
- Ranking.TopKOrder: the cosine similarity is a function of the document, and scores are exact.
- EvalReplay.Run: replaying one record and comparing it are one function from records to diffs, and a failed replay has no other field.
- PolicyRuns.RunPolicy: what the measurements measure is left out; they fetch backends, write rows and may fail or change the settings; the persisted policy that is restored before the first run is not modelled.
- Secret redaction, evidence assertions, argument parsing, Markdown and HTML rendering, front-end configuration and release tooling.
