# AEGIS console: a Dafny model of its backend services and page controllers

AEGIS is a security research console. A researcher compiles AegisLang snippets
with `aegiscc` (getting an AST, bytecode and a policy verdict), runs code or a
binary under `aegis-sandbox` with memory, timeout and network limits, and starts
and stops fuzz campaigns. Every one of these actions leaves an event in a
bounded in-memory log, which the client shows as a security timeline that can be
filtered by level and searched.

This project models, in Dafny:

- the backend's **event log** (`backend/src/services/logger.rs`): `add_log` keeps
  at most 1000 entries by dropping the oldest; `get_timeline` returns a stable
  newest-first copy cut to a limit; `get_logs_by_source` is an order-preserving
  filter. Module `Logger`, with the store as the class `Logger.LogStore`.
- the **shared state and binary lookup** (`backend/src/services/mod.rs`): the
  first-existing search over four install locations, and `AppState::new`.
  Module `Services`, with the state as the class `Services.AppState`.
- the three **services that turn a process outcome into a record**: a
  `CompileResponse` (`compiler.rs`, module `CompilerService`), a `SandboxRun`
  with its command line (`sandbox.rs`, module `SandboxService`), and fuzz
  campaigns and crashes (`fuzzer.rs`, module `FuzzerService`).
- the **HTTP handlers** (`backend/src/api/mod.rs`, module `Api`), as methods that
  change an `AppState`: storing runs and campaigns, marking a campaign stopped,
  appending projects, and choosing the level and message of each log event.
- the four **client pages**, each as a class over its state slots:
  `SecurityTimeline.tsx` (module `SecurityTimelinePage`), `CodeLab.tsx`
  (`CodeLabPage`), `SandboxRunner.tsx` (`SandboxRunnerPage`) and
  `FuzzingConsole.tsx` (`FuzzingConsolePage`).
- shared pieces: the records of `backend/src/models/mod.rs` (module `Models`),
  and an order-preserving `Filter` with its laws (module `Seqs`).

Effects are inputs. A process run is a `ProcessOutcome`: it exited with an
optional code and its decoded output, or it could not be spawned. `Path::exists`
and `HOME` are a `Services.Host`. Fresh UUIDs, clock readings and elapsed times
are parameters. A page handler receives the outcome of its fetch as a
`Result`. It returns any request it fires without awaiting, for example the
crash fetch after a poll, and the caller feeds that request's outcome to the
matching method.

The code does not do the following, and neither does the model:

- it never discards a compile or run response as stale;
- it does not skip overlapping fuzz polls;
- the backend does not reject a second fuzz start. The page offers Start only
  while the campaign it follows is not running (`StopOffered` in the model);
- a poll that finds no running campaign does not clear the campaign followed
  before, even after that campaign was stopped.

## Model

| member | source | states |
|---|---|---|
| Seqs.Filter | backend/src/services/logger.rs:56-61 | the result is no longer than the input and every element passes the predicate |
| Seqs.FilterMembership | frontend/src/pages/SecurityTimeline.tsx:41-47 | an element is kept exactly when it is in the input and passes the predicate |
| Seqs.FilterMultiplicity | backend/src/services/logger.rs:56-61 | a passing element keeps every occurrence; a failing one keeps none |
| Seqs.FilterSubsequence | backend/src/services/logger.rs:56-61 | a filter only deletes: what it keeps stays in input order |
| Seqs.FilterAppend | backend/src/services/logger.rs:56-61 | filtering a concatenation concatenates the filtered parts |
| Seqs.FilterPrefix | backend/src/services/logger.rs:41-44 | filtering a prefix gives a prefix of the filtered whole |
| Seqs.FilterKeepsAll | frontend/src/pages/SecurityTimeline.tsx:41-47 | when every element passes, the filter returns its input unchanged |
| Seqs.FilterIdempotent | frontend/src/pages/SecurityTimeline.tsx:41-47 | filtering twice with one predicate equals filtering once |
| Seqs.MapValues | backend/src/api/mod.rs:158-162 | one value per key: every value appears, nothing else does, and each value appears exactly as often as keys hold it |
| Seqs.KeysHoldingKeyed | backend/src/api/mod.rs:111-114 | in a map filing each value under its own key, a stored value is held by that key alone |
| Models.Hex | backend/src/services/fuzzer.rs:16 | the hex digits of a UUID have exactly the requested width |
| Models.HexRoundTrip | backend/src/services/fuzzer.rs:16 | reading the digits back gives the number modulo the width's range |
| Models.UuidText | backend/src/services/fuzzer.rs:16 | the canonical UUID text is 36 characters |
| Models.HexFromUuidText | backend/src/services/fuzzer.rs:16 | dropping the four hyphens gives back the 32 hex digits |
| Models.UuidTextInjective | backend/src/api/mod.rs:125 | equal UUID texts come from equal UUIDs, so ids in names and messages are unambiguous |
| Logger.AddLogged | backend/src/services/logger.rs:21-27 | the new entry is last; the store is at most 1000 long; below 1000 it grows by one with earlier entries untouched; otherwise it is the last 1000 of old store plus new entry |
| Logger.LogStore.AddLog | backend/src/services/logger.rs:5-29 | pushing then draining the front leaves exactly `AddLogged` of the old store and the new entry |
| Logger.InsertNewestFirst | backend/src/services/logger.rs:39 | insertion adds exactly one element and keeps the multiset |
| Logger.InsertKeepsOrder | backend/src/services/logger.rs:39 | inserting into a newest-first list keeps it newest-first |
| Logger.SortNewestFirst | backend/src/services/logger.rs:38-39 | the sort returns a permutation of the store, ordered by timestamp non-increasing |
| Logger.InsertStable | backend/src/services/logger.rs:39 | among equal timestamps the inserted entry comes first |
| Logger.SortStable | backend/src/services/logger.rs:38-39 | entries with equal timestamps keep their store order (`sort_by` is stable) |
| Logger.Timeline | backend/src/services/logger.rs:31-50 | entries are newest-first, are the first min(limit, store size) of the sorted store, and `total_count` is the returned length, not the store size |
| Logger.TimelinePermutation | backend/src/services/logger.rs:35-39 | with no limit, or one at least the store size, the timeline is a permutation of the store |
| Logger.TimelineStable | backend/src/services/logger.rs:38-44 | for each timestamp, the returned entries are the first ones of the store in store order, all of them when nothing is cut |
| Logger.TimelineKeepsNewest | backend/src/services/logger.rs:41-44 | truncation drops only entries no newer than any it keeps |
| Logger.LogStore.GetTimeline | backend/src/services/logger.rs:31-50 | sorting and truncating a copy yields `Timeline`; the store is not changed |
| Logger.LogsBySource | backend/src/services/logger.rs:52-62 | a subsequence of the store, all from the source, containing every stored entry from it |
| Logger.LogsBySourceMultiplicity | backend/src/services/logger.rs:56-61 | each entry from the source appears as often as stored; no other entry appears |
| Logger.LogStore.GetLogsBySource | backend/src/services/logger.rs:52-62 | returns `LogsBySource` of the store |
| Services.Candidates | backend/src/services/mod.rs:19-24 | four places are searched |
| Services.CandidateShapes | backend/src/services/mod.rs:20-23 | only the Windows candidate appends `.exe`; with HOME unset the last candidate is under `~/` |
| Services.FirstExisting | backend/src/services/mod.rs:26-33 | the result is one of the candidates or the fallback |
| Services.FirstExistingIsFirstMatch | backend/src/services/mod.rs:26-33 | the result is the earliest existing candidate, or the fallback when none exists |
| Services.GetAegisBinaryPath | backend/src/services/mod.rs:17-34 | the loop returns the first existing candidate in order, else the binary name unchanged |
| Services.AppState.constructor | backend/src/services/mod.rs:49-63 | one demo project with the given id and clock readings; no runs, no campaigns, no logs; the state is valid (every run and campaign stored under its own id) |
| CompilerService.CompileCommand | backend/src/services/compiler.rs:6-13 | aegiscc from the binary search, with arguments `--eval`, the code, `--emit-bytecode` |
| CompilerService.ParseAstFromOutput | backend/src/services/compiler.rs:65-77 | an AST object is always returned, whatever the output |
| CompilerService.CompileCode | backend/src/services/compiler.rs:15-62 | success exactly on exit code 0; `passed == success`; passed implies no violations; no warnings; on success bytecode and output are stdout and an AST is present; on failure one violation and an error, stderr for a non-zero exit, the spawn-error texts when spawning failed |
| SandboxService.Arg | backend/src/services/sandbox.rs:53 | `arg` appends exactly one word and keeps the program |
| SandboxService.AppendOptions | backend/src/services/sandbox.rs:52-62 | `--memory m` iff a memory limit, then `--timeout t` iff a timeout, then `--network none` iff the network is explicitly off |
| SandboxService.OptionArgsLayout | backend/src/services/sandbox.rs:137-147 | each option appears exactly when its field asks for it, at a fixed place; an absent or true network setting adds nothing |
| SandboxService.CodeRunOutput | backend/src/services/sandbox.rs:75-127 | a started run keeps the process output and exit code and records three allowed syscalls (execve with the command, write, exit_group) counted in the usage; a failed spawn gives empty stdout, exit 1, no trace and zero usage |
| SandboxService.BinaryRunOutput | backend/src/services/sandbox.rs:154-185 | never a syscall trace and a count of 0; a started run keeps the process output; a failed spawn gives exit 1 and zero usage |
| SandboxService.RunCodeInSandbox | backend/src/services/sandbox.rs:42-128 | the command is the sandbox with the options, then aegiscc `--eval` code `--run`; the output is `CodeRunOutput` |
| SandboxService.RunBinaryInSandbox | backend/src/services/sandbox.rs:130-186 | the command is the sandbox with the options, then the binary path alone; the output is `BinaryRunOutput` |
| SandboxService.RunSandbox | backend/src/services/sandbox.rs:7-40 | code wins over a binary; with neither, the fixed "No input" failure; status is Completed iff exit code is 0, else Failed; `completed_at` is always set; a spawn failure or no input is Failed |
| FuzzerService.CampaignNamesDistinct | backend/src/services/fuzzer.rs:16 | campaigns with distinct ids have distinct names |
| FuzzerService.StartFuzzing | backend/src/services/fuzzer.rs:9-38 | a Running campaign named after its id, target copied, counters zero, started at the given time, not stopped |
| FuzzerService.StopFuzzing | backend/src/services/fuzzer.rs:40-43 | always reports stopped |
| FuzzerService.GetCampaignStatus | backend/src/services/fuzzer.rs:45-63 | always a Running campaign for the asked id, named after it, started exactly five minutes before now |
| FuzzerService.GetCrashes | backend/src/services/fuzzer.rs:65-92 | exactly three crashes of the campaign, signals 11, 6, 11, discovered in increasing order before now |
| Api.CompileLogLevel | backend/src/api/mod.rs:70-74 | Info iff the compile succeeded, Error iff it failed |
| Api.CompileLogMessage | backend/src/api/mod.rs:76-80 | "Code compiled successfully" iff success, "Code compilation failed" otherwise |
| Api.SandboxLogLevel | backend/src/api/mod.rs:119-123 | Error exactly for Failed and Timeout, Info for every other status |
| Api.SandboxRunLogLevel | backend/src/api/mod.rs:117-124 | a run from `run_sandbox` is logged Info when its exit code is 0, Error otherwise |
| Api.CompileCode | backend/src/api/mod.rs:64-85 | returns the service's response and appends one Compiler entry with the level and message chosen by success |
| Api.RunSandbox | backend/src/api/mod.rs:106-134 | stores the run under its own id, leaves other runs, campaigns and projects alone, keeps the state valid, and appends one Sandbox entry |
| Api.GetSandboxLogs | backend/src/api/mod.rs:136-147 | the stored run's output and trace, or "Run not found" for an unknown id |
| Api.GetSandboxResources | backend/src/api/mod.rs:149-156 | success iff the run is stored, with its usage; otherwise "Run not found" |
| Api.ListSandboxRuns | backend/src/api/mod.rs:158-162 | one entry per stored id, each run as often as ids hold it; in a valid state every stored run exactly once |
| Api.StartFuzzing | backend/src/api/mod.rs:168-188 | stores the new campaign under its id, keeps the state valid, and appends one Info Fuzzer entry |
| Api.StopFuzzing | backend/src/api/mod.rs:190-213 | a stored campaign becomes Stopped with `stopped_at` set; others and unknown ids are untouched, and the state stays valid; logs iff stopped; replies `success == stopped` |
| Api.GetFuzzStatus | backend/src/api/mod.rs:215-221 | always a successful reply with a Running campaign of the asked id |
| Api.GetFuzzCrashes | backend/src/api/mod.rs:223-226 | the service's three crashes, all of the asked campaign |
| Api.ListCampaigns | backend/src/api/mod.rs:228-232 | one entry per stored id, each campaign as often as ids hold it; in a valid state every stored campaign exactly once |
| Api.GetLogs | backend/src/api/mod.rs:238-242 | the whole store, oldest first |
| Api.GetTimeline | backend/src/api/mod.rs:244-247 | the timeline with limit 100: newest first, at most 100, count equal to the length |
| Api.ListProjects | backend/src/api/mod.rs:253-256 | the stored projects |
| Api.CreateProject | backend/src/api/mod.rs:258-274 | appends exactly one project with the request's name and description and the given times, returns it, and leaves runs and campaigns alone, so the state stays valid |
| SecurityTimelinePage.ToLower | frontend/src/pages/SecurityTimeline.tsx:42 | lower-casing keeps the length |
| SecurityTimelinePage.ToLowerIdempotent | frontend/src/pages/SecurityTimeline.tsx:42-45 | lower-casing twice is lower-casing once |
| SecurityTimelinePage.FilteredEntries | frontend/src/pages/SecurityTimeline.tsx:41-47 | nothing without a timeline; otherwise a subsequence of its entries, each matching the level and the search |
| SecurityTimelinePage.FilteredMembership | frontend/src/pages/SecurityTimeline.tsx:41-47 | an entry is shown exactly when it was fetched and matches both filters |
| SecurityTimelinePage.UnfilteredShowsAll | frontend/src/pages/SecurityTimeline.tsx:42-43 | level `all` with an empty search shows every entry, in order |
| SecurityTimelinePage.FilteringIdempotent | frontend/src/pages/SecurityTimeline.tsx:41-46 | filtering the shown entries again shows the same entries |
| SecurityTimelinePage.SearchIgnoresCase | frontend/src/pages/SecurityTimeline.tsx:43-45 | the search matches the same entries as its lower-case form |
| SecurityTimelinePage.FilterIgnoresCase | frontend/src/pages/SecurityTimeline.tsx:42 | a level filter matches the same entries as its lower-case form, unless that changes whether it is `all` |
| SecurityTimelinePage.ToLowerLevelName | frontend/src/pages/SecurityTimeline.tsx:42 | each level name lower-cases to its select value |
| SecurityTimelinePage.LevelFilterSelectsLevel | frontend/src/pages/SecurityTimeline.tsx:42 | a filter naming a level in any case shows exactly the entries of that level |
| SecurityTimelinePage.ErrorFilterExample | frontend/src/pages/SecurityTimeline.tsx:41-47 | Info, Error and Debug entries filtered by "error" show only the Error one |
| SecurityTimelinePage.SecurityTimeline.constructor | frontend/src/pages/SecurityTimeline.tsx:22-24 | no timeline, level `all`, empty search |
| SecurityTimelinePage.SecurityTimeline.LoadTimeline | frontend/src/pages/SecurityTimeline.tsx:32-39 | a fetched timeline replaces the old one wholesale, and the shown entries are then exactly its matching ones; a failed fetch changes nothing |
| SecurityTimelinePage.SecurityTimeline.SetFilter | frontend/src/pages/SecurityTimeline.tsx:69 | sets the level filter only |
| SecurityTimelinePage.SecurityTimeline.SetSearch | frontend/src/pages/SecurityTimeline.tsx:87 | sets the search text only |
| CodeLabPage.ShownResult | frontend/src/pages/CodeLab.tsx:22-34 | the response unchanged on success; on failure `success` and `passed` false, the single violation "Failed to connect to backend", no warnings, error "Backend connection failed" |
| CodeLabPage.ShownResultConsistent | frontend/src/pages/CodeLab.tsx:22-34 | the page never shows a passed policy with violations when the backend does not send one |
| CodeLabPage.BackendFailureIsNotACompileResult | frontend/src/pages/CodeLab.tsx:26-34 | the made-up failure differs from every response the compile service can produce |
| CodeLabPage.CodeLab.constructor | frontend/src/pages/CodeLab.tsx:15-17 | the default code, not compiling, no result |
| CodeLabPage.CodeLab.SetCode | frontend/src/pages/CodeLab.tsx:61 | the editor's value, or empty when undefined |
| CodeLabPage.CodeLab.HandleCompile | frontend/src/pages/CodeLab.tsx:19-38 | sends the current code; `result` is always set afterwards, to `ShownResult`; `compiling` is false afterwards |
| SandboxRunnerPage.RunRequest | frontend/src/pages/SandboxRunner.tsx:24-29 | the request carries the code and all three settings, and no binary path |
| SandboxRunnerPage.RequestSandboxOptions | frontend/src/pages/SandboxRunner.tsx:24-29 | the backend always passes both limits, and passes `--network none` exactly when the toggle is off |
| SandboxRunnerPage.RequestRunsCode | frontend/src/pages/SandboxRunner.tsx:24-29 | the page's requests always take the backend's code path |
| SandboxRunnerPage.SandboxRunner.constructor | frontend/src/pages/SandboxRunner.tsx:14-19 | 100 MB, 5 s, network off, not running, no result |
| SandboxRunnerPage.SandboxRunner.SetMemoryLimit | frontend/src/pages/SandboxRunner.tsx:67 | sets the memory limit only |
| SandboxRunnerPage.SandboxRunner.SetTimeout | frontend/src/pages/SandboxRunner.tsx:83 | sets the timeout only |
| SandboxRunnerPage.SandboxRunner.ToggleNetwork | frontend/src/pages/SandboxRunner.tsx:98 | negates the network setting and changes nothing else |
| SandboxRunnerPage.SandboxRunner.SetCode | frontend/src/pages/SandboxRunner.tsx:118 | the editor's value, or empty when undefined |
| SandboxRunnerPage.SandboxRunner.HandleRun | frontend/src/pages/SandboxRunner.tsx:21-36 | posts the current code and settings; a returned run replaces `runResult`, a failure keeps it; `running` is false afterwards |
| FuzzingConsolePage.FirstRunning | frontend/src/pages/FuzzingConsole.tsx:44 | a running campaign from the list when there is one, none exactly when no campaign runs |
| FuzzingConsolePage.FirstRunningIsEarliest | frontend/src/pages/FuzzingConsole.tsx:44 | the campaign found is the earliest running one |
| FuzzingConsolePage.FuzzingConsole.constructor | frontend/src/pages/FuzzingConsole.tsx:30-32 | no campaign, no crashes, not loading, so Start is offered |
| FuzzingConsolePage.FuzzingConsole.LoadCampaigns | frontend/src/pages/FuzzingConsole.tsx:41-52 | follows the first running campaign, asks for its crashes and offers Stop; with none running or a failed fetch nothing changes and nothing is asked |
| FuzzingConsolePage.FuzzingConsole.LoadCrashes | frontend/src/pages/FuzzingConsole.tsx:54-61 | fetched crashes replace the list wholesale; a failure keeps it |
| FuzzingConsolePage.FuzzingConsole.HandleStartFuzzing | frontend/src/pages/FuzzingConsole.tsx:63-78 | posts the fixed request; a started campaign is followed and a reload is fired, and Stop replaces Start exactly when it runs; `loading` is false afterwards |
| FuzzingConsolePage.FuzzingConsole.HandleStopFuzzing | frontend/src/pages/FuzzingConsole.tsx:80-91 | without a followed campaign nothing happens; otherwise it asks to stop that campaign, reloads on success, and `loading` is false afterwards |

## Left out

- Process execution, `String::from_utf8_lossy`, `Path::exists` and `env::var("HOME")` are foreign I/O. Their results are inputs: `ProcessOutcome` and `Services.Host`.
- `Uuid::new_v4`, `Utc::now` and `Instant::elapsed` are not deterministic. Ids, clock readings and durations are parameters.
- SandboxService.CodeRunOutput: the three syscall entries share one clock reading, though the code reads the clock once per entry.
- FuzzerService.GetCrashes: one clock reading serves all three crashes, though the code reads the clock once per crash.
- Locking is left out: the `Arc<Mutex<..>>` wrappers, the silently skipped push when the log lock is poisoned, and the panics of `lock().unwrap()`.
- Concurrency is left out: the `tokio::spawn` of `simulate_fuzzing`, the client's `setInterval` timers and their teardown, and the interleaving of awaited requests. Each handler is one atomic step.
- Page handlers: the busy flags (`compiling`, `running`, `loading`) are set and cleared within one method call. The model does not show the state while a request is in flight, nor the disabled buttons that depend on it.
- `f64` fields are exact `real` literals with no rounding: `memory_mb`, `cpu_percent`, `coverage_percent` and `execs_per_second`. The resource-bar width arithmetic of the sandbox page is not modelled.
- Models.CommandDebug: renders each word between quotes, without the escaping that Rust's `{:?}` applies to quotes and backslashes.
- SecurityTimelinePage.ToLower: ASCII letters only. JavaScript's Unicode case mapping is not modelled.
- `frontend/src/services/api.ts` is not part of this model. It is the JSON-over-`fetch` transport, and its outcome reaches each page as a `Result`.
- `backend/src/main.rs` is not part of this model. It holds the server, routing and CORS setup.
- The constant handlers `health_check`, `get_ast` and `get_bytecode` hold no state logic and are not modelled.
- JSX rendering, charts, the editor widget, `Layout.tsx` and `App.tsx` are UI only.
- JSON serialisation is not modelled. AST and log details are an opaque `Json` value.
- `HashMap` iteration order is unspecified. `Seqs.MapValues` states only which values are returned, not their order.
- `execution_time_ms` is cast from `u128` to `i64` in the code. The model takes the duration as a `nat` and does not model that cast's wrap-around.
