/**
 * The HTTP handlers and their effect on the shared in-memory state
 * (backend/src/api/mod.rs). Each handler receives the state, as axum's
 * `State` extractor hands it over; fresh ids, clock readings and process
 * outcomes are parameters.
 */
module Api {
  import opened Models
  import Logger
  import Services
  import CompilerService
  import SandboxService
  import FuzzerService
  import Seqs

  /** The timeline endpoint always asks for the newest 100 events. */
  const TIMELINE_LIMIT: nat := 100

  // ---------------------------------------------------------------- reply shapes

  /** `GET /api/sandbox/logs/:id`: the run's output and trace, or an error object. */
  datatype SandboxLogsReply =
    | SandboxLogs(stdout: string, stderr: string, syscallLog: seq<SyscallEntry>)
    | LogsError(error: string)

  /** `GET /api/sandbox/resources/:id`: `{success, data}` or `{success, error}`. */
  datatype ResourcesReply = ResourcesReply(success: bool, data: Option<ResourceUsage>, error: Option<string>)

  /** `POST /api/fuzz/stop/:id`. */
  datatype StopReply = StopReply(success: bool, campaignId: Uuid)

  /** `GET /api/fuzz/status/:id`: `{success, data}` or `{success, error}`. */
  datatype StatusReply = StatusReply(success: bool, data: Option<FuzzCampaign>, error: Option<string>)

  const RUN_NOT_FOUND := "Run not found"

  // ---------------------------------------------------------------- log lines

  /** The level of the compile log line: Info exactly for a successful compile, Error otherwise. */
  function CompileLogLevel(success: bool): (l: LogLevel)
    ensures l == LogLevel.Info <==> success
    ensures l == LogLevel.Error <==> !success
  {
    if success then LogLevel.Info else LogLevel.Error
  }

  function CompileLogMessage(success: bool): (m: string)
    ensures m == "Code compiled successfully" <==> success
    ensures m == "Code compilation failed" <==> !success
  {
    if success then "Code compiled successfully" else "Code compilation failed"
  }

  /** The level of the sandbox log line: Error exactly for Failed and Timeout runs, otherwise Info. */
  function SandboxLogLevel(status: RunStatus): (l: LogLevel)
    ensures l == LogLevel.Error <==> (status == RunStatus.Failed || status == RunStatus.Timeout)
    ensures l == LogLevel.Info <==> !(status == RunStatus.Failed || status == RunStatus.Timeout)
  {
    match status
    case Completed => LogLevel.Info
    case Failed | Timeout => LogLevel.Error
    case _ => LogLevel.Info
  }

  function SandboxLogMessage(runId: Uuid, status: RunStatus): string
  {
    "Sandbox run " + UuidText(runId) + " completed with status " + RunStatusName(status)
  }

  function SandboxLogDetails(run: SandboxRun): Json
  {
    JObject([("run_id", JString(UuidText(run.id))),
             ("status", JString(RunStatusName(run.status))),
             ("exit_code", OptionIntJson(run.exitCode))])
  }

  function CampaignDetails(id: Uuid): Json
  {
    JObject([("campaign_id", JString(UuidText(id)))])
  }

  /** A sandbox run produced by `run_sandbox` is logged as Info when it completed and Error when it failed. */
  lemma SandboxRunLogLevel(host: Services.Host, req: SandboxRunRequest, runId: Uuid, createdAt: Timestamp,
                           outcome: ProcessOutcome, elapsedMs: nat, traceTime: Timestamp, completedAt: Timestamp)
    ensures var run := SandboxService.RunFor(host, req, runId, createdAt, outcome, elapsedMs, traceTime, completedAt);
      SandboxLogLevel(run.status) == (if run.exitCode == Some(0) then LogLevel.Info else LogLevel.Error)
  {
  }

  // ---------------------------------------------------------------- compile

  /** `POST /api/compile`: compiles, then logs the verdict. */
  method CompileCode(state: Services.AppState, host: Services.Host, req: CompileRequest,
                     outcome: ProcessOutcome, logId: Uuid, logTime: Timestamp)
    returns (response: CompileResponse, cmd: Command)
    modifies state.logs
    ensures cmd == CompilerService.CompileCommand(host, req.code)
    ensures response == CompilerService.CompileCode(outcome)
    ensures state.logs.entries == Logger.AddLogged(old(state.logs.entries),
              LogEntry(logId, CompileLogLevel(response.success), LogSource.Compiler,
                       CompileLogMessage(response.success),
                       Some(JObject([("success", JBool(response.success))])), logTime))
  {
    cmd := CompilerService.CompileCommand(host, req.code);
    response := CompilerService.CompileCode(outcome);
    state.logs.AddLog(
      CompileLogLevel(response.success),
      LogSource.Compiler,
      CompileLogMessage(response.success),
      Some(JObject([("success", JBool(response.success))])),
      logId, logTime);
  }

  // ---------------------------------------------------------------- sandbox

  /** `POST /api/sandbox/run`: runs, stores the run under its id, then logs it. */
  method RunSandbox(state: Services.AppState, host: Services.Host, req: SandboxRunRequest,
                    runId: Uuid, createdAt: Timestamp, outcome: ProcessOutcome, elapsedMs: nat,
                    traceTime: Timestamp, completedAt: Timestamp, logId: Uuid, logTime: Timestamp)
    returns (run: SandboxRun)
    modifies state, state.logs
    ensures run == SandboxService.RunFor(host, req, runId, createdAt, outcome, elapsedMs, traceTime, completedAt)
    ensures state.sandboxRuns == old(state.sandboxRuns)[runId := run]
    ensures runId in state.sandboxRuns && state.sandboxRuns[runId] == run
    ensures forall id :: id in old(state.sandboxRuns) && id != runId ==> state.sandboxRuns[id] == old(state.sandboxRuns)[id]
    ensures state.projects == old(state.projects) && state.fuzzCampaigns == old(state.fuzzCampaigns)
    ensures old(state.Valid()) ==> state.Valid()
    ensures state.logs.entries == Logger.AddLogged(old(state.logs.entries),
              LogEntry(logId, SandboxLogLevel(run.status), LogSource.Sandbox,
                       SandboxLogMessage(runId, run.status), Some(SandboxLogDetails(run)), logTime))
  {
    var cmd;
    run, cmd := SandboxService.RunSandbox(host, req, runId, createdAt, outcome, elapsedMs, traceTime, completedAt);
    state.sandboxRuns := state.sandboxRuns[run.id := run];
    state.logs.AddLog(
      SandboxLogLevel(run.status),
      LogSource.Sandbox,
      SandboxLogMessage(run.id, run.status),
      Some(SandboxLogDetails(run)),
      logId, logTime);
  }

  /** `GET /api/sandbox/logs/:id`: reads only. */
  method GetSandboxLogs(state: Services.AppState, id: Uuid) returns (reply: SandboxLogsReply)
    ensures id in state.sandboxRuns ==>
              reply == SandboxLogs(state.sandboxRuns[id].stdout, state.sandboxRuns[id].stderr,
                                   state.sandboxRuns[id].syscallLog)
    ensures id !in state.sandboxRuns ==> reply == LogsError(RUN_NOT_FOUND)
  {
    if id in state.sandboxRuns {
      var run := state.sandboxRuns[id];
      reply := SandboxLogs(run.stdout, run.stderr, run.syscallLog);
    } else {
      reply := LogsError(RUN_NOT_FOUND);
    }
  }

  /** `GET /api/sandbox/resources/:id`: reads only. */
  method GetSandboxResources(state: Services.AppState, id: Uuid) returns (reply: ResourcesReply)
    ensures reply.success <==> id in state.sandboxRuns
    ensures id in state.sandboxRuns ==> reply.data == Some(state.sandboxRuns[id].resourceUsage) && reply.error == None
    ensures id !in state.sandboxRuns ==> reply.data == None && reply.error == Some(RUN_NOT_FOUND)
  {
    if id in state.sandboxRuns {
      reply := ResourcesReply(true, Some(state.sandboxRuns[id].resourceUsage), None);
    } else {
      reply := ResourcesReply(false, None, Some(RUN_NOT_FOUND));
    }
  }

  /**
   * `GET /api/sandbox/runs`: the stored runs in the map's iteration order, one per
   * stored id; in a valid state, where each run is stored under its own id, each run once.
   */
  method ListSandboxRuns(state: Services.AppState) returns (runs: seq<SandboxRun>)
    ensures |runs| == |state.sandboxRuns|
    ensures forall i :: 0 <= i < |runs| ==> runs[i] in state.sandboxRuns.Values
    ensures forall id :: id in state.sandboxRuns ==> state.sandboxRuns[id] in runs
    ensures forall r :: multiset(runs)[r] == |Seqs.KeysHolding(state.sandboxRuns, state.sandboxRuns.Keys, r)|
    ensures state.Valid() ==> forall r :: r in runs ==> multiset(runs)[r] == 1
  {
    runs := Seqs.MapValues(state.sandboxRuns);
    if state.Valid() {
      forall r | r in runs
        ensures multiset(runs)[r] == 1
      {
        Seqs.KeysHoldingKeyed(state.sandboxRuns, (x: SandboxRun) => x.id, r);
      }
    }
  }

  // ---------------------------------------------------------------- fuzzing

  /** `POST /api/fuzz/start`: stores the new campaign under its id, then logs the start. */
  method StartFuzzing(state: Services.AppState, req: FuzzStartRequest, campaignId: Uuid, startedAt: Timestamp,
                      logId: Uuid, logTime: Timestamp)
    returns (campaign: FuzzCampaign)
    modifies state, state.logs
    ensures campaign == FuzzerService.StartFuzzing(req, campaignId, startedAt)
    ensures state.fuzzCampaigns == old(state.fuzzCampaigns)[campaignId := campaign]
    ensures state.projects == old(state.projects) && state.sandboxRuns == old(state.sandboxRuns)
    ensures old(state.Valid()) ==> state.Valid()
    ensures state.logs.entries == Logger.AddLogged(old(state.logs.entries),
              LogEntry(logId, LogLevel.Info, LogSource.Fuzzer,
                       "Fuzzing campaign " + UuidText(campaignId) + " started",
                       Some(CampaignDetails(campaignId)), logTime))
  {
    campaign := FuzzerService.StartFuzzing(req, campaignId, startedAt);
    state.fuzzCampaigns := state.fuzzCampaigns[campaign.id := campaign];
    state.logs.AddLog(LogLevel.Info, LogSource.Fuzzer,
                      "Fuzzing campaign " + UuidText(campaign.id) + " started",
                      Some(CampaignDetails(campaign.id)), logId, logTime);
  }

  /**
   * `POST /api/fuzz/stop/:id`: marks a stored campaign Stopped at `stoppedAt`
   * (an unknown id changes no campaign), then logs when the fuzzer reports it stopped.
   */
  method StopFuzzing(state: Services.AppState, id: Uuid, stoppedAt: Timestamp, logId: Uuid, logTime: Timestamp)
    returns (reply: StopReply)
    modifies state, state.logs
    ensures reply == StopReply(FuzzerService.StopFuzzing(id), id)
    ensures id in old(state.fuzzCampaigns) ==>
              state.fuzzCampaigns == old(state.fuzzCampaigns)[id := old(state.fuzzCampaigns)[id].(
                                       status := FuzzStatus.Stopped, stoppedAt := Some(stoppedAt))]
    ensures id !in old(state.fuzzCampaigns) ==> state.fuzzCampaigns == old(state.fuzzCampaigns)
    ensures forall other :: other in old(state.fuzzCampaigns) && other != id ==>
              state.fuzzCampaigns[other] == old(state.fuzzCampaigns)[other]
    ensures state.projects == old(state.projects) && state.sandboxRuns == old(state.sandboxRuns)
    ensures old(state.Valid()) ==> state.Valid()
    ensures state.logs.entries == if reply.success
              then Logger.AddLogged(old(state.logs.entries),
                     LogEntry(logId, LogLevel.Info, LogSource.Fuzzer,
                              "Fuzzing campaign " + UuidText(id) + " stopped",
                              Some(CampaignDetails(id)), logTime))
              else old(state.logs.entries)
  {
    var stopped := FuzzerService.StopFuzzing(id);
    if id in state.fuzzCampaigns {
      var campaign := state.fuzzCampaigns[id];
      campaign := campaign.(status := FuzzStatus.Stopped);
      campaign := campaign.(stoppedAt := Some(stoppedAt));
      state.fuzzCampaigns := state.fuzzCampaigns[id := campaign];
    }
    if stopped {
      state.logs.AddLog(LogLevel.Info, LogSource.Fuzzer,
                        "Fuzzing campaign " + UuidText(id) + " stopped",
                        Some(CampaignDetails(id)), logId, logTime);
    }
    reply := StopReply(stopped, id);
  }

  /** `GET /api/fuzz/status/:id`: the service's answer, wrapped; the stored campaigns are not consulted. */
  method GetFuzzStatus(id: Uuid, now: Timestamp) returns (reply: StatusReply)
    ensures reply.success && reply.data == FuzzerService.GetCampaignStatus(id, now) && reply.error == None
    ensures reply.data.value.id == id && reply.data.value.status == FuzzStatus.Running
  {
    var status := FuzzerService.GetCampaignStatus(id, now);
    if status.Some? {
      reply := StatusReply(true, status, None);
    } else {
      reply := StatusReply(false, None, Some("Campaign not found"));
    }
  }

  /** `GET /api/fuzz/crashes/:id`. */
  method GetFuzzCrashes(id: Uuid, crashIds: (Uuid, Uuid, Uuid), now: Timestamp) returns (crashes: seq<CrashInfo>)
    ensures crashes == FuzzerService.GetCrashes(id, crashIds, now)
    ensures |crashes| == 3 && forall i :: 0 <= i < |crashes| ==> crashes[i].campaignId == id
  {
    crashes := FuzzerService.GetCrashes(id, crashIds, now);
  }

  /**
   * `GET /api/fuzz/campaigns`: the stored campaigns in the map's iteration order, one per
   * stored id; in a valid state each campaign once.
   */
  method ListCampaigns(state: Services.AppState) returns (campaigns: seq<FuzzCampaign>)
    ensures |campaigns| == |state.fuzzCampaigns|
    ensures forall i :: 0 <= i < |campaigns| ==> campaigns[i] in state.fuzzCampaigns.Values
    ensures forall id :: id in state.fuzzCampaigns ==> state.fuzzCampaigns[id] in campaigns
    ensures forall c :: multiset(campaigns)[c] == |Seqs.KeysHolding(state.fuzzCampaigns, state.fuzzCampaigns.Keys, c)|
    ensures state.Valid() ==> forall c :: c in campaigns ==> multiset(campaigns)[c] == 1
  {
    campaigns := Seqs.MapValues(state.fuzzCampaigns);
    if state.Valid() {
      forall c | c in campaigns
        ensures multiset(campaigns)[c] == 1
      {
        Seqs.KeysHoldingKeyed(state.fuzzCampaigns, (x: FuzzCampaign) => x.id, c);
      }
    }
  }

  // ---------------------------------------------------------------- logs and projects

  /** `GET /api/logs`: the whole store, oldest first. */
  method GetLogs(state: Services.AppState) returns (entries: seq<LogEntry>)
    ensures entries == state.logs.entries
  {
    entries := state.logs.entries;
  }

  /** `GET /api/logs/timeline`: the newest 100 entries, newest first. */
  method GetTimeline(state: Services.AppState) returns (timeline: TimelineResponse)
    ensures timeline == Logger.Timeline(state.logs.entries, Some(TIMELINE_LIMIT))
    ensures timeline.totalCount == |timeline.entries| <= TIMELINE_LIMIT
    ensures Logger.NewestFirst(timeline.entries)
  {
    timeline := state.logs.GetTimeline(Some(TIMELINE_LIMIT));
  }

  /** `GET /api/projects`. */
  method ListProjects(state: Services.AppState) returns (projects: seq<Project>)
    ensures projects == state.projects
  {
    projects := state.projects;
  }

  /** `POST /api/projects`: appends one project; the id and the two clock readings are inputs. */
  method CreateProject(state: Services.AppState, req: CreateProjectRequest, id: Uuid,
                       createdAt: Timestamp, updatedAt: Timestamp)
    returns (project: Project)
    modifies state
    ensures project == Project(id, req.name, req.description, createdAt, updatedAt)
    ensures state.projects == old(state.projects) + [project]
    ensures state.sandboxRuns == old(state.sandboxRuns) && state.fuzzCampaigns == old(state.fuzzCampaigns)
    ensures old(state.Valid()) ==> state.Valid()
  {
    project := Project(id, req.name, req.description, createdAt, updatedAt);
    state.projects := state.projects + [project];
  }
}
