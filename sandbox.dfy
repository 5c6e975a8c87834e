/**
 * Running code or a binary under `aegis-sandbox` and assembling the run
 * record (backend/src/services/sandbox.rs).
 */
module SandboxService {
  import opened Models
  import Services

  // ---------------------------------------------------------------- command lines

  /** `cmd.arg(a)`: appends one word to the argument list. */
  function Arg(cmd: Command, a: string): (r: Command)
    ensures r.program == cmd.program && r.args == cmd.args + [a]
  {
    cmd.(args := cmd.args + [a])
  }

  /** The sandbox options, in the order both runners append them. */
  function OptionArgs(req: SandboxRunRequest): seq<string>
  {
    (if req.memoryLimit.Some? then ["--memory", req.memoryLimit.value] else [])
    + (if req.timeout.Some? then ["--timeout", req.timeout.value] else [])
    + (if req.networkEnabled == Some(false) then ["--network", "none"] else [])
  }

  /**
   * Each option is present exactly when its field asks for it, at a fixed place:
   * memory first, then timeout, then the network switch last. Only an explicit
   * `false` turns the network off; an absent or `true` setting adds nothing.
   */
  lemma OptionArgsLayout(req: SandboxRunRequest)
    ensures var args := OptionArgs(req);
      var k := if req.memoryLimit.Some? then 2 else 0;
      && |args| == k + (if req.timeout.Some? then 2 else 0) + (if req.networkEnabled == Some(false) then 2 else 0)
      && ((|args| > 0 && args[0] == "--memory") <==> req.memoryLimit.Some?)
      && (req.memoryLimit.Some? ==> args[..2] == ["--memory", req.memoryLimit.value])
      && ((|args| > k && args[k] == "--timeout") <==> req.timeout.Some?)
      && (req.timeout.Some? ==> args[k..k + 2] == ["--timeout", req.timeout.value])
      && ((|args| >= 2 && args[|args| - 2..] == ["--network", "none"]) <==> req.networkEnabled == Some(false))
      && (req.networkEnabled != Some(false) ==> args == OptionArgs(req.(networkEnabled := None)))
  {
  }

  /** `cmd.arg("--memory").arg(m)` etc.: appends the options one word at a time. */
  method AppendOptions(cmd: Command, req: SandboxRunRequest) returns (r: Command)
    ensures r == Command(cmd.program, cmd.args + OptionArgs(req))
  {
    r := cmd;
    if req.memoryLimit.Some? {
      r := Arg(Arg(r, "--memory"), req.memoryLimit.value);
    }
    if req.timeout.Some? {
      r := Arg(Arg(r, "--timeout"), req.timeout.value);
    }
    if req.networkEnabled == Some(false) {
      r := Arg(Arg(r, "--network"), "none");
    }
  }

  /** The command `run_code_in_sandbox` builds: the sandbox wrapping `aegiscc --eval code --run`. */
  function CodeCommand(host: Services.Host, code: string, req: SandboxRunRequest): Command
  {
    Command(Services.BinaryPath("aegis-sandbox", host),
            OptionArgs(req) + [Services.BinaryPath("aegiscc", host), "--eval", code, "--run"])
  }

  /** The command `run_binary_in_sandbox` builds: the sandbox wrapping the binary itself. */
  function BinaryCommand(host: Services.Host, binaryPath: string, req: SandboxRunRequest): Command
  {
    Command(Services.BinaryPath("aegis-sandbox", host), OptionArgs(req) + [binaryPath])
  }

  // ---------------------------------------------------------------- run results

  /** The tuple both runners return. */
  datatype RunOutput = RunOutput(
    stdout: string,
    stderr: string,
    exitCode: Option<int>,
    syscallLog: seq<SyscallEntry>,
    resourceUsage: ResourceUsage)

  const ZERO_USAGE := ResourceUsage(0.0, 0.0, 0, 0)

  /** The syscall trace recorded for a code run that started (a fixed three-call trace). */
  function CodeTrace(cmd: Command, exitCode: Option<int>, now: Timestamp): seq<SyscallEntry>
  {
    [ SyscallEntry("execve", CommandDebug(cmd), "0", now, true),
      SyscallEntry("write", "fd=1, size=42", "42", now, true),
      SyscallEntry("exit_group", "exit_code=" + OptionIntDebug(exitCode), OptionIntDebug(exitCode), now, true) ]
  }

  /** The result assembly of `run_code_in_sandbox`. */
  function CodeRunOutput(cmd: Command, outcome: ProcessOutcome, elapsedMs: nat, now: Timestamp): (out: RunOutput)
    ensures outcome.Exited? ==>
              && out.stdout == outcome.stdout && out.stderr == outcome.stderr && out.exitCode == outcome.exitCode
              && |out.syscallLog| == 3
              && out.syscallLog[0].syscall == "execve" && out.syscallLog[0].args == CommandDebug(cmd)
              && out.syscallLog[1].syscall == "write" && out.syscallLog[2].syscall == "exit_group"
              && (forall i :: 0 <= i < |out.syscallLog| ==> out.syscallLog[i].allowed)
              && out.resourceUsage.syscallsCount == |out.syscallLog|
              && out.resourceUsage.executionTimeMs == elapsedMs
    ensures outcome.SpawnFailed? ==>
              out == RunOutput("", "Failed to run sandbox: " + outcome.error, Some(1), [], ZERO_USAGE)
  {
    match outcome
    case Exited(exitCode, stdout, stderr) =>
      var trace := CodeTrace(cmd, exitCode, now);
      RunOutput(stdout, stderr, exitCode, trace, ResourceUsage(2.5, 15.0, elapsedMs, |trace|))
    case SpawnFailed(e) =>
      RunOutput("", "Failed to run sandbox: " + e, Some(1), [], ZERO_USAGE)
  }

  /** The result assembly of `run_binary_in_sandbox`: no trace is recorded. */
  function BinaryRunOutput(outcome: ProcessOutcome, elapsedMs: nat): (out: RunOutput)
    ensures out.syscallLog == [] && out.resourceUsage.syscallsCount == 0
    ensures outcome.Exited? ==>
              && out.stdout == outcome.stdout && out.stderr == outcome.stderr && out.exitCode == outcome.exitCode
              && out.resourceUsage.executionTimeMs == elapsedMs
    ensures outcome.SpawnFailed? ==>
              out == RunOutput("", "Failed to run binary: " + outcome.error, Some(1), [], ZERO_USAGE)
  {
    match outcome
    case Exited(exitCode, stdout, stderr) =>
      RunOutput(stdout, stderr, exitCode, [], ResourceUsage(1.0, 5.0, elapsedMs, 0))
    case SpawnFailed(e) =>
      RunOutput("", "Failed to run binary: " + e, Some(1), [], ZERO_USAGE)
  }

  /** What `run_sandbox` reports when the request carries neither code nor a binary. */
  const NO_INPUT := RunOutput("No code or binary provided", "Error: No input", Some(1), [], ZERO_USAGE)

  /** `run_code_in_sandbox`; the process outcome, its duration and the clock are inputs. */
  method RunCodeInSandbox(host: Services.Host, code: string, req: SandboxRunRequest,
                          outcome: ProcessOutcome, elapsedMs: nat, now: Timestamp)
    returns (cmd: Command, out: RunOutput)
    ensures cmd == CodeCommand(host, code, req)
    ensures out == CodeRunOutput(cmd, outcome, elapsedMs, now)
  {
    var aegisccPath := Services.GetAegisBinaryPath("aegiscc", host);
    var aegisSandboxPath := Services.GetAegisBinaryPath("aegis-sandbox", host);
    cmd := Command(aegisSandboxPath, []);
    cmd := AppendOptions(cmd, req);
    cmd := Arg(cmd, aegisccPath);
    cmd := Arg(cmd, "--eval");
    cmd := Arg(cmd, code);
    cmd := Arg(cmd, "--run");
    out := CodeRunOutput(cmd, outcome, elapsedMs, now);
  }

  /** `run_binary_in_sandbox`. */
  method RunBinaryInSandbox(host: Services.Host, binaryPath: string, req: SandboxRunRequest,
                            outcome: ProcessOutcome, elapsedMs: nat)
    returns (cmd: Command, out: RunOutput)
    ensures cmd == BinaryCommand(host, binaryPath, req)
    ensures out == BinaryRunOutput(outcome, elapsedMs)
  {
    var aegisSandboxPath := Services.GetAegisBinaryPath("aegis-sandbox", host);
    cmd := Command(aegisSandboxPath, []);
    cmd := AppendOptions(cmd, req);
    cmd := Arg(cmd, binaryPath);
    out := BinaryRunOutput(outcome, elapsedMs);
  }

  // ---------------------------------------------------------------- run_sandbox

  /** The data model's invariant: a run has finished exactly when it is past Pending and Running. */
  predicate WellFormedRun(run: SandboxRun)
  {
    run.completedAt.Some? <==> !(run.status == RunStatus.Pending || run.status == RunStatus.Running)
  }

  /** The record `run_sandbox` assembles from a runner's output. */
  function AssembleRun(id: Uuid, out: RunOutput, createdAt: Timestamp, completedAt: Timestamp): SandboxRun
  {
    SandboxRun(id,
               if out.exitCode == Some(0) then RunStatus.Completed else RunStatus.Failed,
               out.stdout, out.stderr, out.exitCode, out.syscallLog, out.resourceUsage,
               createdAt, Some(completedAt))
  }

  /** The run `run_sandbox` produces, as a function of all its inputs. */
  function RunFor(host: Services.Host, req: SandboxRunRequest, runId: Uuid, createdAt: Timestamp,
                  outcome: ProcessOutcome, elapsedMs: nat, traceTime: Timestamp, completedAt: Timestamp): SandboxRun
  {
    var out :=
      if req.code.Some? then CodeRunOutput(CodeCommand(host, req.code.value, req), outcome, elapsedMs, traceTime)
      else if req.binaryPath.Some? then BinaryRunOutput(outcome, elapsedMs)
      else NO_INPUT;
    AssembleRun(runId, out, createdAt, completedAt)
  }

  /**
   * `run_sandbox`: code wins over a binary; with neither, a fixed failure. The id,
   * the two clock readings, the process outcome and its duration are inputs.
   */
  method RunSandbox(host: Services.Host, req: SandboxRunRequest, runId: Uuid, createdAt: Timestamp,
                    outcome: ProcessOutcome, elapsedMs: nat, traceTime: Timestamp, completedAt: Timestamp)
    returns (run: SandboxRun, cmd: Option<Command>)
    ensures run == RunFor(host, req, runId, createdAt, outcome, elapsedMs, traceTime, completedAt)
    ensures run.id == runId && run.createdAt == createdAt && run.completedAt == Some(completedAt)
    ensures run.status == (if run.exitCode == Some(0) then RunStatus.Completed else RunStatus.Failed)
    ensures WellFormedRun(run)
    ensures req.code.Some? ==>
              && cmd == Some(CodeCommand(host, req.code.value, req))
              && run == AssembleRun(runId, CodeRunOutput(cmd.value, outcome, elapsedMs, traceTime), createdAt, completedAt)
    ensures req.code.None? && req.binaryPath.Some? ==>
              && cmd == Some(BinaryCommand(host, req.binaryPath.value, req))
              && run == AssembleRun(runId, BinaryRunOutput(outcome, elapsedMs), createdAt, completedAt)
    ensures req.code.None? && req.binaryPath.None? ==>
              cmd == None && run == AssembleRun(runId, NO_INPUT, createdAt, completedAt)
    ensures (req.code.None? && req.binaryPath.None?) || outcome.SpawnFailed? ==> run.status == RunStatus.Failed
  {
    var out: RunOutput;
    if req.code.Some? {
      var c;
      c, out := RunCodeInSandbox(host, req.code.value, req, outcome, elapsedMs, traceTime);
      cmd := Some(c);
    } else if req.binaryPath.Some? {
      var c;
      c, out := RunBinaryInSandbox(host, req.binaryPath.value, req, outcome, elapsedMs);
      cmd := Some(c);
    } else {
      out := NO_INPUT;
      cmd := None;
    }
    run := AssembleRun(runId, out, createdAt, completedAt);
  }
}
