/**
 * The sandbox runner page (frontend/src/pages/SandboxRunner.tsx): an editor
 * buffer, three sandbox settings, a run button and the last run shown.
 */
module SandboxRunnerPage {
  import opened Models
  import Services
  import SandboxService

  const DEFAULT_CODE: string := "fn main() {\n    let x = 100;\n    let y = x / 2;\n    print(y);\n}"

  /** The choices the two selects offer. */
  const MEMORY_CHOICES: seq<string> := ["50M", "100M", "256M", "512M", "1G"]
  const TIMEOUT_CHOICES: seq<string> := ["1s", "5s", "10s", "30s", "60s"]

  /** The body `handleRun` posts: always code, never a binary, every setting given explicitly. */
  function RunRequest(code: string, memoryLimit: string, timeout: string, networkEnabled: bool): (req: SandboxRunRequest)
    ensures req.code == Some(code) && req.binaryPath == None
    ensures req.memoryLimit == Some(memoryLimit) && req.timeout == Some(timeout)
    ensures req.networkEnabled == Some(networkEnabled)
  {
    SandboxRunRequest(None, Some(code), Some(memoryLimit), Some(timeout), Some(networkEnabled))
  }

  /**
   * What the backend makes of the page's request: both limits are always passed to the
   * sandbox, and networking is switched off exactly when the toggle is off.
   */
  lemma RequestSandboxOptions(code: string, memoryLimit: string, timeout: string, networkEnabled: bool)
    ensures SandboxService.OptionArgs(RunRequest(code, memoryLimit, timeout, networkEnabled))
         == ["--memory", memoryLimit, "--timeout", timeout] + (if networkEnabled then [] else ["--network", "none"])
  {
  }

  /** The page's requests always take the code path of the backend, never the "no input" failure. */
  lemma RequestRunsCode(host: Services.Host, code: string, memoryLimit: string, timeout: string, networkEnabled: bool,
                        runId: Uuid, createdAt: Timestamp, outcome: ProcessOutcome, elapsedMs: nat,
                        traceTime: Timestamp, completedAt: Timestamp)
    ensures var req := RunRequest(code, memoryLimit, timeout, networkEnabled);
      var run := SandboxService.RunFor(host, req, runId, createdAt, outcome, elapsedMs, traceTime, completedAt);
      run == SandboxService.AssembleRun(runId,
               SandboxService.CodeRunOutput(SandboxService.CodeCommand(host, code, req), outcome, elapsedMs, traceTime),
               createdAt, completedAt)
  {
  }

  /** The component's state slots. */
  class SandboxRunner {
    var code: string
    var running: bool
    var memoryLimit: string
    var timeout: string
    var networkEnabled: bool
    var runResult: Option<SandboxRun>

    /** The settings start at 100 MB, 5 seconds and no network. */
    constructor ()
      ensures code == DEFAULT_CODE && !running && runResult == None
      ensures memoryLimit == "100M" && timeout == "5s" && !networkEnabled
      ensures memoryLimit in MEMORY_CHOICES && timeout in TIMEOUT_CHOICES
    {
      code := DEFAULT_CODE;
      running := false;
      memoryLimit := "100M";
      timeout := "5s";
      networkEnabled := false;
      runResult := None;
    }

    /** The memory select's `onChange`. */
    method SetMemoryLimit(value: string)
      modifies this
      ensures memoryLimit == value
      ensures code == old(code) && running == old(running) && timeout == old(timeout)
      ensures networkEnabled == old(networkEnabled) && runResult == old(runResult)
    {
      memoryLimit := value;
    }

    /** The timeout select's `onChange`. */
    method SetTimeout(value: string)
      modifies this
      ensures timeout == value
      ensures code == old(code) && running == old(running) && memoryLimit == old(memoryLimit)
      ensures networkEnabled == old(networkEnabled) && runResult == old(runResult)
    {
      timeout := value;
    }

    /** The network button: flips the setting and nothing else. */
    method ToggleNetwork()
      modifies this
      ensures networkEnabled == !old(networkEnabled)
      ensures code == old(code) && running == old(running) && memoryLimit == old(memoryLimit)
      ensures timeout == old(timeout) && runResult == old(runResult)
    {
      networkEnabled := !networkEnabled;
    }

    /** The editor's `onChange`; an undefined value clears the buffer. */
    method SetCode(value: Option<string>)
      modifies this
      ensures code == (if value.Some? then value.value else "")
      ensures running == old(running) && memoryLimit == old(memoryLimit) && timeout == old(timeout)
      ensures networkEnabled == old(networkEnabled) && runResult == old(runResult)
    {
      code := if value.Some? then value.value else "";
    }

    /**
     * `handleRun`: marks the page busy, posts the current code and settings, shows
     * the returned run (a failed request keeps the previous one) and clears the busy mark.
     */
    method HandleRun(fetched: Result<SandboxRun>) returns (request: SandboxRunRequest)
      modifies this
      ensures request == RunRequest(old(code), old(memoryLimit), old(timeout), old(networkEnabled))
      ensures fetched.Ok? ==> runResult == Some(fetched.value)
      ensures fetched.Err? ==> runResult == old(runResult)
      ensures !running
      ensures code == old(code) && memoryLimit == old(memoryLimit) && timeout == old(timeout)
      ensures networkEnabled == old(networkEnabled)
    {
      running := true;
      request := RunRequest(code, memoryLimit, timeout, networkEnabled);
      if fetched.Ok? {
        runResult := Some(fetched.value);
      }
      running := false;
    }
  }
}
