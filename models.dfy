/**
 * The records that cross the boundary between the backend and the client
 * (backend/src/models/mod.rs, mirrored by frontend/src/types/index.ts).
 * UUIDs are 128-bit numbers, timestamps are milliseconds since the epoch.
 */
module Models {

  datatype Option<T> = None | Some(value: T)

  /** The outcome of a fetch or a fallible call: a value, or a failure with a description. */
  datatype Result<T> = Ok(value: T) | Err(error: string)

  function Pow16(w: nat): (r: nat)
    ensures r > 0
  {
    if w == 0 then 1 else 16 * Pow16(w - 1)
  }

  /** A v4 UUID: 128 bits, that is 32 hexadecimal digits. */
  type Uuid = u: nat | u < Pow16(32)

  /** A UTC instant, in milliseconds since the epoch. */
  type Timestamp = int

  const MINUTE_MS: int := 60_000

  /** An opaque structured payload (`serde_json::Value`, TypeScript's `any`). */
  datatype Json =
    | JNull
    | JBool(b: bool)
    | JNumber(n: int)
    | JString(s: string)
    | JArray(items: seq<Json>)
    | JObject(members: seq<(string, Json)>)

  // ---------------------------------------------------------------- compile

  datatype CompileRequest = CompileRequest(code: string)

  datatype PolicyValidationResult = PolicyValidationResult(passed: bool, violations: seq<string>, warnings: seq<string>)

  datatype CompileResponse = CompileResponse(
    success: bool,
    ast: Option<Json>,
    bytecode: Option<string>,
    policyValidation: PolicyValidationResult,
    error: Option<string>,
    output: Option<string>)

  // ---------------------------------------------------------------- sandbox

  datatype SandboxRunRequest = SandboxRunRequest(
    binaryPath: Option<string>,
    code: Option<string>,
    memoryLimit: Option<string>,
    timeout: Option<string>,
    networkEnabled: Option<bool>)

  datatype RunStatus = Pending | Running | Completed | Failed | Timeout

  datatype SyscallEntry = SyscallEntry(syscall: string, args: string, result: string, timestamp: Timestamp, allowed: bool)

  /** `memory_mb` and `cpu_percent` are `f64` in the source; only exact literals are ever stored. */
  datatype ResourceUsage = ResourceUsage(memoryMb: real, cpuPercent: real, executionTimeMs: int, syscallsCount: int)

  datatype SandboxRun = SandboxRun(
    id: Uuid,
    status: RunStatus,
    stdout: string,
    stderr: string,
    exitCode: Option<int>,
    syscallLog: seq<SyscallEntry>,
    resourceUsage: ResourceUsage,
    createdAt: Timestamp,
    completedAt: Option<Timestamp>)

  // ---------------------------------------------------------------- fuzzing

  datatype FuzzStartRequest = FuzzStartRequest(targetBinary: string, corpusDir: string, crashDir: string, timeout: Option<string>)

  datatype FuzzStatus = Idle | Running | Stopped | Error

  /** The counters are `u64`; `coverage_percent` and `execs_per_second` are `f64`. */
  datatype FuzzStats = FuzzStats(
    executions: nat,
    crashes: nat,
    corpusSize: nat,
    coveragePercent: real,
    execsPerSecond: real,
    mutationsApplied: nat)

  datatype FuzzCampaign = FuzzCampaign(
    id: Uuid,
    name: string,
    status: FuzzStatus,
    targetBinary: string,
    stats: FuzzStats,
    startedAt: Timestamp,
    stoppedAt: Option<Timestamp>)

  datatype CrashInfo = CrashInfo(id: Uuid, campaignId: Uuid, input: string, signal: Option<int>, output: string, discoveredAt: Timestamp)

  // ---------------------------------------------------------------- logs

  datatype LogLevel = Debug | Info | Warning | Error | Critical

  datatype LogSource = Compiler | Sandbox | Fuzzer | System

  datatype LogEntry = LogEntry(
    id: Uuid,
    level: LogLevel,
    source: LogSource,
    message: string,
    details: Option<Json>,
    timestamp: Timestamp)

  datatype TimelineResponse = TimelineResponse(entries: seq<LogEntry>, totalCount: nat)

  // ---------------------------------------------------------------- projects

  datatype Project = Project(id: Uuid, name: string, description: string, createdAt: Timestamp, updatedAt: Timestamp)

  datatype CreateProjectRequest = CreateProjectRequest(name: string, description: string)

  // ---------------------------------------------------------------- process boundary

  /**
   * What `Command::output()` yields: the process ran (its exit code is absent when a
   * signal ended it; the output is already decoded to text), or it could not be spawned.
   */
  datatype ProcessOutcome =
    | Exited(exitCode: Option<int>, stdout: string, stderr: string)
    | SpawnFailed(error: string)

  /** `ExitStatus::success()`: the process exited with code 0. */
  predicate ExitedSuccessfully(o: ProcessOutcome)
  {
    o.Exited? && o.exitCode == Some(0)
  }

  /** A program and its argument list, as a `std::process::Command` is built. */
  datatype Command = Command(program: string, args: seq<string>)

  // ---------------------------------------------------------------- text rendering

  function HexDigit(d: nat): char
    requires d < 16
  {
    "0123456789abcdef"[d]
  }

  function DigitValue(c: char): nat
  {
    if '0' <= c <= '9' then c as nat - '0' as nat
    else if 'a' <= c <= 'f' then c as nat - 'a' as nat + 10
    else 0
  }

  /** The `width` low-order hexadecimal digits of `n`, most significant first. */
  function Hex(n: nat, width: nat): (r: string)
    ensures |r| == width
  {
    if width == 0 then "" else Hex(n / 16, width - 1) + [HexDigit(n % 16)]
  }

  function HexValue(s: string): nat
  {
    if s == "" then 0 else HexValue(s[..|s| - 1]) * 16 + DigitValue(s[|s| - 1])
  }

  lemma DigitRoundTrip(d: nat)
    requires d < 16
    ensures DigitValue(HexDigit(d)) == d
  {
  }

  lemma ModUnique(n: int, d: int, a: int, r: int)
    requires d > 0 && 0 <= r < d && n == d * a + r
    ensures n % d == r
  {
    var q, m := n / d, n % d;
    assert d * (a - q) == m - r;
    if a > q {
      MulAtLeast(d, a - q);
    } else if a < q {
      MulAtLeast(d, q - a);
    }
  }

  lemma MulAtLeast(d: int, k: int)
    requires d > 0 && k >= 1
    ensures d * k >= d
  {
  }

  lemma ModOfDiv(n: nat, p: nat)
    requires p > 0
    ensures ((n / 16) % p) * 16 + n % 16 == n % (16 * p)
  {
    var q, r := n / 16, n % 16;
    var a, b := q / p, q % p;
    assert q == p * a + b;
    assert n == 16 * q + r;
    assert n == (16 * p) * a + (16 * b + r);
    ModUnique(n, 16 * p, a, 16 * b + r);
  }

  /** Reading back the digits gives the number modulo the range the width covers. */
  lemma {:induction false} HexRoundTrip(n: nat, width: nat)
    ensures HexValue(Hex(n, width)) == n % Pow16(width)
  {
    if width > 0 {
      var h := Hex(n, width);
      assert h[..|h| - 1] == Hex(n / 16, width - 1);
      HexRoundTrip(n / 16, width - 1);
      DigitRoundTrip(n % 16);
      ModOfDiv(n, Pow16(width - 1));
    }
  }

  /** The canonical text form of a UUID: lower-case hex grouped 8-4-4-4-12 (`Uuid`'s `Display`). */
  function UuidText(u: Uuid): (r: string)
    ensures |r| == 36
  {
    var h := Hex(u, 32);
    h[..8] + "-" + h[8..12] + "-" + h[12..16] + "-" + h[16..20] + "-" + h[20..]
  }

  /** The digits are recovered by dropping the four hyphens. */
  lemma HexFromUuidText(u: Uuid)
    ensures var t := UuidText(u);
      Hex(u, 32) == t[..8] + t[9..13] + t[14..18] + t[19..23] + t[24..]
  {
    var h, t := Hex(u, 32), UuidText(u);
    assert t[..8] == h[..8];
    assert t[9..13] == h[8..12];
    assert t[14..18] == h[12..16];
    assert t[19..23] == h[16..20];
    assert t[24..] == h[20..];
    assert h == h[..8] + h[8..12] + h[12..16] + h[16..20] + h[20..];
  }

  /** Distinct UUIDs have distinct texts, so every name or message built from one is unique to it. */
  lemma UuidTextInjective(u: Uuid, v: Uuid)
    requires UuidText(u) == UuidText(v)
    ensures u == v
  {
    var hu, hv := Hex(u, 32), Hex(v, 32);
    HexFromUuidText(u);
    HexFromUuidText(v);
    HexRoundTrip(u, 32);
    HexRoundTrip(v, 32);
    var b := Pow16(32);
    ModUnique(u, b, 0, u);
    ModUnique(v, b, 0, v);
  }

  function DecimalDigit(d: nat): char
    requires d < 10
  {
    "0123456789"[d]
  }

  function NatText(n: nat): string
  {
    if n < 10 then [DecimalDigit(n)] else NatText(n / 10) + [DecimalDigit(n % 10)]
  }

  /** `{}` / `{:?}` of an integer. */
  function IntText(i: int): string
  {
    if i < 0 then "-" + NatText(-i) else NatText(i)
  }

  /** `{:?}` of an `Option<i32>`. */
  function OptionIntDebug(o: Option<int>): string
  {
    match o
    case None => "None"
    case Some(i) => "Some(" + IntText(i) + ")"
  }

  /** `{:?}` of a string: the text between double quotes. */
  function Quoted(s: string): string
  {
    "\"" + s + "\""
  }

  function QuotedArgs(args: seq<string>): string
  {
    if args == [] then "" else " " + Quoted(args[0]) + QuotedArgs(args[1..])
  }

  /** `{:?}` of a `Command` with no environment or directory changes: each word quoted, space-separated. */
  function CommandDebug(cmd: Command): string
  {
    Quoted(cmd.program) + QuotedArgs(cmd.args)
  }

  /** Variant names, as `{:?}` and serde print them. */
  function RunStatusName(s: RunStatus): string
  {
    match s
    case Pending => "Pending"
    case Running => "Running"
    case Completed => "Completed"
    case Failed => "Failed"
    case Timeout => "Timeout"
  }

  function LogLevelName(l: LogLevel): string
  {
    match l
    case Debug => "Debug"
    case Info => "Info"
    case Warning => "Warning"
    case Error => "Error"
    case Critical => "Critical"
  }

  function LogSourceName(s: LogSource): string
  {
    match s
    case Compiler => "Compiler"
    case Sandbox => "Sandbox"
    case Fuzzer => "Fuzzer"
    case System => "System"
  }

  /** `json!(option)`: `null` for `None`. */
  function OptionIntJson(o: Option<int>): Json
  {
    match o
    case None => JNull
    case Some(i) => JNumber(i)
  }
}
