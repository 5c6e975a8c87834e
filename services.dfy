/**
 * Locating the AEGIS tool binaries and the backend's in-memory state
 * (backend/src/services/mod.rs).
 */
module Services {
  import opened Models
  import Logger

  /**
   * What the backend asks of the machine it runs on: which paths exist
   * (`Path::exists`) and the value of `HOME` (`env::var`, absent when unset).
   */
  datatype Host = Host(pathExists: string -> bool, home: Option<string>)

  /** The places searched for `binaryName`, in the order they are tried. */
  function Candidates(binaryName: string, home: Option<string>): (c: seq<string>)
    ensures |c| == 4
  {
    var homeDir := match home case Some(h) => h case None => "~";
    [ "/mnt/c/Projects/AEGIS VERSION 2.0/target/release/" + binaryName,
      "C:\\Projects\\AEGIS VERSION 2.0\\target\\release\\" + binaryName + ".exe",
      "/usr/local/bin/" + binaryName,
      homeDir + "/.aegis/bin/" + binaryName ]
  }

  /** Only the Windows candidate names an `.exe`; an unset HOME puts the last one under `~`. */
  lemma CandidateShapes(binaryName: string, home: Option<string>)
    ensures var c := Candidates(binaryName, home);
      && (forall i | 0 <= i < 4 && i != 1 :: c[i][|c[i]| - |binaryName|..] == binaryName)
      && c[1][|c[1]| - |binaryName| - 4..] == binaryName + ".exe"
      && (home.None? ==> c[3][..2] == "~/")
  {
    var c := Candidates(binaryName, home);
    forall i | 0 <= i < 4 && i != 1
      ensures c[i][|c[i]| - |binaryName|..] == binaryName
    {
    }
    assert c[1] == "C:\\Projects\\AEGIS VERSION 2.0\\target\\release\\" + (binaryName + ".exe");
  }

  /** The first of `candidates` that exists, or `fallback` when none does. */
  function FirstExisting(candidates: seq<string>, pathExists: string -> bool, fallback: string): (r: string)
    ensures r in candidates || r == fallback
  {
    if candidates == [] then fallback
    else if pathExists(candidates[0]) then candidates[0]
    else FirstExisting(candidates[1..], pathExists, fallback)
  }

  /** FirstExisting picks the earliest existing candidate; with none existing it falls back. */
  lemma {:induction false} FirstExistingIsFirstMatch(candidates: seq<string>, pathExists: string -> bool, fallback: string)
    ensures var r := FirstExisting(candidates, pathExists, fallback);
      || (exists i :: 0 <= i < |candidates| && r == candidates[i] && pathExists(r)
            && forall j :: 0 <= j < i ==> !pathExists(candidates[j]))
      || (r == fallback && forall j :: 0 <= j < |candidates| ==> !pathExists(candidates[j]))
  {
    if candidates != [] && !pathExists(candidates[0]) {
      var tail := candidates[1..];
      FirstExistingIsFirstMatch(tail, pathExists, fallback);
      var r := FirstExisting(tail, pathExists, fallback);
      if i :| 0 <= i < |tail| && r == tail[i] && pathExists(r) && forall j :: 0 <= j < i ==> !pathExists(tail[j]) {
        assert r == candidates[i + 1];
        forall j | 0 <= j < i + 1
          ensures !pathExists(candidates[j])
        {
          if j > 0 {
            assert candidates[j] == tail[j - 1];
          }
        }
      } else {
        forall j | 0 <= j < |candidates|
          ensures !pathExists(candidates[j])
        {
          if j > 0 {
            assert candidates[j] == tail[j - 1];
          }
        }
      }
    }
  }

  /** Where `binaryName` is run from: the specification of `get_aegis_binary_path`. */
  function BinaryPath(binaryName: string, host: Host): string
  {
    FirstExisting(Candidates(binaryName, host.home), host.pathExists, binaryName)
  }

  /** `get_aegis_binary_path`: try each candidate in turn, else assume it is on PATH. */
  method GetAegisBinaryPath(binaryName: string, host: Host) returns (path: string)
    ensures path == BinaryPath(binaryName, host)
    ensures path in Candidates(binaryName, host.home) || path == binaryName
  {
    var possiblePaths := Candidates(binaryName, host.home);
    var i := 0;
    while i < |possiblePaths|
      invariant 0 <= i <= |possiblePaths|
      invariant FirstExisting(possiblePaths[i..], host.pathExists, binaryName) == BinaryPath(binaryName, host)
    {
      assert possiblePaths[i..][1..] == possiblePaths[i + 1..];
      if host.pathExists(possiblePaths[i]) {
        return possiblePaths[i];
      }
      i := i + 1;
    }
    return binaryName;
  }

  const DEMO_PROJECT_NAME := "Demo Project"
  const DEMO_PROJECT_DESCRIPTION := "Sample security research project"

  /**
   * `AppState`: the stores the handlers share. Each `Arc<Mutex<..>>` is a field;
   * the log vector is its own object because the logger functions receive it alone.
   */
  class AppState {
    var projects: seq<Project>
    var sandboxRuns: map<Uuid, SandboxRun>
    var fuzzCampaigns: map<Uuid, FuzzCampaign>
    const logs: Logger.LogStore

    /** Every run and every campaign is stored under its own id, as the handlers insert them. */
    predicate Valid()
      reads this
    {
      && (forall k :: k in sandboxRuns ==> sandboxRuns[k].id == k)
      && (forall k :: k in fuzzCampaigns ==> fuzzCampaigns[k].id == k)
    }

    /** `AppState::new`: one demo project, nothing else; `createdAt` and `updatedAt` are two clock readings. */
    constructor (projectId: Uuid, createdAt: Timestamp, updatedAt: Timestamp)
      ensures projects == [Project(projectId, DEMO_PROJECT_NAME, DEMO_PROJECT_DESCRIPTION, createdAt, updatedAt)]
      ensures sandboxRuns == map[] && fuzzCampaigns == map[]
      ensures fresh(logs) && logs.entries == []
      ensures Valid()
    {
      projects := [Project(projectId, DEMO_PROJECT_NAME, DEMO_PROJECT_DESCRIPTION, createdAt, updatedAt)];
      sandboxRuns := map[];
      fuzzCampaigns := map[];
      logs := new Logger.LogStore();
    }
  }
}
