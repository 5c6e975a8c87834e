/**
 * The bounded event log that feeds the security timeline
 * (backend/src/services/logger.rs): a store of at most MAX_LOGS entries,
 * a newest-first timeline query and a per-source query.
 */
module Logger {
  import opened Models
  import opened Seqs

  /** How many entries `add_log` keeps. */
  const MAX_LOGS: nat := 1000

  // ---------------------------------------------------------------- add_log

  /**
   * The store after pushing `e` onto `store` and draining the front down to
   * MAX_LOGS entries.
   */
  function AddLogged(store: seq<LogEntry>, e: LogEntry): (r: seq<LogEntry>)
    ensures |r| <= MAX_LOGS
    ensures r != [] && r[|r| - 1] == e
    ensures |store| < MAX_LOGS ==> r == store + [e]
    ensures |r| == if |store| < MAX_LOGS then |store| + 1 else MAX_LOGS
    ensures r == (store + [e])[|store| + 1 - |r|..]
  {
    var pushed := store + [e];
    var len := |pushed|;
    if len > MAX_LOGS then pushed[len - MAX_LOGS..] else pushed
  }

  // ---------------------------------------------------------------- sorting

  /** Sorted by timestamp, newest first (equal timestamps in any order). */
  predicate NewestFirst(s: seq<LogEntry>)
  {
    forall i, j :: 0 <= i < j < |s| ==> s[i].timestamp >= s[j].timestamp
  }

  function TimestampIs(t: Timestamp): LogEntry -> bool
  {
    (e: LogEntry) => e.timestamp == t
  }

  /**
   * Inserts `e`, which precedes every element of `r` in the original order,
   * before the first entry that is not newer than it.
   */
  function InsertNewestFirst(e: LogEntry, r: seq<LogEntry>): (res: seq<LogEntry>)
    ensures |res| == |r| + 1
    ensures multiset(res) == multiset(r) + multiset{e}
  {
    if r == [] || r[0].timestamp <= e.timestamp then [e] + r
    else
      assert r == [r[0]] + r[1..];
      [r[0]] + InsertNewestFirst(e, r[1..])
  }

  lemma {:induction false} InsertKeepsOrder(e: LogEntry, r: seq<LogEntry>)
    requires NewestFirst(r)
    ensures NewestFirst(InsertNewestFirst(e, r))
  {
    if r != [] && r[0].timestamp > e.timestamp {
      var tail := r[1..];
      var rest := InsertNewestFirst(e, tail);
      InsertKeepsOrder(e, tail);
      forall j | 0 <= j < |rest|
        ensures r[0].timestamp >= rest[j].timestamp
      {
        assert rest[j] in multiset(rest);
        if rest[j] != e {
          assert rest[j] in multiset(tail);
          var k :| 0 <= k < |tail| && tail[k] == rest[j];
          assert r[k + 1] == rest[j];
        }
      }
      var res := [r[0]] + rest;
      forall i, j | 0 <= i < j < |res|
        ensures res[i].timestamp >= res[j].timestamp
      {
        if i > 0 {
          assert res[i] == rest[i - 1] && res[j] == rest[j - 1];
        }
      }
    }
  }

  /**
   * The stable newest-first sort that `entries.sort_by(|a, b| b.timestamp.cmp(&a.timestamp))`
   * performs (`sort_by` is a stable sort).
   */
  function SortNewestFirst(s: seq<LogEntry>): (r: seq<LogEntry>)
    ensures |r| == |s|
    ensures multiset(r) == multiset(s)
    ensures NewestFirst(r)
  {
    if s == [] then []
    else
      var sortedTail := SortNewestFirst(s[1..]);
      InsertKeepsOrder(s[0], sortedTail);
      assert multiset(s) == multiset(s[1..]) + multiset{s[0]} by {
        assert s == [s[0]] + s[1..];
      }
      InsertNewestFirst(s[0], sortedTail)
  }

  /** Among the entries with timestamp `t`, the inserted one comes first. */
  lemma {:induction false} InsertStable(e: LogEntry, r: seq<LogEntry>, t: Timestamp)
    ensures Filter(TimestampIs(t), InsertNewestFirst(e, r))
         == if e.timestamp == t then [e] + Filter(TimestampIs(t), r) else Filter(TimestampIs(t), r)
  {
    var p := TimestampIs(t);
    if r == [] || r[0].timestamp <= e.timestamp {
      assert ([e] + r)[1..] == r;
    } else {
      InsertStable(e, r[1..], t);
      assert ([r[0]] + InsertNewestFirst(e, r[1..]))[1..] == InsertNewestFirst(e, r[1..]);
      if e.timestamp == t {
        assert !p(r[0]);
      }
    }
  }

  /** The sort is stable: entries with equal timestamps keep their store order. */
  lemma {:induction false} SortStable(s: seq<LogEntry>, t: Timestamp)
    ensures Filter(TimestampIs(t), SortNewestFirst(s)) == Filter(TimestampIs(t), s)
  {
    if s != [] {
      SortStable(s[1..], t);
      InsertStable(s[0], SortNewestFirst(s[1..]), t);
    }
  }

  // ---------------------------------------------------------------- get_timeline

  /**
   * `get_timeline`: a newest-first copy of the store, truncated to `limit`
   * entries when a limit is given, with `total_count` the length returned.
   */
  function Timeline(store: seq<LogEntry>, limit: Option<nat>): (r: TimelineResponse)
    ensures r.totalCount == |r.entries|
    ensures |r.entries| == if limit.Some? && limit.value < |store| then limit.value else |store|
    ensures limit.Some? ==> |r.entries| <= limit.value
    ensures NewestFirst(r.entries)
    ensures r.entries <= SortNewestFirst(store)
  {
    var sorted := SortNewestFirst(store);
    var entries := if limit.Some? && limit.value < |sorted| then sorted[..limit.value] else sorted;
    TimelineResponse(entries, |entries|)
  }

  /** Without a limit that cuts, the timeline holds every stored entry, each as often as stored. */
  lemma TimelinePermutation(store: seq<LogEntry>, limit: Option<nat>)
    requires limit.None? || limit.value >= |store|
    ensures multiset(Timeline(store, limit).entries) == multiset(store)
  {
    assert Timeline(store, limit).entries == SortNewestFirst(store);
  }

  /**
   * Entries with the same timestamp appear in store order: for each timestamp, the
   * returned entries are the first of the stored ones, all of them when nothing is cut.
   */
  lemma TimelineStable(store: seq<LogEntry>, limit: Option<nat>, t: Timestamp)
    ensures Filter(TimestampIs(t), Timeline(store, limit).entries) <= Filter(TimestampIs(t), store)
    ensures (limit.None? || limit.value >= |store|) ==>
              Filter(TimestampIs(t), Timeline(store, limit).entries) == Filter(TimestampIs(t), store)
  {
    var entries := Timeline(store, limit).entries;
    SortStable(store, t);
    FilterPrefix(TimestampIs(t), entries, SortNewestFirst(store));
  }

  /** Truncation drops only entries that are no newer than every entry it keeps. */
  lemma TimelineKeepsNewest(store: seq<LogEntry>, limit: Option<nat>, i: nat, j: nat)
    requires i < |Timeline(store, limit).entries| <= j < |store|
    ensures Timeline(store, limit).entries[i].timestamp >= SortNewestFirst(store)[j].timestamp
  {
    assert Timeline(store, limit).entries[i] == SortNewestFirst(store)[i];
  }

  // ---------------------------------------------------------------- get_logs_by_source

  function FromSource(source: LogSource): LogEntry -> bool
  {
    (e: LogEntry) => e.source == source
  }

  /** `get_logs_by_source`: exactly the entries from `source`, in store order. */
  function LogsBySource(store: seq<LogEntry>, source: LogSource): (r: seq<LogEntry>)
    ensures IsSubsequence(r, store)
    ensures forall i :: 0 <= i < |r| ==> r[i].source == source
    ensures forall e :: e in store && e.source == source ==> e in r
  {
    var p := FromSource(source);
    FilterSubsequence(p, store);
    forall e | e in store && e.source == source
      ensures e in Filter(p, store)
    {
      FilterMembership(p, store, e);
    }
    Filter(p, store)
  }

  /** Each entry from `source` is returned as many times as it is stored; no other entry is. */
  lemma LogsBySourceMultiplicity(store: seq<LogEntry>, source: LogSource, e: LogEntry)
    ensures multiset(LogsBySource(store, source))[e] == if e.source == source then multiset(store)[e] else 0
  {
    FilterMultiplicity(FromSource(source), store, e);
  }

  // ---------------------------------------------------------------- the store

  /** The `Vec<LogEntry>` shared behind the state's mutex. */
  class LogStore {
    var entries: seq<LogEntry>

    constructor ()
      ensures entries == []
    {
      entries := [];
    }

    /** `add_log`: the id and the timestamp are the fresh UUID and the clock reading. */
    method AddLog(level: LogLevel, source: LogSource, message: string, details: Option<Json>, id: Uuid, now: Timestamp)
      modifies this
      ensures entries == AddLogged(old(entries), LogEntry(id, level, source, message, details, now))
    {
      var entry := LogEntry(id, level, source, message, details, now);
      entries := entries + [entry];
      var len := |entries|;
      if len > MAX_LOGS {
        entries := entries[len - MAX_LOGS..];
      }
    }

    /** `get_timeline`: sorts and truncates a copy; the store is left as it was. */
    method GetTimeline(limit: Option<nat>) returns (r: TimelineResponse)
      ensures r == Timeline(entries, limit)
    {
      var copy := entries;
      copy := SortNewestFirst(copy);
      if limit.Some? && limit.value < |copy| {
        copy := copy[..limit.value];
      }
      r := TimelineResponse(copy, |copy|);
    }

    method GetLogsBySource(source: LogSource) returns (r: seq<LogEntry>)
      ensures r == LogsBySource(entries, source)
    {
      r := LogsBySource(entries, source);
    }
  }
}
