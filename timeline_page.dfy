/**
 * The security timeline page (frontend/src/pages/SecurityTimeline.tsx): the
 * fetched timeline and the level and text filters that choose what is shown.
 */
module SecurityTimelinePage {
  import opened Models
  import opened Seqs

  // ---------------------------------------------------------------- text matching

  /** `toLowerCase` on ASCII letters; other characters are left alone. */
  function LowerChar(c: char): char
  {
    if 'A' <= c <= 'Z' then (c as int + 32) as char else c
  }

  function ToLower(s: string): (r: string)
    ensures |r| == |s|
  {
    if s == "" then "" else [LowerChar(s[0])] + ToLower(s[1..])
  }

  lemma {:induction false} ToLowerIdempotent(s: string)
    ensures ToLower(ToLower(s)) == ToLower(s)
  {
    if s != "" {
      ToLowerIdempotent(s[1..]);
      assert ToLower(s)[1..] == ToLower(s[1..]);
    }
  }

  /** `hay.includes(needle)`: `needle` starts at some position of `hay`. */
  predicate Contains(hay: string, needle: string)
  {
    needle <= hay || (hay != [] && Contains(hay[1..], needle))
  }

  /** The level select: `all`, or the entry's level equal to the filter ignoring case. */
  predicate MatchesFilter(e: LogEntry, filter: string)
  {
    filter == "all" || ToLower(LogLevelName(e.level)) == ToLower(filter)
  }

  /** The search box: empty, or found ignoring case in the message or the source name. */
  predicate MatchesSearch(e: LogEntry, search: string)
  {
    search == ""
    || Contains(ToLower(e.message), ToLower(search))
    || Contains(ToLower(LogSourceName(e.source)), ToLower(search))
  }

  function Shown(filter: string, search: string): LogEntry -> bool
  {
    (e: LogEntry) => MatchesFilter(e, filter) && MatchesSearch(e, search)
  }

  /** `filteredEntries`: the matching entries in the order received; nothing before a timeline arrives. */
  function FilteredEntries(timeline: Option<TimelineResponse>, filter: string, search: string): (r: seq<LogEntry>)
    ensures timeline.None? ==> r == []
    ensures timeline.Some? ==> IsSubsequence(r, timeline.value.entries)
    ensures forall i :: 0 <= i < |r| ==> MatchesFilter(r[i], filter) && MatchesSearch(r[i], search)
  {
    match timeline
    case None => []
    case Some(t) =>
      FilterSubsequence(Shown(filter, search), t.entries);
      Filter(Shown(filter, search), t.entries)
  }

  /** An entry is shown exactly when it was fetched and passes both filters. */
  lemma FilteredMembership(t: TimelineResponse, filter: string, search: string, e: LogEntry)
    ensures e in FilteredEntries(Some(t), filter, search) <==>
              e in t.entries && MatchesFilter(e, filter) && MatchesSearch(e, search)
  {
    FilterMembership(Shown(filter, search), t.entries, e);
  }

  /** With level `all` and an empty search every fetched entry is shown, in order. */
  lemma UnfilteredShowsAll(t: TimelineResponse)
    ensures FilteredEntries(Some(t), "all", "") == t.entries
  {
    FilterKeepsAll(Shown("all", ""), t.entries);
  }

  /** Filtering what is already shown shows the same entries again. */
  lemma FilteringIdempotent(timeline: Option<TimelineResponse>, filter: string, search: string, count: nat)
    ensures var shown := FilteredEntries(timeline, filter, search);
      FilteredEntries(Some(TimelineResponse(shown, count)), filter, search) == shown
  {
    if timeline.Some? {
      FilterIdempotent(Shown(filter, search), timeline.value.entries);
    }
  }

  /** Case does not matter in the search text. */
  lemma SearchIgnoresCase(e: LogEntry, search: string)
    ensures MatchesSearch(e, search) == MatchesSearch(e, ToLower(search))
  {
    ToLowerIdempotent(search);
  }

  /** Case does not matter in a level filter, unless changing it makes or unmakes the literal `all`. */
  lemma FilterIgnoresCase(e: LogEntry, filter: string)
    requires filter != "all" && ToLower(filter) != "all"
    ensures MatchesFilter(e, filter) == MatchesFilter(e, ToLower(filter))
  {
    ToLowerIdempotent(filter);
  }

  /** The level names the backend sends, lower-cased. */
  function LowerLevelName(l: LogLevel): string
  {
    match l
    case Debug => "debug"
    case Info => "info"
    case Warning => "warning"
    case Error => "error"
    case Critical => "critical"
  }

  lemma {:induction false} ToLowerLevelName(l: LogLevel)
    ensures ToLower(LogLevelName(l)) == LowerLevelName(l)
  {
    var n := LogLevelName(l);
    assert ToLower(n) == [LowerChar(n[0])] + ToLower(n[1..]);
    assert n[1..] == LowerLevelName(l)[1..];
    ToLowerKeepsLower(LowerLevelName(l)[1..]);
  }

  /** Text without capitals is its own lower-case form. */
  lemma {:induction false} ToLowerKeepsLower(s: string)
    requires forall i :: 0 <= i < |s| ==> !('A' <= s[i] <= 'Z')
    ensures ToLower(s) == s
  {
    if s != "" {
      ToLowerKeepsLower(s[1..]);
    }
  }

  /** A filter naming a level, in any case, shows exactly the entries of that level. */
  lemma LevelFilterSelectsLevel(e: LogEntry, filter: string, l: LogLevel)
    requires ToLower(filter) == LowerLevelName(l)
    ensures MatchesFilter(e, filter) <==> e.level == l
  {
    ToLowerLevelName(e.level);
  }

  /** Three entries at Info, Error and Debug, filtered by level "error": only the Error one is shown. */
  lemma ErrorFilterExample(a: LogEntry, b: LogEntry, c: LogEntry)
    requires a.level == LogLevel.Info && b.level == LogLevel.Error && c.level == LogLevel.Debug
    ensures FilteredEntries(Some(TimelineResponse([a, b, c], 3)), "error", "") == [b]
  {
    var p := Shown("error", "");
    ToLowerKeepsLower("error");
    LevelFilterSelectsLevel(a, "error", LogLevel.Error);
    LevelFilterSelectsLevel(b, "error", LogLevel.Error);
    LevelFilterSelectsLevel(c, "error", LogLevel.Error);
    assert !p(a) && p(b) && !p(c);
    assert [a, b, c][1..] == [b, c];
    assert [b, c][1..] == [c];
    assert Filter(p, [c]) == [] by {
      assert [c][1..] == [];
    }
    assert Filter(p, [b, c]) == [b] + Filter(p, [c]);
    assert Filter(p, [a, b, c]) == Filter(p, [b, c]);
  }

  // ---------------------------------------------------------------- the page state

  /** The component's state slots. */
  class SecurityTimeline {
    var timeline: Option<TimelineResponse>
    var filter: string
    var search: string

    constructor ()
      ensures timeline == None && filter == "all" && search == ""
    {
      timeline := None;
      filter := "all";
      search := "";
    }

    /** What the page lists. */
    function Displayed(): seq<LogEntry>
      reads this
    {
      FilteredEntries(timeline, filter, search)
    }

    /**
     * `loadTimeline`, on mount, on each 5-second tick and on Refresh: a fetched
     * timeline replaces the held one wholesale; a failed fetch keeps it.
     */
    method LoadTimeline(fetched: Result<TimelineResponse>)
      modifies this
      ensures fetched.Ok? ==> timeline == Some(fetched.value)
      ensures fetched.Err? ==> timeline == old(timeline)
      ensures filter == old(filter) && search == old(search)
      ensures fetched.Ok? ==> forall e :: e in Displayed() <==>
                e in fetched.value.entries && MatchesFilter(e, filter) && MatchesSearch(e, search)
    {
      if fetched.Ok? {
        timeline := Some(fetched.value);
        forall e
          ensures e in Displayed() <==> e in fetched.value.entries && MatchesFilter(e, filter) && MatchesSearch(e, search)
        {
          FilteredMembership(fetched.value, filter, search, e);
        }
      }
    }

    /** The level select's `onChange`. */
    method SetFilter(value: string)
      modifies this
      ensures filter == value && timeline == old(timeline) && search == old(search)
    {
      filter := value;
    }

    /** The search box's `onChange`. */
    method SetSearch(value: string)
      modifies this
      ensures search == value && timeline == old(timeline) && filter == old(filter)
    {
      search := value;
    }
  }
}
