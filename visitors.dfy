/**
 * The visitor-meeting record as the client handles it, and the predicates every visitor page shares:
 * the date buckets (today, completed today, upcoming), the free-text search, and the order by time.
 */
module Visitors {
  import opened Wrappers
  import opened Text
  import opened Seqs

  /**
   * A meeting between a visitor and an inmate. `id` is absent until the backend assigns one; dates are
   * ISO 8601 `YYYY-MM-DD` strings and times `HH:MM` strings; the time, remarks and status may be missing.
   */
  datatype Meeting = Meeting(
    id: Option<int>,
    visitorName: string,
    visitorContact: string,
    inmateName: string,
    purpose: string,
    scheduledDate: string,
    scheduledTime: Option<string>,
    remarks: Option<string>,
    status: Option<string>)

  /** `!id` is false: the id is present and not 0. */
  predicate IsTruthyId(id: Option<int>) {
    id.Some? && id.value != 0
  }

  /** `v.status === s`; a missing status equals no string. */
  predicate HasStatus(v: Meeting, s: string) {
    v.status == Some(s)
  }

  // ---------------------------------------------------------------- date buckets

  /** Scheduled today: dated today, and neither cancelled nor completed (upper-case literals). */
  predicate IsScheduledToday(v: Meeting, today: string) {
    !HasStatus(v, "CANCELLED") && v.scheduledDate == today && !HasStatus(v, "COMPLETED")
  }

  /** Completed today: status "COMPLETED" and dated today. */
  predicate IsCompletedToday(v: Meeting, today: string) {
    HasStatus(v, "COMPLETED") && v.scheduledDate == today
  }

  /** Upcoming: dated after today and not cancelled. */
  predicate IsUpcoming(v: Meeting, today: string) {
    Less(today, v.scheduledDate) && !HasStatus(v, "CANCELLED")
  }

  /** The three buckets never share a record. */
  lemma BucketsDisjoint(v: Meeting, today: string)
    ensures !(IsScheduledToday(v, today) && IsCompletedToday(v, today))
    ensures !(IsUpcoming(v, today) && IsScheduledToday(v, today))
    ensures !(IsUpcoming(v, today) && IsCompletedToday(v, today))
  {
    LessIrreflexive(today);
  }

  // ---------------------------------------------------------------- search

  /** The text a search runs over: `${visitorName} ${inmateName} ${purpose}`. */
  function SearchText(v: Meeting): (t: string)
    ensures |t| == |v.visitorName| + |v.inmateName| + |v.purpose| + 2
  {
    v.visitorName + " " + v.inmateName + " " + v.purpose
  }

  /** Case-insensitive substring match of the search string against the search text. */
  predicate MatchesSearch(v: Meeting, search: string) {
    Contains(ToLower(SearchText(v)), ToLower(search))
  }

  /** The empty search matches every record. */
  lemma EmptySearchMatchesAll(v: Meeting)
    ensures MatchesSearch(v, "")
  {
    ContainsEmpty(ToLower(SearchText(v)));
  }

  /** A search for the visitor's name, in any letter case, finds the record. */
  lemma SearchFindsName(v: Meeting, search: string)
    requires ToLower(search) == ToLower(v.visitorName)
    ensures MatchesSearch(v, search)
  {
    var t := ToLower(SearchText(v));
    assert t[0..][..|search|] == ToLower(v.visitorName);
  }

  // ---------------------------------------------------------------- order by time

  /** `v.scheduledTime || ""`: the sort key, a missing time counting as the empty string. */
  function TimeKey(v: Meeting): string {
    v.scheduledTime.GetOr("")
  }

  /** `a` may precede `b` in ascending order of time. */
  predicate TimeLessEq(a: Meeting, b: Meeting) {
    !Less(TimeKey(b), TimeKey(a))
  }

  predicate SortedByTime(s: seq<Meeting>) {
    forall i, j :: 0 <= i < j < |s| ==> TimeLessEq(s[i], s[j])
  }

  lemma TimeLessEqTransitive(a: Meeting, b: Meeting, c: Meeting)
    requires TimeLessEq(a, b) && TimeLessEq(b, c)
    ensures TimeLessEq(a, c)
  {
    if Less(TimeKey(c), TimeKey(a)) {
      LessTotal(TimeKey(a), TimeKey(b));
      if Less(TimeKey(a), TimeKey(b)) {
        LessTransitive(TimeKey(c), TimeKey(a), TimeKey(b));
      }
    }
  }

  /** Inserting `x` into a list sorted by time, before the first record that is not earlier than it. */
  function InsertByTime(x: Meeting, s: seq<Meeting>): (r: seq<Meeting>)
    ensures multiset(r) == multiset(s) + multiset{x}
    ensures SortedByTime(s) ==> SortedByTime(r)
    decreases |s|
  {
    if s == [] then [x]
    else if TimeLessEq(x, s[0]) then
      InsertFrontSorted(x, s);
      [x] + s
    else
      var rest := InsertByTime(x, s[1..]);
      assert s == [s[0]] + s[1..];
      InsertBehindSorted(x, s, rest);
      [s[0]] + rest
  }

  lemma InsertFrontSorted(x: Meeting, s: seq<Meeting>)
    requires s != [] && TimeLessEq(x, s[0])
    ensures SortedByTime(s) ==> SortedByTime([x] + s)
  {
    if SortedByTime(s) {
      forall j | 0 < j < |s| ensures TimeLessEq(x, s[j]) {
        TimeLessEqTransitive(x, s[0], s[j]);
      }
    }
  }

  lemma InsertBehindSorted(x: Meeting, s: seq<Meeting>, rest: seq<Meeting>)
    requires s != [] && !TimeLessEq(x, s[0])
    requires multiset(rest) == multiset(s[1..]) + multiset{x}
    requires SortedByTime(s[1..]) ==> SortedByTime(rest)
    ensures SortedByTime(s) ==> SortedByTime([s[0]] + rest)
  {
    if SortedByTime(s) {
      assert SortedByTime(s[1..]) by {
        forall i, j | 0 <= i < j < |s| - 1 ensures TimeLessEq(s[1..][i], s[1..][j]) {
          assert s[1..][i] == s[i + 1] && s[1..][j] == s[j + 1];
        }
      }
      LessAsymmetric(TimeKey(s[0]), TimeKey(x));
      forall k | 0 <= k < |rest| ensures TimeLessEq(s[0], rest[k]) {
        assert rest[k] in multiset(rest);
        if rest[k] != x {
          assert rest[k] in multiset(s[1..]);
          var m :| 0 <= m < |s[1..]| && s[1..][m] == rest[k];
          assert s[m + 1] == rest[k];
        }
      }
    }
  }

  /** `arr.sort((a, b) => (a.scheduledTime || "").localeCompare(b.scheduledTime || ""))`: the same
      records, ascending by time. */
  function SortByTime(s: seq<Meeting>): (r: seq<Meeting>)
    ensures SortedByTime(r)
    ensures multiset(r) == multiset(s)
    decreases |s|
  {
    if s == [] then []
    else
      assert s == [s[0]] + s[1..];
      InsertByTime(s[0], SortByTime(s[1..]))
  }

  /** Sorting keeps the records of a bucket: exactly the same ones, each as often. */
  lemma SortByTimeSameRecords(s: seq<Meeting>, v: Meeting)
    ensures v in SortByTime(s) <==> v in s
    ensures |SortByTime(s)| == |s|
  {
    assert v in SortByTime(s) <==> v in multiset(SortByTime(s));
    assert |multiset(SortByTime(s))| == |multiset(s)|;
  }
}
