/** The stored index history: a list of (timestamp, value) points kept one per
    minute, in timestamp order and under a size cap (`append_history` in
    scripts/build_index.py), and the simpler rolling series that
    `save_results` in cloudy_shiny_index.py appends to and trims. */
module History {
  import opened Common

  datatype Point = Point(timestamp: string, indexValue: real)

  /** Length of the `YYYY-MM-DDTHH:MM` prefix that identifies a minute. */
  const MinuteKeyLength: nat := 16

  /** Most points `append_history` keeps. */
  const HistoryCap: nat := 10000

  /** Most points the rolling series of `save_results` keeps. */
  const RollingCap: nat := 500

  /** `timestamp[:16]`. */
  function MinuteKey(timestamp: string): (k: string)
    ensures |k| == (if |timestamp| <= MinuteKeyLength then |timestamp| else MinuteKeyLength)
    ensures k == timestamp[..|k|]
  {
    Take(timestamp, MinuteKeyLength)
  }

  // ---------------------------------------------------------- string order

  /** Python's `<=` on strings: code point by code point, a prefix first. */
  predicate LexLe(a: string, b: string)
  {
    if a == [] then true
    else if b == [] then false
    else if a[0] != b[0] then a[0] < b[0]
    else LexLe(a[1..], b[1..])
  }

  lemma {:induction false} LexLeTotal(a: string, b: string)
    ensures LexLe(a, b) || LexLe(b, a)
  {
    if a != [] && b != [] && a[0] == b[0] {
      LexLeTotal(a[1..], b[1..]);
    }
  }

  lemma {:induction false} LexLeTransitive(a: string, b: string, c: string)
    requires LexLe(a, b) && LexLe(b, c)
    ensures LexLe(a, c)
  {
    if a != [] && b != [] && c != [] && a[0] == b[0] && b[0] == c[0] {
      LexLeTransitive(a[1..], b[1..], c[1..]);
    }
  }

  predicate Sorted(s: seq<Point>)
  {
    forall i :: 0 < i < |s| ==> LexLe(s[i - 1].timestamp, s[i].timestamp)
  }

  /** Order between neighbours extends to every pair. */
  lemma {:induction false} SortedPairwise(s: seq<Point>, i: nat, j: nat)
    requires Sorted(s) && i <= j < |s|
    ensures LexLe(s[i].timestamp, s[j].timestamp)
    decreases j - i
  {
    if i == j {
      LexLeReflexive(s[i].timestamp);
    } else {
      SortedPairwise(s, i, j - 1);
      LexLeTransitive(s[i].timestamp, s[j - 1].timestamp, s[j].timestamp);
    }
  }

  lemma {:induction false} LexLeReflexive(a: string)
    ensures LexLe(a, a)
  {
    if a != [] {
      LexLeReflexive(a[1..]);
    }
  }

  // ---------------------------------------------------------- sorting

  /** Insert `p` after every point of `s` whose timestamp is not greater, so
      points with equal timestamps keep their order. */
  function Insert(p: Point, s: seq<Point>): (r: seq<Point>)
    ensures |r| == |s| + 1
    ensures multiset(r) == multiset(s) + multiset{p}
    ensures r[|r| - 1] == p || (s != [] && r[|r| - 1] == s[|s| - 1])
  {
    if s == [] || LexLe(s[|s| - 1].timestamp, p.timestamp) then s + [p]
    else
      var init := s[..|s| - 1];
      assert s == init + [s[|s| - 1]];
      Insert(p, init) + [s[|s| - 1]]
  }

  /** `series.sort(key=timestamp)`, as a stable insertion sort. */
  function SortByTimestamp(s: seq<Point>): (r: seq<Point>)
    ensures |r| == |s|
    ensures multiset(r) == multiset(s)
  {
    if s == [] then []
    else
      assert s == s[..|s| - 1] + [s[|s| - 1]];
      Insert(s[|s| - 1], SortByTimestamp(s[..|s| - 1]))
  }

  lemma {:induction false} InsertSorted(p: Point, s: seq<Point>)
    requires Sorted(s)
    ensures Sorted(Insert(p, s))
  {
    if s != [] && !LexLe(s[|s| - 1].timestamp, p.timestamp) {
      var init, last := s[..|s| - 1], s[|s| - 1];
      assert Sorted(init) by {
        forall i | 0 < i < |init| ensures LexLe(init[i - 1].timestamp, init[i].timestamp) {
          assert init[i - 1] == s[i - 1] && init[i] == s[i];
        }
      }
      InsertSorted(p, init);
      var r := Insert(p, init);
      LexLeTotal(last.timestamp, p.timestamp);
      assert LexLe(r[|r| - 1].timestamp, last.timestamp) by {
        if r[|r| - 1] != p {
          assert r[|r| - 1] == s[|s| - 2];
        }
      }
    }
  }

  /** The sorted series is ordered by timestamp and is a permutation of the input. */
  lemma {:induction false} SortSorts(s: seq<Point>)
    ensures Sorted(SortByTimestamp(s))
    ensures multiset(SortByTimestamp(s)) == multiset(s)
  {
    if s != [] {
      SortSorts(s[..|s| - 1]);
      InsertSorted(s[|s| - 1], SortByTimestamp(s[..|s| - 1]));
    }
  }

  // ---------------------------------------------------------- dedupe by minute

  predicate HasMinute(p: Point, key: string)
  {
    MinuteKey(p.timestamp) == key
  }

  /** Index of the last point in the minute `key`, -1 when there is none
      (the dictionary built by `append_history` keeps the last index per key). */
  function LastInMinute(s: seq<Point>, key: string): (i: int)
    ensures -1 <= i < |s|
  {
    if s == [] then -1
    else if HasMinute(s[|s| - 1], key) then |s| - 1
    else LastInMinute(s[..|s| - 1], key)
  }

  /** `LastInMinute` finds the last point of the minute, and reports -1
      exactly when no point is in that minute. */
  lemma {:induction false} LastInMinuteSpec(s: seq<Point>, key: string)
    ensures var i := LastInMinute(s, key);
            && (i >= 0 ==> HasMinute(s[i], key))
            && (forall j :: i < j < |s| ==> !HasMinute(s[j], key))
            && (i == -1 <==> forall j :: 0 <= j < |s| ==> !HasMinute(s[j], key))
  {
    if s != [] && !HasMinute(s[|s| - 1], key) {
      LastInMinuteSpec(s[..|s| - 1], key);
      assert forall j :: 0 <= j < |s| - 1 ==> s[..|s| - 1][j] == s[j];
    }
  }

  /** Overwrite the minute's last point with `p`, or append `p`. */
  function Upsert(s: seq<Point>, p: Point): seq<Point>
  {
    var i := LastInMinute(s, MinuteKey(p.timestamp));
    if i >= 0 then s[i := p] else s + [p]
  }

  /** When the minute is already present its last point is replaced by `p`
      and nothing else changes; otherwise exactly `p` is added at the end. */
  lemma UpsertSpec(s: seq<Point>, p: Point)
    ensures var key := MinuteKey(p.timestamp);
            var r := Upsert(s, p);
            && ((exists j :: 0 <= j < |s| && HasMinute(s[j], key)) ==>
                  && |r| == |s|
                  && HasMinute(s[LastInMinute(s, key)], key)
                  && r[LastInMinute(s, key)] == p
                  && (forall j :: 0 <= j < |s| && j != LastInMinute(s, key) ==> r[j] == s[j]))
            && ((forall j :: 0 <= j < |s| ==> !HasMinute(s[j], key)) ==> r == s + [p])
  {
    LastInMinuteSpec(s, MinuteKey(p.timestamp));
  }

  /** Points of other minutes keep timestamp and value: as a bag, the series
      loses at most the replaced point and gains `p`. */
  lemma UpsertMultiset(s: seq<Point>, p: Point)
    ensures var i := LastInMinute(s, MinuteKey(p.timestamp));
            multiset(Upsert(s, p)) == (if i >= 0 then multiset(s) - multiset{s[i]} else multiset(s)) + multiset{p}
  {
    var i := LastInMinute(s, MinuteKey(p.timestamp));
    if i >= 0 {
      assert s == s[..i] + [s[i]] + s[i + 1..];
      assert s[i := p] == s[..i] + [p] + s[i + 1..];
    }
  }

  /** No two points share a minute. */
  predicate UniqueMinutes(s: seq<Point>)
  {
    forall i, j :: 0 <= i < j < |s| ==> MinuteKey(s[i].timestamp) != MinuteKey(s[j].timestamp)
  }

  lemma UpsertKeepsUnique(s: seq<Point>, p: Point)
    requires UniqueMinutes(s)
    ensures UniqueMinutes(Upsert(s, p))
  {
    LastInMinuteSpec(s, MinuteKey(p.timestamp));
  }

  /** Points of a bag that holds `p` and points of `s`. */
  lemma InMultisetUnion(x: Point, s: seq<Point>, p: Point, r: seq<Point>)
    requires multiset(r) == multiset(s) + multiset{p}
    requires x in r
    ensures x == p || x in s
  {
    assert x in multiset(r);
  }

  lemma {:induction false} InsertKeepsUnique(p: Point, s: seq<Point>)
    requires UniqueMinutes(s)
    requires forall j :: 0 <= j < |s| ==> MinuteKey(s[j].timestamp) != MinuteKey(p.timestamp)
    ensures UniqueMinutes(Insert(p, s))
  {
    if s != [] && !LexLe(s[|s| - 1].timestamp, p.timestamp) {
      var init, last := s[..|s| - 1], s[|s| - 1];
      InsertKeepsUnique(p, init);
      var r := Insert(p, init);
      forall j | 0 <= j < |r| ensures MinuteKey(r[j].timestamp) != MinuteKey(last.timestamp) {
        InMultisetUnion(r[j], init, p, r);
      }
    }
  }

  lemma {:induction false} SortKeepsUnique(s: seq<Point>)
    requires UniqueMinutes(s)
    ensures UniqueMinutes(SortByTimestamp(s))
  {
    if s != [] {
      var init, last := s[..|s| - 1], s[|s| - 1];
      SortKeepsUnique(init);
      var sorted := SortByTimestamp(init);
      forall j | 0 <= j < |sorted| ensures MinuteKey(sorted[j].timestamp) != MinuteKey(last.timestamp) {
        assert sorted[j] in multiset(init);
      }
      InsertKeepsUnique(last, sorted);
    }
  }

  // ---------------------------------------------------------- trimming

  /** `series[-cap:]`. */
  function KeepLast(s: seq<Point>, cap: nat): (r: seq<Point>)
    ensures |r| == if |s| <= cap then |s| else cap
    ensures r == s[|s| - |r|..]
  {
    if |s| > cap then s[|s| - cap..] else s
  }

  lemma KeepLastKeeps(s: seq<Point>, cap: nat)
    ensures Sorted(s) ==> Sorted(KeepLast(s, cap))
    ensures UniqueMinutes(s) ==> UniqueMinutes(KeepLast(s, cap))
  {
    var r := KeepLast(s, cap);
    var d := |s| - |r|;
    assert forall i :: 0 <= i < |r| ==> r[i] == s[d + i];
  }

  /** The whole of `append_history` on the series, as a function. */
  function Appended(s: seq<Point>, p: Point): seq<Point>
  {
    KeepLast(SortByTimestamp(Upsert(s, p)), HistoryCap)
  }

  /** After `append_history` the series is sorted, within the cap, one point
      per minute if it was before, and holds the new point unless the cap
      cut it off. */
  lemma AppendedSpec(s: seq<Point>, p: Point)
    ensures Sorted(Appended(s, p)) && |Appended(s, p)| <= HistoryCap
    ensures UniqueMinutes(s) ==> UniqueMinutes(Appended(s, p))
    ensures |Upsert(s, p)| <= HistoryCap ==> p in Appended(s, p)
  {
    var u := Upsert(s, p);
    SortSorts(u);
    KeepLastKeeps(SortByTimestamp(u), HistoryCap);
    if UniqueMinutes(s) {
      UpsertKeepsUnique(s, p);
      SortKeepsUnique(u);
    }
    UpsertMultiset(s, p);
    assert p in multiset(SortByTimestamp(u));
  }

  /** A point stored for a minute that has a point already does not grow the
      series (unless it was over the cap). */
  lemma SameMinuteDoesNotGrow(s: seq<Point>, p: Point, j: nat)
    requires j < |s| && HasMinute(s[j], MinuteKey(p.timestamp))
    ensures |Appended(s, p)| == if |s| <= HistoryCap then |s| else HistoryCap
  {
    LastInMinuteSpec(s, MinuteKey(p.timestamp));
  }

  // ---------------------------------------------------------- the store

  class HistoryStore {
    var series: seq<Point>

    constructor(initial: seq<Point>)
      ensures series == initial
    {
      series := initial;
    }

    /** The loop of `append_history` building its minute index. */
    static method FindMinute(s: seq<Point>, key: string) returns (idx: int)
      ensures idx == LastInMinute(s, key)
    {
      idx := -1;
      var i := 0;
      while i < |s|
        invariant 0 <= i <= |s|
        invariant idx == LastInMinute(s[..i], key)
      {
        assert s[..i + 1][..i] == s[..i];
        if HasMinute(s[i], key) {
          idx := i;
        }
        i := i + 1;
      }
      assert s[..i] == s;
    }

    /** `append_history`: replace or add the point of this minute, sort by
        timestamp, keep the last 10000 points and return their number. */
    method AppendHistory(timestamp: string, value: real) returns (count: nat)
      modifies this
      ensures series == Appended(old(series), Point(timestamp, value))
      ensures count == |series| <= HistoryCap
    {
      var p := Point(timestamp, value);
      var idx := FindMinute(series, MinuteKey(timestamp));
      var updated := if idx >= 0 then series[idx := p] else series + [p];
      assert updated == Upsert(series, p);
      var sorted := SortByTimestamp(updated);
      if |sorted| > HistoryCap {
        sorted := sorted[|sorted| - HistoryCap..];
      }
      series := sorted;
      count := |series|;
    }

    /** The rolling series of `save_results`: append the new point, keep the
        last 500. */
    method AppendAndTrim(timestamp: string, value: real)
      modifies this
      ensures series == KeepLast(old(series) + [Point(timestamp, value)], RollingCap)
      ensures 1 <= |series| <= RollingCap
      ensures series[|series| - 1] == Point(timestamp, value)
    {
      series := series + [Point(timestamp, value)];
      if |series| > RollingCap {
        series := series[|series| - RollingCap..];
      }
    }
  }
}
