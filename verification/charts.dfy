/** The chart window shared by the water and sleep pages: copy the log,
    sort the copy ascending by date, keep the last seven entries, and turn
    each `YYYY-MM-DD` date into an `MM/DD` axis label. */
module Charts {
  import opened Text
  import opened Common

  /** One dated value of a log: a water entry's amount or a sleep entry's
      hours. */
  datatype Reading = Reading(date: string, value: real)

  /** The number of points a chart shows (`.slice(-7)`). */
  const WindowSize: nat := 7

  /** Each reading's date is no later than the next one's. */
  ghost predicate SortedByDate(s: seq<Reading>)
  {
    forall i :: 0 <= i < |s| - 1 ==> LexLe(s[i].date, s[i + 1].date)
  }

  /** Sortedness of neighbours extends to every pair. */
  lemma {:induction false} SortedPairwise(s: seq<Reading>, i: int, j: int)
    requires SortedByDate(s) && 0 <= i <= j < |s|
    ensures LexLe(s[i].date, s[j].date)
    decreases j - i
  {
    if i == j {
      LexLeTotal(s[i].date, s[j].date);
    } else {
      SortedPairwise(s, i + 1, j);
      LexLeTransitive(s[i].date, s[i + 1].date, s[j].date);
    }
  }

  /** Inserts `x` before the first reading whose date is not earlier, so
      a reading that came first in the log stays first among equal dates. */
  function Insert(x: Reading, s: seq<Reading>): (r: seq<Reading>)
    requires SortedByDate(s)
    ensures SortedByDate(r)
    ensures multiset(r) == multiset(s) + multiset{x}
    ensures |r| == |s| + 1 && (r[0] == x || (|s| > 0 && r[0] == s[0]))
  {
    if |s| == 0 then [x]
    else if LexLe(x.date, s[0].date) then [x] + s
    else
      LexLeTotal(x.date, s[0].date);
      assert s == [s[0]] + s[1..];
      [s[0]] + Insert(x, s[1..])
  }

  /** `[...log].sort((a, b) => a.date.localeCompare(b.date))`: a stable
      ascending sort of a copy. */
  function SortByDate(s: seq<Reading>): (r: seq<Reading>)
    ensures SortedByDate(r)
    ensures multiset(r) == multiset(s)
  {
    if |s| == 0 then []
    else
      assert s == [s[0]] + s[1..];
      Insert(s[0], SortByDate(s[1..]))
  }

  /** Cutting a sorted sequence leaves two sorted parts, every reading of
      the first no later than every reading of the second. */
  lemma SplitSorted(t: seq<Reading>, k: nat)
    requires SortedByDate(t) && k <= |t|
    ensures SortedByDate(t[k..])
    ensures forall x, y :: x in multiset(t[..k]) && y in t[k..] ==> LexLe(x.date, y.date)
  {
    var u := t[k..];
    forall i | 0 <= i < |u| - 1
      ensures LexLe(u[i].date, u[i + 1].date)
    {
      assert u[i] == t[k + i] && u[i + 1] == t[k + i + 1];
    }
    forall x, y | x in multiset(t[..k]) && y in t[k..]
      ensures LexLe(x.date, y.date)
    {
      var i :| 0 <= i < k && t[i] == x;
      var j :| k <= j < |t| && t[j] == y;
      SortedPairwise(t, i, j);
    }
  }

  /** The readings a chart plots: the seven latest dates, oldest first. */
  function Window(s: seq<Reading>): (r: seq<Reading>)
    ensures |r| == Min(WindowSize, |s|)
    ensures SortedByDate(r)
    ensures multiset(r) <= multiset(s)
    ensures forall i :: 0 <= i < |r| ==> r[i] in s
    ensures forall x, y :: x in multiset(s) - multiset(r) && y in r ==> LexLe(x.date, y.date)
  {
    var t := SortByDate(s);
    assert |t| == |s| by {
      assert |multiset(t)| == |multiset(s)|;
    }
    var k := |t| - Min(WindowSize, |t|);
    assert t == t[..k] + t[k..];
    assert multiset(s) - multiset(t[k..]) == multiset(t[..k]);
    SplitSorted(t, k);
    forall i | 0 <= i < |t[k..]| ensures t[k..][i] in s {
      assert t[k..][i] in multiset(s);
    }
    t[k..]
  }

  /** Replaces every `-` with `/` (the `join('/')` of the split pieces). */
  function DashesToSlashes(s: string): (r: string)
    ensures |r| == |s|
    ensures forall i :: 0 <= i < |s| ==> r[i] == (if s[i] == '-' then '/' else s[i])
  {
    if |s| == 0 then [] else [if s[0] == '-' then '/' else s[0]] + DashesToSlashes(s[1..])
  }

  /** Everything after the first `-`, or "" when there is none (the pieces
      after the first one of `split('-')`). */
  function AfterFirstDash(s: string): string
  {
    if |s| == 0 then ""
    else if s[0] == '-' then s[1..]
    else AfterFirstDash(s[1..])
  }

  /** `date.split('-').slice(1).join('/')`. */
  function AxisLabel(date: string): string
  {
    DashesToSlashes(AfterFirstDash(date))
  }

  lemma {:induction false} AfterFirstDashSkipsYear(year: string, rest: string)
    requires '-' !in year
    ensures AfterFirstDash(year + "-" + rest) == rest
  {
    if |year| > 0 {
      assert (year + "-" + rest)[1..] == year[1..] + "-" + rest;
      AfterFirstDashSkipsYear(year[1..], rest);
    }
  }

  /** An ISO day `YYYY-MM-DD` is labelled `MM/DD`. */
  lemma IsoDateLabel(year: string, month: string, day: string)
    requires '-' !in year && '-' !in month && '-' !in day
    ensures AxisLabel(year + "-" + month + "-" + day) == month + "/" + day
  {
    assert year + "-" + month + "-" + day == year + "-" + (month + "-" + day);
    AfterFirstDashSkipsYear(year, month + "-" + day);
    var r := DashesToSlashes(month + "-" + day);
    assert r == month + "/" + day;
  }
}
