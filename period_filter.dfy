/**
 * The period buttons: a token picks how far back from the last bar the chart
 * reaches, and the series is cut to the bars on or after that day.
 */
module PeriodFilter {
  import opened Calendar
  import opened Bars

  datatype Period = ThreeMonths | SixMonths | OneYear | Whole

  /** '3m', '6m' and '1y' name a lookback; any other token shows the whole series. */
  function ParsePeriod(token: string): (p: Period)
    ensures p == ThreeMonths <==> token == "3m"
    ensures p == SixMonths <==> token == "6m"
    ensures p == OneYear <==> token == "1y"
    ensures p == Whole <==> token !in {"3m", "6m", "1y"}
  {
    if token == "3m" then ThreeMonths
    else if token == "6m" then SixMonths
    else if token == "1y" then OneYear
    else Whole
  }

  /** How many calendar months a period reaches back; a year is twelve. */
  function LookbackMonths(p: Period): (m: nat)
    requires p != Whole
    ensures p == ThreeMonths ==> m == 3
    ensures p == SixMonths ==> m == 6
    ensures p == OneYear ==> m == 12
  {
    match p
    case ThreeMonths => 3
    case SixMonths => 6
    case OneYear => 12
  }

  /** `r` can be obtained from `s` by deleting elements, keeping the order of the rest. */
  ghost predicate IsSubsequence(r: seq<Bar>, s: seq<Bar>)
    decreases |s|
  {
    r == [] || (s != [] && ((r[0] == s[0] && IsSubsequence(r[1..], s[1..])) || IsSubsequence(r, s[1..])))
  }

  /** The bars of `s` dated on or after `from`, in their order in `s`. */
  function KeepFrom(s: seq<Bar>, from: Day): (r: seq<Bar>)
    ensures |r| <= |s|
    ensures forall b :: b in r <==> b in s && b.time >= from
  {
    if s == [] then []
    else (if s[0].time >= from then [s[0]] else []) + KeepFrom(s[1..], from)
  }

  lemma {:induction false} KeepFromIsSubsequence(s: seq<Bar>, from: Day)
    ensures IsSubsequence(KeepFrom(s, from), s)
  {
    if s != [] {
      KeepFromIsSubsequence(s[1..], from);
      var rest := KeepFrom(s[1..], from);
      if s[0].time >= from {
        assert KeepFrom(s, from) == [s[0]] + rest;
        assert ([s[0]] + rest)[1..] == rest;
      } else {
        assert KeepFrom(s, from) == rest;
      }
    }
  }

  /** The index of the first bar dated on or after `from`, or |s| if none is. */
  function FirstFrom(s: seq<Bar>, from: Day): (k: nat)
    ensures k <= |s|
    ensures forall i :: 0 <= i < k ==> s[i].time < from
    ensures k < |s| ==> s[k].time >= from
  {
    if s == [] || s[0].time >= from then 0 else 1 + FirstFrom(s[1..], from)
  }

  /** On a date-ordered series the kept bars are a suffix: everything from the first kept bar on. */
  lemma {:induction false} KeepFromSortedIsSuffix(s: seq<Bar>, from: Day)
    requires StrictlyAscending(s)
    ensures KeepFrom(s, from) == s[FirstFrom(s, from)..]
  {
    if s != [] {
      assert StrictlyAscending(s[1..]);
      KeepFromSortedIsSuffix(s[1..], from);
      if s[0].time >= from {
        assert FirstFrom(s, from) == 0;
        // every later bar is later still, so it is kept as well
        assert FirstFrom(s[1..], from) == 0 by {
          if |s| > 1 { assert s[1].time > s[0].time; }
        }
        assert s[1..][0..] == s[1..];
      } else {
        assert s[1..][FirstFrom(s[1..], from)..] == s[1 + FirstFrom(s[1..], from)..];
      }
    }
  }

  /** An earlier bound keeps every bar a later bound keeps, in the same order. */
  lemma {:induction false} KeepFromEarlierBound(s: seq<Bar>, from1: Day, from2: Day)
    requires from1 <= from2
    ensures IsSubsequence(KeepFrom(s, from2), KeepFrom(s, from1))
  {
    if s != [] {
      KeepFromEarlierBound(s[1..], from1, from2);
      var r1 := KeepFrom(s[1..], from1);
      var r2 := KeepFrom(s[1..], from2);
      if s[0].time >= from2 {
        assert KeepFrom(s, from2) == [s[0]] + r2 && ([s[0]] + r2)[1..] == r2;
        assert KeepFrom(s, from1) == [s[0]] + r1 && ([s[0]] + r1)[1..] == r1;
      } else if s[0].time >= from1 {
        assert KeepFrom(s, from2) == r2;
        assert KeepFrom(s, from1) == [s[0]] + r1 && ([s[0]] + r1)[1..] == r1;
      } else {
        assert KeepFrom(s, from2) == r2 && KeepFrom(s, from1) == r1;
      }
    }
  }

  /** A bar dated on or after `from` is never dropped, so the last bar survives. */
  lemma {:induction false} KeepFromKeepsLast(s: seq<Bar>, from: Day)
    requires |s| > 0 && Last(s).time >= from
    ensures |KeepFrom(s, from)| > 0 && Last(KeepFrom(s, from)) == Last(s)
  {
    if |s| > 1 {
      KeepFromKeepsLast(s[1..], from);
      assert Last(s[1..]) == Last(s);
    }
  }

  /**
   * The series the chart shows for a period token. `from` is the day the
   * token's lookback reaches back to from the last bar; an unrecognised token
   * shows every bar. The page reads the last bar first, so the series must
   * not be empty.
   */
  function FilterData(all: seq<Bar>, token: string, from: Day): (r: seq<Bar>)
    requires |all| > 0 && from <= Last(all).time
    ensures ParsePeriod(token) == Whole ==> r == all
    ensures ParsePeriod(token) != Whole ==> forall b :: b in r <==> b in all && b.time >= from
    ensures |r| > 0 && Last(r) == Last(all)
  {
    var period := ParsePeriod(token);
    if period == Whole then all
    else
      KeepFromKeepsLast(all, from);
      KeepFrom(all, from)
  }

  /** The shown series keeps the full series' order, and some bar is on or after the bound. */
  lemma FilterDataKeepsOrder(all: seq<Bar>, token: string, from: Day)
    requires |all| > 0 && from <= Last(all).time
    ensures IsSubsequence(FilterData(all, token, from), all)
    ensures FirstFrom(all, from) < |all|
  {
    KeepFromKeepsLast(all, from);
    KeepFromIsSubsequence(all, from);
    if ParsePeriod(token) == Whole {
      SubsequenceOfItself(all);
    }
  }

  /** On a date-ordered series a lookback shows a suffix: every bar from the first one on or after the bound. */
  lemma FilterDataIsSuffix(all: seq<Bar>, token: string, from: Day)
    requires |all| > 0 && from <= Last(all).time && StrictlyAscending(all)
    ensures ParsePeriod(token) != Whole ==> FilterData(all, token, from) == all[FirstFrom(all, from)..]
  {
    if ParsePeriod(token) != Whole {
      KeepFromSortedIsSuffix(all, from);
    }
  }

  /** A lookback whose bound is no later shows every bar the other shows, in the same order. */
  lemma FilterDataEarlierBound(all: seq<Bar>, token1: string, from1: Day, token2: string, from2: Day)
    requires |all| > 0 && from1 <= from2 <= Last(all).time
    requires ParsePeriod(token1) != Whole && ParsePeriod(token2) != Whole
    ensures IsSubsequence(FilterData(all, token2, from2), FilterData(all, token1, from1))
  {
    KeepFromEarlierBound(all, from1, from2);
  }

  lemma {:induction false} SubsequenceOfItself(s: seq<Bar>)
    ensures IsSubsequence(s, s)
  {
    if s != [] {
      SubsequenceOfItself(s[1..]);
    }
  }
}
