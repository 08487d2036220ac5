/** The monthly trend of the dashboard page (src/app/dashboard/page.tsx): the
    `YYYY-MM` key of a response's date, the ordering of the counted keys with
    "Unknown" last, and the labelling of the ordered keys. */
module DashboardTrend {
  import opened Collections
  import opened Text

  type Month = m: nat | 1 <= m <= 12 witness 1

  /** A calendar month as read in the page's fixed civil time zone. The parsing
      of the date string and the time-zone conversion happen outside the model. */
  datatype CivilMonth = CivilMonth(year: nat, month: Month)

  const UNKNOWN: string := "Unknown"

  /** Month formatted by `Intl.DateTimeFormat` with `month: "2-digit"`. */
  function TwoDigits(m: Month): (s: string)
    ensures |s| == 2 && IsDigit(s[0]) && IsDigit(s[1])
  {
    [DigitChar(m / 10), DigitChar(m % 10)]
  }

  /** `monthKey`: the year, a dash and the two-digit month, e.g. "2025-08". */
  function MonthKey(d: CivilMonth): string {
    NatToString(d.year) + "-" + TwoDigits(d.month)
  }

  /** `monthKey(r.createdAt) ?? "Unknown"`: a missing, empty or unparseable date
      (all three make `safeDate` return null) falls into the "Unknown" bucket. */
  function MonthKeyOrUnknown(d: Option<CivilMonth>): string {
    match d
    case Some(cm) => MonthKey(cm)
    case None => UNKNOWN
  }

  /** A real month never lands in the "Unknown" bucket: its key starts with a digit. */
  lemma MonthKeyIsNotUnknown(d: CivilMonth)
    ensures MonthKey(d) != UNKNOWN
  {
    assert MonthKey(d)[0] == NatToString(d.year)[0];
    assert IsDigit(MonthKey(d)[0]);
  }

  lemma {:induction false} NatToStringInjective(a: nat, b: nat)
    requires NatToString(a) == NatToString(b)
    ensures a == b
  {
    DecimalOrder(a, b);
    DecimalOrder(b, a);
    StrLessIrreflexive(NatToString(a));
  }

  /** Different months have different keys, whatever the year's width. */
  lemma MonthKeyInjective(a: CivilMonth, b: CivilMonth)
    requires MonthKey(a) == MonthKey(b)
    ensures a == b
  {
    var ka, kb := MonthKey(a), MonthKey(b);
    var ya, yb := NatToString(a.year), NatToString(b.year);
    assert |ya| == |yb| by {
      assert |ka| == |ya| + 3 && |kb| == |yb| + 3;
    }
    assert ya == ka[..|ya|] && yb == kb[..|yb|];
    NatToStringInjective(a.year, b.year);
    assert TwoDigits(a.month) == ka[|ya| + 1..] && TwoDigits(b.month) == kb[|yb| + 1..];
    assert a.month / 10 == b.month / 10 && a.month % 10 == b.month % 10 by {
      assert TwoDigits(a.month)[0] == TwoDigits(b.month)[0];
      assert TwoDigits(a.month)[1] == TwoDigits(b.month)[1];
    }
  }

  predicate Earlier(a: CivilMonth, b: CivilMonth) {
    a.year < b.year || (a.year == b.year && a.month < b.month)
  }

  /** For four-digit years the string order of the keys is the calendar order,
      which is why the page can sort the keys as strings. */
  lemma MonthKeyOrderIsChronological(a: CivilMonth, b: CivilMonth)
    requires 1000 <= a.year <= 9999 && 1000 <= b.year <= 9999
    ensures StrLess(MonthKey(a), MonthKey(b)) <==> Earlier(a, b)
  {
    var ya, yb := NatToString(a.year), NatToString(b.year);
    var ma, mb := TwoDigits(a.month), TwoDigits(b.month);
    NatToStringFourDigits(a.year);
    NatToStringFourDigits(b.year);
    assert MonthKey(a) == ya + ("-" + ma) && MonthKey(b) == yb + ("-" + mb);
    StrLessConcat(ya, "-" + ma, yb, "-" + mb);
    StrLessConcat("-", ma, "-", mb);
    StrLessIrreflexive("-");
    DecimalOrder(a.year, b.year);
    if ya == yb {
      NatToStringInjective(a.year, b.year);
    }
    StrLessConcat([ma[0]], [ma[1]], [mb[0]], [mb[1]]);
    assert ma == [ma[0]] + [ma[1]] && mb == [mb[0]] + [mb[1]];
    assert StrLess([ma[0]], [mb[0]]) <==> ma[0] < mb[0] by {
      assert [ma[0]][1..] == [] && [mb[0]][1..] == [];
    }
    assert StrLess([ma[1]], [mb[1]]) <==> ma[1] < mb[1] by {
      assert [ma[1]][1..] == [] && [mb[1]][1..] == [];
    }
  }

  /** The trend comparator: `-1`/`1` for "Unknown", `localeCompare` otherwise.
      On keys made of digits and dashes `localeCompare` agrees with the order of
      code units, which is what `StrLess` is. */
  function Compare(a: (string, nat), b: (string, nat)): int {
    if a.0 == UNKNOWN then 1
    else if b.0 == UNKNOWN then -1
    else if StrLess(a.0, b.0) then -1
    else if a.0 == b.0 then 0
    else 1
  }

  /** `a` sorts strictly before `b`. */
  predicate Precedes(a: (string, nat), b: (string, nat)) {
    Compare(a, b) < 0
  }

  lemma PrecedesTotal(a: (string, nat), b: (string, nat))
    requires a.0 != b.0
    ensures Precedes(a, b) || Precedes(b, a)
  {
    StrLessTotal(a.0, b.0);
  }

  lemma PrecedesTransitive(a: (string, nat), b: (string, nat), c: (string, nat))
    requires Precedes(a, b) && Precedes(b, c)
    ensures Precedes(a, c)
  {
    if c.0 != UNKNOWN {
      StrLessTransitive(a.0, b.0, c.0);
    }
  }

  lemma PrecedesAsymmetric(a: (string, nat), b: (string, nat))
    requires Precedes(a, b)
    ensures !Precedes(b, a)
  {
    if Precedes(b, a) {
      StrLessTransitive(a.0, b.0, a.0);
      StrLessIrreflexive(a.0);
    }
  }

  /** Strictly ascending under the comparator. */
  ghost predicate TrendSorted(s: seq<(string, nat)>) {
    forall i, j :: 0 <= i < j < |s| ==> Precedes(s[i], s[j])
  }

  /** Insertion of one entry into an ordered list. */
  function Insert(x: (string, nat), s: seq<(string, nat)>): (r: seq<(string, nat)>)
    ensures multiset(r) == multiset(s) + multiset{x}
    ensures |r| == |s| + 1
  {
    if s == [] || Compare(x, s[0]) <= 0 then [x] + s
    else
      assert s == [s[0]] + s[1..];
      [s[0]] + Insert(x, s[1..])
  }

  /** `.sort(compare)` on the entries of the month dictionary. */
  function SortTrend(es: seq<(string, nat)>): (r: seq<(string, nat)>)
    ensures multiset(r) == multiset(es)
    ensures |r| == |es|
  {
    if es == [] then []
    else
      assert es == [es[0]] + es[1..];
      Insert(es[0], SortTrend(es[1..]))
  }

  /** An entry placed before a sorted list it precedes, with a key of its own,
      gives a sorted list with distinct keys. */
  lemma ConsSorted(a: (string, nat), s: seq<(string, nat)>)
    requires TrendSorted(s) && DistinctKeys(s)
    requires forall j :: 0 <= j < |s| ==> Precedes(a, s[j]) && a.0 != s[j].0
    ensures TrendSorted([a] + s) && DistinctKeys([a] + s)
    ensures KeySet([a] + s) == KeySet(s) + {a.0}
  {
    var r := [a] + s;
    forall i, j | 0 <= i < j < |r| ensures Precedes(r[i], r[j]) && r[i].0 != r[j].0 {
      assert r[j] == s[j - 1];
      if i > 0 { assert r[i] == s[i - 1]; }
    }
    KeySetCons(a, s);
  }

  lemma {:induction false} InsertCorrect(x: (string, nat), s: seq<(string, nat)>)
    requires TrendSorted(s) && DistinctKeys(s) && x.0 !in KeySet(s)
    ensures TrendSorted(Insert(x, s)) && DistinctKeys(Insert(x, s))
    ensures KeySet(Insert(x, s)) == KeySet(s) + {x.0}
  {
    if s == [] || Compare(x, s[0]) <= 0 {
      forall j | 0 <= j < |s| ensures Precedes(x, s[j]) && x.0 != s[j].0 {
        assert s[j].0 in KeySet(s);
        assert Precedes(x, s[0]) by {
          assert s[0].0 in KeySet(s);
          PrecedesTotal(x, s[0]);
          if Precedes(s[0], x) { PrecedesAsymmetric(s[0], x); }
        }
        if j > 0 { PrecedesTransitive(x, s[0], s[j]); }
      }
      ConsSorted(x, s);
    } else {
      var t := s[1..];
      assert s == [s[0]] + t;
      KeySetTail(s);
      DistinctTail(s);
      InsertCorrect(x, t);
      var it := Insert(x, t);
      assert Precedes(s[0], x) by {
        assert s[0].0 in KeySet(s);
        PrecedesTotal(x, s[0]);
      }
      forall j | 0 <= j < |it| ensures Precedes(s[0], it[j]) && s[0].0 != it[j].0 {
        assert it[j] in multiset(it);
        assert it[j] in multiset(t) + multiset{x};
        if it[j] != x {
          assert it[j] in t;
          var k :| 0 <= k < |t| && t[k] == it[j];
          assert s[k + 1] == it[j];
        }
      }
      ConsSorted(s[0], it);
      assert Insert(x, s) == [s[0]] + it;
    }
  }

  /** Sorting distinct keys orders them strictly and keeps every key. */
  lemma {:induction false} SortTrendCorrect(es: seq<(string, nat)>)
    requires DistinctKeys(es)
    ensures TrendSorted(SortTrend(es)) && DistinctKeys(SortTrend(es))
    ensures KeySet(SortTrend(es)) == KeySet(es)
  {
    if es != [] {
      KeySetTail(es);
      DistinctTail(es);
      SortTrendCorrect(es[1..]);
      InsertCorrect(es[0], SortTrend(es[1..]));
    }
  }

  /** Two strictly ordered lists with the same elements are the same list. */
  lemma {:induction false} SortedUnique(a: seq<(string, nat)>, b: seq<(string, nat)>)
    requires TrendSorted(a) && TrendSorted(b) && multiset(a) == multiset(b)
    ensures a == b
    decreases |a|
  {
    if a != [] {
      assert a[0] in multiset(b);
      assert b != [];
      assert b[0] in multiset(a);
      if a[0] != b[0] {
        var i :| 0 <= i < |a| && a[i] == b[0];
        var j :| 0 <= j < |b| && b[j] == a[0];
        assert i > 0 && j > 0;
        assert Precedes(a[0], b[0]) && Precedes(b[0], a[0]);
        PrecedesAsymmetric(a[0], b[0]);
      }
      assert a[0] == b[0];
      assert a == [a[0]] + a[1..] && b == [b[0]] + b[1..];
      assert multiset(a) == multiset([a[0]]) + multiset(a[1..]);
      assert multiset(b) == multiset([b[0]]) + multiset(b[1..]);
      forall x ensures multiset(a[1..])[x] == multiset(b[1..])[x] {
        assert multiset(a)[x] == multiset([a[0]])[x] + multiset(a[1..])[x];
      }
      assert multiset(a[1..]) == multiset(b[1..]);
      SortedUnique(a[1..], b[1..]);
    }
  }

  /** A list of distinct keys holds each element once. */
  lemma {:induction false} DistinctMultiplicity(es: seq<(string, nat)>, x: (string, nat))
    requires DistinctKeys(es)
    ensures multiset(es)[x] == (if x in es then 1 else 0)
  {
    if es != [] {
      assert es == [es[0]] + es[1..];
      DistinctTail(es);
      DistinctMultiplicity(es[1..], x);
      if x == es[0] {
        assert x !in es[1..] by {
          forall k | 0 <= k < |es[1..]| ensures es[1..][k] != x {
            assert es[1..][k] == es[k + 1];
          }
        }
      }
    }
  }

  /** Two listings of one dictionary hold the same entries. */
  lemma EnumerationsAgree(a: seq<(string, nat)>, b: seq<(string, nat)>, m: map<string, nat>)
    requires EnumeratesMap(a, m) && EnumeratesMap(b, m)
    ensures multiset(a) == multiset(b)
  {
    forall x ensures multiset(a)[x] == multiset(b)[x] {
      DistinctMultiplicity(a, x);
      DistinctMultiplicity(b, x);
      if x in a {
        var i :| 0 <= i < |a| && a[i] == x;
        assert x.0 in KeySet(b) by { assert x.0 in KeySet(a); }
        var j :| 0 <= j < |b| && b[j].0 == x.0;
        assert b[j] == x;
      }
      if x in b {
        var j :| 0 <= j < |b| && b[j] == x;
        assert x.0 in KeySet(a) by { assert x.0 in KeySet(b); }
        var i :| 0 <= i < |a| && a[i].0 == x.0;
        assert a[i] == x;
      }
    }
  }

  /** The sorted trend does not depend on the order in which `Object.entries`
      lists the month dictionary. */
  lemma SortTrendDeterministic(a: seq<(string, nat)>, b: seq<(string, nat)>, m: map<string, nat>)
    requires EnumeratesMap(a, m) && EnumeratesMap(b, m)
    ensures SortTrend(a) == SortTrend(b)
  {
    EnumerationsAgree(a, b, m);
    SortTrendCorrect(a);
    SortTrendCorrect(b);
    SortedUnique(SortTrend(a), SortTrend(b));
  }

  /** Sorting a listing of a dictionary gives another listing of it. */
  lemma SortTrendEnumerates(es: seq<(string, nat)>, m: map<string, nat>)
    requires EnumeratesMap(es, m)
    ensures EnumeratesMap(SortTrend(es), m) && TrendSorted(SortTrend(es))
  {
    SortTrendCorrect(es);
    var r := SortTrend(es);
    forall i | 0 <= i < |r| ensures r[i].1 == m[r[i].0] {
      assert r[i] in multiset(es);
      var k :| 0 <= k < |es| && es[k] == r[i];
    }
  }

  /** In a sorted trend "Unknown", when present, is the last entry, and every
      other key comes in strictly ascending string order. */
  lemma SortedTrendShape(s: seq<(string, nat)>)
    requires TrendSorted(s)
    ensures forall i :: 0 <= i < |s| - 1 ==> s[i].0 != UNKNOWN
    ensures forall i, j :: 0 <= i < j < |s| && s[j].0 != UNKNOWN ==> StrLess(s[i].0, s[j].0)
  {
    forall i | 0 <= i < |s| - 1 ensures s[i].0 != UNKNOWN {
      assert Precedes(s[i], s[i + 1]);
    }
  }

  /** A point of the chart: the month label and its count. */
  datatype TrendPoint = TrendPoint(month: string, count: nat)

  /** `.map(item => ({ month: ..., count: item.count }))` with `monthLabelFromKey`
      given as `monthLabel` (it formats through the locale data of the runtime). */
  function Labelled(s: seq<(string, nat)>, monthLabel: string -> string): (r: seq<TrendPoint>)
    ensures |r| == |s|
    ensures forall i :: 0 <= i < |s| ==> r[i].count == s[i].1
    ensures forall i :: 0 <= i < |s| ==> r[i].month == (if s[i].0 == UNKNOWN then UNKNOWN else monthLabel(s[i].0))
  {
    seq(|s|, i requires 0 <= i < |s| => TrendPoint(if s[i].0 == UNKNOWN then UNKNOWN else monthLabel(s[i].0), s[i].1))
  }
}
