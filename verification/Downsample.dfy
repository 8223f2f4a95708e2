/** The statistics behind one time bucket: order statistics and means of a bag
    of samples, and the accumulator that collects the bag row by row. */
module Downsample {
  import opened Wrappers

  /** A stored price point; every column is nullable. */
  datatype Point = Point(
    minPrice: Option<int>, medianPrice: Option<int>, listings: Option<int>, qty: Option<int>)

  /** A point with the number of raw captures behind it (1 for a raw row). */
  datatype Row = Row(point: Point, samples: nat)

  /** What a bucket holds, with the order of arrival forgotten. */
  datatype Bag = Bag(
    mins: multiset<int>, meds: multiset<int>, counts: multiset<int>, qtys: multiset<int>, samples: nat)

  const EMPTY_BAG := Bag(multiset{}, multiset{}, multiset{}, multiset{}, 0)

  // ---------------------------------------------------------------- sorting

  predicate IsSorted(s: seq<int>) {
    |s| < 2 || (s[0] <= s[1] && IsSorted(s[1..]))
  }

  function Insert(x: int, s: seq<int>): (r: seq<int>)
    requires IsSorted(s)
    ensures IsSorted(r) && r != []
    ensures r[0] == if s == [] || x <= s[0] then x else s[0]
  {
    if s == [] || x <= s[0] then
      assert ([x] + s)[1..] == s;
      [x] + s
    else
      var rest := Insert(x, s[1..]);
      assert ([s[0]] + rest)[1..] == rest;
      [s[0]] + rest
  }

  lemma {:induction false} InsertBag(x: int, s: seq<int>)
    requires IsSorted(s)
    ensures multiset(Insert(x, s)) == multiset(s) + multiset{x}
  {
    if s != [] && x > s[0] {
      InsertBag(x, s[1..]);
      HeadAndTail(s);
    }
  }

  lemma HeadAndTail(s: seq<int>)
    requires s != []
    ensures multiset(s) == multiset{s[0]} + multiset(s[1..])
  {
    assert s == [s[0]] + s[1..];
  }

  function Sort(s: seq<int>): (r: seq<int>)
    ensures IsSorted(r)
  {
    if s == [] then [] else Insert(s[0], Sort(s[1..]))
  }

  lemma {:induction false} SortBag(s: seq<int>)
    ensures multiset(Sort(s)) == multiset(s)
  {
    if s != [] {
      SortBag(s[1..]);
      InsertBag(s[0], Sort(s[1..]));
      HeadAndTail(s);
    }
  }

  lemma NoneOrMember(m: multiset<int>)
    ensures m == multiset{} || exists x :: x in m
  {
    if forall x :: x !in m {
      assert m == multiset{};
    }
  }

  /** The one sorted arrangement of a bag. */
  ghost function Sorted(m: multiset<int>): (r: seq<int>)
    ensures IsSorted(r)
    ensures multiset(r) == m
    decreases |m|
  {
    if m == multiset{} then []
    else
      NoneOrMember(m);
      var x :| x in m;
      var rest := Sorted(m - multiset{x});
      InsertBag(x, rest);
      Insert(x, rest)
  }

  lemma {:induction false} HeadIsLeast(s: seq<int>, y: int)
    requires IsSorted(s) && y in multiset(s)
    ensures s != [] && s[0] <= y
  {
    assert y in s;
    if y != s[0] {
      HeadAndTail(s);
      assert y in multiset(s[1..]);
      HeadIsLeast(s[1..], y);
    }
  }

  lemma SameTails(a: multiset<int>, b: multiset<int>, x: int)
    requires multiset{x} + a == multiset{x} + b
    ensures a == b
  {
    forall y ensures a[y] == b[y] {
      assert (multiset{x} + a)[y] == (multiset{x} + b)[y];
    }
  }

  lemma {:induction false} SortedUnique(a: seq<int>, b: seq<int>)
    requires IsSorted(a) && IsSorted(b) && multiset(a) == multiset(b)
    ensures a == b
  {
    assert |a| == |multiset(a)| == |multiset(b)| == |b|;
    if a != [] {
      HeadAndTail(a);
      HeadAndTail(b);
      HeadIsLeast(a, b[0]);
      HeadIsLeast(b, a[0]);
      SameTails(multiset(a[1..]), multiset(b[1..]), a[0]);
      SortedUnique(a[1..], b[1..]);
      assert a == [a[0]] + a[1..] && b == [b[0]] + b[1..];
    }
  }

  // ------------------------------------------------------------- statistics

  function Sum(s: seq<int>): int {
    if s == [] then 0 else s[0] + Sum(s[1..])
  }

  lemma {:induction false} SumInsert(x: int, s: seq<int>)
    requires IsSorted(s)
    ensures Sum(Insert(x, s)) == x + Sum(s)
  {
    if s != [] && x > s[0] {
      SumInsert(x, s[1..]);
    }
  }

  lemma {:induction false} SumSort(s: seq<int>)
    ensures Sum(Sort(s)) == Sum(s)
  {
    if s != [] {
      SumSort(s[1..]);
      SumInsert(s[0], Sort(s[1..]));
    }
  }

  function Least(s: seq<int>): int
    requires s != []
  {
    if |s| == 1 then s[0]
    else
      var rest := Least(s[1..]);
      if s[0] <= rest then s[0] else rest
  }

  /** Middle of a sorted list; the two middle values of an even list are averaged
      and floored. */
  function Median(sorted: seq<int>): Option<int> {
    var n := |sorted|;
    if n == 0 then None
    else if n % 2 == 1 then Some(sorted[n / 2])
    else Some((sorted[n / 2 - 1] + sorted[n / 2]) / 2)
  }

  /** Nearest integer to n / d, ties to the even neighbour. */
  function RoundHalfEven(n: int, d: int): (q: int)
    requires d > 0
    ensures -d <= 2 * (q * d - n) <= d
    ensures 2 * (q * d - n) == d || 2 * (q * d - n) == -d ==> q % 2 == 0
  {
    var q, r := n / d, n % d;
    assert n == q * d + r;
    assert (q + 1) * d == q * d + d;
    if 2 * r < d then q
    else if 2 * r > d then q + 1
    else if q % 2 == 0 then q else q + 1
  }

  function Mean(values: seq<int>): Option<int> {
    if values == [] then None else Some(RoundHalfEven(Sum(values), |values|))
  }

  // ------------------------------------------------------------ bag algebra

  function Single(v: Option<int>): multiset<int> {
    match v case None => multiset{} case Some(x) => multiset{x}
  }

  function One(r: Row): Bag {
    Bag(Single(r.point.minPrice), Single(r.point.medianPrice), Single(r.point.listings),
        Single(r.point.qty), r.samples)
  }

  function Join(a: Bag, b: Bag): Bag {
    Bag(a.mins + b.mins, a.meds + b.meds, a.counts + b.counts, a.qtys + b.qtys, a.samples + b.samples)
  }

  /** The columns of a list of rows. */
  ghost function BagOf(rows: seq<Row>): Bag {
    if rows == [] then EMPTY_BAG else Join(BagOf(rows[..|rows| - 1]), One(rows[|rows| - 1]))
  }

  lemma JoinEmpty(a: Bag)
    ensures Join(a, EMPTY_BAG) == a
  {
  }

  lemma JoinAssociates(a: Bag, b: Bag, c: Bag)
    ensures Join(Join(a, b), c) == Join(a, Join(b, c))
  {
  }

  lemma JoinMiddle(a: Bag, b: Bag, c: Bag)
    ensures Join(Join(a, b), c) == Join(Join(a, c), b)
  {
  }

  lemma {:induction false} BagOfConcat(a: seq<Row>, b: seq<Row>)
    ensures BagOf(a + b) == Join(BagOf(a), BagOf(b))
  {
    if b == [] {
      assert a + b == a;
      JoinEmpty(BagOf(a));
    } else {
      var init, last := b[..|b| - 1], b[|b| - 1];
      assert (a + b)[..|a + b| - 1] == a + init;
      BagOfConcat(a, init);
      JoinAssociates(BagOf(a), BagOf(init), One(last));
    }
  }

  lemma BagOfOne(r: Row)
    ensures BagOf([r]) == One(r)
  {
    assert [r][..0] == [];
    assert BagOf([r]) == Join(EMPTY_BAG, One(r));
  }

  lemma BagOfAppend(rows: seq<Row>, r: Row)
    ensures BagOf(rows + [r]) == Join(BagOf(rows), One(r))
  {
    assert (rows + [r])[..|rows + [r]| - 1] == rows;
  }

  /** The columns do not depend on the order of the rows. */
  lemma {:induction false} BagOfPermutation(a: seq<Row>, b: seq<Row>)
    requires multiset(a) == multiset(b)
    ensures BagOf(a) == BagOf(b)
  {
    assert |a| == |multiset(a)| == |multiset(b)| == |b|;
    if a != [] {
      var init, last := a[..|a| - 1], a[|a| - 1];
      assert a == init + [last];
      assert last in multiset(b);
      var i :| 0 <= i < |b| && b[i] == last;
      var c := b[..i] + b[i + 1..];
      assert b == b[..i] + [last] + b[i + 1..];
      assert multiset(b) == multiset(c) + multiset{last};
      SameRest(multiset(init), multiset(c), last);
      BagOfPermutation(init, c);
      BagOfMoveLast(b[..i], last, b[i + 1..]);
    }
  }

  lemma SameRest(a: multiset<Row>, b: multiset<Row>, x: Row)
    requires a + multiset{x} == b + multiset{x}
    ensures a == b
  {
    forall y ensures a[y] == b[y] {
      assert (a + multiset{x})[y] == (b + multiset{x})[y];
    }
  }

  lemma BagOfMoveLast(a: seq<Row>, r: Row, c: seq<Row>)
    ensures BagOf(a + [r] + c) == Join(BagOf(a + c), One(r))
  {
    BagOfConcat(a + [r], c);
    BagOfConcat(a, [r]);
    BagOfOne(r);
    BagOfConcat(a, c);
    JoinMiddle(BagOf(a), One(r), BagOf(c));
  }

  predicate IsLeast(x: int, m: multiset<int>) {
    x in m && forall y :: y in m ==> x <= y
  }

  lemma SortedStartsWithLeast(m: multiset<int>)
    ensures m == multiset{} <==> Sorted(m) == []
    ensures m != multiset{} ==> IsLeast(Sorted(m)[0], m)
  {
    var s := Sorted(m);
    assert |s| == |multiset(s)| == |m|;
    if s != [] {
      HeadAndTail(s);
      forall x | x in m ensures s[0] <= x { HeadIsLeast(s, x); }
    }
  }

  /** The least element of a bag, if it has one. */
  ghost function MinOf(m: multiset<int>): (r: Option<int>)
    ensures r.None? <==> m == multiset{}
    ensures r.Some? ==> IsLeast(r.value, m)
  {
    SortedStartsWithLeast(m);
    if m == multiset{} then None
    else
      var x :| IsLeast(x, m);
      Some(x)
  }

  lemma MinOfIs(m: multiset<int>, x: int)
    requires IsLeast(x, m)
    ensures MinOf(m) == Some(x)
  {
  }

  /** The row a bucket folds to, as a function of the bag alone: true minimum,
      median of the sample medians, rounded unweighted means, summed samples. */
  ghost function FoldBag(b: Bag): Row {
    Row(Point(MinOf(b.mins), Median(Sorted(b.meds)), Mean(Sorted(b.counts)), Mean(Sorted(b.qtys))), b.samples)
  }

  /** The row a list of rows folds to. */
  ghost function FoldRows(rows: seq<Row>): Row {
    FoldBag(BagOf(rows))
  }

  /** Whatever order the rows of a bucket arrive in, it folds to the same row. */
  lemma FoldRowsPermutation(a: seq<Row>, b: seq<Row>)
    requires multiset(a) == multiset(b)
    ensures FoldRows(a) == FoldRows(b)
  {
    BagOfPermutation(a, b);
  }

  lemma StatisticsIgnoreOrder(s: seq<int>)
    ensures Sort(s) == Sorted(multiset(s))
    ensures Mean(s) == Mean(Sorted(multiset(s)))
    ensures MinOf(multiset(s)) == if s == [] then None else Some(Least(s))
  {
    SortBag(s);
    SortedUnique(Sort(s), Sorted(multiset(s)));
    SumSort(s);
    assert |s| == |multiset(s)| == |multiset(Sort(s))| == |Sort(s)|;
    SortedStartsWithLeast(multiset(s));
    if s != [] {
      LeastIsHead(s);
      MinOfIs(multiset(s), Least(s));
    }
  }

  lemma {:induction false} LeastIsHead(s: seq<int>)
    requires s != []
    ensures Sort(s) != [] && Sort(s)[0] == Least(s)
  {
    if |s| > 1 {
      LeastIsHead(s[1..]);
    }
  }

  // ------------------------------------------------- what the statistics mean

  /** How many values are smaller, and how many are larger. */
  function Below(s: seq<int>, x: int): nat {
    if s == [] then 0 else Below(s[1..], x) + if s[0] < x then 1 else 0
  }

  function Above(s: seq<int>, x: int): nat {
    if s == [] then 0 else Above(s[1..], x) + if s[0] > x then 1 else 0
  }

  /** The value would stand at place `k` if the values were put in order. */
  predicate HasRank(s: seq<int>, x: int, k: int) {
    x in s && Below(s, x) <= k && Above(s, x) <= |s| - 1 - k
  }

  /** The middle value, or the floored half-sum of the two middle values. */
  ghost predicate IsMedian(v: Option<int>, s: seq<int>) {
    if s == [] then v == None
    else if |s| % 2 == 1 then v.Some? && HasRank(s, v.value, |s| / 2)
    else
      && v.Some?
      && exists a, b :: a in s && b in s && HasRank(s, a, |s| / 2 - 1) && HasRank(s, b, |s| / 2)
                        && 2 * v.value <= a + b <= 2 * v.value + 1
  }

  /** The integer nearest the mean, the even one of two that are equally near. */
  predicate IsMean(v: Option<int>, s: seq<int>) {
    if s == [] then v == None
    else
      && v.Some?
      && -|s| <= 2 * (v.value * |s| - Sum(s)) <= |s|
      && (2 * (v.value * |s| - Sum(s)) == |s| || 2 * (v.value * |s| - Sum(s)) == -|s| ==> v.value % 2 == 0)
  }

  predicate IsMinimum(v: Option<int>, s: seq<int>) {
    if s == [] then v == None else v.Some? && v.value in s && forall x :: x in s ==> v.value <= x
  }

  /** A sum over a list, and over the parts of a list. */
  lemma {:induction false} SumLaws(x: int, a: seq<int>, b: seq<int>)
    ensures Sum([]) == 0 && Sum([x]) == x && Sum(a + b) == Sum(a) + Sum(b)
  {
    assert [x][1..] == [];
    if a == [] {
      assert a + b == b;
    } else {
      assert (a + b)[1..] == a[1..] + b;
      SumLaws(x, a[1..], b);
    }
  }

  lemma {:induction false} RanksOfBag(s: seq<int>, t: seq<int>, x: int)
    requires multiset(s) == multiset(t)
    ensures Below(s, x) == Below(t, x) && Above(s, x) == Above(t, x)
  {
    assert |s| == |multiset(s)| == |multiset(t)| == |t|;
    if s != [] {
      assert s[0] in multiset(t);
      var i :| 0 <= i < |t| && t[i] == s[0];
      assert t == t[..i] + [s[0]] + t[i + 1..];
      RanksOfConcat(t[..i], [s[0]] + t[i + 1..], x);
      RanksOfConcat(t[..i], t[i + 1..], x);
      HeadAndTail(s);
      assert t[..i] + ([s[0]] + t[i + 1..]) == t;
      SameTails(multiset(s[1..]), multiset(t[..i] + t[i + 1..]), s[0]);
      RanksOfBag(s[1..], t[..i] + t[i + 1..], x);
    }
  }

  lemma {:induction false} RanksOfConcat(a: seq<int>, b: seq<int>, x: int)
    ensures Below(a + b, x) == Below(a, x) + Below(b, x)
    ensures Above(a + b, x) == Above(a, x) + Above(b, x)
  {
    if a == [] {
      assert a + b == b;
    } else {
      assert (a + b)[1..] == a[1..] + b;
      RanksOfConcat(a[1..], b, x);
    }
  }

  lemma {:induction false} NothingBeyond(s: seq<int>, x: int)
    ensures (forall y :: y in s ==> x <= y) ==> Below(s, x) == 0
    ensures (forall y :: y in s ==> y <= x) ==> Above(s, x) == 0
    ensures Below(s, x) <= |s| && Above(s, x) <= |s|
  {
    if s != [] {
      assert s[0] in s && forall y :: y in s[1..] ==> y in s;
      NothingBeyond(s[1..], x);
    }
  }

  lemma {:induction false} SortedApart(s: seq<int>, i: nat, j: nat)
    requires IsSorted(s) && i <= j < |s|
    ensures s[i] <= s[j]
  {
    if i > 0 {
      SortedApart(s[1..], i - 1, j - 1);
    } else if j > 0 {
      HeadIsLeast(s, s[j]);
    }
  }

  /** In order, each value has the rank of its place. */
  lemma SortedRank(s: seq<int>, k: nat)
    requires IsSorted(s) && k < |s|
    ensures HasRank(s, s[k], k)
  {
    assert s == s[..k] + s[k..] && s == s[..k + 1] + s[k + 1..];
    var low, high := s[..k + 1], s[k..];
    forall j | 0 <= j < |high| ensures s[k] <= high[j] {
      SortedApart(s, k, k + j);
    }
    forall j | 0 <= j < |low| ensures low[j] <= s[k] {
      SortedApart(s, j, k);
    }
    RanksOfConcat(s[..k], s[k..], s[k]);
    RanksOfConcat(s[..k + 1], s[k + 1..], s[k]);
    NothingBeyond(high, s[k]);
    NothingBeyond(low, s[k]);
    NothingBeyond(s[..k], s[k]);
    NothingBeyond(s[k + 1..], s[k]);
  }

  lemma RankOfBag(s: seq<int>, t: seq<int>, x: int, k: int)
    requires multiset(s) == multiset(t) && HasRank(t, x, k)
    ensures HasRank(s, x, k)
  {
    assert |s| == |multiset(s)| == |multiset(t)| == |t|;
    assert x in multiset(t);
    RanksOfBag(s, t, x);
  }

  /** One value for each rank: the counts leave no choice. */
  lemma {:induction false} BelowGrows(s: seq<int>, x: int, y: int)
    requires x < y
    ensures Below(s, y) + Above(s, x) >= |s|
    ensures x in s ==> Below(s, x) + 1 <= Below(s, y)
    ensures Below(s, x) <= Below(s, y)
  {
    if s != [] {
      BelowGrows(s[1..], x, y);
    }
  }

  lemma RankIsOne(s: seq<int>, x: int, y: int, k: int)
    requires HasRank(s, x, k) && HasRank(s, y, k)
    ensures x == y
  {
    if x < y {
      BelowGrows(s, x, y);
    } else if y < x {
      BelowGrows(s, y, x);
    }
  }

  /** So a list has one median. */
  lemma MedianIsOne(s: seq<int>, v: Option<int>, w: Option<int>)
    requires IsMedian(v, s) && IsMedian(w, s)
    ensures v == w
  {
    hide HasRank;
    if s != [] && |s| % 2 == 1 {
      RankIsOne(s, v.value, w.value, |s| / 2);
    } else if s != [] {
      var a, b :| a in s && b in s && HasRank(s, a, |s| / 2 - 1) && HasRank(s, b, |s| / 2)
                  && 2 * v.value <= a + b <= 2 * v.value + 1;
      var c, d :| c in s && d in s && HasRank(s, c, |s| / 2 - 1) && HasRank(s, d, |s| / 2)
                  && 2 * w.value <= c + d <= 2 * w.value + 1;
      RankIsOne(s, a, c, |s| / 2 - 1);
      RankIsOne(s, b, d, |s| / 2);
    }
  }

  lemma MedianIsMedian(s: seq<int>, sorted: seq<int>)
    requires IsSorted(sorted) && multiset(sorted) == multiset(s)
    ensures IsMedian(Median(sorted), s)
  {
    assert |s| == |multiset(s)| == |multiset(sorted)| == |sorted|;
    if s != [] {
      var k := |s| / 2;
      SortedRank(sorted, k);
      RankOfBag(s, sorted, sorted[k], k);
      if |s| % 2 == 0 {
        SortedRank(sorted, k - 1);
        RankOfBag(s, sorted, sorted[k - 1], k - 1);
        assert sorted[k] in multiset(s) && sorted[k - 1] in multiset(s);
      }
      hide HasRank;
    }
  }

  /** The values of one column, nulls left out, in the order of the rows. */
  function Column(rows: seq<Row>, of: Point -> Option<int>): seq<int> {
    if rows == [] then []
    else Column(rows[..|rows| - 1], of) + Listed(of(rows[|rows| - 1].point))
  }

  function Listed(v: Option<int>): seq<int> {
    match v case None => [] case Some(x) => [x]
  }

  lemma {:induction false} BagIsColumns(rows: seq<Row>)
    ensures BagOf(rows).mins == multiset(Column(rows, (p: Point) => p.minPrice))
    ensures BagOf(rows).meds == multiset(Column(rows, (p: Point) => p.medianPrice))
    ensures BagOf(rows).counts == multiset(Column(rows, (p: Point) => p.listings))
    ensures BagOf(rows).qtys == multiset(Column(rows, (p: Point) => p.qty))
  {
    if rows != [] {
      BagIsColumns(rows[..|rows| - 1]);
    }
  }

  lemma MeanIsMean(s: seq<int>)
    ensures IsMean(Mean(Sorted(multiset(s))), s)
  {
    StatisticsIgnoreOrder(s);
  }

  lemma MinIsMinimum(s: seq<int>)
    ensures IsMinimum(MinOf(multiset(s)), s)
  {
    assert forall x :: x in s <==> x in multiset(s);
    if s != [] {
      assert s[0] in multiset(s);
    }
  }

  /** What a list of rows folds to: of each column its own statistic, and the captures
      behind them all. */
  ghost predicate IsFold(r: Row, rows: seq<Row>) {
    && IsMinimum(r.point.minPrice, Column(rows, (p: Point) => p.minPrice))
    && IsMedian(r.point.medianPrice, Column(rows, (p: Point) => p.medianPrice))
    && IsMean(r.point.listings, Column(rows, (p: Point) => p.listings))
    && IsMean(r.point.qty, Column(rows, (p: Point) => p.qty))
    && r.samples == Samples(rows)
  }

  lemma FoldRowsIsFold(rows: seq<Row>)
    ensures IsFold(FoldRows(rows), rows)
  {
    BagTotals(rows);
    BagIsColumns(rows);
    hide Column, IsMean, IsMedian, IsMinimum, BagOf, MinOf, Median, Mean, Sorted;
    MinIsMinimum(Column(rows, (p: Point) => p.minPrice));
    MedianIsMedian(Column(rows, (p: Point) => p.medianPrice), Sorted(BagOf(rows).meds));
    MeanIsMean(Column(rows, (p: Point) => p.listings));
    MeanIsMean(Column(rows, (p: Point) => p.qty));
  }

  // ------------------------------------------------------------ accumulator

  function Append(column: seq<int>, v: Option<int>): seq<int> {
    if v.Some? then column + [v.value] else column
  }

  lemma AppendBag(column: seq<int>, v: Option<int>)
    ensures multiset(Append(column, v)) == multiset(column) + Single(v)
  {
  }

  /** One (template, time bucket) accumulator. */
  class Bucket {
    var mins: seq<int>
    var meds: seq<int>
    var counts: seq<int>
    var qtys: seq<int>
    var samples: nat
    /** The rows added so far. */
    ghost var rows: seq<Row>

    ghost predicate Valid()
      reads this
    {
      Bag(multiset(mins), multiset(meds), multiset(counts), multiset(qtys), samples) == BagOf(rows)
    }

    constructor ()
      ensures Valid() && rows == []
    {
      mins, meds, counts, qtys, samples, rows := [], [], [], [], 0, [];
    }

    /** Nulls are skipped column by column; the row always counts its samples. */
    method Add(r: Row)
      requires Valid()
      modifies this
      ensures Valid() && rows == old(rows) + [r]
    {
      AppendBag(mins, r.point.minPrice);
      AppendBag(meds, r.point.medianPrice);
      AppendBag(counts, r.point.listings);
      AppendBag(qtys, r.point.qty);
      BagOfAppend(rows, r);
      hide BagOf, Append, Single;
      mins := Append(mins, r.point.minPrice);
      meds := Append(meds, r.point.medianPrice);
      counts := Append(counts, r.point.listings);
      qtys := Append(qtys, r.point.qty);
      samples := samples + r.samples;
      rows := rows + [r];
    }

    function Fold(): (r: Row)
      reads this
      requires Valid()
      ensures r == FoldRows(rows) && IsFold(r, rows)
    {
      FoldRowsIsFold(rows);
      StatisticsIgnoreOrder(mins);
      StatisticsIgnoreOrder(meds);
      StatisticsIgnoreOrder(counts);
      StatisticsIgnoreOrder(qtys);
      Row(Point(if mins == [] then None else Some(Least(mins)), Median(Sort(meds)), Mean(counts), Mean(qtys)),
          samples)
    }
  }

  // -------------------------------------------------- laws used by the tiers

  function LesserOf(a: Option<int>, b: Option<int>): Option<int> {
    match (a, b)
    case (None, _) => b
    case (_, None) => a
    case (Some(x), Some(y)) => Some(if x <= y then x else y)
  }

  lemma MinOfUnion(a: multiset<int>, b: multiset<int>)
    ensures MinOf(a + b) == LesserOf(MinOf(a), MinOf(b))
  {
    match LesserOf(MinOf(a), MinOf(b)) {
      case None =>
        assert a + b == multiset{};
      case Some(x) =>
        forall y | y in a + b ensures x <= y {
          assert y in a || y in b;
        }
        MinOfIs(a + b, x);
    }
  }

  lemma MinOfSingle(v: Option<int>)
    ensures MinOf(Single(v)) == v
  {
    if v.Some? {
      MinOfIs(Single(v), v.value);
    }
  }

  /** Raw captures behind a list of rows. */
  function Samples(rows: seq<Row>): nat {
    if rows == [] then 0 else Samples(rows[..|rows| - 1]) + rows[|rows| - 1].samples
  }

  /** Lowest price in a list of rows. */
  function LeastPrice(rows: seq<Row>): Option<int> {
    if rows == [] then None else LesserOf(LeastPrice(rows[..|rows| - 1]), rows[|rows| - 1].point.minPrice)
  }

  lemma {:induction false} BagTotals(rows: seq<Row>)
    ensures BagOf(rows).samples == Samples(rows)
    ensures MinOf(BagOf(rows).mins) == LeastPrice(rows)
  {
    if rows != [] {
      var init, last := rows[..|rows| - 1], rows[|rows| - 1];
      BagTotals(init);
      MinOfUnion(BagOf(init).mins, Single(last.point.minPrice));
      MinOfSingle(last.point.minPrice);
    }
  }

  lemma {:induction false} TotalsConcat(a: seq<Row>, b: seq<Row>)
    ensures Samples(a + b) == Samples(a) + Samples(b)
    ensures LeastPrice(a + b) == LesserOf(LeastPrice(a), LeastPrice(b))
  {
    if b == [] {
      assert a + b == a;
    } else {
      assert (a + b)[..|a + b| - 1] == a + b[..|b| - 1];
      TotalsConcat(a, b[..|b| - 1]);
    }
  }

  /** Folding a bucket keeps its sample count and its true minimum. */
  lemma FoldRowsTotals(rows: seq<Row>)
    ensures FoldRows(rows).samples == Samples(rows)
    ensures FoldRows(rows).point.minPrice == LeastPrice(rows)
  {
    BagTotals(rows);
  }
}
