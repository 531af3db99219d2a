/** S1's pooling (sweep/recipes.py): the nearest-rank quantile and the four statistics kept of a metric's
    per-frame values. Floats are taken as the reals they stand for. */
module Recipes {
  import opened Wrappers
  import opened Sorting

  predicate RealLe(a: real, b: real) { a <= b }

  lemma RealLeTotal()
    ensures TotalOrder(RealLe)
  {
  }

  function Ceil(x: real): (n: int)
    ensures n as real >= x > n as real - 1.0
  {
    -((-x).Floor)
  }

  /** The p-quantile by nearest rank: `ceil(p * n) - 1` into the ascending list. */
  function NearestRank(values: seq<real>, p: real): Result<real> {
    if values == [] || !(0.0 < p <= 1.0) then Refused
    else
      var ordered := Sort(RealLe, values);
      RankInside(p, |ordered|);
      Ok(ordered[Rank(p, |ordered|)])
  }

  function Rank(p: real, n: nat): int {
    var i := Ceil(p * n as real) - 1;
    if i > 0 then i else 0
  }

  lemma RankInside(p: real, n: nat)
    requires 0.0 < p <= 1.0 && n > 0
    ensures 0 <= Rank(p, n) < n
    ensures Rank(p, n) as real < p * n as real <= (Rank(p, n) + 1) as real
  {
    assert 0.0 < p * n as real <= n as real;
  }

  // ---- the true quantile

  function CountLe(s: seq<real>, v: real): nat { if s == [] then 0 else (if s[0] <= v then 1 else 0) + CountLe(s[1..], v) }

  function CountLt(s: seq<real>, v: real): nat { if s == [] then 0 else (if s[0] < v then 1 else 0) + CountLt(s[1..], v) }

  function Sum(s: seq<real>): real { if s == [] then 0.0 else s[0] + Sum(s[1..]) }

  lemma {:induction false} InsertKeeps(x: real, s: seq<real>, v: real)
    ensures CountLe(Insert(RealLe, x, s), v) == CountLe([x], v) + CountLe(s, v)
    ensures CountLt(Insert(RealLe, x, s), v) == CountLt([x], v) + CountLt(s, v)
    ensures Sum(Insert(RealLe, x, s)) == x + Sum(s)
  {
    if s != [] && x > s[0] {
      InsertKeeps(x, s[1..], v);
      assert Insert(RealLe, x, s)[1..] == Insert(RealLe, x, s[1..]);
    } else {
      assert Insert(RealLe, x, s) == [x] + s && ([x] + s)[1..] == s;
    }
  }

  /** Counts and sums do not see the order. */
  lemma {:induction false} SortKeeps(s: seq<real>, v: real)
    ensures CountLe(Sort(RealLe, s), v) == CountLe(s, v)
    ensures CountLt(Sort(RealLe, s), v) == CountLt(s, v)
    ensures Sum(Sort(RealLe, s)) == Sum(s)
  {
    if s != [] {
      SortKeeps(s[1..], v);
      InsertKeeps(s[0], Sort(RealLe, s[1..]), v);
    }
  }

  /** In an ascending list, the element at `i` has at least `i + 1` elements up to it and at most `i` below it. */
  lemma {:induction false} RankCounts(s: seq<real>, i: nat)
    requires Ascending(RealLe, s) && i < |s|
    ensures CountLe(s, s[i]) >= i + 1 && CountLt(s, s[i]) <= i
  {
    if i == 0 {
      assert RealLe(s[0], s[0]);
      forall j | 0 <= j < |s| ensures s[0] <= s[j] { if j > 0 { assert RealLe(s[0], s[j]); } }
      NoneBelow(s, s[0]);
    } else {
      var t := s[1..];
      assert RealLe(s[0], s[i]) && t[i - 1] == s[i];
      forall a, b | 0 <= a < b < |t| ensures RealLe(t[a], t[b]) { assert RealLe(s[a + 1], s[b + 1]); }
      RankCounts(t, i - 1);
    }
  }

  lemma {:induction false} NoneBelow(s: seq<real>, v: real)
    requires forall j | 0 <= j < |s| :: v <= s[j]
    ensures CountLt(s, v) == 0
  {
    if s != [] { NoneBelow(s[1..], v); }
  }

  /** Everything up to `u` is below `v`. */
  lemma {:induction false} CountsNest(s: seq<real>, u: real, v: real)
    requires u < v
    ensures CountLe(s, u) <= CountLt(s, v)
  {
    if s != [] { CountsNest(s[1..], u, v); }
  }

  /** At least p of the values lie at or below `v`, and fewer than p below it. */
  predicate IsQuantile(values: seq<real>, p: real, v: real) {
    && v in values
    && CountLe(values, v) as real >= p * |values| as real
    && (CountLt(values, v) as real) < p * |values| as real
  }

  /** Nearest rank answers the one value of the list that is the p-quantile. */
  lemma NearestRankIsTheQuantile(values: seq<real>, p: real, v: real)
    requires values != [] && 0.0 < p <= 1.0
    ensures NearestRank(values, p).Ok?
    ensures IsQuantile(values, p, v) <==> v == NearestRank(values, p).value
  {
    var r := NearestRank(values, p).value;
    NearestRankCounts(values, p);
    if IsQuantile(values, p, v) { OnlyOne(values, p * |values| as real, r, v); }
  }

  lemma NearestRankCounts(values: seq<real>, p: real)
    requires values != [] && 0.0 < p <= 1.0
    ensures NearestRank(values, p).Ok? && IsQuantile(values, p, NearestRank(values, p).value)
  {
    RankInside(p, |values|);
    RankMeets(values, Rank(p, |values|), p * |values| as real);
  }

  lemma RankMeets(values: seq<real>, i: nat, quota: real)
    requires i < |values| && (i as real) < quota <= (i + 1) as real
    ensures var v := Sort(RealLe, values)[i];
            v in values && CountLe(values, v) as real >= quota > CountLt(values, v) as real
  {
    var ordered := Sort(RealLe, values);
    RealLeTotal();
    SortAscending(RealLe, values);
    SortMembers(RealLe, values);
    assert ordered[i] in ordered;
    RankCounts(ordered, i);
    SortKeeps(values, ordered[i]);
  }

  /** At most one value has so many at or below it and fewer below. */
  lemma OnlyOne(values: seq<real>, quota: real, u: real, v: real)
    requires CountLe(values, u) as real >= quota > CountLt(values, u) as real
    requires CountLe(values, v) as real >= quota > CountLt(values, v) as real
    ensures u == v
  {
    if v < u { CountsNest(values, v, u); }
    if u < v { CountsNest(values, u, v); }
  }

  // ---- the four statistics

  datatype Pooled = Pooled(mean: real, p5: real, min: real, max: real)

  function Pool(values: seq<real>): Result<Pooled> {
    if values == [] then Refused
    else
      var ordered := Sort(RealLe, values);
      var p5 :- NearestRank(ordered, 0.05);
      Ok(Pooled(Sum(ordered) / |ordered| as real, p5, ordered[0], ordered[|ordered| - 1]))
  }

  /** The order of the frames does not matter. */
  lemma PoolForgetsOrder(a: seq<real>, b: seq<real>)
    requires multiset(a) == multiset(b)
    ensures Pool(a) == Pool(b)
  {
    RealLeTotal();
    SortCanonical(RealLe, a, b);
    assert |a| == |multiset(a)| && |b| == |multiset(b)|;
  }

  lemma OneMore(x: real, n: nat)
    ensures x * (n + 1) as real == x * n as real + x
  {
    assert (n + 1) as real == n as real + 1.0;
  }

  /** A value added up so many times. */
  function Times(x: real, n: nat): real { if n == 0 then 0.0 else Times(x, n - 1) + x }

  lemma {:induction false} TimesIs(x: real, n: nat)
    ensures Times(x, n) == x * n as real
  {
    if n > 0 {
      TimesIs(x, n - 1);
      OneMore(x, n - 1);
    }
  }

  lemma {:induction false} SumBetween(s: seq<real>, lo: real, hi: real)
    requires forall x | x in s :: lo <= x <= hi
    ensures Times(lo, |s|) <= Sum(s) <= Times(hi, |s|)
  {
    if s != [] {
      assert s[0] in s && forall x | x in s[1..] :: x in s;
      SumBetween(s[1..], lo, hi);
    }
  }

  lemma SumBounds(s: seq<real>, lo: real, hi: real)
    requires forall x | x in s :: lo <= x <= hi
    ensures lo * |s| as real <= Sum(s) <= hi * |s| as real
  {
    SumBetween(s, lo, hi);
    TimesIs(lo, |s|);
    TimesIs(hi, |s|);
  }

  lemma NotPositive(x: real, n: real)
    requires n > 0.0 && x * n <= 0.0
    ensures x <= 0.0
  {
  }

  lemma Quotient(sum: real, n: real, lo: real, hi: real)
    requires n > 0.0 && lo * n <= sum <= hi * n
    ensures lo <= sum / n <= hi && sum / n * n == sum
  {
    var q := sum / n;
    assert q * n == sum;
    assert (lo - q) * n == lo * n - q * n && (q - hi) * n == q * n - hi * n;
    NotPositive(lo - q, n);
    NotPositive(q - hi, n);
  }

  /** The ends of an ascending list are its least and greatest elements. */
  lemma Ends(ordered: seq<real>)
    requires ordered != [] && Ascending(RealLe, ordered)
    ensures forall x | x in ordered :: ordered[0] <= x <= ordered[|ordered| - 1]
  {
    forall x | x in ordered ensures ordered[0] <= x <= ordered[|ordered| - 1] {
      var i :| 0 <= i < |ordered| && ordered[i] == x;
      if i > 0 { assert RealLe(ordered[0], ordered[i]); }
      if i < |ordered| - 1 { assert RealLe(ordered[i], ordered[|ordered| - 1]); }
    }
  }

  lemma Sorted(values: seq<real>)
    ensures var ordered := Sort(RealLe, values);
            && Ascending(RealLe, ordered) && (forall x :: x in ordered <==> x in values)
            && Sum(ordered) == Sum(values) && |ordered| == |values|
            && (forall p :: NearestRank(ordered, p) == NearestRank(values, p))
  {
    var ordered := Sort(RealLe, values);
    RealLeTotal();
    SortAscending(RealLe, values);
    SortMembers(RealLe, values);
    SortKeeps(values, 0.0);
    SortCanonical(RealLe, ordered, values);
  }

  /** The mean as a value of its own. */
  function Mean(values: seq<real>): real
    requires values != []
  {
    Sum(values) / |values| as real
  }

  lemma PoolIs(values: seq<real>)
    requires values != []
    ensures var ordered := Sort(RealLe, values);
            && NearestRank(values, 0.05).Ok?
            && Pool(values) == Ok(Pooled(Mean(values), NearestRank(values, 0.05).value, ordered[0], ordered[|ordered| - 1]))
  {
    Sorted(values);
  }

  lemma MeanIs(values: seq<real>, lo: real, hi: real)
    requires values != [] && forall x | x in values :: lo <= x <= hi
    ensures Mean(values) * |values| as real == Sum(values) && lo <= Mean(values) <= hi
  {
    SumBounds(values, lo, hi);
    Quotient(Sum(values), |values| as real, lo, hi);
  }

  lemma ExtremesAre(values: seq<real>)
    requires values != []
    ensures var ordered := Sort(RealLe, values);
            && ordered[0] in values && ordered[|ordered| - 1] in values
            && forall x | x in values :: ordered[0] <= x <= ordered[|ordered| - 1]
  {
    var ordered := Sort(RealLe, values);
    Sorted(values);
    Ends(ordered);
    assert ordered[0] in ordered && ordered[|ordered| - 1] in ordered;
  }

  /** Nothing is pooled of no values, no quantile taken of none or for a p outside (0, 1]; anything else is answered. */
  lemma RefusedExactly(values: seq<real>, p: real)
    ensures NearestRank(values, p).Refused? <==> values == [] || p <= 0.0 || p > 1.0
    ensures Pool(values).Refused? <==> values == []
  {
    if values != [] { PoolIs(values); }
  }

  /** The statistics are what their names say: the mean of the values, their 5 % quantile, and the least and the
      greatest of them, with the other two in between. */
  lemma PooledMeans(values: seq<real>)
    requires values != []
    ensures Pool(values).Ok?
    ensures var s := Pool(values).value;
            && s.mean == Mean(values)
            && IsQuantile(values, 0.05, s.p5)
            && s.min in values && s.max in values && (forall x | x in values :: s.min <= x <= s.max)
            && s.min <= s.p5 <= s.max && s.min <= s.mean <= s.max
  {
    PoolIs(values);
    ExtremesAre(values);
    MeanIs(values, Pool(values).value.min, Pool(values).value.max);
    NearestRankIsTheQuantile(values, 0.05, NearestRank(values, 0.05).value);
  }
}
