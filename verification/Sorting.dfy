/** Python's `sorted`, for any total order: the result is the only ascending arrangement of the same
    elements, so it does not depend on the order they arrived in. */
module Sorting {

  ghost predicate TotalOrder<T(!new)>(le: (T, T) -> bool) {
    && (forall a, b :: le(a, b) || le(b, a))
    && (forall a, b :: le(a, b) && le(b, a) ==> a == b)
    && (forall a, b, c :: le(a, b) && le(b, c) ==> le(a, c))
  }

  ghost predicate Ascending<T>(le: (T, T) -> bool, s: seq<T>) {
    forall i, j :: 0 <= i < j < |s| ==> le(s[i], s[j])
  }

  function Insert<T>(le: (T, T) -> bool, x: T, s: seq<T>): (r: seq<T>)
    ensures multiset(r) == multiset(s) + multiset{x}
    ensures |r| == |s| + 1
  {
    if s == [] then [x]
    else if le(x, s[0]) then [x] + s
    else
      assert s == [s[0]] + s[1..];
      [s[0]] + Insert(le, x, s[1..])
  }

  function Sort<T>(le: (T, T) -> bool, s: seq<T>): (r: seq<T>)
    ensures multiset(r) == multiset(s)
    ensures |r| == |s|
  {
    if s == [] then []
    else
      assert s == [s[0]] + s[1..];
      Insert(le, s[0], Sort(le, s[1..]))
  }

  lemma {:induction false} InsertAscending<T(!new)>(le: (T, T) -> bool, x: T, s: seq<T>)
    requires TotalOrder(le) && Ascending(le, s)
    ensures Ascending(le, Insert(le, x, s))
  {
    if s == [] || le(x, s[0]) {
    } else {
      InsertAscending(le, x, s[1..]);
      var rest := Insert(le, x, s[1..]);
      forall y | y in rest ensures le(s[0], y) {
        assert y in multiset(rest);
        assert y in multiset(s[1..]) || y == x;
      }
    }
  }

  lemma {:induction false} SortAscending<T(!new)>(le: (T, T) -> bool, s: seq<T>)
    requires TotalOrder(le)
    ensures Ascending(le, Sort(le, s))
  {
    if s != [] {
      SortAscending(le, s[1..]);
      InsertAscending(le, s[0], Sort(le, s[1..]));
    }
  }

  lemma HeadAndTail<T>(s: seq<T>)
    requires s != []
    ensures multiset(s[1..]) == multiset(s) - multiset{s[0]} && s[0] in multiset(s)
  {
    assert s == [s[0]] + s[1..];
  }

  lemma LeastFirst<T(!new)>(le: (T, T) -> bool, s: seq<T>, x: T)
    requires TotalOrder(le) && Ascending(le, s) && x in multiset(s)
    ensures s != [] && le(s[0], x)
  {
    var i :| 0 <= i < |s| && s[i] == x;
  }

  /** Two ascending arrangements of the same elements are the same list. */
  lemma {:induction false} AscendingUnique<T(!new)>(le: (T, T) -> bool, a: seq<T>, b: seq<T>)
    requires TotalOrder(le) && Ascending(le, a) && Ascending(le, b)
    requires multiset(a) == multiset(b)
    ensures a == b
    decreases |a|
  {
    if a == [] {
      assert |multiset(b)| == 0;
    } else {
      HeadAndTail(a);
      LeastFirst(le, b, a[0]);
      HeadAndTail(b);
      LeastFirst(le, a, b[0]);
      assert a[0] == b[0];
      assert multiset(a[1..]) == multiset(b[1..]);
      AscendingUnique(le, a[1..], b[1..]);
      assert a == [a[0]] + a[1..] && b == [b[0]] + b[1..];
    }
  }

  /** Sorting forgets the order of its input, and nothing else. */
  lemma SortCanonical<T(!new)>(le: (T, T) -> bool, a: seq<T>, b: seq<T>)
    requires TotalOrder(le)
    ensures Sort(le, a) == Sort(le, b) <==> multiset(a) == multiset(b)
  {
    SortAscending(le, a);
    SortAscending(le, b);
    if multiset(a) == multiset(b) {
      AscendingUnique(le, Sort(le, a), Sort(le, b));
    }
  }

  lemma SortMembers<T>(le: (T, T) -> bool, s: seq<T>)
    ensures forall x :: x in Sort(le, s) <==> x in s
  {
    forall x ensures x in Sort(le, s) <==> x in s {
      assert x in Sort(le, s) <==> x in multiset(Sort(le, s));
      assert x in s <==> x in multiset(s);
    }
  }

  // ---- a list mapped, in whatever order

  function Map<A, B>(f: A -> B, s: seq<A>): (r: seq<B>)
    ensures |r| == |s| && forall i | 0 <= i < |s| :: r[i] == f(s[i])
  {
    if s == [] then [] else [f(s[0])] + Map(f, s[1..])
  }

  lemma {:induction false} MapConcat<A, B>(f: A -> B, a: seq<A>, b: seq<A>)
    ensures Map(f, a + b) == Map(f, a) + Map(f, b)
  {
    if a == [] {
      assert a + b == b;
    } else {
      assert (a + b)[1..] == a[1..] + b;
      MapConcat(f, a[1..], b);
    }
  }

  /** One element taken out of the middle. */
  lemma Middle<T>(p: seq<T>, x: T, q: seq<T>)
    ensures multiset(p + [x] + q) == multiset(p + q) + multiset{x}
  {
  }

  lemma AddedAndTaken<T>(m: multiset<T>, x: T)
    ensures (m + multiset{x}) - multiset{x} == m && (x in m ==> (m - multiset{x}) + multiset{x} == m)
  {
  }

  lemma MapTaken<A, B>(f: A -> B, p: seq<A>, x: A, q: seq<A>)
    ensures multiset(Map(f, p + [x] + q)) == multiset(Map(f, p + q)) + multiset{f(x)}
  {
    MapConcat(f, p + [x], q);
    MapConcat(f, p, [x]);
    MapConcat(f, p, q);
    assert Map(f, [x]) == [f(x)];
    Middle(Map(f, p), f(x), Map(f, q));
  }

  lemma Split<T>(s: seq<T>, x: T) returns (p: seq<T>, q: seq<T>)
    requires x in multiset(s)
    ensures s == p + [x] + q
  {
    var i :| 0 <= i < |s| && s[i] == x;
    p, q := s[..i], s[i + 1..];
  }

  /** One element the same in both, whatever the order of the others. */
  lemma MapAround<A, B>(f: A -> B, a: seq<A>, p: seq<A>, q: seq<A>)
    requires a != [] && multiset(Map(f, a[1..])) == multiset(Map(f, p + q))
    ensures multiset(Map(f, a)) == multiset(Map(f, p + [a[0]] + q))
  {
    MapTaken(f, p, a[0], q);
    HeadAndTail(Map(f, a));
    AddedAndTaken(multiset(Map(f, p + q)), f(a[0]));
  }

  lemma TailPermuted<T>(a: seq<T>, p: seq<T>, q: seq<T>)
    requires a != [] && multiset(a) == multiset(p + [a[0]] + q)
    ensures multiset(a[1..]) == multiset(p + q)
  {
    HeadAndTail(a);
    Middle(p, a[0], q);
    AddedAndTaken(multiset(p + q), a[0]);
  }

  /** Mapping does not see the order. */
  lemma {:induction false} MapPermuted<A, B>(f: A -> B, a: seq<A>, b: seq<A>)
    requires multiset(a) == multiset(b)
    ensures multiset(Map(f, a)) == multiset(Map(f, b))
    decreases |a|
  {
    if a == [] {
      assert |multiset(b)| == 0;
    } else {
      HeadAndTail(a);
      var p, q := Split(b, a[0]);
      TailPermuted(a, p, q);
      MapPermuted(f, a[1..], p + q);
      MapAround(f, a, p, q);
    }
  }

  /** Strings by code point, as Python compares them. */
  predicate StringLe(a: string, b: string) {
    if a == "" then true
    else if b == "" then false
    else if a[0] == b[0] then StringLe(a[1..], b[1..])
    else a[0] < b[0]
  }

  lemma {:induction false} StringLeAntisymmetric(a: string, b: string)
    requires StringLe(a, b) && StringLe(b, a)
    ensures a == b
  {
    if a != "" && b != "" {
      StringLeAntisymmetric(a[1..], b[1..]);
      assert a == [a[0]] + a[1..] && b == [b[0]] + b[1..];
    }
  }

  lemma {:induction false} StringLeTransitive(a: string, b: string, c: string)
    requires StringLe(a, b) && StringLe(b, c)
    ensures StringLe(a, c)
  {
    if a != "" && b != "" && c != "" && a[0] == b[0] == c[0] {
      StringLeTransitive(a[1..], b[1..], c[1..]);
    }
  }

  lemma {:induction false} StringLeConnex(a: string, b: string)
    ensures StringLe(a, b) || StringLe(b, a)
  {
    if a != "" && b != "" && a[0] == b[0] {
      StringLeConnex(a[1..], b[1..]);
    }
  }

  lemma StringLeTotal()
    ensures TotalOrder(StringLe)
  {
    forall a: string, b: string ensures StringLe(a, b) || StringLe(b, a) { StringLeConnex(a, b); }
    forall a: string, b: string | StringLe(a, b) && StringLe(b, a) ensures a == b { StringLeAntisymmetric(a, b); }
    forall a: string, b: string, c: string | StringLe(a, b) && StringLe(b, c) ensures StringLe(a, c) { StringLeTransitive(a, b, c); }
  }

  /** Pairs of strings, first by the first: how a list of [setting_id, value] lists is sorted. */
  predicate PairLe(a: (string, string), b: (string, string)) {
    if a.0 == b.0 then StringLe(a.1, b.1) else StringLe(a.0, b.0)
  }

  lemma PairLeTotal()
    ensures TotalOrder(PairLe)
  {
    StringLeTotal();
  }
}
