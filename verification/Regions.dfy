/** The doc-region rewriter and its staleness check (sweep/model_check.py): each marked region of a text is
    replaced by its rendered body. */
module Regions {
  import opened Wrappers

  type Marker = m: string | m != "" witness "-"

  /** A region's two markers and the body rendered for it. */
  datatype Region = Region(name: string, begin: Marker, end: Marker, body: string)

  /** The markers as the document carries them. */
  function Marked(name: string, body: string): Region {
    Region(name, "<!-- BEGIN GENERATED: " + name + " -->", "<!-- END GENERATED: " + name + " -->", body)
  }

  predicate Occurs(text: string, m: string, p: int) { 0 <= p && p + |m| <= |text| && text[p..p + |m|] == m }

  /** `str.find` from a position. */
  function Find(text: string, m: string, from: nat): (p: Option<nat>)
    ensures p.Some? ==> p.value >= from && Occurs(text, m, p.value)
    ensures forall q | from <= q && Occurs(text, m, q) :: p.Some? && p.value <= q
    decreases |text| - from
  {
    if from + |m| > |text| then None
    else if Occurs(text, m, from) then Some(from)
    else Find(text, m, from + 1)
  }

  /** `str.count`: the occurrences met left to right, none overlapping the one before. */
  function Count(text: string, m: string, from: nat): nat
    requires m != ""
    decreases |text| - from
  {
    var p := Find(text, m, from);
    if p.None? then 0 else 1 + Count(text, m, p.value + |m|)
  }

  /** `str.strip("\n")`. */
  function StripLeft(s: string): string { if s != "" && s[0] == '\n' then StripLeft(s[1..]) else s }

  function StripRight(s: string): string { if s != "" && s[|s| - 1] == '\n' then StripRight(s[..|s| - 1]) else s }

  function Strip(s: string): string { StripRight(StripLeft(s)) }

  /** A Python slice whose end may lie before its start. */
  function Slice(text: string, i: nat, j: nat): string
    requires i <= |text| && j <= |text|
  {
    if i <= j then text[i..j] else ""
  }

  function Splice(text: string, i: nat, j: nat, body: string): string
    requires i <= |text| && j <= |text|
  {
    text[..i] + ("\n" + body + "\n") + text[j..]
  }

  datatype Applied = Applied(text: string, missing: seq<string>, stale: seq<string>)

  /** One region: missing unless both markers are there once; stale if what stands between them is not its body. */
  function Step(a: Applied, r: Region): Applied {
    var b, e := r.begin, r.end;
    if Count(a.text, b, 0) != 1 || Count(a.text, e, 0) != 1 then a.(missing := a.missing + [r.name])
    else
      var i, j := Find(a.text, b, 0).value + |b|, Find(a.text, e, 0).value;
      Applied(Splice(a.text, i, j, r.body), a.missing, a.stale + if Strip(Slice(a.text, i, j)) != r.body then [r.name] else [])
  }

  function AppliedUpto(text: string, regions: seq<Region>): Applied {
    if regions == [] then Applied(text, [], []) else Step(AppliedUpto(text, regions[..|regions| - 1]), regions[|regions| - 1])
  }

  lemma UptoNext(text: string, regions: seq<Region>, n: nat)
    requires n < |regions|
    ensures AppliedUpto(text, regions[..n + 1]) == Step(AppliedUpto(text, regions[..n]), regions[n])
  {
    assert regions[..n + 1][..n] == regions[..n];
  }

  method ApplyRegion(was: string, missed: seq<string>, staled: seq<string>, r: Region)
    returns (text: string, missing: seq<string>, stale: seq<string>)
    ensures Applied(text, missing, stale) == Step(Applied(was, missed, staled), r)
  {
    text, missing, stale := was, missed, staled;
    var b, e := r.begin, r.end;
    if Count(text, b, 0) != 1 || Count(text, e, 0) != 1 {
      missing := missing + [r.name];
      return;
    }
    var i, j := Find(text, b, 0).value + |b|, Find(text, e, 0).value;
    var current := Strip(Slice(text, i, j));
    if current != r.body { stale := stale + [r.name]; }
    text := Splice(text, i, j, r.body);
  }

  method ApplyRegions(original: string, regions: seq<Region>) returns (text: string, missing: seq<string>, stale: seq<string>)
    ensures Applied(text, missing, stale) == AppliedUpto(original, regions)
  {
    text, missing, stale := original, [], [];
    var n := 0;
    while n < |regions|
      invariant 0 <= n <= |regions| && Applied(text, missing, stale) == AppliedUpto(original, regions[..n])
    {
      UptoNext(original, regions, n);
      text, missing, stale := ApplyRegion(text, missing, stale, regions[n]);
      n := n + 1;
    }
    assert regions[..n] == regions;
  }

  // ---- a marker that stands once

  ghost predicate Unique(text: string, m: string, p: nat) { Occurs(text, m, p) && forall q | Occurs(text, m, q) :: q == p }

  lemma UniqueFound(text: string, m: string, p: nat)
    requires m != "" && Unique(text, m, p)
    ensures Find(text, m, 0) == Some(p) && Count(text, m, 0) == 1
  {
    assert Find(text, m, p + |m|).None?;
  }

  /** It stands there first, and not again from its end on. */
  ghost predicate CountedOnce(text: string, m: string, p: nat) {
    Occurs(text, m, p) && (forall q | Occurs(text, m, q) :: p <= q < p + |m|)
  }

  /** Counted once means: there is a first occurrence, and none that does not overlap it. */
  lemma CountOneExactly(text: string, m: string)
    requires m != ""
    ensures Count(text, m, 0) == 1 <==> exists p: nat :: CountedOnce(text, m, p)
    ensures forall p: nat | CountedOnce(text, m, p) :: Find(text, m, 0) == Some(p)
  {
    var first := Find(text, m, 0);
    if first.Some? {
      var p := first.value;
      assert Count(text, m, 0) == 1 + Count(text, m, p + |m|);
      if Count(text, m, p + |m|) == 0 { assert CountedOnce(text, m, p); }
    }
    if p: nat :| CountedOnce(text, m, p) {
      assert first == Some(p);
      assert Find(text, m, p + |m|).None?;
    }
  }

  /** No occurrence of the marker in a body that is to go between two newlines. */
  ghost predicate Free(body: string, m: string) { forall q :: !Occurs(body, m, q) }

  predicate OneLine(m: string) { m != "" && '\n' !in m }

  /** An occurrence in the spliced text lies before the spliced body, inside it, or after it: it cannot hold the
      newlines around it. */
  lemma SplicedOccurrence(text: string, i: nat, j: nat, body: string, m: string, q: int)
    requires i <= |text| && j <= |text| && OneLine(m) && Free(body, m) && Occurs(Splice(text, i, j, body), m, q)
    ensures var shift := i + |body| + 2 - j;
            (q + |m| <= i && Occurs(text, m, q)) || (q - shift >= j && Occurs(text, m, q - shift))
  {
    var spliced, k := Splice(text, i, j, body), i + 1 + |body|;
    assert spliced[i] == '\n' && spliced[k] == '\n';
    assert forall t | 0 <= t < |m| :: spliced[q + t] == m[t];
    assert !(q <= i < q + |m|) && !(q <= k < q + |m|);
    if q + |m| <= i {
      assert spliced[q..q + |m|] == text[q..q + |m|];
    } else if q > k {
      assert spliced[q..q + |m|] == text[q - (i + |body| + 2 - j)..q - (i + |body| + 2 - j) + |m|];
    } else {
      InBody(text, i, j, body, m, q);
      assert false;
    }
  }

  lemma InBody(text: string, i: nat, j: nat, body: string, m: string, q: int)
    requires i <= |text| && j <= |text| && Occurs(Splice(text, i, j, body), m, q) && i < q && q + |m| <= i + 1 + |body|
    ensures Occurs(body, m, q - i - 1)
  {
    var spliced := Splice(text, i, j, body);
    assert spliced[q..q + |m|] == body[q - i - 1..q - i - 1 + |m|];
  }

  /** Text outside the spliced part is still there, moved if it came after. */
  lemma SliceStays(text: string, i: nat, j: nat, body: string, from: nat, to: nat)
    requires i <= j <= |text| && from <= to <= |text| && (to <= i || from >= j)
    ensures var next, shift := Splice(text, i, j, body), if to <= i then 0 else i + |body| + 2 - j;
            0 <= from + shift <= to + shift <= |next| && next[from + shift..to + shift] == text[from..to]
  {
    var next, mid := Splice(text, i, j, body), "\n" + body + "\n";
    if to <= i {
      assert next[from..to] == text[..i][from..to];
    } else {
      assert next == (text[..i] + mid) + text[j..];
      AfterPrefix(text[..i] + mid, text[j..], from - j, to - j);
      assert |text[..i] + mid| == i + |body| + 2 && text[j..][from - j..to - j] == text[from..to];
    }
  }

  lemma AfterPrefix(p: string, t: string, x: nat, y: nat)
    requires x <= y <= |t|
    ensures (p + t)[|p| + x..|p| + y] == t[x..y]
  {
  }

  /** A marker outside the spliced part stands once as before, moved with what follows the part. */
  lemma StaysUnique(text: string, i: nat, j: nat, body: string, m: string, p: nat)
    requires i <= j <= |text| && OneLine(m) && Free(body, m) && Unique(text, m, p) && (p + |m| <= i || p >= j)
    ensures Unique(Splice(text, i, j, body), m, if p + |m| <= i then p else p + (i + |body| + 2 - j))
  {
    var spliced, shift := Splice(text, i, j, body), i + |body| + 2 - j;
    var at := if p + |m| <= i then p else p + shift;
    SliceStays(text, i, j, body, p, p + |m|);
    forall q | Occurs(spliced, m, q) ensures q == at { SplicedOccurrence(text, i, j, body, m, q); }
  }

  // ---- a text whose regions are in place

  /** The region's markers stand once each, the end after the beginning. */
  ghost predicate Placed(text: string, r: Region, at: (nat, nat)) {
    Unique(text, r.begin, at.0) && Unique(text, r.end, at.1) && at.0 + |r.begin| <= at.1
  }

  function Start(r: Region, at: (nat, nat)): nat { at.0 + |r.begin| }

  predicate Before(r: Region, a: (nat, nat), b: (nat, nat)) { a.1 + |r.end| <= b.0 }

  predicate Apart(regions: seq<Region>, at: seq<(nat, nat)>, k: nat, l: nat)
    requires |at| == |regions| && k < |at| && l < |at|
  {
    Before(regions[k], at[k], at[l]) || Before(regions[l], at[l], at[k])
  }

  /** All of them, none inside another, in whatever order. */
  ghost predicate AllPlaced(text: string, regions: seq<Region>, at: seq<(nat, nat)>) {
    && |at| == |regions|
    && (forall k | 0 <= k < |regions| :: Placed(text, regions[k], at[k]))
    && (forall k, l | 0 <= k < l < |regions| :: Apart(regions, at, k, l))
  }

  /** Markers of one line; bodies that hold no marker of any region. */
  ghost predicate Renderable(regions: seq<Region>) {
    && (forall r | r in regions :: OneLine(r.begin) && OneLine(r.end))
    && (forall r, s | r in regions && s in regions :: Free(r.body, s.begin) && Free(r.body, s.end))
  }

  /** A body with no newline at either end. */
  predicate Trimmed(body: string) { body == "" || (body[0] != '\n' && body[|body| - 1] != '\n') }

  /** What stands between the markers is the body between two newlines. */
  predicate Fresh(text: string, r: Region, at: (nat, nat)) {
    Start(r, at) <= at.1 <= |text| && text[Start(r, at)..at.1] == "\n" + r.body + "\n"
  }

  function Shift(r: Region, at: (nat, nat)): int { Start(r, at) + |r.body| + 2 - at.1 }

  function Moved(r: Region, at: (nat, nat), other: (nat, nat)): (m: (nat, nat))
    requires Start(r, at) <= at.1 && other.0 <= other.1
  {
    if other.0 >= at.1 then (other.0 + Shift(r, at), other.1 + Shift(r, at)) else other
  }

  /** The document's markers are one line each as long as the name is. */
  lemma MarkersOneLine(name: string, body: string)
    ensures OneLine(Marked(name, body).begin) <==> '\n' !in name
    ensures OneLine(Marked(name, body).end) <==> '\n' !in name
  {
    var r := Marked(name, body);
    assert forall c | c in name :: c in r.begin && c in r.end;
  }

  lemma StepPlaced(a: Applied, r: Region, at: (nat, nat))
    requires Placed(a.text, r, at)
    ensures Step(a, r) == Applied(Splice(a.text, Start(r, at), at.1, r.body), a.missing,
                                  a.stale + if Strip(a.text[Start(r, at)..at.1]) != r.body then [r.name] else [])
  {
    UniqueFound(a.text, r.begin, at.0);
    UniqueFound(a.text, r.end, at.1);
  }

  lemma OtherPlaced(text: string, r: Region, at: (nat, nat), other: Region, there: (nat, nat))
    requires Placed(text, r, at) && Placed(text, other, there)
    requires Before(r, at, there) || Before(other, there, at)
    requires OneLine(other.begin) && OneLine(other.end) && Free(r.body, other.begin) && Free(r.body, other.end)
    ensures Placed(Splice(text, Start(r, at), at.1, r.body), other, Moved(r, at, there))
  {
    StaysUnique(text, Start(r, at), at.1, r.body, other.begin, there.0);
    StaysUnique(text, Start(r, at), at.1, r.body, other.end, there.1);
  }

  lemma ThisStays(text: string, r: Region, at: (nat, nat))
    requires Placed(text, r, at) && Renderable([r])
    ensures var next, to := Splice(text, Start(r, at), at.1, r.body), (at.0, at.1 + Shift(r, at));
            Placed(next, r, to) && Fresh(next, r, to)
  {
    assert r in [r];
    StaysUnique(text, Start(r, at), at.1, r.body, r.begin, at.0);
    StaysUnique(text, Start(r, at), at.1, r.body, r.end, at.1);
  }

  // ---- one pass

  function Content(text: string, r: Region, at: (nat, nat)): string
    requires Start(r, at) <= at.1 <= |text|
  {
    text[Start(r, at)..at.1]
  }

  function MovedAll(r: Region, at: seq<(nat, nat)>, n: nat): (to: seq<(nat, nat)>)
    requires n < |at| && Start(r, at[n]) <= at[n].1 && forall k | 0 <= k < |at| :: at[k].0 <= at[k].1
    ensures |to| == |at|
  {
    seq(|at|, k requires 0 <= k < |at| => if k == n then (at[n].0, at[n].1 + Shift(r, at[n])) else Moved(r, at[n], at[k]))
  }

  /** Two regions apart from each other and from the rewritten one stay apart. */
  lemma StillApart(r: Region, at: (nat, nat), a: Region, x: (nat, nat), b: Region, y: (nat, nat))
    requires Start(r, at) <= at.1 && Start(a, x) <= x.1 && Start(b, y) <= y.1 && Before(a, x, y)
    requires (Before(r, at, x) || Before(a, x, at)) && (Before(r, at, y) || Before(b, y, at))
    ensures Before(a, Moved(r, at, x), Moved(r, at, y))
  {
  }

  lemma StillApartFromIt(r: Region, at: (nat, nat), b: Region, y: (nat, nat))
    requires Start(r, at) <= at.1 && Start(b, y) <= y.1
    ensures Before(r, at, y) ==> Before(r, (at.0, at.1 + Shift(r, at)), Moved(r, at, y))
    ensures Before(b, y, at) ==> Before(b, Moved(r, at, y), (at.0, at.1 + Shift(r, at)))
  {
  }

  lemma PairStaysApart(regions: seq<Region>, at: seq<(nat, nat)>, n: nat, k: nat, l: nat)
    requires |at| == |regions| && n < |at| && k < |at| && l < |at| && k != l
    requires forall i | 0 <= i < |at| :: at[i].0 + |regions[i].begin| <= at[i].1
    requires Apart(regions, at, k, l) && (k != n ==> Apart(regions, at, n, k)) && (l != n ==> Apart(regions, at, n, l))
    ensures Apart(regions, MovedAll(regions[n], at, n), k, l)
  {
    var r := regions[n];
    if k == n {
      StillApartFromIt(r, at[n], regions[l], at[l]);
    } else if l == n {
      StillApartFromIt(r, at[n], regions[k], at[k]);
    } else if Before(regions[k], at[k], at[l]) {
      StillApart(r, at[n], regions[k], at[k], regions[l], at[l]);
    } else {
      StillApart(r, at[n], regions[l], at[l], regions[k], at[k]);
    }
  }

  lemma ContentStays(text: string, r: Region, at: (nat, nat), other: Region, there: (nat, nat))
    requires Start(r, at) <= at.1 <= |text| && Start(other, there) <= there.1 <= |text|
    requires Before(r, at, there) || Before(other, there, at)
    ensures var next, to := Splice(text, Start(r, at), at.1, r.body), Moved(r, at, there);
            Start(other, to) <= to.1 <= |next| && Content(next, other, to) == Content(text, other, there)
  {
    SliceStays(text, Start(r, at), at.1, r.body, Start(other, there), there.1);
  }

  lemma OneStaysPlaced(text: string, regions: seq<Region>, at: seq<(nat, nat)>, n: nat, k: nat)
    requires AllPlaced(text, regions, at) && Renderable(regions) && n < |regions| && k < |regions|
    ensures var r := regions[n];
            var next, to := Splice(text, Start(r, at[n]), at[n].1, r.body), MovedAll(r, at, n);
            && Placed(next, regions[k], to[k])
            && (k == n ==> Fresh(next, r, to[k]))
            && (k != n ==> Content(next, regions[k], to[k]) == Content(text, regions[k], at[k]))
  {
    var r := regions[n];
    assert r in regions && regions[k] in regions;
    if k == n {
      assert Renderable([r]);
      ThisStays(text, r, at[n]);
    } else {
      assert Apart(regions, at, if k < n then k else n, if k < n then n else k);
      OtherPlaced(text, r, at[n], regions[k], at[k]);
      ContentStays(text, r, at[n], regions[k], at[k]);
    }
  }

  /** Rewriting one region leaves every region in place, this one fresh and every other as it was. */
  lemma AllStayPlaced(text: string, regions: seq<Region>, at: seq<(nat, nat)>, n: nat)
    requires AllPlaced(text, regions, at) && Renderable(regions) && n < |regions|
    ensures var r := regions[n];
            var next, to := Splice(text, Start(r, at[n]), at[n].1, r.body), MovedAll(r, at, n);
            && AllPlaced(next, regions, to) && Fresh(next, r, to[n])
            && forall k | 0 <= k < |regions| && k != n :: Content(next, regions[k], to[k]) == Content(text, regions[k], at[k])
  {
    var r := regions[n];
    var next, to := Splice(text, Start(r, at[n]), at[n].1, r.body), MovedAll(r, at, n);
    forall k | 0 <= k < |regions|
      ensures Placed(next, regions[k], to[k])
      ensures k == n ==> Fresh(next, r, to[k])
      ensures k != n ==> Content(next, regions[k], to[k]) == Content(text, regions[k], at[k])
    {
      OneStaysPlaced(text, regions, at, n, k);
    }
    forall k, l | 0 <= k < l < |regions| ensures Apart(regions, to, k, l) { AllApart(text, regions, at, n, k, l); }
  }

  lemma AllApart(text: string, regions: seq<Region>, at: seq<(nat, nat)>, n: nat, k: nat, l: nat)
    requires AllPlaced(text, regions, at) && n < |regions| && k < l < |regions|
    ensures Apart(regions, MovedAll(regions[n], at, n), k, l)
  {
    assert Apart(regions, at, k, l);
    assert k < n ==> Apart(regions, at, k, n);
    assert n < k ==> Apart(regions, at, n, k);
    assert l < n ==> Apart(regions, at, l, n);
    assert n < l ==> Apart(regions, at, n, l);
    PairStaysApart(regions, at, n, k, l);
  }

  /** The first `n` regions fresh, the rest as they were, all of them in place. */
  ghost predicate PassedUpto(text: string, regions: seq<Region>, at: seq<(nat, nat)>, now: string, to: seq<(nat, nat)>, n: nat)
    requires AllPlaced(text, regions, at) && n <= |regions|
  {
    && AllPlaced(now, regions, to)
    && (forall k | 0 <= k < n :: Fresh(now, regions[k], to[k]))
    && (forall k | n <= k < |regions| :: Content(now, regions[k], to[k]) == Content(text, regions[k], at[k]))
  }

  lemma FreshIfSame(a: string, b: string, r: Region, x: (nat, nat), y: (nat, nat))
    requires Fresh(a, r, x) && Start(r, y) <= y.1 <= |b| && Content(b, r, y) == Content(a, r, x)
    ensures Fresh(b, r, y)
  {
  }

  lemma PassStep(text: string, regions: seq<Region>, at: seq<(nat, nat)>, was: string, before: seq<(nat, nat)>, n: nat)
    requires AllPlaced(text, regions, at) && Renderable(regions) && n < |regions|
    requires PassedUpto(text, regions, at, was, before, n)
    ensures PassedUpto(text, regions, at, Splice(was, Start(regions[n], before[n]), before[n].1, regions[n].body), MovedAll(regions[n], before, n), n + 1)
  {
    AllStayPlaced(was, regions, before, n);
    var now, to := Splice(was, Start(regions[n], before[n]), before[n].1, regions[n].body), MovedAll(regions[n], before, n);
    forall k | 0 <= k < n ensures Fresh(now, regions[k], to[k]) { FreshIfSame(was, now, regions[k], before[k], to[k]); }
  }

  lemma {:induction false} PassSoFar(text: string, regions: seq<Region>, at: seq<(nat, nat)>, n: nat) returns (to: seq<(nat, nat)>)
    requires AllPlaced(text, regions, at) && Renderable(regions) && n <= |regions|
    ensures AppliedUpto(text, regions[..n]).missing == []
    ensures PassedUpto(text, regions, at, AppliedUpto(text, regions[..n]).text, to, n)
  {
    if n == 0 {
      assert AppliedUpto(text, regions[..n]) == Applied(text, [], []);
      to := at;
    } else {
      var before := PassSoFar(text, regions, at, n - 1);
      to := PassNext(text, regions, at, AppliedUpto(text, regions[..n - 1]), before, n - 1);
      UptoNext(text, regions, n - 1);
    }
  }

  lemma PassNext(text: string, regions: seq<Region>, at: seq<(nat, nat)>, a: Applied, before: seq<(nat, nat)>, n: nat) returns (to: seq<(nat, nat)>)
    requires AllPlaced(text, regions, at) && Renderable(regions) && n < |regions| && PassedUpto(text, regions, at, a.text, before, n)
    ensures Step(a, regions[n]).missing == a.missing && PassedUpto(text, regions, at, Step(a, regions[n]).text, to, n + 1)
    ensures to == MovedAll(regions[n], before, n)
    ensures Step(a, regions[n]).text == Splice(a.text, Start(regions[n], before[n]), before[n].1, regions[n].body)
  {
    StepPlaced(a, regions[n], before[n]);
    PassStep(text, regions, at, a.text, before, n);
    to := MovedAll(regions[n], before, n);
  }

  // ---- and the pass after it

  predicate AllNewlines(s: string) { forall i | 0 <= i < |s| :: s[i] == '\n' }

  lemma {:induction false} StripLeftIs(s: string) returns (head: string)
    ensures s == head + StripLeft(s) && AllNewlines(head) && (StripLeft(s) == "" || StripLeft(s)[0] != '\n')
  {
    if s != "" && s[0] == '\n' {
      var rest := StripLeftIs(s[1..]);
      head := "\n" + rest;
      assert s == "\n" + s[1..];
    } else {
      head := "";
    }
  }

  lemma {:induction false} StripRightIs(s: string) returns (tail: string)
    ensures s == StripRight(s) + tail && AllNewlines(tail)
    ensures StripRight(s) == "" || (StripRight(s)[|StripRight(s)| - 1] != '\n' && s != "" && StripRight(s)[0] == s[0])
  {
    if s != "" && s[|s| - 1] == '\n' {
      var rest := StripRightIs(s[..|s| - 1]);
      tail := rest + "\n";
      assert s == s[..|s| - 1] + "\n";
    } else {
      tail := "";
    }
  }

  /** What is compared: the text without the newlines at its ends, and nothing less. */
  lemma StripIs(s: string) returns (head: string, tail: string)
    ensures s == head + Strip(s) + tail && AllNewlines(head) && AllNewlines(tail) && Trimmed(Strip(s))
  {
    head := StripLeftIs(s);
    tail := StripRightIs(StripLeft(s));
    assert s == head + (Strip(s) + tail);
  }

  lemma StripBody(body: string)
    requires Trimmed(body)
    ensures Strip("\n" + body + "\n") == body
  {
    var s := "\n" + body + "\n";
    assert s[1..] == body + "\n";
    assert StripLeft(s) == StripLeft(body + "\n");
    if body == "" {
      var t := "\n";
      assert s[1..] == t && t[1..] == "";
      assert StripLeft(t) == StripLeft(t[1..]) == "";
      assert Strip(s) == StripRight("") == "";
    } else {
      var t := body + "\n";
      assert t[0] == body[0] && t[|t| - 1] == '\n' && t[..|t| - 1] == body;
      assert StripRight(t) == StripRight(body) == body;
    }
  }

  lemma SpliceSame(t: string, i: nat, j: nat, body: string)
    requires i <= j <= |t| && t[i..j] == "\n" + body + "\n"
    ensures Splice(t, i, j, body) == t
  {
    assert t == t[..i] + t[i..j] + t[j..];
  }

  lemma FreshStep(a: Applied, r: Region, at: (nat, nat))
    requires Placed(a.text, r, at) && Fresh(a.text, r, at) && Trimmed(r.body)
    ensures Step(a, r) == a
  {
    StepPlaced(a, r, at);
    StripBody(r.body);
    SpliceSame(a.text, Start(r, at), at.1, r.body);
  }

  ghost predicate AllFresh(text: string, regions: seq<Region>, at: seq<(nat, nat)>)
    requires |at| == |regions|
  {
    forall k | 0 <= k < |regions| :: Placed(text, regions[k], at[k]) && Fresh(text, regions[k], at[k]) && Trimmed(regions[k].body)
  }

  lemma {:induction false} FreshPass(text: string, regions: seq<Region>, at: seq<(nat, nat)>, n: nat)
    requires |at| == |regions| && AllFresh(text, regions, at) && n <= |regions|
    ensures AppliedUpto(text, regions[..n]) == Applied(text, [], [])
  {
    if n == 0 {
      assert AppliedUpto(text, regions[..n]) == Applied(text, [], []);
    } else {
      FreshPass(text, regions, at, n - 1);
      UptoNext(text, regions, n - 1);
      FreshAt(text, regions, at, n - 1);
    }
  }

  lemma FreshAt(text: string, regions: seq<Region>, at: seq<(nat, nat)>, n: nat)
    requires |at| == |regions| && AllFresh(text, regions, at) && n < |regions|
    ensures Step(Applied(text, [], []), regions[n]) == Applied(text, [], [])
  {
    FreshStep(Applied(text, [], []), regions[n], at[n]);
  }

  /** Render, then check: with every region in place and every body trimmed and free of markers, the first pass
      misses nothing, and a second pass over its output changes nothing and finds nothing missing or stale. */
  lemma RenderThenCheck(text: string, regions: seq<Region>, at: seq<(nat, nat)>)
    requires AllPlaced(text, regions, at) && Renderable(regions) && forall r | r in regions :: Trimmed(r.body)
    ensures AppliedUpto(text, regions).missing == []
    ensures AppliedUpto(AppliedUpto(text, regions).text, regions) == Applied(AppliedUpto(text, regions).text, [], [])
  {
    var n := |regions|;
    assert regions[..n] == regions;
    var to := PassSoFar(text, regions, at, n);
    FreshPass(AppliedUpto(text, regions).text, regions, to, n);
  }

  /** What rendering leaves: every region once, between its markers its body on lines of its own. */
  lemma RenderedRegions(text: string, regions: seq<Region>, at: seq<(nat, nat)>) returns (to: seq<(nat, nat)>)
    requires AllPlaced(text, regions, at) && Renderable(regions)
    ensures |to| == |regions| && forall k | 0 <= k < |regions| ::
              var after, r := AppliedUpto(text, regions).text, regions[k];
              && Unique(after, r.begin, to[k].0) && Unique(after, r.end, to[k].1)
              && to[k].0 + |r.begin| <= to[k].1 <= |after| && after[to[k].0 + |r.begin|..to[k].1] == "\n" + r.body + "\n"
  {
    assert regions[..|regions|] == regions;
    to := PassSoFar(text, regions, at, |regions|);
    forall k | 0 <= k < |regions| ensures Placed(AppliedUpto(text, regions).text, regions[k], to[k]) && Fresh(AppliedUpto(text, regions).text, regions[k], to[k]) {}
  }

  lemma StaleStep(text: string, regions: seq<Region>, at: seq<(nat, nat)>, a: Applied, to: seq<(nat, nat)>, n: nat)
    requires AllPlaced(text, regions, at) && n < |regions| && PassedUpto(text, regions, at, a.text, to, n)
    ensures Step(a, regions[n]).stale == [] <==> a.stale == [] && Strip(Content(text, regions[n], at[n])) == regions[n].body
  {
    StepPlaced(a, regions[n], to[n]);
  }

  /** The first `n` regions hold their bodies. */
  predicate CurrentUpto(text: string, regions: seq<Region>, at: seq<(nat, nat)>, n: nat)
    requires n <= |regions| == |at| && forall k | 0 <= k < |at| :: at[k].0 + |regions[k].begin| <= at[k].1 <= |text|
  {
    forall k | 0 <= k < n :: Strip(Content(text, regions[k], at[k])) == regions[k].body
  }

  lemma CurrentNext(text: string, regions: seq<Region>, at: seq<(nat, nat)>, n: nat)
    requires n < |regions| == |at| && forall k | 0 <= k < |at| :: at[k].0 + |regions[k].begin| <= at[k].1 <= |text|
    ensures CurrentUpto(text, regions, at, n + 1) <==>
            CurrentUpto(text, regions, at, n) && Strip(Content(text, regions[n], at[n])) == regions[n].body
  {
  }

  /** The check: nothing is stale exactly when every region holds its body, newlines at its ends aside. */
  lemma {:induction false} StaleExactly(text: string, regions: seq<Region>, at: seq<(nat, nat)>, n: nat)
    requires AllPlaced(text, regions, at) && Renderable(regions) && n <= |regions|
    ensures AppliedUpto(text, regions[..n]).stale == [] <==>
            CurrentUpto(text, regions, at, n)
  {
    if n == 0 {
      assert regions[..0] == [];
    } else {
      StaleExactly(text, regions, at, n - 1);
      var to := PassSoFar(text, regions, at, n - 1);
      UptoNext(text, regions, n - 1);
      StaleStep(text, regions, at, AppliedUpto(text, regions[..n - 1]), to, n - 1);
      CurrentNext(text, regions, at, n - 1);
    }
  }

  // ---- the text around the regions

  /** The region before a gap, or -1 for the beginning of the text; the region after it, or their number for its end. */
  datatype Gap = Gap(left: int, right: int)

  /** Nothing but text lies in the gap: every region is its left one or before that, or its right one or after that. */
  predicate IsGap(regions: seq<Region>, at: seq<(nat, nat)>, g: Gap)
    requires |at| == |regions|
  {
    && -1 <= g.left < |regions| && 0 <= g.right <= |regions|
    && (0 <= g.left && g.right < |regions| ==> Before(regions[g.left], at[g.left], at[g.right]))
    && forall k | 0 <= k < |regions| :: UpToLeft(regions, at, g, k) || FromRight(regions, at, g, k)
  }

  predicate UpToLeft(regions: seq<Region>, at: seq<(nat, nat)>, g: Gap, k: nat)
    requires |at| == |regions| && k < |at| && g.left < |at|
  {
    0 <= g.left && (k == g.left || Before(regions[k], at[k], at[g.left]))
  }

  predicate FromRight(regions: seq<Region>, at: seq<(nat, nat)>, g: Gap, k: nat)
    requires |at| == |regions| && k < |at| && 0 <= g.right
  {
    g.right < |at| && (k == g.right || Before(regions[g.right], at[g.right], at[k]))
  }

  function From(at: seq<(nat, nat)>, g: Gap): nat
    requires -1 <= g.left < |at|
  {
    if g.left == -1 then 0 else at[g.left].1
  }

  function Upto(text: string, regions: seq<Region>, at: seq<(nat, nat)>, g: Gap): nat
    requires |at| == |regions| && 0 <= g.right <= |regions|
  {
    if g.right == |regions| then |text| else Start(regions[g.right], at[g.right])
  }

  /** The text from one content to the next, markers included. */
  function Piece(text: string, regions: seq<Region>, at: seq<(nat, nat)>, g: Gap): string
    requires |at| == |regions| && IsGap(regions, at, g)
  {
    var from, upto := From(at, g), Upto(text, regions, at, g);
    if from <= upto <= |text| then text[from..upto] else ""
  }

  /** A gap lies wholly before the rewritten content, or wholly after it and moves with it. */
  lemma GapMoves(text: string, regions: seq<Region>, at: seq<(nat, nat)>, n: nat, g: Gap)
    requires AllPlaced(text, regions, at) && n < |regions| && IsGap(regions, at, g)
    ensures var r, to := regions[n], MovedAll(regions[n], at, n);
            var next, from, upto := Splice(text, Start(r, at[n]), at[n].1, r.body), From(at, g), Upto(text, regions, at, g);
            var shift := if UpToLeft(regions, at, g, n) then Shift(r, at[n]) else 0;
            && from <= upto <= |text| && (if UpToLeft(regions, at, g, n) then at[n].1 <= from else upto <= Start(r, at[n]))
            && From(to, g) == from + shift && Upto(next, regions, to, g) == upto + shift
  {
    assert Placed(text, regions[n], at[n]);
    assert 0 <= g.left ==> Placed(text, regions[g.left], at[g.left]);
    assert g.right < |regions| ==> Placed(text, regions[g.right], at[g.right]);
    assert UpToLeft(regions, at, g, n) || FromRight(regions, at, g, n);
  }

  lemma PieceStays(text: string, regions: seq<Region>, at: seq<(nat, nat)>, n: nat, g: Gap)
    requires AllPlaced(text, regions, at) && n < |regions| && IsGap(regions, at, g)
    requires IsGap(regions, MovedAll(regions[n], at, n), g)
    ensures var r := regions[n];
            Piece(Splice(text, Start(r, at[n]), at[n].1, r.body), regions, MovedAll(r, at, n), g) == Piece(text, regions, at, g)
  {
    GapMoves(text, regions, at, n, g);
    SliceStays(text, Start(regions[n], at[n]), at[n].1, regions[n].body, From(at, g), Upto(text, regions, at, g));
  }

  lemma EitherSide(text: string, regions: seq<Region>, at: seq<(nat, nat)>, k: nat, l: nat)
    requires AllPlaced(text, regions, at) && k < |regions| && l < |regions| && k != l
    ensures Before(regions[k], at[k], at[l]) || Before(regions[l], at[l], at[k])
  {
    assert Apart(regions, at, if k < l then k else l, if k < l then l else k);
  }

  lemma BeforeStays(text: string, regions: seq<Region>, at: seq<(nat, nat)>, n: nat, k: nat, l: nat)
    requires AllPlaced(text, regions, at) && n < |regions| && k < |regions| && l < |regions| && k != l
    requires Before(regions[k], at[k], at[l])
    ensures var to := MovedAll(regions[n], at, n); Before(regions[k], to[k], to[l])
  {
    var r := regions[n];
    if k != n { EitherSide(text, regions, at, n, k); }
    if l != n { EitherSide(text, regions, at, n, l); }
    if k == n {
      StillApartFromIt(r, at[n], regions[l], at[l]);
    } else if l == n {
      StillApartFromIt(r, at[n], regions[k], at[k]);
    } else {
      StillApart(r, at[n], regions[k], at[k], regions[l], at[l]);
    }
  }

  lemma GapStays(text: string, regions: seq<Region>, at: seq<(nat, nat)>, n: nat, g: Gap)
    requires AllPlaced(text, regions, at) && n < |regions| && IsGap(regions, at, g)
    ensures IsGap(regions, MovedAll(regions[n], at, n), g)
  {
    var to := MovedAll(regions[n], at, n);
    if 0 <= g.left && g.right < |regions| { BeforeStays(text, regions, at, n, g.left, g.right); }
    forall k | 0 <= k < |regions| ensures UpToLeft(regions, to, g, k) || FromRight(regions, to, g, k) {
      if UpToLeft(regions, at, g, k) {
        if k != g.left { BeforeStays(text, regions, at, n, k, g.left); }
      } else if k != g.right {
        BeforeStays(text, regions, at, n, g.right, k);
      }
    }
  }

  /** Rendering changes no text outside the regions, in whatever order they are listed: every gap is as it was. */
  lemma {:induction false} OutsideUnchanged(text: string, regions: seq<Region>, at: seq<(nat, nat)>, n: nat) returns (to: seq<(nat, nat)>)
    requires AllPlaced(text, regions, at) && Renderable(regions) && n <= |regions|
    ensures PassedUpto(text, regions, at, AppliedUpto(text, regions[..n]).text, to, n)
    ensures forall g | IsGap(regions, at, g) ::
              IsGap(regions, to, g) && Piece(AppliedUpto(text, regions[..n]).text, regions, to, g) == Piece(text, regions, at, g)
  {
    if n == 0 {
      assert AppliedUpto(text, regions[..n]) == Applied(text, [], []);
      to := at;
    } else {
      var before := OutsideUnchanged(text, regions, at, n - 1);
      var a := AppliedUpto(text, regions[..n - 1]);
      to := PassNext(text, regions, at, a, before, n - 1);
      UptoNext(text, regions, n - 1);
      forall g | IsGap(regions, at, g)
        ensures IsGap(regions, to, g) && Piece(AppliedUpto(text, regions[..n]).text, regions, to, g) == Piece(text, regions, at, g)
      {
        GapStays(a.text, regions, before, n - 1, g);
        PieceStays(a.text, regions, before, n - 1, g);
      }
    }
  }

  /** The gaps are all the rest: after every region, and at the beginning, there is one. */
  lemma GapAfter(text: string, regions: seq<Region>, at: seq<(nat, nat)>, left: int) returns (g: Gap)
    requires AllPlaced(text, regions, at) && -1 <= left < |regions|
    ensures g.left == left && IsGap(regions, at, g)
  {
    g := GapAmong(text, regions, at, left, |regions|);
    forall k | 0 <= k < |regions| ensures UpToLeft(regions, at, g, k) || FromRight(regions, at, g, k) {
      if 0 <= left != k { EitherSide(text, regions, at, left, k); }
    }
  }

  predicate After(regions: seq<Region>, at: seq<(nat, nat)>, left: int, k: nat)
    requires |at| == |regions| && -1 <= left < |at| && k < |at|
  {
    left == -1 || (k != left && Before(regions[left], at[left], at[k]))
  }

  /** The first after the left one among the first `n`. */
  lemma {:induction false} GapAmong(text: string, regions: seq<Region>, at: seq<(nat, nat)>, left: int, n: nat) returns (g: Gap)
    requires AllPlaced(text, regions, at) && -1 <= left < |regions| && n <= |regions|
    ensures g.left == left && 0 <= g.right <= |regions| && (g.right < |regions| ==> g.right < n && After(regions, at, left, g.right))
    ensures forall k | 0 <= k < n && After(regions, at, left, k) :: FromRight(regions, at, g, k)
  {
    if n == 0 { return Gap(left, |regions|); }
    g := GapAmong(text, regions, at, left, n - 1);
    var was, k := g, n - 1;
    if After(regions, at, left, k) {
      if g.right == |regions| { return Gap(left, k); }
      EitherSide(text, regions, at, g.right, k);
      if Before(regions[k], at[k], at[g.right]) {
        g := Gap(left, k);
        forall i | 0 <= i < n && After(regions, at, left, i) ensures FromRight(regions, at, g, i) {
          if i < k {
            assert Placed(text, regions[was.right], at[was.right]);
            assert FromRight(regions, at, was, i);
          }
        }
      }
    }
  }

  // ---- markers out of order

  /** The end marker neither begins before the begin marker nor ends inside it. */
  predicate EndsAfter(r: Region, b: nat, e: nat) { b < e && b + |r.begin| < e + |r.end| }

  /** When a region with both its markers there once is rewritten to something the check accepts: exactly when its
      end marker comes after its begin marker. Otherwise the region is not refused, what lies between is doubled, a
      marker with it, and the next pass finds it missing. */
  lemma CleanExactlyInOrder(text: string, r: Region, b: nat, e: nat)
    requires Unique(text, r.begin, b) && Unique(text, r.end, e) && Renderable([r]) && Trimmed(r.body)
    ensures var next := Step(Applied(text, [], []), r);
            && next.missing == []
            && (Step(Applied(next.text, [], []), r) == Applied(next.text, [], []) <==> EndsAfter(r, b, e))
            && (!EndsAfter(r, b, e) ==> Step(Applied(next.text, [], []), r).missing == [r.name])
  {
    StepFound(text, r, b, e);
    if EndsAfter(r, b, e) {
      OnceEach(text, r, b, e);
      RenderedClean(text, e, r, b);
    } else {
      MarkerDoubled(text, r, b, e, Splice(text, b + |r.begin|, e, r.body));
      TwiceMissing(Splice(text, b + |r.begin|, e, r.body), r);
    }
  }

  lemma MarkerDoubled(text: string, r: Region, b: nat, e: nat, next: string)
    requires Occurs(text, r.begin, b) && Occurs(text, r.end, e) && !EndsAfter(r, b, e)
    requires next == Splice(text, b + |r.begin|, e, r.body)
    ensures Count(next, r.begin, 0) >= 2 || Count(next, r.end, 0) >= 2
  {
    var i := b + |r.begin|;
    if e <= b { Doubled(text, i, e, r.body, r.begin, b, next); } else { Doubled(text, i, e, r.body, r.end, e, next); }
  }

  lemma TwiceMissing(text: string, r: Region)
    requires Count(text, r.begin, 0) >= 2 || Count(text, r.end, 0) >= 2
    ensures Step(Applied(text, [], []), r).missing == [r.name]
  {
  }

  /** The document's own markers cannot overlap, so for them it is: the begin marker ends before the end marker. */
  lemma GeneratedMarkersApart(text: string, name: string, body: string, b: nat, e: nat)
    requires '<' !in name
    requires var r := Marked(name, body); Occurs(text, r.begin, b) && Occurs(text, r.end, e)
    ensures var r := Marked(name, body); EndsAfter(r, b, e) <==> b + |r.begin| <= e
  {
    var r := Marked(name, body);
    OneAngle(name, body);
    assert text[e..e + |r.end|][0] == '<';
    forall k | b < k < b + |r.begin| ensures text[k] != '<' { assert text[b..b + |r.begin|][k - b] == r.begin[k - b]; }
  }

  lemma OneAngle(name: string, body: string)
    requires '<' !in name
    ensures var r := Marked(name, body);
            r.begin[0] == '<' && r.end[0] == '<' && forall k | 0 < k < |r.begin| :: r.begin[k] != '<'
  {
    var r := Marked(name, body);
    var head, tail := "<!-- BEGIN GENERATED: ", " -->";
    forall k | 0 < k < |r.begin| ensures r.begin[k] != '<' {
      if k >= |head| {
        if k < |head| + |name| { assert r.begin[k] == name[k - |head|] && name[k - |head|] in name; }
        else { assert r.begin[k] == tail[k - |head| - |name|]; }
      } else { assert r.begin[k] == head[k]; }
    }
  }

  lemma StepFound(text: string, r: Region, b: nat, e: nat)
    requires Unique(text, r.begin, b) && Unique(text, r.end, e)
    ensures var next := Step(Applied(text, [], []), r);
            next.text == Splice(text, b + |r.begin|, e, r.body) && next.missing == []
  {
    UniqueFound(text, r.begin, b);
    UniqueFound(text, r.end, e);
  }

  /** An end marker that ends after the begin marker does is in the rewritten text once, right after the body. */
  lemma OnceEach(text: string, r: Region, b: nat, e: nat)
    requires Unique(text, r.begin, b) && Unique(text, r.end, e) && Renderable([r]) && EndsAfter(r, b, e)
    ensures var next := Splice(text, b + |r.begin|, e, r.body);
            Unique(next, r.begin, b) && Unique(next, r.end, b + |r.begin| + |r.body| + 2)
  {
    var i := b + |r.begin|;
    var next, at := Splice(text, i, e, r.body), i + |r.body| + 2;
    assert r in [r];
    HeadStays(text, i, e, r.body, r.begin, b);
    TailStays(text, i, e, r.body, r.end, e);
    forall q | Occurs(next, r.begin, q) ensures q == b { SplicedOccurrence(text, i, e, r.body, r.begin, q); }
    forall q | Occurs(next, r.end, q) ensures q == at { SplicedOccurrence(text, i, e, r.body, r.end, q); }
  }

  lemma HeadStays(text: string, i: nat, j: nat, body: string, m: string, p: nat)
    requires i <= |text| && j <= |text| && Occurs(text, m, p) && p + |m| <= i
    ensures Occurs(Splice(text, i, j, body), m, p)
  {
    var next := Splice(text, i, j, body);
    assert next[p..p + |m|] == text[..i][p..p + |m|];
  }

  lemma TailStays(text: string, i: nat, j: nat, body: string, m: string, p: nat)
    requires i <= |text| && j <= p && Occurs(text, m, p)
    ensures Occurs(Splice(text, i, j, body), m, p + (i + |body| + 2 - j))
  {
    var head := text[..i] + ("\n" + body + "\n");
    assert Splice(text, i, j, body) == head + text[j..] && |head| == i + |body| + 2;
    AfterPrefix(head, text[j..], p - j, p - j + |m|);
    assert text[j..][p - j..p - j + |m|] == text[p..p + |m|];
  }

  lemma RenderedClean(was: string, j: nat, r: Region, b: nat)
    requires b + |r.begin| <= |was| && j <= |was| && Trimmed(r.body)
    requires var text := Splice(was, b + |r.begin|, j, r.body);
             Unique(text, r.begin, b) && Unique(text, r.end, b + |r.begin| + |r.body| + 2)
    ensures var text := Splice(was, b + |r.begin|, j, r.body); Step(Applied(text, [], []), r) == Applied(text, [], [])
  {
    var i := b + |r.begin|;
    var text, e := Splice(was, i, j, r.body), i + |r.body| + 2;
    assert text[i..e] == "\n" + r.body + "\n";
    FreshStep(Applied(text, [], []), r, (b, e));
  }

  lemma Doubled(text: string, i: nat, e: nat, body: string, m: string, p: nat, next: string)
    requires m != "" && i <= |text| && e <= p && Occurs(text, m, p) && p + |m| <= i
    requires next == Splice(text, i, e, body)
    ensures Count(next, m, 0) >= 2
  {
    HeadStays(text, i, e, body, m, p);
    TailStays(text, i, e, body, m, p);
    var q := p + (i + |body| + 2 - e);
    assert Occurs(next, m, p) && Occurs(next, m, q) && p + |m| <= q;
    TwoCount(next, m, 0, p, q);
  }

  lemma {:induction false} TwoCount(text: string, m: string, from: nat, p: nat, q: nat)
    requires m != "" && from <= p && p + |m| <= q && Occurs(text, m, p) && Occurs(text, m, q)
    ensures Count(text, m, from) >= 2
  {
    var first := Find(text, m, from).value;
    assert first <= p && Find(text, m, first + |m|).Some?;
  }
}
