/** The checks that judge a plan with code of their own (sweep/model_check.py), and that the planner meets them. */
module Checkers {
  import opened Names
  import opened Wrappers
  import opened Planner

  // ---- every cell of a search run is one arm's

  /** The arms whose settings are the cell's identity without the anchor. */
  function Matches(db: Db, search: Id, identity: map<Id, Id>): set<Id>
    requires search in db.searches
  {
    set a | a in db.arms && db.arms[a].search == search && db.arms[a].settings == identity - {db.searches[search].anchor}
  }

  function Swept(db: Db, arms: set<Id>): set<Id> { set a | a in arms && a in db.arms && db.arms[a].role != Incumbent }

  /** At most one swept arm, and with none exactly one incumbent. */
  predicate OneArm(db: Db, search: Id, identity: map<Id, Id>)
    requires search in db.searches
  {
    var matches := Matches(db, search, identity);
    var swept := Swept(db, matches);
    !(|swept| > 1 || (swept == {} && |matches| != 1))
  }

  predicate IsSurplus(db: Db, cell: Id)
    requires cell in db.cells
  {
    var run := db.cells[cell].run;
    && run in db.runs && db.runs[run].search.Some? && db.runs[run].search.value in db.searches
    && !OneArm(db, db.runs[run].search.value, db.cells[cell].identity)
  }

  /** Run by run, cell by cell: the cells that are no arm's, or several arms'. */
  method CheckCellsMatchArms(db: Db) returns (out: set<Id>)
    ensures out == set c | c in db.cells && IsSurplus(db, c)
  {
    out := {};
    var runs := set r | r in db.runs && db.runs[r].search.Some? && db.runs[r].search.value in db.searches;
    var left := runs;
    while left != {}
      invariant left <= runs
      invariant out == set c | c in db.cells && db.cells[c].run in runs - left && IsSurplus(db, c)
      decreases |left|
    {
      var run :| run in left;
      var more := CheckRun(db, run);
      out := out + more;
      left := left - {run};
    }
    assert runs - left == runs;
    forall c | c in db.cells && IsSurplus(db, c) ensures db.cells[c].run in runs {}
  }

  method CheckRun(db: Db, run: Id) returns (out: set<Id>)
    requires run in db.runs && db.runs[run].search.Some? && db.runs[run].search.value in db.searches
    ensures out == set c | c in db.cells && db.cells[c].run == run && IsSurplus(db, c)
  {
    out := {};
    var search := db.runs[run].search.value;
    var cells := set c | c in db.cells && db.cells[c].run == run;
    var left := cells;
    while left != {}
      invariant left <= cells
      invariant forall c :: c in out <==> c in cells - left && !OneArm(db, search, db.cells[c].identity)
      decreases |left|
    {
      var c :| c in left;
      var surplus := CheckCell(db, search, db.cells[c].identity);
      if surplus { out := out + {c}; }
      left := left - {c};
    }
  }

  method CheckCell(db: Db, search: Id, identity: map<Id, Id>) returns (surplus: bool)
    requires search in db.searches
    ensures surplus <==> !OneArm(db, search, identity)
  {
    var matches := Matches(db, search, identity);
    var swept := Swept(db, matches);
    surplus := |swept| > 1 || (swept == {} && |matches| != 1);
  }

  /** Arm settings leave the anchor out; no two swept arms of the search are alike, and no two incumbents. */
  ghost predicate ArmsApart(db: Db, search: Id)
    requires search in db.searches
  {
    && (forall a | a in ArmsOf(db, search) :: db.searches[search].anchor !in db.arms[a].settings)
    && (forall a, b | a in ArmsOf(db, search) && b in ArmsOf(db, search) && db.arms[a].settings == db.arms[b].settings
          && (db.arms[a].role == Incumbent <==> db.arms[b].role == Incumbent) :: a == b)
  }

  lemma AtMostOne<T>(s: set<T>, x: T)
    requires forall y | y in s :: y == x
    ensures |s| <= 1
  {
    assert s <= {x};
    if x in s { assert s == {x}; } else { assert s == {}; }
  }

  /** An arm's settings with some anchor value are one arm's. */
  lemma ArmIsOne(db: Db, search: Id, a: Id, value: Id)
    requires search in db.searches && ArmsApart(db, search) && a in ArmsOf(db, search)
    ensures OneArm(db, search, db.arms[a].settings[db.searches[search].anchor := value])
  {
    var anchor := db.searches[search].anchor;
    var identity := db.arms[a].settings[anchor := value];
    assert identity - {anchor} == db.arms[a].settings;
    var matches := Matches(db, search, identity);
    var swept := Swept(db, matches);
    assert a in matches;
    if swept != {} {
      var x :| x in swept;
      AtMostOne(swept, x);
    } else {
      forall y | y in matches ensures y == a { assert y !in swept && a !in swept; }
      assert matches == {a};
    }
  }

  /** An arm whose settings are this arm's but for the anchor. */
  predicate Answers(db: Db, search: Id, a: Id, b: Id)
    requires search in db.searches && a in ArmsOf(db, search)
  {
    b in ArmsOf(db, search) && db.arms[b].settings == db.arms[a].settings - {db.searches[search].anchor}
  }

  predicate AnswersSwept(db: Db, search: Id, a: Id, b: Id)
    requires search in db.searches && a in ArmsOf(db, search)
  {
    Answers(db, search, a, b) && db.arms[b].role != Incumbent
  }

  /** It is the one swept arm, or the one arm, that answers to this arm's settings. */
  ghost predicate TheSwept(db: Db, search: Id, a: Id, b: Id)
    requires search in db.searches && a in ArmsOf(db, search)
  {
    AnswersSwept(db, search, a, b) && forall c | AnswersSwept(db, search, a, c) :: c == b
  }

  ghost predicate TheArm(db: Db, search: Id, a: Id, b: Id)
    requires search in db.searches && a in ArmsOf(db, search)
  {
    Answers(db, search, a, b) && forall c | Answers(db, search, a, c) :: c == b
  }

  ghost predicate NoneSwept(db: Db, search: Id, a: Id)
    requires search in db.searches && a in ArmsOf(db, search)
  {
    forall c :: !AnswersSwept(db, search, a, c)
  }

  /** When an arm's cells are one arm's, whatever their anchor value: one swept arm answers to its settings, or none
      does and one incumbent. It fails for two swept arms alike, for two incumbents alike that no swept arm
      equals, and for an arm that sets the anchor itself while no arm has the rest of its settings. */
  lemma OneArmExactly(db: Db, search: Id, a: Id, value: Id)
    requires search in db.searches && a in ArmsOf(db, search)
    ensures OneArm(db, search, db.arms[a].settings[db.searches[search].anchor := value]) <==>
              (exists b :: TheSwept(db, search, a, b)) || (NoneSwept(db, search, a) && exists b :: TheArm(db, search, a, b))
  {
    var anchor := db.searches[search].anchor;
    var identity := db.arms[a].settings[anchor := value];
    assert identity - {anchor} == db.arms[a].settings - {anchor};
    AnswersAre(db, search, a, identity);
    var matches := Matches(db, search, identity);
    var swept := Swept(db, matches);
    OneOf(matches, swept);
    assert forall b :: TheSwept(db, search, a, b) <==> Only(swept, b);
    assert forall b :: TheArm(db, search, a, b) <==> Only(matches, b);
    assert NoneSwept(db, search, a) <==> swept == {};
  }

  ghost predicate Only<T(!new)>(s: set<T>, x: T) { x in s && forall y | y in s :: y == x }

  lemma OneOf<T(!new)>(matches: set<T>, swept: set<T>)
    requires swept <= matches
    ensures !(|swept| > 1 || (swept == {} && |matches| != 1)) <==>
            (exists b :: Only(swept, b)) || (swept == {} && exists b :: Only(matches, b))
  {
    OneOrNot(swept);
    OneOrNot(matches);
  }

  lemma OneOrNot<T(!new)>(s: set<T>)
    ensures |s| == 1 <==> exists x :: Only(s, x)
    ensures s == {} <==> |s| == 0
  {
    if x :| Only(s, x) { assert s == {x}; }
    if |s| == 1 {
      var x :| x in s;
      forall y | y in s ensures y == x { if y != x { TwoOf(s, x, y); } }
      assert Only(s, x);
    }
  }

  lemma AnswersAre(db: Db, search: Id, a: Id, identity: map<Id, Id>)
    requires search in db.searches && a in ArmsOf(db, search)
    requires identity - {db.searches[search].anchor} == db.arms[a].settings - {db.searches[search].anchor}
    ensures forall b :: b in Matches(db, search, identity) <==> Answers(db, search, a, b)
    ensures forall b :: b in Swept(db, Matches(db, search, identity)) <==> AnswersSwept(db, search, a, b)
  {
  }

  /** With arms that leave the anchor out, an arm's cells are a surplus exactly when two swept arms are like it, or
      no swept arm is and it has another incumbent's settings. */
  lemma AlikeArmsAreSurplus(db: Db, search: Id, a: Id, value: Id)
    requires search in db.searches && a in ArmsOf(db, search) && db.searches[search].anchor !in db.arms[a].settings
    ensures !OneArm(db, search, db.arms[a].settings[db.searches[search].anchor := value]) <==>
              || (exists b, c :: b != c && AnswersSwept(db, search, a, b) && AnswersSwept(db, search, a, c))
              || (NoneSwept(db, search, a) && exists b :: b != a && Answers(db, search, a, b))
  {
    OneArmExactly(db, search, a, value);
    assert db.arms[a].settings - {db.searches[search].anchor} == db.arms[a].settings;
    assert Answers(db, search, a, a);
    if NoneSwept(db, search, a) {
      assert (exists b :: TheArm(db, search, a, b)) <==> TheArm(db, search, a, a);
    } else {
      var b :| AnswersSwept(db, search, a, b);
      assert (exists d :: TheSwept(db, search, a, d)) <==> TheSwept(db, search, a, b);
    }
  }

  /** An arm whose settings are the cell's without the anchor's. */
  ghost predicate HasSettings(db: Db, search: Id, arm: Id, identity: map<Id, Id>)
    requires search in db.searches
  {
    && arm in db.arms && db.arms[arm].search == search
    && (forall k :: k in db.arms[arm].settings <==> k in identity && k != db.searches[search].anchor)
    && (forall k | k in db.arms[arm].settings :: k in identity && db.arms[arm].settings[k] == identity[k])
  }

  ghost predicate HasSweptSettings(db: Db, search: Id, arm: Id, identity: map<Id, Id>)
    requires search in db.searches
  {
    HasSettings(db, search, arm, identity) && db.arms[arm].role != Incumbent
  }

  /** It is the only arm with the cell's settings, or the only swept one. */
  ghost predicate OnlyArm(db: Db, search: Id, arm: Id, identity: map<Id, Id>, swept: bool)
    requires search in db.searches
  {
    if swept then HasSweptSettings(db, search, arm, identity) && forall b | HasSweptSettings(db, search, b, identity) :: b == arm
    else HasSettings(db, search, arm, identity) && forall b | HasSettings(db, search, b, identity) :: b == arm
  }

  /** Whatever a cell's identity is, it is one arm's exactly when one swept arm has its settings, or none has and one
      incumbent. */
  lemma OneArmOfAny(db: Db, search: Id, identity: map<Id, Id>)
    requires search in db.searches
    ensures OneArm(db, search, identity) <==>
              || (exists a :: OnlyArm(db, search, a, identity, true))
              || ((forall b :: !HasSweptSettings(db, search, b, identity)) && exists a :: OnlyArm(db, search, a, identity, false))
  {
    var matches := Matches(db, search, identity);
    var swept := Swept(db, matches);
    forall a ensures a in matches <==> HasSettings(db, search, a, identity) { MatchIs(db, search, a, identity); }
    assert forall a :: a in swept <==> HasSweptSettings(db, search, a, identity);
    OneOf(matches, swept);
    forall a ensures Only(swept, a) <==> OnlyArm(db, search, a, identity, true) {}
    forall a ensures Only(matches, a) <==> OnlyArm(db, search, a, identity, false) {}
    assert swept == {} <==> forall b :: !HasSweptSettings(db, search, b, identity);
  }

  lemma MatchIs(db: Db, search: Id, a: Id, identity: map<Id, Id>)
    requires search in db.searches
    ensures a in Matches(db, search, identity) <==> HasSettings(db, search, a, identity)
  {
    if HasSettings(db, search, a, identity) {
      assert db.arms[a].settings.Keys == (identity - {db.searches[search].anchor}).Keys;
      assert db.arms[a].settings == identity - {db.searches[search].anchor};
    }
  }

  lemma TwoOf<T>(s: set<T>, x: T, y: T)
    requires x in s && y in s && x != y
    ensures |s| >= 2
  {
    assert s == {x, y} + (s - {x, y}) && |{x, y}| == 2;
  }

  lemma WantedExtendsArm(arm: Arm, anchor: Id, text: TextFn, windows: seq<Id>, rungs: seq<int>, x: Wanted)
    requires x in ArmWants(arm, anchor, text, windows, rungs)
    ensures anchor in x.identity && x.identity == arm.settings[anchor := x.identity[anchor]]
  {
    match arm.role
    case Base =>
      var w, r :| w in windows && r in rungs && x == OnRung(arm, anchor, text, w, r);
    case Incumbent =>
      var w :| w in windows && x == AtItsAnchor(arm, anchor, w);
    case Candidate =>
      var d :| d in arm.derived && x == OnRung(arm, anchor, text, d.0, d.1);
  }

  /** Every cell an encode plan wants is one arm's. */
  lemma WantedIsOneArms(db: Db, search: Id, text: TextFn, windows: seq<Id>, rungs: seq<int>, arms: seq<Id>, x: Wanted)
    requires Plannable(db, search) && ArmsApart(db, search) && Wants(db, search, text, windows, rungs, arms, x)
    ensures OneArm(db, search, x.identity)
  {
    var ws := if windows == [] then Members(db, search) else windows;
    var rs := if rungs == [] then Rungs(db, search) else rungs;
    var anchor := db.searches[search].anchor;
    var a :| a in ArmsOf(db, search) && x in ArmWants(db.arms[a], anchor, text, ws, rs);
    WantedExtendsArm(db.arms[a], anchor, text, ws, rs, x);
    ArmIsOne(db, search, a, x.identity[anchor]);
  }

  /** What a plan adds to the surplus: its new cells that are not one arm's. */
  lemma NewSurplus(db: Db, keys: seq<Id>, wanted: seq<Wanted>, run: Id, p: Planned)
    requires |keys| == |wanted| && Partitioned(db, keys, wanted, p.encoded)
    requires run !in db.runs && forall c | c in db.cells :: db.cells[c].run in db.runs
    ensures var after := Committed(db, run, p);
            (set c | c in after.cells && IsSurplus(after, c)) == (set c | c in db.cells && IsSurplus(db, c)) <==>
            (p.row.search.Some? && p.row.search.value in db.searches ==>
               forall c | c in p.encoded.cells :: OneArm(db, p.row.search.value, c.wanted.identity))
  {
    var after := Committed(db, run, p);
    CellRowsAre(run, p.encoded.cells);
    forall c | c in p.encoded.cells
      ensures c.key !in db.cells && c.key in after.cells
      ensures IsSurplus(after, c.key) <==>
                p.row.search.Some? && p.row.search.value in db.searches && !OneArm(db, p.row.search.value, c.wanted.identity)
    {
      NewIsNone(db, keys, wanted, run, p, c);
    }
    forall c | c in after.cells && c !in CellKeys(p.encoded.cells) ensures c in db.cells && (IsSurplus(after, c) <==> IsSurplus(db, c)) {
      OldAsBefore(db, after, c);
    }
    SameOrMore(db, after, p);
  }

  lemma SameOrMore(db: Db, after: Db, p: Planned)
    requires db.cells.Keys <= after.cells.Keys
    requires forall c | c in p.encoded.cells :: c.key !in db.cells && c.key in after.cells
    requires forall c | c in after.cells && c !in CellKeys(p.encoded.cells) :: c in db.cells && (IsSurplus(after, c) <==> IsSurplus(db, c))
    ensures (set c | c in after.cells && IsSurplus(after, c)) == (set c | c in db.cells && IsSurplus(db, c)) <==>
            forall c | c in p.encoded.cells :: !IsSurplus(after, c.key)
  {
    var now, was := set c | c in after.cells && IsSurplus(after, c), set c | c in db.cells && IsSurplus(db, c);
    forall k | k in CellKeys(p.encoded.cells) ensures exists c :: c in p.encoded.cells && c.key == k {
      var i :| 0 <= i < |p.encoded.cells| && CellKeys(p.encoded.cells)[i] == k;
      assert p.encoded.cells[i] in p.encoded.cells;
    }
    if c :| c in p.encoded.cells && IsSurplus(after, c.key) {
      assert c.key in now && c.key !in was;
    } else {
      forall k ensures k in now <==> k in was {
        if k in CellKeys(p.encoded.cells) {
          var c :| c in p.encoded.cells && c.key == k;
        }
      }
    }
  }

  lemma OldAsBefore(db: Db, after: Db, c: Id)
    requires c in db.cells && c in after.cells && after.cells[c] == db.cells[c] && after == db.(runs := after.runs, cells := after.cells)
    requires db.cells[c].run in db.runs && db.cells[c].run in after.runs && after.runs[db.cells[c].run] == db.runs[db.cells[c].run]
    ensures IsSurplus(after, c) <==> IsSurplus(db, c)
  {
    if db.runs[db.cells[c].run].search.Some? && db.runs[db.cells[c].run].search.value in db.searches {
      SameArms(db, after, db.runs[db.cells[c].run].search.value, db.cells[c].identity);
    }
  }

  lemma SameArms(db: Db, after: Db, search: Id, identity: map<Id, Id>)
    requires after == db.(runs := after.runs, cells := after.cells) && search in db.searches
    ensures OneArm(after, search, identity) <==> OneArm(db, search, identity)
  {
    assert Matches(after, search, identity) == Matches(db, search, identity);
    assert Swept(after, Matches(db, search, identity)) == Swept(db, Matches(db, search, identity));
  }

  lemma NewIsNone(db: Db, keys: seq<Id>, wanted: seq<Wanted>, run: Id, p: Planned, c: CellPlan)
    requires |keys| == |wanted| && Partitioned(db, keys, wanted, p.encoded) && c in p.encoded.cells
    ensures c.key !in db.cells && c.key in Committed(db, run, p).cells
    ensures IsSurplus(Committed(db, run, p), c.key) <==>
              p.row.search.Some? && p.row.search.value in db.searches && !OneArm(db, p.row.search.value, c.wanted.identity)
  {
    var after := Committed(db, run, p);
    CellRowsAre(run, p.encoded.cells);
    if p.row.search.Some? && p.row.search.value in db.searches { SameArms(db, after, p.row.search.value, c.wanted.identity); }
  }

  /** The planner meets the check: committing an encode plan, whatever subset it names, leaves the surplus as it was
      exactly when each of its new cells is one arm's, which arms that are told apart see to. */
  lemma EncodePlanMatchesArms(db: Db, key: KeyFn, text: TextFn, search: Id, version: Id, windows: seq<Id>, rungs: seq<int>, arms: seq<Id>,
                              wanted: seq<Wanted>, run: Id, p: Planned)
    requires IsEncodePlan(db, key, text, search, version, windows, rungs, arms, wanted, p)
    requires run !in db.runs && forall c | c in db.cells :: db.cells[c].run in db.runs
    ensures var after := Committed(db, run, p);
            (set c | c in after.cells && IsSurplus(after, c)) == (set c | c in db.cells && IsSurplus(db, c)) <==>
            forall c | c in p.encoded.cells :: OneArm(db, search, c.wanted.identity)
    ensures ArmsApart(db, search) ==> forall c | c in p.encoded.cells :: OneArm(db, search, c.wanted.identity)
  {
    var keys := SearchKeys(db, key, search, version, wanted);
    if ArmsApart(db, search) {
      forall c | c in p.encoded.cells ensures OneArm(db, search, c.wanted.identity) {
        var i :| 0 <= i < |wanted| && keys[i] == c.key && wanted[i] == c.wanted;
        assert c.wanted in wanted;
        WantedIsOneArms(db, search, text, windows, rungs, arms, c.wanted);
      }
    }
    NewSurplus(db, keys, wanted, run, p);
  }

  /** And so does timing a run whose own cells are each one arm's. */
  lemma TimePlanMatchesArms(db: Db, key: KeyFn, source: Id, version: Id, wanted: seq<Wanted>, run: Id, p: Planned)
    requires IsTimePlan(db, key, source, version, wanted, p)
    requires run !in db.runs && forall c | c in db.cells :: db.cells[c].run in db.runs
    requires forall c | c in db.cells && db.cells[c].run == source :: !IsSurplus(db, c)
    ensures var after := Committed(db, run, p);
            (set c | c in after.cells && IsSurplus(after, c)) == (set c | c in db.cells && IsSurplus(db, c))
  {
    var keys := KeysOf(key, db, db.runs[source].unit, db.referenceSets[db.runs[source].contentClass.value], version, wanted);
    if p.row.search.Some? && p.row.search.value in db.searches {
      forall c | c in p.encoded.cells ensures OneArm(db, p.row.search.value, c.wanted.identity) {
        var i :| 0 <= i < |wanted| && keys[i] == c.key && wanted[i] == c.wanted;
        assert c.wanted in wanted && WantsTimed(db, source, c.wanted);
        var k :| k in db.cells && db.cells[k].run == source && db.cells[k].identity == c.wanted.identity;
        assert !IsSurplus(db, k);
      }
    }
    NewSurplus(db, keys, wanted, run, p);
  }

  // ---- the shipping arm was encoded on every in-range rung of every member

  /** The identities encoded on a window by this search's encode runs. */
  function Have(db: Db, search: Id, window: Id): set<map<Id, Id>> {
    set c | c in db.cells && db.cells[c].window == window && db.cells[c].run in db.runs
            && db.runs[db.cells[c].run].search == Some(search) && db.runs[db.cells[c].run].stage == Encode :: db.cells[c].identity
  }

  /** The search's shipping arm was encoded at this rung on this window, by one of its own encode runs. */
  ghost predicate EncodedAt(db: Db, search: Id, text: TextFn, window: Id, rung: int)
    requires ShipsOne(db, search)
  {
    exists c :: c in db.cells && db.cells[c].window == window && db.cells[c].run in db.runs
                && db.runs[db.cells[c].run].search == Some(search) && db.runs[db.cells[c].run].stage == Encode
                && db.cells[c].identity == db.arms[db.searches[search].shipping.value].settings[db.searches[search].anchor := text(rung)]
  }

  predicate ShipsOne(db: Db, search: Id) {
    Plannable(db, search) && db.searches[search].shipping.Some? && db.searches[search].shipping.value in db.arms
  }

  /** The class's window and the codec's rung, within the anchor's bounds, and the shipping arm not encoded there. */
  ghost predicate Lacks(db: Db, search: Id, text: TextFn, window: Id, rung: int)
    requires ShipsOne(db, search)
  {
    var s := db.searches[search];
    var (lo, hi) := db.ranges[s.anchor];
    && s.contentClass in db.members && window in db.members[s.contentClass]
    && db.codecs[s.unit] in db.ladders && rung in db.ladders[db.codecs[s.unit]]
    && (lo.Some? ==> lo.value <= rung) && (hi.Some? ==> rung <= hi.value)
    && !EncodedAt(db, search, text, window, rung)
  }

  /** The ladder's rungs that the anchor's bounds leave. */
  method LeftRungs(ladder: seq<int>, bounds: (Option<int>, Option<int>)) returns (rungs: seq<int>)
    ensures forall r :: r in rungs <==> r in ladder && (bounds.0.Some? ==> bounds.0.value <= r) && (bounds.1.Some? ==> r <= bounds.1.value)
  {
    rungs := [];
    var i := 0;
    while i < |ladder|
      invariant 0 <= i <= |ladder|
      invariant forall r :: r in rungs <==> r in ladder[..i] && (bounds.0.Some? ==> bounds.0.value <= r) && (bounds.1.Some? ==> r <= bounds.1.value)
    {
      assert ladder[..i + 1] == ladder[..i] + [ladder[i]];
      InOneMore(ladder[..i], ladder[i]);
      if (bounds.0.None? || ladder[i] >= bounds.0.value) && (bounds.1.None? || ladder[i] <= bounds.1.value) { rungs := rungs + [ladder[i]]; }
      i := i + 1;
    }
    assert ladder[..i] == ladder;
  }

  /** The (window, rung) pairs the search's shipping arm lacks. */
  method CheckShippingArmLadder(db: Db, search: Id, text: TextFn) returns (missing: set<(Id, int)>)
    requires ShipsOne(db, search)
    ensures forall w, r :: (w, r) in missing <==> Lacks(db, search, text, w, r)
  {
    var s := db.searches[search];
    var arm := db.arms[s.shipping.value];
    var ladder := if db.codecs[s.unit] in db.ladders then db.ladders[db.codecs[s.unit]] else [];
    var members := if s.contentClass in db.members then db.members[s.contentClass] else [];
    var rungs := LeftRungs(ladder, db.ranges[s.anchor]);
    missing := {};
    var i := 0;
    while i < |members|
      invariant 0 <= i <= |members|
      invariant forall w, r :: (w, r) in missing <==> w in members[..i] && r in rungs && !EncodedAt(db, search, text, w, r)
    {
      assert members[..i + 1] == members[..i] + [members[i]];
      InOneMore(members[..i], members[i]);
      var have := Have(db, search, members[i]);
      var more := set r | r in rungs && arm.settings[s.anchor := text(r)] !in have :: (members[i], r);
      forall r ensures arm.settings[s.anchor := text(r)] in have <==> EncodedAt(db, search, text, members[i], r) {}
      missing := missing + more;
      i := i + 1;
    }
    assert members[..i] == members;
  }

  predicate Ships(db: Db, search: Id) { search in db.searches && db.searches[search].shipping.Some? }

  /** Search by search: those whose shipping arm lacks any, with what it lacks. What a search names is there, which
      the foreign keys see to. */
  method CheckShippingArmLadders(db: Db, text: TextFn) returns (out: map<Id, set<(Id, int)>>)
    requires forall s | Ships(db, s) :: ShipsOne(db, s)
    ensures forall s :: s in out <==> Ships(db, s) && exists w, r :: Lacks(db, s, text, w, r)
    ensures forall s | Ships(db, s) && s in out :: forall w, r :: (w, r) in out[s] <==> Lacks(db, s, text, w, r)
  {
    out := map[];
    var searches := set s | s in db.searches && db.searches[s].shipping.Some?;
    var left := searches;
    while left != {}
      invariant left <= searches
      invariant forall s :: s in out <==> s in searches - left && Ships(db, s) && exists w, r :: Lacks(db, s, text, w, r)
      invariant forall s | s in out :: Ships(db, s) && forall w, r :: (w, r) in out[s] <==> Lacks(db, s, text, w, r)
      decreases |left|
    {
      var s :| s in left;
      assert Ships(db, s);
      var missing := CheckShippingArmLadder(db, s, text);
      LacksSome(db, s, text, missing);
      if missing != {} { out := out[s := missing]; }
      left := left - {s};
    }
  }

  lemma LacksSome(db: Db, search: Id, text: TextFn, missing: set<(Id, int)>)
    requires ShipsOne(db, search) && forall w, r :: (w, r) in missing <==> Lacks(db, search, text, w, r)
    ensures missing != {} <==> exists w, r :: Lacks(db, search, text, w, r)
  {
    if missing != {} {
      var p :| p in missing;
      assert (p.0, p.1) in missing && Lacks(db, search, text, p.0, p.1);
    }
  }

  /** The stored cell's key was made from its own window, kind and identity, on its run's unit. */
  ghost predicate OwnKey(db: Db, key: KeyFn, k: Id)
    requires k in db.cells
  {
    exists c :: k == key(c) && c.window == db.cells[k].window && c.kind == db.cells[k].kind && c.identity == db.cells[k].identity
                && (db.cells[k].run in db.runs ==> c.unit == db.runs[db.cells[k].run].unit)
  }

  ghost predicate WellKeyed(db: Db, key: KeyFn) { forall k | k in db.cells :: OwnKey(db, key, k) }

  /** Committing an encode plan keeps it so. */
  lemma KeysStayOwn(db: Db, key: KeyFn, text: TextFn, search: Id, version: Id, windows: seq<Id>, rungs: seq<int>, arms: seq<Id>,
                    wanted: seq<Wanted>, run: Id, p: Planned)
    requires IsEncodePlan(db, key, text, search, version, windows, rungs, arms, wanted, p) && WellKeyed(db, key)
    requires run !in db.runs && forall c | c in db.cells :: db.cells[c].run in db.runs
    ensures WellKeyed(Committed(db, run, p), key)
  {
    var after := Committed(db, run, p);
    CellRowsAre(run, p.encoded.cells);
    EncodePlanInRows(db, key, text, search, version, windows, rungs, arms, wanted, p);
    forall k | k in after.cells ensures OwnKey(after, key, k) {
      if k in CellKeys(p.encoded.cells) {
        var i :| 0 <= i < |p.encoded.cells| && CellKeys(p.encoded.cells)[i] == k;
        NewKeyIsOwn(db, key, search, version, run, p, p.encoded.cells[i]);
      } else {
        assert OwnKey(db, key, k);
      }
    }
  }

  lemma NewKeyIsOwn(db: Db, key: KeyFn, search: Id, version: Id, run: Id, p: Planned, c: CellPlan)
    requires HasRows(db, search) && NoRepeats(CellKeys(p.encoded.cells)) && c in p.encoded.cells && p.row.unit == db.searches[search].unit
    requires var referenceSet := db.referenceSets[db.searches[search].contentClass];
             && (referenceSet, c.wanted.window, c.wanted.kind) in db.cuts
             && c.key == KeyAt(key, db, db.searches[search].unit, referenceSet, version, c.wanted)
    ensures c.key in Committed(db, run, p).cells && OwnKey(Committed(db, run, p), key, c.key)
  {
    CellRowsAre(run, p.encoded.cells);
    var referenceSet := db.referenceSets[db.searches[search].contentClass];
    var made := Configuration(db.searches[search].unit, db.cuts[(referenceSet, c.wanted.window, c.wanted.kind)], c.wanted.kind,
                              c.wanted.window, c.wanted.identity, version);
    assert c.key == key(made) && Committed(db, run, p).cells[c.key] == RowOf(run, c);
  }

  /** No wanted cell is in some run other than an encode run of this search. */
  ghost predicate OnlyInItsRuns(db: Db, search: Id, keys: seq<Id>) {
    forall k | k in keys && k in db.cells ::
      db.cells[k].run in db.runs && db.runs[db.cells[k].run].search == Some(search) && db.runs[db.cells[k].run].stage == Encode
  }

  /** A wanted cell is among what this search encoded, once its plan is committed: as a new cell, or as the one
      that was there. */
  lemma WantedIsHad(db: Db, key: KeyFn, text: TextFn, search: Id, version: Id, windows: seq<Id>, rungs: seq<int>, arms: seq<Id>,
                    wanted: seq<Wanted>, run: Id, p: Planned, i: nat)
    requires IsEncodePlan(db, key, text, search, version, windows, rungs, arms, wanted, p) && TellsApart(key) && WellKeyed(db, key)
    requires OnlyInItsRuns(db, search, SearchKeys(db, key, search, version, wanted))
    requires run !in db.runs && i < |wanted|
    ensures wanted[i].identity in Have(Committed(db, run, p), search, wanted[i].window)
  {
    var keys := SearchKeys(db, key, search, version, wanted);
    assert keys[i] in keys;
    if keys[i] in CellKeys(p.encoded.cells) {
      NewIsHad(db, key, search, version, wanted, run, p, i);
    } else {
      SkippedIsHad(db, key, search, version, wanted, run, p, i);
    }
  }

  lemma NewIsHad(db: Db, key: KeyFn, search: Id, version: Id, wanted: seq<Wanted>, run: Id, p: Planned, i: nat)
    requires Plannable(db, search) && TellsApart(key) && i < |wanted|
    requires forall i | 0 <= i < |wanted| :: Encodable(db, db.referenceSets[db.searches[search].contentClass], wanted[i])
    requires Partitioned(db, SearchKeys(db, key, search, version, wanted), wanted, p.encoded)
    requires p.row.stage == Encode && p.row.search == Some(search)
    requires SearchKeys(db, key, search, version, wanted)[i] in CellKeys(p.encoded.cells)
    ensures wanted[i].identity in Have(Committed(db, run, p), search, wanted[i].window)
  {
    var after, keys := Committed(db, run, p), SearchKeys(db, key, search, version, wanted);
    CellRowsAre(run, p.encoded.cells);
    var j :| 0 <= j < |p.encoded.cells| && CellKeys(p.encoded.cells)[j] == keys[i];
    var c := p.encoded.cells[j];
    assert c in p.encoded.cells;
    var m :| 0 <= m < |wanted| && keys[m] == c.key && wanted[m] == c.wanted;
    SameKeySameCell(db, key, search, version, wanted, i, m);
    assert after.cells[c.key] == RowOf(run, c);
    HadAt(after, search, c.key);
  }

  /** A cell of one of the search's encode runs is had on its window. */
  lemma HadAt(db: Db, search: Id, k: Id)
    requires k in db.cells && db.cells[k].run in db.runs && db.runs[db.cells[k].run].search == Some(search) && db.runs[db.cells[k].run].stage == Encode
    ensures db.cells[k].identity in Have(db, search, db.cells[k].window)
  {
  }

  lemma SkippedIsHad(db: Db, key: KeyFn, search: Id, version: Id, wanted: seq<Wanted>, run: Id, p: Planned, i: nat)
    requires Plannable(db, search) && TellsApart(key) && WellKeyed(db, key) && i < |wanted| && run !in db.runs
    requires forall i | 0 <= i < |wanted| :: Encodable(db, db.referenceSets[db.searches[search].contentClass], wanted[i])
    requires Partitioned(db, SearchKeys(db, key, search, version, wanted), wanted, p.encoded)
    requires OnlyInItsRuns(db, search, SearchKeys(db, key, search, version, wanted))
    requires SearchKeys(db, key, search, version, wanted)[i] in SearchKeys(db, key, search, version, wanted)
    requires SearchKeys(db, key, search, version, wanted)[i] !in CellKeys(p.encoded.cells)
    ensures wanted[i].identity in Have(Committed(db, run, p), search, wanted[i].window)
  {
    var after, k := Committed(db, run, p), SearchKeys(db, key, search, version, wanted)[i];
    CellRowsAre(run, p.encoded.cells);
    assert k in p.encoded.skipped && k in db.cells;
    StoredIsWanted(db, key, search, version, wanted, i);
    assert after.cells[k] == db.cells[k] && after.runs[db.cells[k].run] == db.runs[db.cells[k].run];
  }

  lemma SameKeySameCell(db: Db, key: KeyFn, search: Id, version: Id, wanted: seq<Wanted>, i: nat, j: nat)
    requires Plannable(db, search) && TellsApart(key) && i < |wanted| && j < |wanted|
    requires forall i | 0 <= i < |wanted| :: Encodable(db, db.referenceSets[db.searches[search].contentClass], wanted[i])
    requires SearchKeys(db, key, search, version, wanted)[i] == SearchKeys(db, key, search, version, wanted)[j]
    ensures wanted[i] == wanted[j]
  {
  }

  lemma StoredIsWanted(db: Db, key: KeyFn, search: Id, version: Id, wanted: seq<Wanted>, i: nat)
    requires Plannable(db, search) && TellsApart(key) && WellKeyed(db, key) && i < |wanted|
    requires forall i | 0 <= i < |wanted| :: Encodable(db, db.referenceSets[db.searches[search].contentClass], wanted[i])
    requires SearchKeys(db, key, search, version, wanted)[i] in db.cells
    ensures var k := SearchKeys(db, key, search, version, wanted)[i];
            db.cells[k].window == wanted[i].window && db.cells[k].identity == wanted[i].identity
  {
    var k := SearchKeys(db, key, search, version, wanted)[i];
    assert OwnKey(db, key, k);
    var c :| k == key(c) && c.window == db.cells[k].window && c.kind == db.cells[k].kind && c.identity == db.cells[k].identity;
  }

  /** The planner meets the check, each with its own reading of the ladder and the bounds: once an unfiltered plan of a
      search that ships its base arm is committed, no rung of no member is missing, as long as no wanted cell lived
      outside this search's encode runs. */
  lemma EncodePlanFillsLadder(db: Db, key: KeyFn, text: TextFn, search: Id, version: Id, wanted: seq<Wanted>, run: Id, p: Planned)
    requires IsEncodePlan(db, key, text, search, version, [], [], [], wanted, p) && TellsApart(key) && WellKeyed(db, key)
    requires OnlyInItsRuns(db, search, SearchKeys(db, key, search, version, wanted)) && run !in db.runs
    requires db.searches[search].shipping.Some? && db.searches[search].shipping.value in ArmsOf(db, search)
    requires db.arms[db.searches[search].shipping.value].role == Base
    ensures var after := Committed(db, run, p);
            ShipsOne(after, search) && forall w, r :: !Lacks(after, search, text, w, r)
  {
    var after := Committed(db, run, p);
    forall w, r ensures !Lacks(after, search, text, w, r) {
      if w in Members(db, search) && r in Rungs(db, search) { RungIsHad(db, key, text, search, version, wanted, run, p, w, r); }
    }
  }

  lemma RungIsHad(db: Db, key: KeyFn, text: TextFn, search: Id, version: Id, wanted: seq<Wanted>, run: Id, p: Planned, w: Id, r: int)
    requires IsEncodePlan(db, key, text, search, version, [], [], [], wanted, p) && TellsApart(key) && WellKeyed(db, key)
    requires OnlyInItsRuns(db, search, SearchKeys(db, key, search, version, wanted)) && run !in db.runs
    requires db.searches[search].shipping.Some? && db.searches[search].shipping.value in ArmsOf(db, search)
    requires db.arms[db.searches[search].shipping.value].role == Base && w in Members(db, search) && r in Rungs(db, search)
    ensures ShipsOne(Committed(db, run, p), search) && EncodedAt(Committed(db, run, p), search, text, w, r)
  {
    var after, arm, anchor := Committed(db, run, p), db.arms[db.searches[search].shipping.value], db.searches[search].anchor;
    var x := OnRung(arm, anchor, text, w, r);
    assert x in ArmWants(arm, anchor, text, Members(db, search), Rungs(db, search));
    assert Wants(db, search, text, [], [], [], x);
    var i :| 0 <= i < |wanted| && wanted[i] == x;
    WantedIsHad(db, key, text, search, version, [], [], [], wanted, run, p, i);
    assert arm.settings[anchor := text(r)] in Have(after, search, w);
  }
}
