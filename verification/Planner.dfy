/** Planning an encode or a timing run (sweep/hub/planner.py): what is wanted, what of it is new, and what the
    plan leaves in the store. */
module Planner {
  import opened Names
  import opened Wrappers

  datatype CutKind = Reference | Source

  datatype Role = Base | Candidate | Incumbent

  datatype Arm = Arm(search: Id, role: Role, anchorValue: Id, settings: map<Id, Id>, derived: seq<(Id, int)>)

  datatype Search = Search(unit: Id, contentClass: Id, anchor: Id, shipping: Option<Id>)

  /** The stages as the planner tells them apart; `Scan` stands for those that encode nothing. */
  datatype Stage = Encode | Time | OtherEncoding | Scan

  datatype Run = Run(stage: Stage, host: Id, search: Option<Id>, unit: Id, contentClass: Option<Id>, windows: seq<Id>)

  /** A planned cell: its run, its cut, and its identity settings. */
  datatype Cell = Cell(run: Id, window: Id, kind: CutKind, identity: map<Id, Id>)

  datatype Db = Db(
    searches: map<Id, Search>, arms: map<Id, Arm>,
    codecs: map<Id, Id>,                                // encoder_unit.codec
    ladders: map<Id, seq<int>>,                         // a codec's rungs
    ranges: map<Id, (Option<int>, Option<int>)>,        // setting.range_lo and range_hi
    members: map<Id, seq<Id>>,                          // a class's windows
    referenceSets: map<Id, Id>,                         // content_class.reference_set_id
    cuts: map<(Id, Id, CutKind), Id>,                   // the content sha of a reference set's window's cut
    builds: map<Id, Id>,                                // the ffmpeg build each host last reported
    placements: set<(Id, Id)>,                          // (unit, host)
    lanes: map<Id, seq<Id>>,                            // the lanes a class serves
    chains: set<(Id, Id, Id)>,                          // (lane, host, unit)
    cells: map<Id, Cell>, runs: map<Id, Run>)

  /** The host has reported what it runs, and the unit is one of its own. */
  predicate Equipped(db: Db, host: Id, unit: Id) { host in db.builds && (unit, host) in db.placements }

  /** What a cell's key is made of; the key tells any two of these apart. */
  datatype Configuration = Configuration(
    unit: Id, contentSha: Id, kind: CutKind, window: Id, identity: map<Id, Id>, ffmpegVersion: Id)

  type KeyFn = Configuration -> Id

  ghost predicate TellsApart(key: KeyFn) { forall a, b :: key(a) == key(b) ==> a == b }

  datatype Wanted = Wanted(window: Id, kind: CutKind, identity: map<Id, Id>)

  datatype CellPlan = CellPlan(key: Id, wanted: Wanted)

  datatype Encoded = Encoded(cells: seq<CellPlan>, inputs: map<(Id, CutKind), Id>, skipped: seq<Id>)

  /** Every setting is known and the window's cut is in the reference set. */
  predicate Encodable(db: Db, referenceSet: Id, w: Wanted) {
    w.identity.Keys <= db.ranges.Keys && (referenceSet, w.window, w.kind) in db.cuts
  }

  function KeyOf(key: KeyFn, db: Db, unit: Id, referenceSet: Id, version: Id, w: Wanted): Id
    requires Encodable(db, referenceSet, w)
  {
    key(Configuration(unit, db.cuts[(referenceSet, w.window, w.kind)], w.kind, w.window, w.identity, version))
  }

  function CellKeys(cells: seq<CellPlan>): (keys: seq<Id>)
    ensures |keys| == |cells| && forall i | 0 <= i < |cells| :: keys[i] == cells[i].key
  {
    seq(|cells|, i requires 0 <= i < |cells| => cells[i].key)
  }

  ghost predicate NoRepeats(keys: seq<Id>) { forall i, j | 0 <= i < j < |keys| :: keys[i] != keys[j] }

  /** New and skipped keys have no repeat and no key in common, and are together exactly the wanted list's; a new
      one is in no run yet, a skipped one is; every new cell is a wanted one and has its input. */
  ghost predicate Partitioned(db: Db, keys: seq<Id>, wanted: seq<Wanted>, e: Encoded)
    requires |keys| == |wanted|
  {
    && NoRepeats(CellKeys(e.cells)) && NoRepeats(e.skipped)
    && (forall c | c in e.cells :: c.key !in db.cells && c.key !in e.skipped)
    && (forall k | k in e.skipped :: k in db.cells)
    && (forall k :: k in keys <==> (k in CellKeys(e.cells) || k in e.skipped))
    && (forall c | c in e.cells :: exists i :: 0 <= i < |wanted| && keys[i] == c.key && wanted[i] == c.wanted)
    && (forall c | c in e.cells :: (c.wanted.window, c.wanted.kind) in e.inputs)
  }

  function KeysOf(key: KeyFn, db: Db, unit: Id, referenceSet: Id, version: Id, wanted: seq<Wanted>): (keys: seq<Id>)
    requires forall i | 0 <= i < |wanted| :: Encodable(db, referenceSet, wanted[i])
    ensures |keys| == |wanted|
  {
    seq(|wanted|, i requires 0 <= i < |wanted| => KeyOf(key, db, unit, referenceSet, version, wanted[i]))
  }

  /** Each wanted cell in turn: seen before, in some run already, or new. */
  method EncodeCells(db: Db, key: KeyFn, host: Id, unit: Id, referenceSet: Id, version: Id, wanted: seq<Wanted>) returns (r: Result<Encoded>)
    ensures r.Ok? <==> (unit, host) in db.placements && forall i | 0 <= i < |wanted| :: Encodable(db, referenceSet, wanted[i])
    ensures r.Ok? ==> Partitioned(db, KeysOf(key, db, unit, referenceSet, version, wanted), wanted, r.value)
    ensures r.Ok? ==> InputsAre(db, referenceSet, r.value.inputs)
  {
    if (unit, host) !in db.placements { return Refused; }
    var e, seen: set<Id> := Encoded([], map[], []), {};
    var n := 0;
    while n < |wanted|
      invariant 0 <= n <= |wanted| && forall i | 0 <= i < n :: Encodable(db, referenceSet, wanted[i])
      invariant Partitioned(db, KeysOf(key, db, unit, referenceSet, version, wanted[..n]), wanted[..n], e)
      invariant forall k :: k in seen <==> k in KeysOf(key, db, unit, referenceSet, version, wanted[..n])
      invariant InputsAre(db, referenceSet, e.inputs)
    {
      var w := wanted[n];
      if !Encodable(db, referenceSet, w) { return Refused; }
      ghost var keys := KeysOf(key, db, unit, referenceSet, version, wanted[..n]);
      var k := KeyOf(key, db, unit, referenceSet, version, w);
      KeysNext(key, db, unit, referenceSet, version, wanted, n);
      e, seen := EncodeCell(db, referenceSet, keys, wanted[..n], e, seen, k, w);
      n := n + 1;
    }
    assert wanted[..n] == wanted;
    r := Ok(e);
  }

  /** Every input is its cut's content. */
  ghost predicate InputsAre(db: Db, referenceSet: Id, inputs: map<(Id, CutKind), Id>) {
    forall w | w in inputs :: (referenceSet, w.0, w.1) in db.cuts && inputs[w] == db.cuts[(referenceSet, w.0, w.1)]
  }

  /** One wanted cell: seen before, in some run already, or new. */
  method EncodeCell(db: Db, referenceSet: Id, ghost keys: seq<Id>, ghost wanted: seq<Wanted>, before: Encoded, was: set<Id>, k: Id, w: Wanted)
    returns (e: Encoded, seen: set<Id>)
    requires |keys| == |wanted| && Partitioned(db, keys, wanted, before) && Encodable(db, referenceSet, w)
    requires (forall x :: x in was <==> x in keys) && InputsAre(db, referenceSet, before.inputs)
    ensures Partitioned(db, keys + [k], wanted + [w], e) && (forall x :: x in seen <==> x in keys + [k])
    ensures InputsAre(db, referenceSet, e.inputs)
  {
    var sha := db.cuts[(referenceSet, w.window, w.kind)];
    PartitionNext(db, keys, wanted, before, k, w, sha);
    e, seen := before, was;
    if k in seen { return; }
    seen := seen + {k};
    if k in db.cells {
      e := e.(skipped := e.skipped + [k]);
      return;
    }
    var inputs := if (w.window, w.kind) in e.inputs then e.inputs else e.inputs[(w.window, w.kind) := sha];
    e := Encoded(e.cells + [CellPlan(k, w)], inputs, e.skipped);
  }

  lemma KeysNext(key: KeyFn, db: Db, unit: Id, referenceSet: Id, version: Id, wanted: seq<Wanted>, n: nat)
    requires n < |wanted| && forall i | 0 <= i <= n :: Encodable(db, referenceSet, wanted[i])
    ensures wanted[..n + 1] == wanted[..n] + [wanted[n]]
    ensures KeysOf(key, db, unit, referenceSet, version, wanted[..n + 1]) ==
            KeysOf(key, db, unit, referenceSet, version, wanted[..n]) + [KeyOf(key, db, unit, referenceSet, version, wanted[n])]
  {
  }

  function WithInput(inputs: map<(Id, CutKind), Id>, w: Wanted, sha: Id): map<(Id, CutKind), Id> {
    if (w.window, w.kind) in inputs then inputs else inputs[(w.window, w.kind) := sha]
  }

  /** One more wanted cell. */
  lemma PartitionNext(db: Db, keys: seq<Id>, wanted: seq<Wanted>, e: Encoded, k: Id, w: Wanted, sha: Id)
    requires |keys| == |wanted| && Partitioned(db, keys, wanted, e)
    ensures k in keys ==> Partitioned(db, keys + [k], wanted + [w], e)
    ensures k !in keys && k in db.cells ==> Partitioned(db, keys + [k], wanted + [w], e.(skipped := e.skipped + [k]))
    ensures k !in keys && k !in db.cells ==>
              Partitioned(db, keys + [k], wanted + [w], Encoded(e.cells + [CellPlan(k, w)], WithInput(e.inputs, w, sha), e.skipped))
  {
    StillWanted(keys, wanted, e.cells, k, w);
    if k in keys {
      assert forall x :: x in keys + [k] <==> x in keys;
    } else if k in db.cells {
      assert forall x :: x in e.skipped + [k] <==> x in e.skipped || x == k;
    } else {
      NewCell(db, keys, wanted, e, k, w, sha);
    }
  }

  lemma StillWanted(keys: seq<Id>, wanted: seq<Wanted>, cells: seq<CellPlan>, k: Id, w: Wanted)
    requires |keys| == |wanted|
    requires forall c | c in cells :: exists i :: 0 <= i < |wanted| && keys[i] == c.key && wanted[i] == c.wanted
    ensures forall c | c in cells :: exists i :: 0 <= i < |wanted + [w]| && (keys + [k])[i] == c.key && (wanted + [w])[i] == c.wanted
  {
    forall c | c in cells ensures exists i :: 0 <= i < |wanted + [w]| && (keys + [k])[i] == c.key && (wanted + [w])[i] == c.wanted {
      var i :| 0 <= i < |wanted| && keys[i] == c.key && wanted[i] == c.wanted;
      assert (keys + [k])[i] == c.key && (wanted + [w])[i] == c.wanted;
    }
  }

  lemma NewCell(db: Db, keys: seq<Id>, wanted: seq<Wanted>, e: Encoded, k: Id, w: Wanted, sha: Id)
    requires |keys| == |wanted| && Partitioned(db, keys, wanted, e) && k !in keys && k !in db.cells
    requires forall c | c in e.cells :: exists i :: 0 <= i < |wanted + [w]| && (keys + [k])[i] == c.key && (wanted + [w])[i] == c.wanted
    ensures Partitioned(db, keys + [k], wanted + [w], Encoded(e.cells + [CellPlan(k, w)], WithInput(e.inputs, w, sha), e.skipped))
  {
    var cells := e.cells + [CellPlan(k, w)];
    assert CellKeys(cells) == CellKeys(e.cells) + [k];
    assert forall x :: x in CellKeys(cells) <==> x in CellKeys(e.cells) || x == k;
    assert (keys + [k])[|keys|] == k && (wanted + [w])[|keys|] == w;
  }

  /** The cell's key is in no run yet. */
  predicate IsNew(key: KeyFn, db: Db, unit: Id, referenceSet: Id, version: Id, x: Wanted) {
    Encodable(db, referenceSet, x) && KeyOf(key, db, unit, referenceSet, version, x) !in db.cells
  }

  /** Something is emitted exactly when something wanted is new. */
  lemma NewIsWanted(key: KeyFn, db: Db, unit: Id, referenceSet: Id, version: Id, wanted: seq<Wanted>, e: Encoded)
    requires forall i | 0 <= i < |wanted| :: Encodable(db, referenceSet, wanted[i])
    requires Partitioned(db, KeysOf(key, db, unit, referenceSet, version, wanted), wanted, e)
    ensures e.cells != [] <==> exists x :: x in wanted && IsNew(key, db, unit, referenceSet, version, x)
  {
    var keys := KeysOf(key, db, unit, referenceSet, version, wanted);
    if e.cells != [] {
      var c := e.cells[0];
      assert c in e.cells;
      var i :| 0 <= i < |wanted| && keys[i] == c.key && wanted[i] == c.wanted;
      assert wanted[i] in wanted && IsNew(key, db, unit, referenceSet, version, wanted[i]);
    }
    if x :| x in wanted && IsNew(key, db, unit, referenceSet, version, x) {
      var i :| 0 <= i < |wanted| && wanted[i] == x;
      assert keys[i] in keys;
    }
  }

  // ---- what an encode run wants

  /** Decimal text of a rung, one text a number. */
  type TextFn = int -> Id

  function ArmsOf(db: Db, search: Id): set<Id> { set a | a in db.arms && db.arms[a].search == search }

  predicate InRange(db: Db, setting: Id, rung: int) {
    setting in db.ranges
    && (db.ranges[setting].0.None? || rung >= db.ranges[setting].0.value)
    && (db.ranges[setting].1.None? || rung <= db.ranges[setting].1.value)
  }

  function OnRung(arm: Arm, anchor: Id, text: TextFn, window: Id, rung: int): Wanted {
    Wanted(window, Reference, arm.settings[anchor := text(rung)])
  }

  function AtItsAnchor(arm: Arm, anchor: Id, window: Id): Wanted { Wanted(window, Reference, arm.settings[anchor := arm.anchorValue]) }

  /** The base arm on every rung of every window, the incumbent at its pinned anchor, a candidate on its own
      derived ladder inside the windows. */
  function ArmWants(arm: Arm, anchor: Id, text: TextFn, windows: seq<Id>, rungs: seq<int>): set<Wanted> {
    match arm.role
    case Base => set w, r | w in windows && r in rungs :: OnRung(arm, anchor, text, w, r)
    case Incumbent => set w | w in windows :: AtItsAnchor(arm, anchor, w)
    case Candidate => set d | d in arm.derived && d.0 in windows :: OnRung(arm, anchor, text, d.0, d.1)
  }

  method ListArm(arm: Arm, anchor: Id, text: TextFn, windows: seq<Id>, rungs: seq<int>) returns (wanted: seq<Wanted>)
    ensures forall x :: x in wanted <==> x in ArmWants(arm, anchor, text, windows, rungs)
  {
    if arm.role == Base {
      wanted := ListBase(arm, anchor, text, windows, rungs);
    } else if arm.role == Incumbent {
      wanted := [];
      var i := 0;
      while i < |windows|
        invariant 0 <= i <= |windows|
        invariant forall x :: x in wanted <==> exists w :: w in windows[..i] && x == AtItsAnchor(arm, anchor, w)
      {
        assert windows[..i + 1] == windows[..i] + [windows[i]];
        InOneMore(windows[..i], windows[i]);
        wanted := wanted + [AtItsAnchor(arm, anchor, windows[i])];
        i := i + 1;
      }
      assert windows[..i] == windows;
    } else {
      wanted := [];
      var i := 0;
      while i < |arm.derived|
        invariant 0 <= i <= |arm.derived|
        invariant forall x :: x in wanted <==> exists d :: d in arm.derived[..i] && d.0 in windows && x == OnRung(arm, anchor, text, d.0, d.1)
      {
        assert arm.derived[..i + 1] == arm.derived[..i] + [arm.derived[i]];
        InOneMore(arm.derived[..i], arm.derived[i]);
        var d := arm.derived[i];
        if d.0 in windows { wanted := wanted + [OnRung(arm, anchor, text, d.0, d.1)]; }
        i := i + 1;
      }
      assert arm.derived[..i] == arm.derived;
    }
  }

  lemma InOneMore<T>(s: seq<T>, y: T)
    ensures forall x :: x in s + [y] <==> x in s || x == y
  {
  }

  method ListBase(arm: Arm, anchor: Id, text: TextFn, windows: seq<Id>, rungs: seq<int>) returns (wanted: seq<Wanted>)
    ensures forall x :: x in wanted <==> exists w, r :: w in windows && r in rungs && x == OnRung(arm, anchor, text, w, r)
  {
    wanted := [];
    var i := 0;
    while i < |windows|
      invariant 0 <= i <= |windows|
      invariant forall x :: x in wanted <==> exists w, r :: w in windows[..i] && r in rungs && x == OnRung(arm, anchor, text, w, r)
    {
      assert windows[..i + 1] == windows[..i] + [windows[i]];
      InOneMore(windows[..i], windows[i]);
      var more := ListRungs(arm, anchor, text, windows[i], rungs);
      wanted := wanted + more;
      i := i + 1;
    }
    assert windows[..i] == windows;
  }

  method ListRungs(arm: Arm, anchor: Id, text: TextFn, window: Id, rungs: seq<int>) returns (wanted: seq<Wanted>)
    ensures forall x :: x in wanted <==> exists r :: r in rungs && x == OnRung(arm, anchor, text, window, r)
  {
    wanted := [];
    var i := 0;
    while i < |rungs|
      invariant 0 <= i <= |rungs|
      invariant forall x :: x in wanted <==> exists r :: r in rungs[..i] && x == OnRung(arm, anchor, text, window, r)
    {
      assert rungs[..i + 1] == rungs[..i] + [rungs[i]];
      InOneMore(rungs[..i], rungs[i]);
      wanted := wanted + [OnRung(arm, anchor, text, window, rungs[i])];
      i := i + 1;
    }
    assert rungs[..i] == rungs;
  }

  /** The ladder's rungs inside the anchor's range. */
  function RungsInRange(ladder: seq<int>, db: Db, anchor: Id): (rungs: seq<int>)
    ensures forall r :: r in rungs <==> r in ladder && InRange(db, anchor, r)
  {
    if ladder == [] then []
    else
      assert ladder == [ladder[0]] + ladder[1..];
      (if InRange(db, anchor, ladder[0]) then [ladder[0]] else []) + RungsInRange(ladder[1..], db, anchor)
  }

  /** Everything a search's plan is made from is there. */
  predicate Plannable(db: Db, search: Id) {
    && search in db.searches
    && db.searches[search].unit in db.codecs && db.searches[search].anchor in db.ranges
    && db.searches[search].contentClass in db.referenceSets
  }

  function Members(db: Db, search: Id): seq<Id>
    requires Plannable(db, search)
  {
    var cc := db.searches[search].contentClass;
    if cc in db.members then db.members[cc] else []
  }

  function LadderOf(db: Db, codec: Id): seq<int> { if codec in db.ladders then db.ladders[codec] else [] }

  function Rungs(db: Db, search: Id): seq<int>
    requires Plannable(db, search)
  {
    RungsInRange(LadderOf(db, db.codecs[db.searches[search].unit]), db, db.searches[search].anchor)
  }

  /** What the named subset of a search wants; nothing named is everything. */
  ghost predicate Wants(db: Db, search: Id, text: TextFn, windows: seq<Id>, rungs: seq<int>, arms: seq<Id>, x: Wanted)
    requires Plannable(db, search)
  {
    var ws := if windows == [] then Members(db, search) else windows;
    var rs := if rungs == [] then Rungs(db, search) else rungs;
    exists a :: a in ArmsOf(db, search) && (arms == [] || a in arms) && x in ArmWants(db.arms[a], db.searches[search].anchor, text, ws, rs)
  }

  /** The subset names the class's windows, the ladder's in-range rungs and the search's own arms. */
  predicate Named(db: Db, search: Id, windows: seq<Id>, rungs: seq<int>, arms: seq<Id>)
    requires Plannable(db, search)
  {
    && (forall w | w in windows :: w in Members(db, search))
    && (forall r | r in rungs :: r in Rungs(db, search))
    && (forall a | a in arms :: a in ArmsOf(db, search))
  }

  /** The plan of an encode run: its row, and the cells that are new. */
  datatype Planned = Planned(row: Run, encoded: Encoded)

  /** Every wanted cell can be encoded, and some of them is in no run yet. */
  ghost predicate EncodesNew(db: Db, key: KeyFn, text: TextFn, search: Id, version: Id, windows: seq<Id>, rungs: seq<int>, arms: seq<Id>)
    requires Plannable(db, search)
  {
    var s := db.searches[search];
    && (forall x | Wants(db, search, text, windows, rungs, arms, x) :: Encodable(db, db.referenceSets[s.contentClass], x))
    && exists x :: Wants(db, search, text, windows, rungs, arms, x) && IsNew(key, db, s.unit, db.referenceSets[s.contentClass], version, x)
  }

  lemma EncodesNewIs(db: Db, key: KeyFn, text: TextFn, search: Id, version: Id, windows: seq<Id>, rungs: seq<int>, arms: seq<Id>,
                     wanted: seq<Wanted>, encoded: Result<Encoded>)
    requires Plannable(db, search) && forall x :: x in wanted <==> Wants(db, search, text, windows, rungs, arms, x)
    requires encoded.Ok? <==> forall i | 0 <= i < |wanted| :: Encodable(db, db.referenceSets[db.searches[search].contentClass], wanted[i])
    requires encoded.Ok? ==> Partitioned(db, SearchKeys(db, key, search, version, wanted), wanted, encoded.value)
    ensures EncodesNew(db, key, text, search, version, windows, rungs, arms) <==> encoded.Ok? && encoded.value.cells != []
  {
    var s := db.searches[search];
    var referenceSet := db.referenceSets[s.contentClass];
    if encoded.Refused? {
      var i :| 0 <= i < |wanted| && !Encodable(db, referenceSet, wanted[i]);
      assert wanted[i] in wanted;
    } else {
      NewIsWanted(key, db, s.unit, referenceSet, version, wanted, encoded.value);
    }
  }

  method PlanEncode(db: Db, key: KeyFn, text: TextFn, search: Id, host: Id, windows: seq<Id>, rungs: seq<int>, arms: seq<Id>)
    returns (r: Result<Planned>)
    ensures r.Ok? <==> && Plannable(db, search) && Equipped(db, host, db.searches[search].unit) && Named(db, search, windows, rungs, arms)
                       && EncodesNew(db, key, text, search, db.builds[host], windows, rungs, arms)
    ensures r.Ok? ==> r.value.row.host == host
    ensures r.Ok? ==> exists wanted :: IsEncodePlan(db, key, text, search, db.builds[host], windows, rungs, arms, wanted, r.value)
  {
    if !Plannable(db, search) || host !in db.builds || !Named(db, search, windows, rungs, arms) { return Refused; }
    var version := db.builds[host];
    var s := db.searches[search];
    var ws := if windows == [] then Members(db, search) else windows;
    var rs := if rungs == [] then Rungs(db, search) else rungs;
    var chosen := if arms == [] then ArmsOf(db, search) else ArmsOf(db, search) * (set a | a in arms);
    var wanted := ListArms(db, s.anchor, text, ws, rs, chosen);
    ListedIsWanted(db, search, text, windows, rungs, arms, chosen, wanted);
    var referenceSet := db.referenceSets[s.contentClass];
    if (s.unit, host) !in db.placements { return Refused; }
    var encoded := EncodeCells(db, key, host, s.unit, referenceSet, version, wanted);
    EncodesNewIs(db, key, text, search, version, windows, rungs, arms, wanted, encoded);
    if encoded.Refused? || encoded.value.cells == [] { return Refused; }
    r := Ok(Planned(Run(Encode, host, Some(search), s.unit, Some(s.contentClass), ws), encoded.value));
    assert IsEncodePlan(db, key, text, search, version, windows, rungs, arms, wanted, r.value);
  }

  method ListArms(db: Db, anchor: Id, text: TextFn, windows: seq<Id>, rungs: seq<int>, chosen: set<Id>) returns (wanted: seq<Wanted>)
    requires chosen <= db.arms.Keys
    ensures forall x :: x in wanted <==> exists a :: a in chosen && x in ArmWants(db.arms[a], anchor, text, windows, rungs)
  {
    wanted := [];
    var left := chosen;
    while left != {}
      invariant left <= chosen
      invariant forall x :: x in wanted <==> exists a :: a in chosen - left && x in ArmWants(db.arms[a], anchor, text, windows, rungs)
      decreases |left|
    {
      var a :| a in left;
      var more := ListArm(db.arms[a], anchor, text, windows, rungs);
      ArmsNext(db, anchor, text, windows, rungs, chosen - left, a, wanted, more);
      assert chosen - (left - {a}) == (chosen - left) + {a};
      wanted := wanted + more;
      left := left - {a};
    }
  }

  lemma ArmsNext(db: Db, anchor: Id, text: TextFn, windows: seq<Id>, rungs: seq<int>, seen: set<Id>, a: Id, before: seq<Wanted>, more: seq<Wanted>)
    requires seen <= db.arms.Keys && a in db.arms
    requires forall x :: x in before <==> exists b :: b in seen && x in ArmWants(db.arms[b], anchor, text, windows, rungs)
    requires forall x :: x in more <==> x in ArmWants(db.arms[a], anchor, text, windows, rungs)
    ensures forall x :: x in before + more <==> exists b :: b in seen + {a} && x in ArmWants(db.arms[b], anchor, text, windows, rungs)
  {
  }

  lemma ListedIsWanted(db: Db, search: Id, text: TextFn, windows: seq<Id>, rungs: seq<int>, arms: seq<Id>, chosen: set<Id>, list: seq<Wanted>)
    requires Plannable(db, search) && Named(db, search, windows, rungs, arms)
    requires chosen == if arms == [] then ArmsOf(db, search) else ArmsOf(db, search) * (set a | a in arms)
    requires var ws := if windows == [] then Members(db, search) else windows;
             var rs := if rungs == [] then Rungs(db, search) else rungs;
             forall x :: x in list <==> exists a :: a in chosen && x in ArmWants(db.arms[a], db.searches[search].anchor, text, ws, rs)
    ensures forall x :: x in list <==> Wants(db, search, text, windows, rungs, arms, x)
  {
  }

  /** An encode run's plan, whole: it wants exactly what the subset names, and partitions it. */
  ghost predicate IsEncodePlan(db: Db, key: KeyFn, text: TextFn, search: Id, version: Id, windows: seq<Id>, rungs: seq<int>, arms: seq<Id>,
                               wanted: seq<Wanted>, p: Planned)
  {
    && Plannable(db, search)
    && (forall x :: x in wanted <==> Wants(db, search, text, windows, rungs, arms, x))
    && p.row == Run(Encode, p.row.host, Some(search), db.searches[search].unit, Some(db.searches[search].contentClass),
                    if windows == [] then Members(db, search) else windows)
    && (forall i | 0 <= i < |wanted| :: Encodable(db, db.referenceSets[db.searches[search].contentClass], wanted[i]))
    && InputsAre(db, db.referenceSets[db.searches[search].contentClass], p.encoded.inputs)
    && Partitioned(db, SearchKeys(db, key, search, version, wanted), wanted, p.encoded)
  }

  function SearchKeys(db: Db, key: KeyFn, search: Id, version: Id, wanted: seq<Wanted>): (keys: seq<Id>)
    requires Plannable(db, search)
    requires forall i | 0 <= i < |wanted| :: Encodable(db, db.referenceSets[db.searches[search].contentClass], wanted[i])
    ensures |keys| == |wanted|
  {
    KeysOf(key, db, db.searches[search].unit, db.referenceSets[db.searches[search].contentClass], version, wanted)
  }

  // ---- what a timing run wants

  /** The configurations a run's cells were encoded with. */
  function ConfigurationsOf(db: Db, run: Id): set<map<Id, Id>> { set k | k in db.cells && db.cells[k].run == run :: db.cells[k].identity }

  predicate Timeable(db: Db, source: Id) {
    && source in db.runs && db.runs[source].stage != Scan
    && db.runs[source].contentClass.Some? && db.runs[source].contentClass.value in db.referenceSets
  }

  /** The lane to time: the one that is named, else the only one the class serves. */
  function LaneOf(db: Db, contentClass: Id, lane: Option<Id>): Option<Id> {
    var served := if contentClass in db.lanes then db.lanes[contentClass] else [];
    if lane.Some? then lane else if |served| == 1 then Some(served[0]) else None
  }

  /** There is one lane to time, its chain is built on the source's host and unit, and the host can run it. */
  predicate HasChain(db: Db, source: Id, lane: Option<Id>)
    requires Timeable(db, source)
  {
    var row := db.runs[source];
    var timed := LaneOf(db, row.contentClass.value, lane);
    timed.Some? && (timed.value, row.host, row.unit) in db.chains && Equipped(db, row.host, row.unit)
  }

  /** Every configuration of the source run on every window's source cut. */
  ghost predicate WantsTimed(db: Db, source: Id, x: Wanted)
    requires Timeable(db, source)
  {
    x.kind == Source && x.window in db.runs[source].windows && x.identity in ConfigurationsOf(db, source)
  }

  /** Every wanted cell can be timed, and some of them is in no run yet. */
  ghost predicate TimesNew(db: Db, key: KeyFn, source: Id, version: Id)
    requires Timeable(db, source)
  {
    var row := db.runs[source];
    && (forall x | WantsTimed(db, source, x) :: Encodable(db, db.referenceSets[row.contentClass.value], x))
    && exists x :: WantsTimed(db, source, x) && IsNew(key, db, row.unit, db.referenceSets[row.contentClass.value], version, x)
  }

  method PlanTime(db: Db, key: KeyFn, source: Id, lane: Option<Id>) returns (r: Result<Planned>)
    ensures r.Ok? <==> Timeable(db, source) && HasChain(db, source, lane) && TimesNew(db, key, source, db.builds[db.runs[source].host])
    ensures r.Ok? ==> exists wanted :: IsTimePlan(db, key, source, db.builds[db.runs[source].host], wanted, r.value)
  {
    if !Timeable(db, source) { return Refused; }
    var row := db.runs[source];
    if row.host !in db.builds { return Refused; }
    var timed := LaneOf(db, row.contentClass.value, lane);
    if timed.None? || (timed.value, row.host, row.unit) !in db.chains || (row.unit, row.host) !in db.placements { return Refused; }
    var version := db.builds[row.host];
    var wanted: seq<Wanted> := [];
    var i := 0;
    while i < |row.windows|
      invariant 0 <= i <= |row.windows|
      invariant forall x :: x in wanted <==> x.kind == Source && x.window in row.windows[..i] && x.identity in ConfigurationsOf(db, source)
    {
      assert row.windows[..i + 1] == row.windows[..i] + [row.windows[i]];
      InOneMore(row.windows[..i], row.windows[i]);
      var more := ListTimed(row.windows[i], ConfigurationsOf(db, source));
      wanted := wanted + more;
      i := i + 1;
    }
    assert row.windows[..i] == row.windows;
    assert forall x :: x in wanted <==> WantsTimed(db, source, x);
    var referenceSet := db.referenceSets[row.contentClass.value];
    var encoded := EncodeCells(db, key, row.host, row.unit, referenceSet, version, wanted);
    if encoded.Refused? {
      ghost var i :| 0 <= i < |wanted| && !Encodable(db, referenceSet, wanted[i]);
      assert wanted[i] in wanted;
      return Refused;
    }
    NewIsWanted(key, db, row.unit, referenceSet, version, wanted, encoded.value);
    if encoded.value.cells == [] { return Refused; }
    r := Ok(Planned(Run(Time, row.host, row.search, row.unit, row.contentClass, row.windows), encoded.value));
    assert IsTimePlan(db, key, source, version, wanted, r.value);
  }

  method ListTimed(window: Id, configurations: set<map<Id, Id>>) returns (wanted: seq<Wanted>)
    ensures forall x :: x in wanted <==> x.kind == Source && x.window == window && x.identity in configurations
  {
    wanted := [];
    var left := configurations;
    while left != {}
      invariant left <= configurations
      invariant forall x :: x in wanted <==> x.kind == Source && x.window == window && x.identity in configurations - left
      decreases |left|
    {
      var c :| c in left;
      InOneMore(wanted, Wanted(window, Source, c));
      wanted := wanted + [Wanted(window, Source, c)];
      left := left - {c};
    }
  }

  ghost predicate IsTimePlan(db: Db, key: KeyFn, source: Id, version: Id, wanted: seq<Wanted>, p: Planned) {
    && Timeable(db, source)
    && (forall x :: x in wanted <==> WantsTimed(db, source, x))
    && p.row == db.runs[source].(stage := Time)
    && (forall i | 0 <= i < |wanted| :: Encodable(db, db.referenceSets[db.runs[source].contentClass.value], wanted[i]))
    && InputsAre(db, db.referenceSets[db.runs[source].contentClass.value], p.encoded.inputs)
    && Partitioned(db, KeysOf(key, db, db.runs[source].unit, db.referenceSets[db.runs[source].contentClass.value], version, wanted), wanted, p.encoded)
  }

  // ---- what committing a plan leaves

  function RowOf(run: Id, c: CellPlan): Cell { Cell(run, c.wanted.window, c.wanted.kind, c.wanted.identity) }

  function CellRows(run: Id, cells: seq<CellPlan>): map<Id, Cell> {
    if cells == [] then map[]
    else
      var c := cells[|cells| - 1];
      CellRows(run, cells[..|cells| - 1])[c.key := RowOf(run, c)]
  }

  function Committed(db: Db, run: Id, p: Planned): Db {
    db.(runs := db.runs[run := p.row], cells := db.cells + CellRows(run, p.encoded.cells))
  }

  lemma {:induction false} CellRowsAt(run: Id, cells: seq<CellPlan>)
    requires forall i, j | 0 <= i < j < |cells| :: cells[i].key != cells[j].key
    ensures forall k :: k in CellRows(run, cells) <==> exists i :: 0 <= i < |cells| && cells[i].key == k
    ensures forall i | 0 <= i < |cells| :: cells[i].key in CellRows(run, cells) && CellRows(run, cells)[cells[i].key] == RowOf(run, cells[i])
  {
    if cells != [] {
      var init := cells[..|cells| - 1];
      CellRowsAt(run, init);
      forall k ensures k in CellRows(run, cells) <==> exists i :: 0 <= i < |cells| && cells[i].key == k {
        if k in CellRows(run, init) {
          var i :| 0 <= i < |init| && init[i].key == k;
          assert cells[i].key == k;
        }
        if i :| 0 <= i < |cells| && cells[i].key == k { if i < |init| { assert init[i].key == k; } }
      }
      forall i | 0 <= i < |cells| ensures cells[i].key in CellRows(run, cells) && CellRows(run, cells)[cells[i].key] == RowOf(run, cells[i]) {
        if i < |init| { assert init[i].key in CellRows(run, init) && cells[i].key != cells[|cells| - 1].key; }
      }
    }
  }

  lemma CellRowsAre(run: Id, cells: seq<CellPlan>)
    requires NoRepeats(CellKeys(cells))
    ensures forall k :: k in CellRows(run, cells) <==> k in CellKeys(cells)
    ensures forall c | c in cells :: c.key in CellRows(run, cells) && CellRows(run, cells)[c.key] == RowOf(run, c)
  {
    forall i, j | 0 <= i < j < |cells| ensures cells[i].key != cells[j].key {
      assert CellKeys(cells)[i] != CellKeys(cells)[j];
    }
    CellRowsAt(run, cells);
    forall k ensures k in CellRows(run, cells) <==> k in CellKeys(cells) {
      if k in CellRows(run, cells) {
        var i :| 0 <= i < |cells| && cells[i].key == k;
        assert CellKeys(cells)[i] == k;
      }
    }
  }

  /** Every wanted cell is in the store once its plan is. */
  lemma CommittedHas(db: Db, keys: seq<Id>, wanted: seq<Wanted>, run: Id, p: Planned, k: Id)
    requires |keys| == |wanted| && Partitioned(db, keys, wanted, p.encoded) && k in keys
    ensures k in Committed(db, run, p).cells
  {
    CellRowsAre(run, p.encoded.cells);
  }

  /** The same plan again, with the same identity and the same cuts, finds nothing to encode: it is refused. */
  lemma ReplanRefused(db: Db, key: KeyFn, text: TextFn, search: Id, version: Id, windows: seq<Id>, rungs: seq<int>, arms: seq<Id>,
                      wanted: seq<Wanted>, run: Id, p: Planned)
    requires IsEncodePlan(db, key, text, search, version, windows, rungs, arms, wanted, p)
    ensures Plannable(Committed(db, run, p), search)
    ensures !EncodesNew(Committed(db, run, p), key, text, search, version, windows, rungs, arms)
  {
    var after, s := Committed(db, run, p), db.searches[search];
    forall x | Wants(after, search, text, windows, rungs, arms, x)
      ensures !IsNew(key, after, s.unit, db.referenceSets[s.contentClass], version, x)
    {
      SameWants(db, after, text, search, windows, rungs, arms, x);
      assert x in wanted;
      var j :| 0 <= j < |wanted| && wanted[j] == x;
      var keys := SearchKeys(db, key, search, version, wanted);
      assert keys[j] in keys;
      CommittedHas(db, keys, wanted, run, p, keys[j]);
    }
  }

  lemma SameWants(a: Db, b: Db, text: TextFn, search: Id, windows: seq<Id>, rungs: seq<int>, arms: seq<Id>, x: Wanted)
    requires Plannable(a, search) && b == a.(runs := b.runs, cells := b.cells)
    ensures Plannable(b, search) && (Wants(a, search, text, windows, rungs, arms, x) <==> Wants(b, search, text, windows, rungs, arms, x))
  {
    assert ArmsOf(a, search) == ArmsOf(b, search);
    SameRungs(a, b, LadderOf(a, a.codecs[a.searches[search].unit]), a.searches[search].anchor);
  }

  lemma {:induction false} SameRungs(a: Db, b: Db, ladder: seq<int>, anchor: Id)
    requires a.ranges == b.ranges
    ensures RungsInRange(ladder, a, anchor) == RungsInRange(ladder, b, anchor)
  {
    if ladder != [] { SameRungs(a, b, ladder[1..], anchor); }
  }

  // ---- the plans in the rows, apart from the definitions above

  /** A rung an encode run may be planned at: on the codec's ladder, no lower bound above it, no upper bound below it. */
  predicate OnLadder(db: Db, s: Search, r: int)
    requires s.unit in db.codecs && s.anchor in db.ranges
  {
    var (lo, hi) := db.ranges[s.anchor];
    && db.codecs[s.unit] in db.ladders && r in db.ladders[db.codecs[s.unit]]
    && (lo.Some? ==> lo.value <= r) && (hi.Some? ==> r <= hi.value)
  }

  predicate OfClass(db: Db, s: Search, window: Id) { s.contentClass in db.members && window in db.members[s.contentClass] }

  /** The search and what it names are there. */
  predicate HasRows(db: Db, search: Id) {
    && search in db.searches && db.searches[search].unit in db.codecs && db.searches[search].anchor in db.ranges
    && db.searches[search].contentClass in db.referenceSets
  }

  lemma RungsAre(db: Db, search: Id)
    requires HasRows(db, search)
    ensures Plannable(db, search) && forall r :: r in Rungs(db, search) <==> OnLadder(db, db.searches[search], r)
  {
  }

  /** The anchor values an arm is planned at on a window: the base arm's rungs, the incumbent's own value, the rungs a
      candidate derived there. */
  ghost predicate PutAt(db: Db, s: Search, text: TextFn, rungs: seq<int>, arm: Arm, window: Id, value: Id)
    requires s.unit in db.codecs && s.anchor in db.ranges
  {
    match arm.role
    case Base => exists r :: value == text(r) && if rungs == [] then OnLadder(db, s, r) else r in rungs
    case Incumbent => value == arm.anchorValue
    case Candidate => exists r :: value == text(r) && (window, r) in arm.derived
  }

  /** A cell the operator calls for: on a reference cut, of a named window or any of the class's, with the settings of a
      named arm or any of the search's, and the anchor at one of that arm's values there. */
  ghost predicate Calls(db: Db, search: Id, text: TextFn, windows: seq<Id>, rungs: seq<int>, arms: seq<Id>, x: Wanted)
    requires HasRows(db, search)
  {
    var s := db.searches[search];
    && x.kind == Reference && (if windows == [] then OfClass(db, s, x.window) else x.window in windows)
    && exists a, value :: && a in db.arms && db.arms[a].search == search && (arms == [] || a in arms)
                          && PutAt(db, s, text, rungs, db.arms[a], x.window, value) && x.identity == db.arms[a].settings[s.anchor := value]
  }

  lemma ArmWantsExactly(db: Db, search: Id, text: TextFn, windows: seq<Id>, rungs: seq<int>, arm: Arm, x: Wanted)
    requires HasRows(db, search) && Plannable(db, search)
    ensures var s, ws, rs := db.searches[search], if windows == [] then Members(db, search) else windows, if rungs == [] then Rungs(db, search) else rungs;
            x in ArmWants(arm, s.anchor, text, ws, rs) <==>
              && x.kind == Reference && x.window in ws
              && exists value :: PutAt(db, s, text, rungs, arm, x.window, value) && x.identity == arm.settings[s.anchor := value]
  {
    var s, ws, rs := db.searches[search], if windows == [] then Members(db, search) else windows, if rungs == [] then Rungs(db, search) else rungs;
    RungsAre(db, search);
    match arm.role {
      case Base =>
        if x in ArmWants(arm, s.anchor, text, ws, rs) {
          var w, r :| w in ws && r in rs && x == OnRung(arm, s.anchor, text, w, r);
          assert PutAt(db, s, text, rungs, arm, w, text(r));
        }
        if value :| x.kind == Reference && x.window in ws && PutAt(db, s, text, rungs, arm, x.window, value) && x.identity == arm.settings[s.anchor := value] {
          var r :| value == text(r) && if rungs == [] then OnLadder(db, s, r) else r in rungs;
          assert x == OnRung(arm, s.anchor, text, x.window, r);
        }
      case Incumbent =>
        if x in ArmWants(arm, s.anchor, text, ws, rs) { assert PutAt(db, s, text, rungs, arm, x.window, arm.anchorValue); }
        if value :| x.kind == Reference && x.window in ws && PutAt(db, s, text, rungs, arm, x.window, value) && x.identity == arm.settings[s.anchor := value] {
          assert x == AtItsAnchor(arm, s.anchor, x.window);
        }
      case Candidate =>
        if x in ArmWants(arm, s.anchor, text, ws, rs) {
          var d :| d in arm.derived && d.0 in ws && x == OnRung(arm, s.anchor, text, d.0, d.1);
          assert d == (d.0, d.1) && PutAt(db, s, text, rungs, arm, d.0, text(d.1));
        }
        if value :| x.kind == Reference && x.window in ws && PutAt(db, s, text, rungs, arm, x.window, value) && x.identity == arm.settings[s.anchor := value] {
          var r :| value == text(r) && (x.window, r) in arm.derived;
          assert x == OnRung(arm, s.anchor, text, x.window, r);
        }
    }
  }

  lemma WantsExactly(db: Db, search: Id, text: TextFn, windows: seq<Id>, rungs: seq<int>, arms: seq<Id>, x: Wanted)
    requires HasRows(db, search)
    ensures Plannable(db, search)
    ensures Wants(db, search, text, windows, rungs, arms, x) <==> Calls(db, search, text, windows, rungs, arms, x)
  {
    var s, ws, rs := db.searches[search], if windows == [] then Members(db, search) else windows, if rungs == [] then Rungs(db, search) else rungs;
    assert x.window in ws <==> if windows == [] then OfClass(db, s, x.window) else x.window in windows;
    forall a | a in db.arms
      ensures x in ArmWants(db.arms[a], s.anchor, text, ws, rs) <==>
                && x.kind == Reference && x.window in ws
                && exists value :: PutAt(db, s, text, rungs, db.arms[a], x.window, value) && x.identity == db.arms[a].settings[s.anchor := value]
    {
      ArmWantsExactly(db, search, text, windows, rungs, db.arms[a], x);
    }
    if Wants(db, search, text, windows, rungs, arms, x) {
      var a :| a in ArmsOf(db, search) && (arms == [] || a in arms) && x in ArmWants(db.arms[a], s.anchor, text, ws, rs);
      var value :| PutAt(db, s, text, rungs, db.arms[a], x.window, value) && x.identity == db.arms[a].settings[s.anchor := value];
      assert a in db.arms && db.arms[a].search == search;
    }
    if Calls(db, search, text, windows, rungs, arms, x) {
      var a, value :| && a in db.arms && db.arms[a].search == search && (arms == [] || a in arms)
                      && PutAt(db, s, text, rungs, db.arms[a], x.window, value) && x.identity == db.arms[a].settings[s.anchor := value];
      assert a in ArmsOf(db, search);
    }
  }

  /** The key a cell of this unit on this cut has. */
  function KeyAt(key: KeyFn, db: Db, unit: Id, referenceSet: Id, version: Id, x: Wanted): Id
    requires (referenceSet, x.window, x.kind) in db.cuts
  {
    key(Configuration(unit := unit, contentSha := db.cuts[(referenceSet, x.window, x.kind)], kind := x.kind, window := x.window,
                      identity := x.identity, ffmpegVersion := version))
  }

  /** The operator names windows of the class, rungs of the ladder within the anchor's bounds, and arms of the search. */
  predicate NamesItsOwn(db: Db, search: Id, windows: seq<Id>, rungs: seq<int>, arms: seq<Id>)
    requires HasRows(db, search)
  {
    && (forall w | w in windows :: OfClass(db, db.searches[search], w))
    && (forall r | r in rungs :: OnLadder(db, db.searches[search], r))
    && (forall a | a in arms :: a in db.arms && db.arms[a].search == search)
  }

  /** Each of these cells sets known settings on a cut of the reference set. */
  ghost predicate AllHaveCuts(db: Db, referenceSet: Id, called: Wanted -> bool) {
    forall x | called(x) :: (forall setting | setting in x.identity :: setting in db.ranges) && (referenceSet, x.window, x.kind) in db.cuts
  }

  /** One of them is in no run yet. */
  ghost predicate OneIsNew(db: Db, key: KeyFn, unit: Id, referenceSet: Id, version: Id, called: Wanted -> bool) {
    exists x :: called(x) && (referenceSet, x.window, x.kind) in db.cuts && KeyAt(key, db, unit, referenceSet, version, x) !in db.cells
  }

  ghost function CalledFor(db: Db, search: Id, text: TextFn, windows: seq<Id>, rungs: seq<int>, arms: seq<Id>): Wanted -> bool
    requires HasRows(db, search)
  {
    x => Calls(db, search, text, windows, rungs, arms, x)
  }

  /** When `plan_encode` succeeds, in the rows. */
  lemma PlanEncodeExactly(db: Db, key: KeyFn, text: TextFn, search: Id, host: Id, windows: seq<Id>, rungs: seq<int>, arms: seq<Id>)
    ensures (&& Plannable(db, search) && Equipped(db, host, db.searches[search].unit) && Named(db, search, windows, rungs, arms)
             && EncodesNew(db, key, text, search, db.builds[host], windows, rungs, arms)) <==>
            (&& HasRows(db, search) && host in db.builds && (db.searches[search].unit, host) in db.placements
             && NamesItsOwn(db, search, windows, rungs, arms)
             && var s, called := db.searches[search], CalledFor(db, search, text, windows, rungs, arms);
                AllHaveCuts(db, db.referenceSets[s.contentClass], called)
                && OneIsNew(db, key, s.unit, db.referenceSets[s.contentClass], db.builds[host], called))
  {
    if HasRows(db, search) && host in db.builds {
      RungsAre(db, search);
      NewExactly(db, key, text, search, db.builds[host], windows, rungs, arms);
    }
  }

  lemma NewExactly(db: Db, key: KeyFn, text: TextFn, search: Id, version: Id, windows: seq<Id>, rungs: seq<int>, arms: seq<Id>)
    requires HasRows(db, search) && Plannable(db, search)
    ensures EncodesNew(db, key, text, search, version, windows, rungs, arms) <==>
              var s, called := db.searches[search], CalledFor(db, search, text, windows, rungs, arms);
              && AllHaveCuts(db, db.referenceSets[s.contentClass], called)
              && OneIsNew(db, key, s.unit, db.referenceSets[s.contentClass], version, called)
  {
    var s, called := db.searches[search], CalledFor(db, search, text, windows, rungs, arms);
    forall x ensures Wants(db, search, text, windows, rungs, arms, x) <==> called(x) { WantsExactly(db, search, text, windows, rungs, arms, x); }
    if EncodesNew(db, key, text, search, version, windows, rungs, arms) {
      var x :| Wants(db, search, text, windows, rungs, arms, x) && IsNew(key, db, s.unit, db.referenceSets[s.contentClass], version, x);
      assert called(x) && KeyAt(key, db, s.unit, db.referenceSets[s.contentClass], version, x) !in db.cells;
    }
    if AllHaveCuts(db, db.referenceSets[s.contentClass], called) && OneIsNew(db, key, s.unit, db.referenceSets[s.contentClass], version, called) {
      var x :| called(x) && (db.referenceSets[s.contentClass], x.window, x.kind) in db.cuts
               && KeyAt(key, db, s.unit, db.referenceSets[s.contentClass], version, x) !in db.cells;
      assert IsNew(key, db, s.unit, db.referenceSets[s.contentClass], version, x);
    }
  }

  /** What an encode plan plans: every cell called for that is in no run yet, once, under its own key; and nothing else. */
  lemma EncodePlanInRows(db: Db, key: KeyFn, text: TextFn, search: Id, version: Id, windows: seq<Id>, rungs: seq<int>, arms: seq<Id>,
                         wanted: seq<Wanted>, p: Planned)
    requires IsEncodePlan(db, key, text, search, version, windows, rungs, arms, wanted, p)
    ensures HasRows(db, search)
    ensures var s := db.searches[search];
            var referenceSet := db.referenceSets[s.contentClass];
            && (forall c | c in p.encoded.cells ::
                  && Calls(db, search, text, windows, rungs, arms, c.wanted) && (referenceSet, c.wanted.window, c.wanted.kind) in db.cuts
                  && c.key == KeyAt(key, db, s.unit, referenceSet, version, c.wanted) && c.key !in db.cells)
            && (forall x | Calls(db, search, text, windows, rungs, arms, x) ::
                  && (referenceSet, x.window, x.kind) in db.cuts
                  && (KeyAt(key, db, s.unit, referenceSet, version, x) in db.cells
                      || exists c :: c in p.encoded.cells && c.key == KeyAt(key, db, s.unit, referenceSet, version, x)))
  {
    var s, keys := db.searches[search], SearchKeys(db, key, search, version, wanted);
    var referenceSet := db.referenceSets[s.contentClass];
    forall c | c in p.encoded.cells
      ensures Calls(db, search, text, windows, rungs, arms, c.wanted) && (referenceSet, c.wanted.window, c.wanted.kind) in db.cuts
      ensures c.key == KeyAt(key, db, s.unit, referenceSet, version, c.wanted)
    {
      var i :| 0 <= i < |wanted| && keys[i] == c.key && wanted[i] == c.wanted;
      WantsExactly(db, search, text, windows, rungs, arms, wanted[i]);
      assert wanted[i] in wanted;
    }
    forall x | Calls(db, search, text, windows, rungs, arms, x)
      ensures (referenceSet, x.window, x.kind) in db.cuts
      ensures KeyAt(key, db, s.unit, referenceSet, version, x) in db.cells
              || exists c :: c in p.encoded.cells && c.key == KeyAt(key, db, s.unit, referenceSet, version, x)
    {
      WantsExactly(db, search, text, windows, rungs, arms, x);
      var i :| 0 <= i < |wanted| && wanted[i] == x;
      assert keys[i] in keys && keys[i] == KeyAt(key, db, s.unit, referenceSet, version, x);
      if keys[i] in CellKeys(p.encoded.cells) {
        var j :| 0 <= j < |p.encoded.cells| && CellKeys(p.encoded.cells)[j] == keys[i];
        assert p.encoded.cells[j] in p.encoded.cells;
      }
    }
  }

  /** The base arm of an unfiltered plan, rung by rung: it is encoded on every window of the class at exactly the rungs of
      the ladder within the bounds. Rungs have texts of their own. */
  lemma BaseArmRungs(db: Db, search: Id, text: TextFn, a: Id, r: int, window: Id)
    requires HasRows(db, search) && a in db.arms && db.arms[a].role == Base && OfClass(db, db.searches[search], window)
    requires forall x, y :: text(x) == text(y) ==> x == y
    ensures Plannable(db, search)
    ensures Wanted(window, Reference, db.arms[a].settings[db.searches[search].anchor := text(r)])
            in ArmWants(db.arms[a], db.searches[search].anchor, text, Members(db, search), Rungs(db, search)) <==>
            OnLadder(db, db.searches[search], r)
  {
    var s, arm := db.searches[search], db.arms[a];
    var x := Wanted(window, Reference, arm.settings[s.anchor := text(r)]);
    ArmWantsExactly(db, search, text, [], [], arm, x);
    if value :| PutAt(db, s, text, [], arm, window, value) && x.identity == arm.settings[s.anchor := value] {
      assert x.identity[s.anchor] == value == text(r);
    }
    if OnLadder(db, s, r) { assert PutAt(db, s, text, [], arm, window, text(r)); }
  }

  /** A cell a timing plan calls for: a configuration the source run encoded, on the source cut of one of its windows. */
  ghost predicate CallsTimed(db: Db, source: Id, x: Wanted)
    requires source in db.runs
  {
    && x.kind == Source && x.window in db.runs[source].windows
    && exists k :: k in db.cells && db.cells[k].run == source && db.cells[k].identity == x.identity
  }

  /** The lane that is named, or the only one the class serves, and its chain on the source's host and unit. */
  predicate ChainOf(db: Db, row: Run, lane: Option<Id>, l: Id) {
    && (l, row.host, row.unit) in db.chains
    && if lane.Some? then lane.value == l else row.contentClass.Some? && row.contentClass.value in db.lanes && db.lanes[row.contentClass.value] == [l]
  }

  /** When `plan_time` succeeds, in the rows. */
  lemma PlanTimeExactly(db: Db, key: KeyFn, source: Id, lane: Option<Id>)
    ensures (Timeable(db, source) && HasChain(db, source, lane) && TimesNew(db, key, source, db.builds[db.runs[source].host])) <==>
            (&& source in db.runs && db.runs[source].stage != Scan
             && db.runs[source].contentClass.Some? && db.runs[source].contentClass.value in db.referenceSets
             && db.runs[source].host in db.builds && (db.runs[source].unit, db.runs[source].host) in db.placements
             && (exists l :: ChainOf(db, db.runs[source], lane, l))
             && var row, called := db.runs[source], (x: Wanted) => CallsTimed(db, source, x);
                AllHaveCuts(db, db.referenceSets[row.contentClass.value], called)
                && OneIsNew(db, key, row.unit, db.referenceSets[row.contentClass.value], db.builds[row.host], called))
  {
    if source in db.runs && db.runs[source].stage != Scan && db.runs[source].contentClass.Some? && db.runs[source].contentClass.value in db.referenceSets {
      var row := db.runs[source];
      LaneIs(db, row, lane);
      if row.host in db.builds { TimesNewExactly(db, key, source, db.builds[row.host]); }
    }
  }

  lemma LaneIs(db: Db, row: Run, lane: Option<Id>)
    requires row.contentClass.Some?
    ensures var timed := LaneOf(db, row.contentClass.value, lane);
            (timed.Some? && (timed.value, row.host, row.unit) in db.chains) <==> exists l :: ChainOf(db, row, lane, l)
  {
    var timed := LaneOf(db, row.contentClass.value, lane);
    if timed.Some? && (timed.value, row.host, row.unit) in db.chains {
      if lane.None? { assert db.lanes[row.contentClass.value] == [timed.value]; }
      assert ChainOf(db, row, lane, timed.value);
    }
  }

  lemma TimesNewExactly(db: Db, key: KeyFn, source: Id, version: Id)
    requires Timeable(db, source)
    ensures TimesNew(db, key, source, version) <==>
              var row, called := db.runs[source], (x: Wanted) => CallsTimed(db, source, x);
              && AllHaveCuts(db, db.referenceSets[row.contentClass.value], called)
              && OneIsNew(db, key, row.unit, db.referenceSets[row.contentClass.value], version, called)
  {
    var row := db.runs[source];
    var referenceSet := db.referenceSets[row.contentClass.value];
    var called := (x: Wanted) => CallsTimed(db, source, x);
    forall x ensures WantsTimed(db, source, x) <==> called(x) {}
    if TimesNew(db, key, source, version) {
      var x :| WantsTimed(db, source, x) && IsNew(key, db, row.unit, referenceSet, version, x);
      assert called(x) && KeyAt(key, db, row.unit, referenceSet, version, x) !in db.cells;
    }
    if AllHaveCuts(db, referenceSet, called) && OneIsNew(db, key, row.unit, referenceSet, version, called) {
      var x :| called(x) && (referenceSet, x.window, x.kind) in db.cuts && KeyAt(key, db, row.unit, referenceSet, version, x) !in db.cells;
      assert IsNew(key, db, row.unit, referenceSet, version, x);
    }
  }

  /** What a timing plan plans, in the rows. */
  lemma TimePlanInRows(db: Db, key: KeyFn, source: Id, version: Id, wanted: seq<Wanted>, p: Planned)
    requires IsTimePlan(db, key, source, version, wanted, p)
    ensures source in db.runs && db.runs[source].contentClass.Some? && db.runs[source].contentClass.value in db.referenceSets
    ensures var row := db.runs[source];
            var referenceSet := db.referenceSets[row.contentClass.value];
            && (forall c | c in p.encoded.cells ::
                  && CallsTimed(db, source, c.wanted) && (referenceSet, c.wanted.window, c.wanted.kind) in db.cuts
                  && c.key == KeyAt(key, db, row.unit, referenceSet, version, c.wanted) && c.key !in db.cells)
            && (forall x | CallsTimed(db, source, x) ::
                  && (referenceSet, x.window, x.kind) in db.cuts
                  && (KeyAt(key, db, row.unit, referenceSet, version, x) in db.cells
                      || exists c :: c in p.encoded.cells && c.key == KeyAt(key, db, row.unit, referenceSet, version, x)))
  {
    var row := db.runs[source];
    var referenceSet := db.referenceSets[row.contentClass.value];
    var keys := KeysOf(key, db, row.unit, referenceSet, version, wanted);
    forall c | c in p.encoded.cells
      ensures CallsTimed(db, source, c.wanted) && (referenceSet, c.wanted.window, c.wanted.kind) in db.cuts
      ensures c.key == KeyAt(key, db, row.unit, referenceSet, version, c.wanted)
    {
      var i :| 0 <= i < |wanted| && keys[i] == c.key && wanted[i] == c.wanted;
      assert wanted[i] in wanted && WantsTimed(db, source, wanted[i]);
    }
    forall x | CallsTimed(db, source, x)
      ensures (referenceSet, x.window, x.kind) in db.cuts
      ensures KeyAt(key, db, row.unit, referenceSet, version, x) in db.cells
              || exists c :: c in p.encoded.cells && c.key == KeyAt(key, db, row.unit, referenceSet, version, x)
    {
      assert WantsTimed(db, source, x);
      var i :| 0 <= i < |wanted| && wanted[i] == x;
      assert keys[i] in keys && keys[i] == KeyAt(key, db, row.unit, referenceSet, version, x);
      if keys[i] in CellKeys(p.encoded.cells) {
        var j :| 0 <= j < |p.encoded.cells| && CellKeys(p.encoded.cells)[j] == keys[i];
        assert p.encoded.cells[j] in p.encoded.cells;
      }
    }
  }
}
