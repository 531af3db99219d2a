/** The store as an object (sweep/hub/store.py): one connection whose writes are the body, then every check,
    then COMMIT or ROLLBACK; and the ingest handlers writing row by row (sweep/hub/ingest.py), proved to do
    what the functions of `Ingest` say. */
module Store {
  import opened Names
  import opened Wrappers
  import opened Tables
  import opened Ingest
  import opened Runs

  class Connection {
    var conn: Db                  // what a read on the connection sees
    var undo: Option<Db>          // inside BEGIN: the rows a ROLLBACK returns to
    const checks: Db -> bool      // whether no check of the schema and no script check fires

    constructor (db: Db, checks: Db -> bool)
      ensures conn == db && undo == None && this.checks == checks
    {
      conn, undo, this.checks := db, None, checks;
    }

    method Begin()
      requires undo.None?
      modifies this
      ensures conn == old(conn) && undo == Some(conn)
    {
      undo := Some(conn);
    }

    /** The end of a write: a body that raised, or a check that fires, rolls back and refuses; a trial always
        rolls back. */
    method End(bodyOk: bool, commit: bool) returns (ok: bool)
      requires undo.Some?
      modifies this
      ensures undo == None
      ensures ok == (bodyOk && checks(old(conn)))
      ensures conn == if ok && commit then old(conn) else old(undo).value
    {
      ok := bodyOk;
      if ok { ok := checks(conn); }
      if !ok || !commit { conn := undo.value; }
      undo := None;
    }

    method PlanRun(plan: RunPlan) returns (ok: bool)
      modifies `conn
      ensures ok <==> MayPlan(old(conn), plan)
      ensures ok ==> conn == Runs.Planned(old(conn), plan)
    {
      var db := conn;
      if plan.row.host !in db.catalogue.machines || (plan.row.parent.Some? && plan.row.parent.value !in db.runs)
        || plan.run in db.runs || plan.run in db.events
      {
        return false;
      }
      var row := Inherited(db, plan.row);
      if (row.unit.Some? && row.unit.value !in db.catalogue.units)
        || (row.contentClass.Some? && row.contentClass.value !in db.catalogue.classes)
        || (row.search.Some? && row.search.value !in db.catalogue.searchHeights)
      {
        return false;
      }
      ok := InsertRun(plan.run, row.(state := RunState.Planned));
      if !ok { return false; }
      ok := InsertCells(plan);
      if !ok { return false; }
      conn := conn.(events := conn.events[plan.run := [Event(RunState.Planned, ByHub)]]);
    }

    /** The run's row, then its windows one by one. */
    method InsertRun(run: Id, row: RunRow) returns (ok: bool)
      modifies `conn
      ensures ok <==> (forall w | w in row.windows :: w in old(conn).catalogue.windows) && NoRepeats(row.windows)
      ensures ok ==> conn == old(conn).(runs := old(conn).runs[run := row])
    {
      var db := conn;
      var windows: seq<Id> := [];
      while |windows| < |row.windows|
        invariant |windows| <= |row.windows| && windows == row.windows[..|windows|] && NoRepeats(windows)
        invariant forall w | w in windows :: w in db.catalogue.windows
        invariant conn == db.(runs := if windows == [] then db.runs else db.runs[run := row.(windows := windows)])
        decreases |row.windows| - |windows|
      {
        var w := row.windows[|windows|];
        if w !in db.catalogue.windows { return false; }
        if w in windows {
          ghost var i :| 0 <= i < |windows| && windows[i] == w;
          assert row.windows[i] == row.windows[|windows|];
          return false;
        }
        windows := windows + [w];
        conn := conn.(runs := conn.runs[run := row.(windows := windows)]);
      }
      conn := conn.(runs := conn.runs[run := row]);
      ok := true;
    }

    method InsertCells(plan: RunPlan) returns (ok: bool)
      modifies `conn
      ensures ok <==> NewKeys(old(conn), plan.cells)
      ensures ok ==> conn == old(conn).(cells := old(conn).cells + CellRows(plan.run, plan.cells))
    {
      var db := conn;
      var i := 0;
      assert db.cells + CellRows(plan.run, plan.cells[..0]) == db.cells;
      while i < |plan.cells|
        invariant 0 <= i <= |plan.cells| && NewKeys(db, plan.cells[..i])
        invariant conn == db.(cells := db.cells + CellRows(plan.run, plan.cells[..i]))
      {
        var c := plan.cells[i];
        if c.key in conn.cells {
          KeyTaken(db, plan, i);
          return false;
        }
        KeyFree(db, plan, i);
        conn := conn.(cells := conn.cells[c.key := CellRow(plan.run, c.window, c.cutKind)]);
        i := i + 1;
      }
      assert plan.cells[..i] == plan.cells;
      ok := true;
    }

    method PostEvent(run: Id, state: RunState, writer: Writer) returns (ok: bool)
      modifies `conn
      ensures ok <==> run in old(conn).runs
      ensures conn == if ok then Posted(old(conn), run, state, writer) else old(conn)
    {
      if run !in conn.runs { return false; }
      conn := conn.(events := conn.events[run := EventsOf(conn, run) + [Event(state, writer)]]);
      conn := conn.(runs := conn.runs[run := conn.runs[run].(state := state)]);
      ok := true;
    }

    // ---- ingest

    method InsertScore(run: Id, cell: Id, row: ScoreRow) returns (ok: bool)
      modifies `conn
      ensures ok <==> forall a | a in RowsAt(old(conn).measured.scores, (run, cell)) ::
                        !(a.height == row.height && a.metric == row.metric && a.statistic == row.statistic)
      ensures ok ==> conn == WithMeasured(old(conn), AddScore(old(conn).measured, run, cell, row))
      ensures !ok ==> conn == old(conn)
    {
      var have := RowsAt(conn.measured.scores, (run, cell));
      if exists a | a in have :: a.height == row.height && a.metric == row.metric && a.statistic == row.statistic {
        return false;
      }
      conn := WithMeasured(conn, AddScore(conn.measured, run, cell, row));
      ok := true;
    }

    method InsertStep(run: Id, cell: Id, row: StepRow) returns (ok: bool)
      modifies `conn
      ensures ok <==> StepIsFree(RowsAt(old(conn).measured.steps, (run, cell)), row)
      ensures ok ==> conn == WithMeasured(old(conn), AddStep(old(conn).measured, run, cell, row))
      ensures !ok ==> conn == old(conn)
    {
      var have := RowsAt(conn.measured.steps, (run, cell));
      if exists a | a in have :: a.height == row.height && a.step == row.step { return false; }
      conn := WithMeasured(conn, AddStep(conn.measured, run, cell, row));
      ok := true;
    }

    method InsertTiming(cell: Id, row: TimingRow) returns (ok: bool)
      modifies `conn
      ensures ok <==> forall a | a in RowsAt(old(conn).measured.timings, cell) ::
                        !(a.workers == row.workers && a.repeatIndex == row.repeatIndex && a.leg == row.leg)
      ensures ok ==> conn == WithMeasured(old(conn), AddTiming(old(conn).measured, cell, row))
      ensures !ok ==> conn == old(conn)
    {
      var have := RowsAt(conn.measured.timings, cell);
      if exists a | a in have :: a.workers == row.workers && a.repeatIndex == row.repeatIndex && a.leg == row.leg {
        return false;
      }
      conn := WithMeasured(conn, AddTiming(conn.measured, cell, row));
      ok := true;
    }

    /** The wanted score rows, one by one, into a cell that has none. */
    method InsertScores(run: Id, cell: Id, want: set<ScoreRow>, ghost height: int) returns (ok: bool)
      requires RowsAt(conn.measured.scores, (run, cell)) == {} && forall a | a in want :: a.height == height
      modifies `conn
      ensures ok <==> ScoreKeysDistinct(want)
      ensures ok ==> conn == WithMeasured(old(conn), WithScores(old(conn).measured, run, cell, want))
    {
      ghost var db := conn;
      var left := want;
      assert want - left == {};
      while left != {}
        invariant left <= want && ScoreKeysDistinct(want - left)
        invariant conn == WithMeasured(db, WithScores(db.measured, run, cell, want - left))
        decreases |left|
      {
        var s :| s in left;
        var rest := left - {s};
        var free := InsertScore(run, cell, s);
        ScoreInserted(db.measured, run, cell, want - left, s);
        assert want - rest == want - left + {s};
        if !free { return false; }
        left := rest;
      }
      assert want - left == want;
      ok := true;
    }

    method InsertSteps(run: Id, cell: Id, steps: seq<StepTime>, height: int) returns (ok: bool)
      modifies `conn
      ensures ok <==> StepsInsertable(RowsAt(old(conn).measured.steps, (run, cell)), steps, height)
      ensures ok ==> conn == WithMeasured(old(conn), WithSteps(old(conn).measured, run, cell, StepRows(steps, height)))
    {
      ghost var db := conn;
      var i := 0;
      while i < |steps|
        invariant 0 <= i <= |steps| && StepsInsertable(RowsAt(db.measured.steps, (run, cell)), steps[..i], height)
        invariant conn == WithMeasured(db, WithSteps(db.measured, run, cell, StepRows(steps[..i], height)))
      {
        var free := InsertStep(run, cell, StepOf(steps[i], height));
        StepFree(db.measured, run, cell, steps, i, height);
        StepInserted(db.measured, run, cell, steps, i, height);
        if !free { return false; }
        i := i + 1;
      }
      assert steps[..i] == steps;
      ok := true;
    }

    /** The score rows, then the steps, then `kept`. */
    method StoreScore(run: Id, row: RunRow, r: Record) returns (ok: bool)
      requires r.ScoreRecord?
      modifies `conn
      ensures ok <==> IngestScore(old(conn), run, row, r).Ok?
      ensures ok ==> conn == IngestScore(old(conn), run, row, r).value
    {
      if !PlannedIn(conn, run, row, r.cell) || row.scorerBuild.None? { return false; }
      var found := ScoreHeight(conn, row);
      if found.Refused? { return false; }
      var height := found.value;
      var want, existing := WantedScores(r, height, row.scorerBuild.value), RowsAt(conn.measured.scores, (run, r.cell));
      if existing != {} { return existing == want; }
      ok := InsertScores(run, r.cell, want, height);
      if !ok { return false; }
      ok := InsertSteps(run, r.cell, r.steps, height);
      if !ok { return false; }
      conn := WithMeasured(conn, FlipKept(conn.measured, r.cell, r.kept));
    }

    method StoreTiming(run: Id, row: RunRow, r: Record) returns (ok: bool)
      requires r.TimingRecord?
      modifies `conn
      ensures ok <==> IngestTiming(old(conn), run, row, r).Ok?
      ensures ok ==> conn == IngestTiming(old(conn), run, row, r).value
    {
      var db := conn;
      if !PlannedIn(conn, run, row, r.cell) { return false; }
      var want, existing := SampleSet(r.samples), RowsAt(conn.measured.timings, r.cell);
      if existing != {} { return existing == want; }
      var left := want;
      assert want - left == {};
      while left != {}
        invariant left <= want && TimingKeysDistinct(want - left)
        invariant conn == WithMeasured(db, WithTimings(db.measured, r.cell, want - left))
        decreases |left|
      {
        var s :| s in left;
        var rest := left - {s};
        var free := InsertTiming(r.cell, s);
        TimingInserted(db.measured, r.cell, want - left, s);
        assert want - rest == want - left + {s};
        if !free { return false; }
        left := rest;
      }
      assert want - left == want;
      ok := true;
    }

    /** The one window a verdict's cells lie on, all of them the run's. */
    method CommonWindow(run: Id, row: RunRow, cells: seq<Id>) returns (window: Option<Id>)
      ensures window.Some? <==> OneWindow(conn, run, row, cells)
      ensures window.Some? ==> window == WindowOf(conn, cells[0])
    {
      if cells == [] { return None; }
      var windows: set<Id> := {};
      var i := 0;
      while i < |cells|
        invariant 0 <= i <= |cells|
        invariant forall k | k in cells[..i] :: PlannedIn(conn, run, row, k)
        invariant windows == set k | k in cells[..i] && k in conn.cells :: conn.cells[k].window
      {
        assert cells[..i + 1] == cells[..i] + [cells[i]];
        if !PlannedIn(conn, run, row, cells[i]) {
          assert cells[i] in cells;
          return None;
        }
        windows := windows + {conn.cells[cells[i]].window};
        i := i + 1;
      }
      assert cells[..i] == cells;
      assert cells[0] in cells && conn.cells[cells[0]].window in windows;
      OneOf(windows, conn.cells[cells[0]].window);
      forall k | k in cells ensures conn.cells[k].window in windows {}
      if |windows| != 1 {
        return None;
      }
      window := Some(conn.cells[cells[0]].window);
    }

    method StoreVerdict(run: Id, row: RunRow, r: Record) returns (ok: bool)
      requires r.VerdictRecord?
      modifies `conn
      ensures ok <==> IngestVerdict(old(conn), run, row, r).Ok?
      ensures ok ==> conn == IngestVerdict(old(conn), run, row, r).value
    {
      var db := conn;
      var window := CommonWindow(run, row, r.cells);
      if window.None? { return false; }
      var key := VerdictKey(r.test, row.unit, r.setting, window.value, r.baseSetting, r.baseValue);
      if key in conn.measured.verdicts {
        return conn.measured.verdicts[key] == (r.verdict, set k | k in r.cells);
      }
      conn := WithMeasured(conn, WithVerdict(db.measured, key, r.verdict, {}));
      var done: set<Id> := {};
      var i := 0;
      while i < |r.cells|
        invariant 0 <= i <= |r.cells| && NoRepeats(r.cells[..i]) && done == set k | k in r.cells[..i]
        invariant conn == WithMeasured(db, WithVerdict(db.measured, key, r.verdict, done))
      {
        assert r.cells[..i + 1] == r.cells[..i] + [r.cells[i]];
        if r.cells[i] in conn.measured.verdicts[key].1 {
          var j :| 0 <= j < i && r.cells[..i][j] == r.cells[i];
          assert r.cells[j] == r.cells[i];
          return false;
        }
        conn := WithMeasured(conn, WithVerdict(conn.measured, key, r.verdict, conn.measured.verdicts[key].1 + {r.cells[i]}));
        done := done + {r.cells[i]};
        VerdictGrown(db.measured, key, r.verdict, done - {r.cells[i]}, done);
        i := i + 1;
      }
      assert r.cells[..i] == r.cells;
      ok := true;
    }

    /** One record; a refused one may leave part of its rows behind for the ROLLBACK. */
    method StoreRecord(run: Id, r: Record) returns (ok: bool)
      modifies `conn
      ensures ok <==> IngestRecord(old(conn), run, r).Ok?
      ensures ok ==> conn == IngestRecord(old(conn), run, r).value
    {
      if run !in conn.runs { return false; }
      var row := conn.runs[run];
      if !StageAllows(r, row.stage) { return false; }
      match r
      case ScoreRecord(_, _, _, _, _) => ok := StoreScore(run, row, r);
      case TimingRecord(_, _) => ok := StoreTiming(run, row, r);
      case VerdictRecord(_, _, _, _, _, _) => ok := StoreVerdict(run, row, r);
      case EncodeRecord(_, _) => ok := StoreEncode(run, row, r);
      case FailureRecord(_, _) => ok := StoreFailure(run, row, r);
      case TitleRecord(_, _) => ok := StoreTitle(r);
      case ReferenceSetRecord(_, _, _, _, _) => ok := StoreReferenceSet(row, r);
      case CutRecord(_, _) => ok := StoreCut(r);
      case CutCheckRecord(_, _, _, _) => ok := StoreCutCheck(r);
    }

    method StoreEncode(run: Id, row: RunRow, r: Record) returns (ok: bool)
      requires r.EncodeRecord?
      modifies `conn
      ensures ok <==> IngestEncode(old(conn), run, row, r).Ok?
      ensures ok ==> conn == IngestEncode(old(conn), run, row, r).value
    {
      if !PlannedIn(conn, run, row, r.cell) { return false; }
      if r.cell in conn.measured.encodes { return conn.measured.encodes[r.cell] == r.encode; }
      conn := conn.(measured := conn.measured.(encodes := conn.measured.encodes[r.cell := r.encode]));
      ok := true;
    }

    method StoreFailure(run: Id, row: RunRow, r: Record) returns (ok: bool)
      requires r.FailureRecord?
      modifies `conn
      ensures ok <==> IngestFailure(old(conn), run, row, r).Ok?
      ensures ok ==> conn == IngestFailure(old(conn), run, row, r).value
    {
      if !PlannedIn(conn, run, row, r.cell) { return false; }
      if r.cell in conn.measured.failures { return conn.measured.failures[r.cell] == r.failure; }
      conn := conn.(measured := conn.measured.(failures := conn.measured.failures[r.cell := r.failure]));
      ok := true;
    }

    /** Found by its path; a rescan updates the row, and the id never moves. */
    method StoreTitle(r: Record) returns (ok: bool)
      requires r.TitleRecord?
      modifies `conn
      ensures ok <==> IngestTitle(old(conn), r).Ok?
      ensures ok ==> conn == IngestTitle(old(conn), r).value
    {
      var titles := conn.sample.titles;
      var left := titles.Keys;
      var found: Option<Id> := None;
      while left != {} && found.None?
        invariant left <= titles.Keys
        invariant forall t | t in titles.Keys - left :: titles[t].path == r.row.path && t != r.title ==> found == Some(t)
        invariant found.Some? ==> found.value in titles && titles[found.value].path == r.row.path && found.value != r.title
        decreases |left|
      {
        var t :| t in left;
        if titles[t].path == r.row.path && t != r.title { found := Some(t); }
        left := left - {t};
      }
      if found.Some? || (r.title in titles && titles[r.title].path != r.row.path) { return false; }
      conn := conn.(sample := conn.sample.(titles := titles[r.title := r.row]));
      ok := true;
    }

    method StoreReferenceSet(row: RunRow, r: Record) returns (ok: bool)
      requires r.ReferenceSetRecord?
      modifies `conn
      ensures ok <==> IngestReferenceSet(old(conn), row, r).Ok?
      ensures ok ==> conn == IngestReferenceSet(old(conn), row, r).value
    {
      var held := ReferenceSetRow(r.geometry, r.pixFmt, row.host, r.builtWith, r.builtAt);
      if r.referenceSet in conn.sample.referenceSets { return conn.sample.referenceSets[r.referenceSet] == held; }
      conn := conn.(sample := conn.sample.(referenceSets := conn.sample.referenceSets[r.referenceSet := held]));
      ok := true;
    }

    method StoreCut(r: Record) returns (ok: bool)
      requires r.CutRecord?
      modifies `conn
      ensures ok <==> IngestCut(old(conn), r).Ok?
      ensures ok ==> conn == IngestCut(old(conn), r).value
    {
      if r.cut in conn.sample.cuts { return conn.sample.cuts[r.cut] == r.cutRow; }
      conn := conn.(sample := conn.sample.(cuts := conn.sample.cuts[r.cut := r.cutRow]));
      ok := true;
    }

    method StoreCutCheck(r: Record) returns (ok: bool)
      requires r.CutCheckRecord?
      modifies `conn
      ensures ok <==> IngestCutCheck(old(conn), r).Ok?
      ensures ok ==> conn == IngestCutCheck(old(conn), r).value
    {
      var key := (r.checkedCut, r.checkName, r.checkedAt);
      if key in conn.sample.cutChecks { return conn.sample.cutChecks[key] == r.check; }
      if r.checkedCut !in conn.sample.cuts { return false; }
      if r.check.result.Classified? && (r.check.reason.None? || r.check.reason.value == "") { return false; }
      conn := conn.(sample := conn.sample.(cutChecks := conn.sample.cutChecks[key := r.check]));
      ok := true;
    }
  }

  function WithMeasured(db: Db, m: Measured): Db { db.(measured := m) }

  function AddScore(m: Measured, run: Id, cell: Id, row: ScoreRow): Measured {
    m.(scores := m.scores[(run, cell) := RowsAt(m.scores, (run, cell)) + {row}])
  }

  function AddStep(m: Measured, run: Id, cell: Id, row: StepRow): Measured {
    m.(steps := m.steps[(run, cell) := RowsAt(m.steps, (run, cell)) + {row}])
  }

  function AddTiming(m: Measured, cell: Id, row: TimingRow): Measured {
    m.(timings := m.timings[cell := RowsAt(m.timings, cell) + {row}])
  }

  function WithTimings(m: Measured, cell: Id, want: set<TimingRow>): Measured {
    if want == {} then m else m.(timings := m.timings[cell := want])
  }

  function WithVerdict(m: Measured, key: VerdictKey, verdict: VerdictRow, cells: set<Id>): Measured {
    m.(verdicts := m.verdicts[key := (verdict, cells)])
  }

  lemma VerdictGrown(m: Measured, key: VerdictKey, verdict: VerdictRow, before: set<Id>, after: set<Id>)
    ensures WithVerdict(WithVerdict(m, key, verdict, before), key, verdict, after) == WithVerdict(m, key, verdict, after)
  {
    assert m.verdicts[key := (verdict, before)][key := (verdict, after)] == m.verdicts[key := (verdict, after)];
  }

  lemma OneOf<T>(s: set<T>, x: T)
    requires x in s
    ensures |s| == 1 <==> forall y | y in s :: y == x
  {
    if |s| == 1 {
      forall y | y in s ensures y == x {
        if y != x { Pair(s, x, y); }
      }
    } else {
      assert s != {x};
    }
  }

  lemma Pair<T>(s: set<T>, x: T, y: T)
    requires x in s && y in s && x != y
    ensures |s| >= 2
  {
    var pair := {x, y};
    assert s == pair + (s - pair) && |pair| == 2;
  }

  lemma KeyTaken(db: Db, plan: RunPlan, i: nat)
    requires i < |plan.cells| && plan.cells[i].key in db.cells + CellRows(plan.run, plan.cells[..i])
    ensures !NewKeys(db, plan.cells)
  {
    CellRowsKeys(plan.run, plan.cells[..i]);
    if plan.cells[i].key in db.cells {
      assert plan.cells[i] in plan.cells;
    } else {
      var j :| 0 <= j < i && plan.cells[..i][j].key == plan.cells[i].key;
      assert plan.cells[j].key == plan.cells[i].key;
    }
  }

  lemma KeyFree(db: Db, plan: RunPlan, i: nat)
    requires i < |plan.cells| && NewKeys(db, plan.cells[..i])
    requires plan.cells[i].key !in db.cells + CellRows(plan.run, plan.cells[..i])
    ensures NewKeys(db, plan.cells[..i + 1])
    ensures var c := plan.cells[i];
            db.cells + CellRows(plan.run, plan.cells[..i + 1]) ==
            (db.cells + CellRows(plan.run, plan.cells[..i]))[c.key := CellRow(plan.run, c.window, c.cutKind)]
  {
    CellRowsKeys(plan.run, plan.cells[..i]);
    forall c | c in plan.cells[..i + 1] ensures c.key !in db.cells {
      if c != plan.cells[i] { assert c in plan.cells[..i]; }
    }
    var before, after := plan.cells[..i], plan.cells[..i + 1];
    forall j, k | 0 <= j < k < |after| ensures after[j].key != after[k].key {
      if k < i {
        assert before[j].key != before[k].key;
      } else {
        assert before[j].key in CellRows(plan.run, before);
      }
    }
    assert after[..i] == before;
    assert db.cells + CellRows(plan.run, after) == (db.cells + CellRows(plan.run, before))[plan.cells[i].key := CellRow(plan.run, plan.cells[i].window, plan.cells[i].cutKind)];
  }

  /** Inserting one more of the wanted rows fails exactly when two of them share a key. */
  lemma ScoreInserted(m: Measured, run: Id, cell: Id, before: set<ScoreRow>, s: ScoreRow)
    requires RowsAt(m.scores, (run, cell)) == {} && ScoreKeysDistinct(before) && s !in before
    ensures RowsAt(WithScores(m, run, cell, before).scores, (run, cell)) == before
    ensures AddScore(WithScores(m, run, cell, before), run, cell, s) == WithScores(m, run, cell, before + {s})
    ensures ScoreKeysDistinct(before + {s}) <==> forall a | a in before :: !(a.metric == s.metric && a.statistic == s.statistic)
  {
    forall a | a in before && a.metric == s.metric && a.statistic == s.statistic ensures !ScoreKeysDistinct(before + {s}) {
      assert a in before + {s} && s in before + {s} && a != s;
    }
  }

  predicate StepIsFree(have: set<StepRow>, row: StepRow) { forall a | a in have :: !(a.height == row.height && a.step == row.step) }

  lemma StepFree(m: Measured, run: Id, cell: Id, steps: seq<StepTime>, i: nat, height: int)
    requires i < |steps| && StepsInsertable(RowsAt(m.steps, (run, cell)), steps[..i], height)
    ensures var have, row := RowsAt(m.steps, (run, cell)), StepOf(steps[i], height);
            if StepIsFree(have + StepRows(steps[..i], height), row) then StepsInsertable(have, steps[..i + 1], height)
            else !StepsInsertable(have, steps, height)
  {
    var have, row := RowsAt(m.steps, (run, cell)), StepOf(steps[i], height);
    var before, after := steps[..i], steps[..i + 1];
    if StepIsFree(have + StepRows(before, height), row) {
      forall j, k | 0 <= j < k < |after| ensures after[j].step != after[k].step {
        if k < i {
          assert before[j].step != before[k].step;
        } else {
          assert before[j] in before && StepOf(before[j], height) in StepRows(before, height);
        }
      }
      forall a, s | a in have && s in after ensures !(a.height == height && a.step == s.step) {
        if s == steps[i] { assert a in have + StepRows(before, height); } else { assert s in before; }
      }
    } else {
      var a :| a in have + StepRows(before, height) && a.height == row.height && a.step == row.step;
      assert steps[i] in steps;
      if a !in have {
        var s :| s in before && StepOf(s, height) == a;
        var j :| 0 <= j < i && before[j] == s;
        assert steps[j].step == steps[i].step;
      }
    }
  }

  lemma StepInserted(m: Measured, run: Id, cell: Id, steps: seq<StepTime>, i: nat, height: int)
    requires i < |steps|
    ensures var before := WithSteps(m, run, cell, StepRows(steps[..i], height));
            && RowsAt(before.steps, (run, cell)) == RowsAt(m.steps, (run, cell)) + StepRows(steps[..i], height)
            && AddStep(before, run, cell, StepOf(steps[i], height)) == WithSteps(m, run, cell, StepRows(steps[..i + 1], height))
  {
    var before, after := steps[..i], steps[..i + 1];
    assert after == before + [steps[i]];
    assert StepRows(after, height) == StepRows(before, height) + {StepOf(steps[i], height)} by {
      forall s | s in after ensures StepOf(s, height) in StepRows(before, height) + {StepOf(steps[i], height)} {}
      assert steps[i] in after;
    }
    var have, row, key := RowsAt(m.steps, (run, cell)), StepOf(steps[i], height), (run, cell);
    assert have + StepRows(before, height) + {row} == have + StepRows(after, height);
    assert m.steps[key := have + StepRows(before, height)][key := have + StepRows(after, height)] == m.steps[key := have + StepRows(after, height)];
  }

  lemma TimingInserted(m: Measured, cell: Id, before: set<TimingRow>, s: TimingRow)
    requires RowsAt(m.timings, cell) == {} && TimingKeysDistinct(before) && s !in before
    ensures RowsAt(WithTimings(m, cell, before).timings, cell) == before
    ensures AddTiming(WithTimings(m, cell, before), cell, s) == WithTimings(m, cell, before + {s})
    ensures TimingKeysDistinct(before + {s}) <==>
            forall a | a in before :: !(a.workers == s.workers && a.repeatIndex == s.repeatIndex && a.leg == s.leg)
  {
    forall a | a in before && a.workers == s.workers && a.repeatIndex == s.repeatIndex && a.leg == s.leg
      ensures !TimingKeysDistinct(before + {s})
    {
      assert a in before + {s} && s in before + {s} && a != s;
    }
  }
}
