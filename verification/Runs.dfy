/** Runs: planned as rows, and afterwards changed only by appending an event (sweep/hub/store.py). */
module Runs {
  import opened Names
  import opened Wrappers
  import opened Tables
  import opened Ingest

  datatype CellPlan = CellPlan(key: Id, window: Id, cutKind: Id)

  /** A run to be planned; `row.state` is not read, every run starts planned. */
  datatype RunPlan = RunPlan(run: Id, row: RunRow, cells: seq<CellPlan>)

  function Or<T>(a: Option<T>, b: Option<T>): Option<T> { if a.Some? then a else b }

  /** A score run's unit, class, search and windows are its parent's when it names none of its own. */
  function Inherited(db: Db, row: RunRow): RunRow {
    if row.parent.Some? && row.parent.value in db.runs then
      var p := db.runs[row.parent.value];
      row.(unit := Or(row.unit, p.unit), contentClass := Or(row.contentClass, p.contentClass), search := Or(row.search, p.search),
           windows := if row.windows == [] then p.windows else row.windows)
    else row
  }

  predicate NewKeys(db: Db, cells: seq<CellPlan>) {
    && (forall c | c in cells :: c.key !in db.cells)
    && (forall i, j | 0 <= i < j < |cells| :: cells[i].key != cells[j].key)
  }

  /** What a run names exists, and no window is named twice. */
  predicate Known(c: Catalogue, row: RunRow) {
    && (row.unit.Some? ==> row.unit.value in c.units)
    && (row.contentClass.Some? ==> row.contentClass.value in c.classes)
    && (row.search.Some? ==> row.search.value in c.searchHeights)
    && (forall w | w in row.windows :: w in c.windows) && NoRepeats(row.windows)
  }

  predicate MayPlan(db: Db, plan: RunPlan) {
    && plan.row.host in db.catalogue.machines
    && plan.run !in db.runs && plan.run !in db.events
    && (plan.row.parent.Some? ==> plan.row.parent.value in db.runs)
    && Known(db.catalogue, Inherited(db, plan.row))
    && NewKeys(db, plan.cells)
  }

  function CellRows(run: Id, cells: seq<CellPlan>): map<Id, CellRow> {
    if cells == [] then map[]
    else
      var c := cells[|cells| - 1];
      CellRows(run, cells[..|cells| - 1])[c.key := CellRow(run, c.window, c.cutKind)]
  }

  function Planned(db: Db, plan: RunPlan): Db {
    db.(runs := db.runs[plan.run := Inherited(db, plan.row).(state := RunState.Planned)],
        events := db.events[plan.run := [Event(RunState.Planned, ByHub)]],
        cells := db.cells + CellRows(plan.run, plan.cells))
  }

  /** Append the event and set the run's state to it. */
  function Posted(db: Db, run: Id, state: RunState, writer: Writer): Db
    requires run in db.runs
  {
    db.(runs := db.runs[run := db.runs[run].(state := state)],
        events := db.events[run := EventsOf(db, run) + [Event(state, writer)]])
  }

  // ---- the log is the state

  /** Every run has a log, and its state is the newest entry's. */
  ghost predicate LogAgrees(db: Db) {
    && db.events.Keys == db.runs.Keys
    && forall r | r in db.runs :: db.events[r] != [] && db.events[r][|db.events[r]| - 1].state == db.runs[r].state
  }

  lemma PlannedLogs(db: Db, plan: RunPlan)
    requires LogAgrees(db) && MayPlan(db, plan)
    ensures LogAgrees(Planned(db, plan))
  {
  }

  lemma PostedLogs(db: Db, run: Id, state: RunState, writer: Writer)
    requires LogAgrees(db) && run in db.runs
    ensures LogAgrees(Posted(db, run, state, writer))
    ensures EventsOf(db, run) <= EventsOf(Posted(db, run, state, writer), run)
  {
  }

  lemma {:induction false} CellRowsKeys(run: Id, cells: seq<CellPlan>)
    ensures forall k | k in CellRows(run, cells) :: CellRows(run, cells)[k].run == run
    ensures forall k :: k in CellRows(run, cells) <==> exists i :: 0 <= i < |cells| && cells[i].key == k
  {
    if cells != [] {
      CellRowsKeys(run, cells[..|cells| - 1]);
      assert cells[|cells| - 1].key in CellRows(run, cells);
      forall k ensures k in CellRows(run, cells) <==> exists i :: 0 <= i < |cells| && cells[i].key == k {
        if i :| 0 <= i < |cells| && cells[i].key == k {
          if i < |cells| - 1 { assert cells[..|cells| - 1][i].key == k; }
        }
      }
    }
  }

  /** Its own if it names one, else its parent's. */
  ghost predicate OwnOrParents<T>(got: Option<T>, own: Option<T>, parents: Option<T>) { if own == None then got == parents else got == own }

  /** A new run in the rows: what its plan says of it; unit, class, search and windows its parent's where it names none;
      planned, by one event of the hub's; its cells on their windows and kinds. No other run, log or cell moves. */
  lemma NewRunIs(db: Db, plan: RunPlan)
    requires MayPlan(db, plan)
    ensures var after, own := Planned(db, plan), plan.row;
            var row := after.runs[plan.run];
            && row.stage == own.stage && row.host == own.host && row.parent == own.parent && row.artifact == own.artifact
            && row.scorerBuild == own.scorerBuild && row.state == RunState.Planned && after.events[plan.run] == [Event(RunState.Planned, ByHub)]
            && (own.parent == None ==>
                  row.unit == own.unit && row.contentClass == own.contentClass && row.search == own.search && row.windows == own.windows)
            && (own.parent != None ==>
                  var p := db.runs[own.parent.value];
                  && OwnOrParents(row.unit, own.unit, p.unit) && OwnOrParents(row.contentClass, own.contentClass, p.contentClass)
                  && OwnOrParents(row.search, own.search, p.search) && row.windows == if own.windows == [] then p.windows else own.windows)
            && (forall r | r in db.runs :: r != plan.run && r in after.runs && after.runs[r] == db.runs[r])
            && (forall r | r in db.events :: r != plan.run && r in after.events && after.events[r] == db.events[r])
            && (forall c | c in plan.cells :: c.key in after.cells && after.cells[c.key] == CellRow(run := plan.run, window := c.window, cutKind := c.cutKind))
            && (forall k | k in db.cells :: k in after.cells && after.cells[k] == db.cells[k])
            && (forall k | k in after.cells && k !in db.cells :: exists c :: c in plan.cells && c.key == k)
            && after == db.(runs := after.runs, events := after.events, cells := after.cells)
  {
    CellRowsKeys(plan.run, plan.cells);
    assert forall i | 0 <= i < |plan.cells| :: plan.cells[i] in plan.cells && plan.cells[i].key !in db.cells;
    forall c | c in plan.cells
      ensures c.key in Planned(db, plan).cells && Planned(db, plan).cells[c.key] == CellRow(plan.run, c.window, c.cutKind)
    {
      var i :| 0 <= i < |plan.cells| && plan.cells[i] == c;
      CellRowAt(plan.run, plan.cells, i);
    }
    forall k | k in Planned(db, plan).cells && k !in db.cells ensures exists c :: c in plan.cells && c.key == k {
      var i :| 0 <= i < |plan.cells| && plan.cells[i].key == k;
      assert plan.cells[i] in plan.cells;
    }
  }

  lemma {:induction false} CellRowAt(run: Id, cells: seq<CellPlan>, i: nat)
    requires i < |cells| && forall j, k | 0 <= j < k < |cells| :: cells[j].key != cells[k].key
    ensures cells[i].key in CellRows(run, cells) && CellRows(run, cells)[cells[i].key] == CellRow(run, cells[i].window, cells[i].cutKind)
  {
    if i < |cells| - 1 { CellRowAt(run, cells[..|cells| - 1], i); }
  }

  /** A new run's cells are its own plan's; every other run keeps exactly the cells it had. */
  lemma PlannedCells(db: Db, plan: RunPlan, run: Id)
    requires MayPlan(db, plan)
    requires forall k | k in db.cells :: db.cells[k].run in db.runs
    ensures CellsOf(Planned(db, plan), run) == if run == plan.run then set c | c in plan.cells :: c.key else CellsOf(db, run)
    ensures forall k | k in Planned(db, plan).cells :: Planned(db, plan).cells[k].run in Planned(db, plan).runs
  {
    CellRowsKeys(plan.run, plan.cells);
    var rows, after := CellRows(plan.run, plan.cells), Planned(db, plan);
    forall k | k in rows ensures k !in db.cells {
      var i :| 0 <= i < |plan.cells| && plan.cells[i].key == k;
      assert plan.cells[i] in plan.cells;
    }
    forall c | c in plan.cells ensures c.key in rows {
      var i :| 0 <= i < |plan.cells| && plan.cells[i] == c;
    }
    if run == plan.run {
      forall k | k in CellsOf(after, run) ensures exists c :: c in plan.cells && c.key == k {
        assert k in rows;
        var i :| 0 <= i < |plan.cells| && plan.cells[i].key == k;
        assert plan.cells[i] in plan.cells;
      }
    }
  }
}
