/** Two independent readings of one question, what of a plan is already recorded: `done_cells`, which a
    resumed agent skips by (sweep/hub/planner.py), and `verify_at_ack`, which completes or fails the run
    (sweep/hub/wait.py). */
module Verify {
  import opened Names
  import opened Wrappers
  import opened Tables

  /** A cell as the claim body carries it. */
  datatype CellSpec = CellSpec(key: Id, repeats: int)

  /** The part of a claim body that says what there is to run: cells, titles or cuts by the stage. */
  datatype Plan = Plan(cells: seq<CellSpec>, titles: seq<Id>, cuts: seq<Id>)

  function KeysOf(cells: seq<CellSpec>): seq<Id> {
    seq(|cells|, i requires 0 <= i < |cells| => cells[i].key)
  }

  /** The units of work, in the plan's order. */
  function UnitKeys(stage: Stage, plan: Plan): seq<Id> {
    if stage == Inventory then plan.titles
    else if stage == Materialise then plan.cuts
    else KeysOf(plan.cells)
  }

  /** count(DISTINCT repeat_index) of a cell's timing rows. */
  function RepeatsTimed(db: Db, cell: Id): nat {
    |set s | s in RowsAt(db.measured.timings, cell) :: s.repeatIndex|
  }

  predicate HasProduct(db: Db, cell: Id) { cell in db.measured.encodes || cell in db.measured.failures }

  /** {key: repeats} over the plan's cells, a later entry for one key winning; one repeat when it names none. */
  function RepeatsWanted(cells: seq<CellSpec>, key: Id): int {
    if cells == [] then 1
    else if cells[|cells| - 1].key == key then cells[|cells| - 1].repeats
    else RepeatsWanted(cells[..|cells| - 1], key)
  }

  predicate TimedEnough(db: Db, cells: seq<CellSpec>, key: Id) {
    RepeatsTimed(db, key) >= 1 && RepeatsTimed(db, key) >= RepeatsWanted(cells, key)
  }

  /** What `done_cells` answers, stage by stage. */
  ghost function Done(db: Db, run: Id, stage: Stage, plan: Plan): set<Id> {
    if stage == Score then
      set p | p in db.measured.scores && p.0 == run && db.measured.scores[p] != {} :: p.1
    else if IsQuiet(stage) then
      set k | k in CellsOf(db, run) && TimedEnough(db, plan.cells, k)
    else if stage == Inventory then
      set t | t in plan.titles && t in db.sample.titles
    else if stage == Materialise then
      set c | c in plan.cuts && c in db.sample.cuts
    else
      set k | k in CellsOf(db, run) && HasProduct(db, k)
  }

  /** How much of how much is missing. */
  datatype Reason = Reason(missing: nat, total: nat)

  ghost predicate AllRecorded(db: Db, run: Id, row: RunRow, plan: Plan) {
    if row.stage == Score then
      forall k | k in KeptCells(db, row.parent) :: RowsAt(db.measured.scores, (run, k)) != {}
    else if IsQuiet(row.stage) then
      forall c | c in plan.cells :: RepeatsTimed(db, c.key) >= c.repeats
    else if row.stage == Inventory then
      forall t | t in plan.titles :: t in db.sample.titles
    else if row.stage == Materialise then
      forall c | c in plan.cuts :: c in db.sample.cuts
    else
      forall k | k in CellsOf(db, run) :: HasProduct(db, k)
  }

  /** The parent's encodes that are still kept. */
  function KeptCells(db: Db, parent: Option<Id>): set<Id> {
    set k | k in db.cells && Some(db.cells[k].run) == parent && k in db.measured.encodes && db.measured.encodes[k].kept
  }

  /** The verdict at the ack: nothing is missing, or how much is. */
  method VerifyAtAck(db: Db, run: Id, row: RunRow, plan: Plan) returns (reason: Option<Reason>)
    ensures reason.None? <==> AllRecorded(db, run, row, plan)
    ensures reason.Some? ==> 0 < reason.value.missing <= reason.value.total
  {
    if row.stage == Score {
      var kept := KeptCells(db, row.parent);
      var missing := set k | k in kept && RowsAt(db.measured.scores, (run, k)) == {};
      assert missing == {} <==> forall k | k in kept :: k !in missing;
      reason := SetReason(missing, kept);
    } else if IsQuiet(row.stage) {
      var short, i := 0, 0;
      while i < |plan.cells|
        invariant 0 <= short <= i <= |plan.cells|
        invariant short == 0 <==> forall j | 0 <= j < i :: RepeatsTimed(db, plan.cells[j].key) >= plan.cells[j].repeats
      {
        if RepeatsTimed(db, plan.cells[i].key) < plan.cells[i].repeats {
          short := short + 1;
        }
        i := i + 1;
      }
      reason := if short == 0 then None else Some(Reason(short, |plan.cells|));
    } else if row.stage == Inventory {
      reason := ListReason(plan.titles, db.sample.titles.Keys);
    } else if row.stage == Materialise {
      reason := ListReason(plan.cuts, db.sample.cuts.Keys);
    } else {
      var cells := CellsOf(db, run);
      var missing := set k | k in cells && !HasProduct(db, k);
      assert missing == {} <==> forall k | k in cells :: k !in missing;
      reason := SetReason(missing, cells);
    }
  }

  method SetReason(missing: set<Id>, wanted: set<Id>) returns (reason: Option<Reason>)
    requires missing <= wanted
    ensures reason.None? <==> missing == {}
    ensures reason.Some? ==> 0 < reason.value.missing <= reason.value.total
  {
    Subset(missing, wanted);
    reason := if missing == {} then None else Some(Reason(|missing|, |wanted|));
  }

  lemma {:induction false} Subset(a: set<Id>, b: set<Id>)
    requires a <= b
    ensures |a| <= |b|
  {
    assert b == a + (b - a);
  }

  method ListReason(wanted: seq<Id>, have: set<Id>) returns (reason: Option<Reason>)
    ensures reason.None? <==> forall k | k in wanted :: k in have
    ensures reason.Some? ==> 0 < reason.value.missing <= reason.value.total
  {
    var missing, i := 0, 0;
    while i < |wanted|
      invariant 0 <= missing <= i <= |wanted|
      invariant missing == 0 <==> forall k | k in wanted[..i] :: k in have
    {
      assert wanted[..i + 1] == wanted[..i] + [wanted[i]];
      if wanted[i] !in have {
        missing := missing + 1;
      }
      i := i + 1;
    }
    assert wanted[..i] == wanted;
    reason := if missing == 0 then None else Some(Reason(missing, |wanted|));
  }

  /** What a resumed agent may skip, read row by row as the query and its loop do. */
  method DoneCells(db: Db, run: Id, stage: Stage, plan: Plan) returns (done: set<Id>)
    ensures done == Done(db, run, stage, plan)
  {
    if stage == Score {
      done := set p | p in db.measured.scores && p.0 == run && db.measured.scores[p] != {} :: p.1;
    } else if IsQuiet(stage) {
      done := {};
      var groups := CellsOf(db, run);
      var left := groups;
      while left != {}
        invariant left <= groups
        invariant done == set k | k in groups - left && TimedEnough(db, plan.cells, k)
      {
        var key :| key in left;
        var n := RepeatsTimed(db, key);
        if n >= 1 && n >= RepeatsWanted(plan.cells, key) {
          done := done + {key};
        }
        left := left - {key};
      }
    } else if stage == Inventory {
      done := set t | t in plan.titles && t in db.sample.titles;
    } else if stage == Materialise {
      done := set c | c in plan.cuts && c in db.sample.cuts;
    } else {
      done := set k | k in CellsOf(db, run) && HasProduct(db, k);
    }
  }

  // ---- the two readings agree

  /** The cells table holds the run's plan: what `plan_run` leaves behind. */
  ghost predicate Fits(db: Db, run: Id, stage: Stage, plan: Plan) {
    stage != Inventory && stage != Materialise && stage != Score ==>
      && (forall i, j | 0 <= i < j < |plan.cells| :: plan.cells[i].key != plan.cells[j].key)
      && CellsOf(db, run) == set c | c in plan.cells :: c.key
  }

  predicate NothingLeft(done: set<Id>, units: seq<Id>) { forall k | k in units :: k in done }

  lemma {:induction false} WantedOfCell(cells: seq<CellSpec>, i: int)
    requires 0 <= i < |cells|
    requires forall j, k | 0 <= j < k < |cells| :: cells[j].key != cells[k].key
    ensures RepeatsWanted(cells, cells[i].key) == cells[i].repeats
  {
    if i < |cells| - 1 {
      WantedOfCell(cells[..|cells| - 1], i);
    }
  }

  lemma UnitInKeys(cells: seq<CellSpec>, c: CellSpec)
    requires c in cells
    ensures c.key in KeysOf(cells)
  {
    var i :| 0 <= i < |cells| && cells[i] == c;
    assert KeysOf(cells)[i] == c.key;
  }

  /** For every stage but scoring: a resumed agent finds nothing left to run exactly when the ack finds nothing
      missing, provided a timing plan asks for at least one repeat of every cell. */
  lemma ResumeAgreesWithAck(db: Db, run: Id, row: RunRow, plan: Plan)
    requires row.stage != Score && Fits(db, run, row.stage, plan)
    requires IsQuiet(row.stage) ==> forall c | c in plan.cells :: c.repeats >= 1
    ensures NothingLeft(Done(db, run, row.stage, plan), UnitKeys(row.stage, plan)) <==> AllRecorded(db, run, row, plan)
  {
    var done, units := Done(db, run, row.stage, plan), UnitKeys(row.stage, plan);
    if row.stage != Inventory && row.stage != Materialise {
      forall i | 0 <= i < |plan.cells|
        ensures units[i] == plan.cells[i].key && plan.cells[i].key in units && plan.cells[i] in plan.cells
        ensures RepeatsWanted(plan.cells, plan.cells[i].key) == plan.cells[i].repeats
        ensures plan.cells[i].key in CellsOf(db, run)
      {
        WantedOfCell(plan.cells, i);
        assert plan.cells[i] in plan.cells;
      }
      if IsQuiet(row.stage) {
        assert NothingLeft(done, units) <==> forall i | 0 <= i < |plan.cells| :: units[i] in done;
      } else {
        forall k | k in CellsOf(db, run) ensures k in units {
          var c :| c in plan.cells && c.key == k;
          UnitInKeys(plan.cells, c);
        }
      }
    }
  }

  ghost predicate ReadAlike(db: Db, run: Id, row: RunRow, plan: Plan) {
    NothingLeft(Done(db, run, row.stage, plan), UnitKeys(row.stage, plan)) <==> AllRecorded(db, run, row, plan)
  }

  // ---- both in the rows

  /** How many repeats of a cell have a sample. */
  function Repeats(db: Db, cell: Id): nat { |set s | cell in db.measured.timings && s in db.measured.timings[cell] :: s.repeatIndex| }

  ghost predicate HasScore(db: Db, run: Id, cell: Id) { exists s :: (run, cell) in db.measured.scores && s in db.measured.scores[(run, cell)] }

  /** The encode stands and has not been discarded. */
  predicate StillKept(db: Db, parent: Option<Id>, cell: Id) {
    cell in db.cells && parent == Some(db.cells[cell].run) && cell in db.measured.encodes && db.measured.encodes[cell].kept
  }

  /** What the ack asks of each stage, in the rows. A score run is held against the encodes of its parent that are kept
      at that moment: those an earlier scoring discarded are not asked for. */
  lemma RecordedInRows(db: Db, run: Id, row: RunRow, plan: Plan)
    ensures row.stage == Score ==>
              (AllRecorded(db, run, row, plan) <==> forall k | StillKept(db, row.parent, k) :: HasScore(db, run, k))
    ensures row.stage in {Time, Split, Concurrency} ==>
              (AllRecorded(db, run, row, plan) <==> forall c | c in plan.cells :: Repeats(db, c.key) >= c.repeats)
    ensures row.stage == Inventory ==> (AllRecorded(db, run, row, plan) <==> forall t | t in plan.titles :: t in db.sample.titles)
    ensures row.stage == Materialise ==> (AllRecorded(db, run, row, plan) <==> forall c | c in plan.cuts :: c in db.sample.cuts)
    ensures row.stage !in {Score, Time, Split, Concurrency, Inventory, Materialise} ==>
              (AllRecorded(db, run, row, plan) <==>
                 forall k | k in db.cells && db.cells[k].run == run :: k in db.measured.encodes || k in db.measured.failures)
  {
    forall k ensures RepeatsTimed(db, k) == Repeats(db, k) { RepeatsAre(db, k); }
    forall k ensures HasScore(db, run, k) <==> RowsAt(db.measured.scores, (run, k)) != {} { ScoreIs(db, run, k); }
    assert forall k :: k in KeptCells(db, row.parent) <==> StillKept(db, row.parent, k);
    assert forall k :: k in CellsOf(db, run) <==> k in db.cells && db.cells[k].run == run;
  }

  lemma RepeatsAre(db: Db, k: Id)
    ensures RepeatsTimed(db, k) == Repeats(db, k)
  {
    assert (set s | s in RowsAt(db.measured.timings, k) :: s.repeatIndex) ==
           (set s | k in db.measured.timings && s in db.measured.timings[k] :: s.repeatIndex);
  }

  lemma ScoreIs(db: Db, run: Id, k: Id)
    ensures HasScore(db, run, k) <==> RowsAt(db.measured.scores, (run, k)) != {}
  {
    if RowsAt(db.measured.scores, (run, k)) != {} {
      var s :| s in RowsAt(db.measured.scores, (run, k));
      assert s in db.measured.scores[(run, k)];
    }
  }

  /** An encode that is discarded, or of another run than the parent, never changes what the ack finds of a score run. */
  lemma DiscardedIsNotAsked(db: Db, run: Id, row: RunRow, plan: Plan, cell: Id, e: EncodeRow)
    requires row.stage == Score
    requires !(cell in db.cells && row.parent == Some(db.cells[cell].run))
             || (!e.kept && (cell in db.measured.encodes ==> !db.measured.encodes[cell].kept))
    ensures var other := db.(measured := db.measured.(encodes := db.measured.encodes[cell := e]));
            AllRecorded(other, run, row, plan) <==> AllRecorded(db, run, row, plan)
  {
    var other := db.(measured := db.measured.(encodes := db.measured.encodes[cell := e]));
    forall k ensures StillKept(other, row.parent, k) <==> StillKept(db, row.parent, k) {}
    forall k ensures HasScore(other, run, k) <==> HasScore(db, run, k) {
      ScoreIs(db, run, k);
      ScoreIs(other, run, k);
    }
    RecordedInRows(db, run, row, plan);
    RecordedInRows(other, run, row, plan);
  }

  /** What a resumed agent skips, in the rows. */
  lemma DoneInRows(db: Db, run: Id, stage: Stage, plan: Plan, k: Id)
    ensures stage == Score ==> (k in Done(db, run, stage, plan) <==> HasScore(db, run, k))
    ensures stage in {Time, Split, Concurrency} ==>
              (k in Done(db, run, stage, plan) <==>
                 k in db.cells && db.cells[k].run == run && Repeats(db, k) >= 1 && Repeats(db, k) >= RepeatsWanted(plan.cells, k))
    ensures stage == Inventory ==> (k in Done(db, run, stage, plan) <==> k in plan.titles && k in db.sample.titles)
    ensures stage == Materialise ==> (k in Done(db, run, stage, plan) <==> k in plan.cuts && k in db.sample.cuts)
    ensures stage !in {Score, Time, Split, Concurrency, Inventory, Materialise} ==>
              (k in Done(db, run, stage, plan) <==>
                 k in db.cells && db.cells[k].run == run && (k in db.measured.encodes || k in db.measured.failures))
  {
    ScoreIs(db, run, k);
    RepeatsAre(db, k);
    if stage == Score && HasScore(db, run, k) { assert (run, k) in db.measured.scores; }
  }

  /** For scoring, with every kept encode of the parent among the plan's cells, as it is when the plan is made: nothing
      is left to run exactly when the ack finds nothing missing and no planned cell was discarded by another scoring
      before this run scored it. */
  lemma ScoreResumeAgrees(db: Db, run: Id, row: RunRow, plan: Plan)
    requires row.stage == Score && forall k | StillKept(db, row.parent, k) :: k in KeysOf(plan.cells)
    ensures NothingLeft(Done(db, run, row.stage, plan), UnitKeys(row.stage, plan)) <==>
              && AllRecorded(db, run, row, plan)
              && forall k | k in KeysOf(plan.cells) :: StillKept(db, row.parent, k) || HasScore(db, run, k)
  {
    RecordedInRows(db, run, row, plan);
    forall k ensures k in Done(db, run, row.stage, plan) <==> HasScore(db, run, k) { DoneInRows(db, run, row.stage, plan, k); }
  }

  function Upto(n: nat): (r: set<nat>)
    ensures |r| == n
    ensures forall i :: i in r <==> 0 <= i < n
  {
    if n == 0 then {} else Upto(n - 1) + {n - 1}
  }

  function OneSample(cell: Id, index: nat): TimingRow {
    TimingRow(1, index, 1.0, 1.0, 1, cell, false, None, cell)
  }

  function Samples(cell: Id, n: nat): set<TimingRow> { set i | i in Upto(n) :: OneSample(cell, i) }

  /** A store that holds exactly the timing rows the plan asks for. */
  function JustTimed(run: Id, plan: Plan): Db {
    var keys := set k | k in KeysOf(plan.cells);
    var timings := map k | k in keys :: Samples(k, if RepeatsWanted(plan.cells, k) < 0 then 0 else RepeatsWanted(plan.cells, k));
    Db(map[], map[], map k | k in keys :: CellRow(run, k, k),
       Measured(map[], map[], map[], map[], timings, map[]), Tables.Sample(map[], map[], map[], map[]), map[],
       Catalogue({}, {}, {}, map[], map[], map[], map[]))
  }

  lemma JustEnough(run: Id, plan: Plan, i: int)
    requires 0 <= i < |plan.cells|
    requires forall j, k | 0 <= j < k < |plan.cells| :: plan.cells[j].key != plan.cells[k].key
    ensures var c := plan.cells[i];
            RepeatsTimed(JustTimed(run, plan), c.key) == if c.repeats < 0 then 0 else c.repeats
    ensures plan.cells[i].key in CellsOf(JustTimed(run, plan), run)
  {
    var c, db := plan.cells[i], JustTimed(run, plan);
    var n := if c.repeats < 0 then 0 else c.repeats;
    WantedOfCell(plan.cells, i);
    assert KeysOf(plan.cells)[i] == c.key;
    assert RowsAt(db.measured.timings, c.key) == Samples(c.key, n);
    var rows, indices := Samples(c.key, n), Upto(n);
    forall j | j in indices ensures j in set s | s in rows :: s.repeatIndex {
      assert OneSample(c.key, j) in rows;
    }
    assert (set s | s in rows :: s.repeatIndex) == indices;
  }

  lemma JustTimedFits(run: Id, stage: Stage, plan: Plan)
    requires forall j, k | 0 <= j < k < |plan.cells| :: plan.cells[j].key != plan.cells[k].key
    ensures Fits(JustTimed(run, plan), run, stage, plan)
  {
    var db := JustTimed(run, plan);
    forall k | k in CellsOf(db, run) ensures exists c :: c in plan.cells && c.key == k {
      var i :| 0 <= i < |plan.cells| && KeysOf(plan.cells)[i] == k;
      assert plan.cells[i] in plan.cells;
    }
    forall c | c in plan.cells ensures c.key in CellsOf(db, run) { UnitInKeys(plan.cells, c); }
    assert CellsOf(db, run) == set c | c in plan.cells :: c.key;
  }

  lemma WithoutARepeat(run: Id, row: RunRow, plan: Plan, bad: int)
    requires IsQuiet(row.stage) && 0 <= bad < |plan.cells| && plan.cells[bad].repeats < 1
    requires forall i, j | 0 <= i < j < |plan.cells| :: plan.cells[i].key != plan.cells[j].key
    ensures Fits(JustTimed(run, plan), run, row.stage, plan)
    ensures AllRecorded(JustTimed(run, plan), run, row, plan)
    ensures !NothingLeft(Done(JustTimed(run, plan), run, row.stage, plan), UnitKeys(row.stage, plan))
  {
    var db := JustTimed(run, plan);
    JustTimedFits(run, row.stage, plan);
    forall c | c in plan.cells ensures RepeatsTimed(db, c.key) >= c.repeats {
      var i :| 0 <= i < |plan.cells| && plan.cells[i] == c;
      JustEnough(run, plan, i);
    }
    JustEnough(run, plan, bad);
    assert KeysOf(plan.cells)[bad] in UnitKeys(row.stage, plan);
  }

  /** The condition on repeats is exact: a timing plan is read alike in every store if and only if each of its
      cells asks for at least one repeat. The planner takes the number from its caller unchecked; asked for none,
      the ack passes a run in which a resumed agent would still find work. */
  lemma AgreementNeedsARepeat(run: Id, row: RunRow, plan: Plan)
    requires IsQuiet(row.stage)
    requires forall i, j | 0 <= i < j < |plan.cells| :: plan.cells[i].key != plan.cells[j].key
    ensures (forall c | c in plan.cells :: c.repeats >= 1) <==>
            (forall db | Fits(db, run, row.stage, plan) :: ReadAlike(db, run, row, plan))
  {
    if forall c | c in plan.cells :: c.repeats >= 1 {
      forall db | Fits(db, run, row.stage, plan) ensures ReadAlike(db, run, row, plan) {
        ResumeAgreesWithAck(db, run, row, plan);
      }
    } else {
      var bad :| 0 <= bad < |plan.cells| && plan.cells[bad].repeats < 1;
      WithoutARepeat(run, row, plan, bad);
      assert !ReadAlike(JustTimed(run, plan), run, row, plan);
    }
  }

  // ---- publish jobs

  /** A publish job is done when every file it names is a published row. */
  predicate AllPublished(db: Db, files: seq<Id>) { forall f | f in files :: f in db.published }

  method VerifyPublish(db: Db, files: seq<Id>) returns (reason: Option<Reason>)
    ensures reason.None? <==> AllPublished(db, files)
    ensures reason.Some? ==> 0 < reason.value.missing <= reason.value.total
  {
    reason := ListReason(files, db.published.Keys);
  }
}
