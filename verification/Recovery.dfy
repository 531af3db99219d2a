/** What a crash may leave behind: of a run whose cells end in encodes, failures and timings, everything the hub
    holds is also in the run's records directory, each record in its own file, and nothing else is there. Kept by
    every step of the protocol. */
module Recovery {
  import opened Names
  import opened Wrappers
  import opened Tables
  import opened Ingest
  import opened Verify
  import opened Runs
  import opened Queue
  import opened Protocol
  import Stranding
  import History

  predicate IsProduct(r: Record) { r.EncodeRecord? || r.FailureRecord? }

  /** A record a cell of a run of this stage ends in; a timing cell ends in an encode and a timing, or a failure. */
  predicate IsCellRecord(s: Stage, r: Record) { IsProduct(r) || (r.TimingRecord? && IsQuiet(s) && Numbered(r.samples)) }

  /** The file a cell's record is written to. */
  function FileOf(s: Stage, r: Record): FileName
    requires IsCellRecord(s, r)
  {
    match r
    case EncodeRecord(k, _) => EncodeFile(s, k)
    case FailureRecord(k, _) => Whole(k)
    case TimingRecord(k, _) => TimingPart(k)
  }

  function EncodeFile(s: Stage, cell: Id): FileName { if IsQuiet(s) then EncodePart(cell) else Whole(cell) }

  predicate FileSound(s: Stage, dir: Directory, cells: set<Id>, f: FileName)
    requires f in dir
  {
    && IsCellRecord(s, dir[f]) && dir[f].cell in cells && f == FileOf(s, dir[f])
    && (f.TimingPart? ==> EncodePart(f.cell) in dir)
  }

  ghost predicate FilesSound(s: Stage, dir: Directory, cells: set<Id>) { forall f | f in dir :: FileSound(s, dir, cells, f) }

  /** The hub holds this very record; `kept` belongs to the scorer. */
  predicate OnHub(db: Db, r: Record)
    requires IsProduct(r) || r.TimingRecord?
  {
    match r
    case EncodeRecord(k, row) => k in db.measured.encodes && SameButKept(db.measured.encodes[k], row)
    case FailureRecord(k, row) => k in db.measured.failures && db.measured.failures[k] == row
    case TimingRecord(k, samples) => SampleSet(samples) <= RowsAt(db.measured.timings, k)
  }

  predicate EncodeOnDisk(s: Stage, db: Db, dir: Directory, k: Id) {
    k in db.measured.encodes ==>
      var f := EncodeFile(s, k);
      f in dir && dir[f].EncodeRecord? && SameButKept(db.measured.encodes[k], dir[f].encode)
  }

  predicate FailureOnDisk(db: Db, dir: Directory, k: Id) {
    k in db.measured.failures ==> Whole(k) in dir && dir[Whole(k)].FailureRecord? && dir[Whole(k)].failure == db.measured.failures[k]
  }

  predicate TimingOnDisk(db: Db, dir: Directory, k: Id) {
    RowsAt(db.measured.timings, k) != {} ==>
      TimingPart(k) in dir && dir[TimingPart(k)].TimingRecord? && SampleSet(dir[TimingPart(k)].samples) == RowsAt(db.measured.timings, k)
  }

  predicate CellOnDisk(s: Stage, db: Db, dir: Directory, k: Id) {
    EncodeOnDisk(s, db, dir, k) && FailureOnDisk(db, dir, k) && TimingOnDisk(db, dir, k)
  }

  /** What the hub holds of the run's cells is on disk. */
  ghost predicate HubIsOnDisk(s: Stage, db: Db, dir: Directory, cells: set<Id>) { forall k | k in cells :: CellOnDisk(s, db, dir, k) }

  /** No score run scores this run's cells; the schema's checks let none score those of a run that times. */
  ghost predicate Unscored(db: Db, run: Id) {
    forall s | s in db.runs && db.runs[s].stage == Score :: db.runs[s].parent != Some(run)
  }

  /** The hub's encodes of a run that nobody scores are the files', `kept` included. */
  ghost predicate AsWritten(db: Db, dir: Directory, run: Id)
    requires run in db.runs
  {
    Unscored(db, run) ==> forall k | k in CellsOf(db, run) && k in db.measured.encodes :: FileHas(dir, EncodeFile(db.runs[run].stage, k), EncodeRecord(k, db.measured.encodes[k]))
  }

  predicate FileHas(dir: Directory, f: FileName, r: Record) { f in dir && dir[f] == r }

  ghost predicate Recoverable(db: Db, dir: Directory, run: Id) {
    run in db.runs ==>
      && FilesSound(db.runs[run].stage, dir, CellsOf(db, run)) && HubIsOnDisk(db.runs[run].stage, db, dir, CellsOf(db, run))
      && AsWritten(db, dir, run)
  }

  // ---- what a batch adds

  /** The timing rows of a cell change only from none to those of a record of it. */
  ghost predicate TimesAs(a: Db, b: Db, batch: seq<Record>, k: Id) {
    RowsAt(b.measured.timings, k) != RowsAt(a.measured.timings, k) ==>
      exists r :: r in batch && r.TimingRecord? && r.cell == k && SampleSet(r.samples) == RowsAt(b.measured.timings, k)
  }

  /** An encode is as it was, or as a record of the batch has it, or its parent's scorer has posted. */
  ghost predicate EncodeFrom(a: Db, b: Db, run: Id, batch: seq<Record>, k: Id)
    requires k in b.measured.encodes
  {
    || (k in a.measured.encodes && (b.measured.encodes[k] == a.measured.encodes[k] || ScoresFor(a, run, k)))
    || EncodeRecord(k, b.measured.encodes[k]) in batch
  }

  predicate ScoresFor(db: Db, run: Id, k: Id) {
    run in db.runs && db.runs[run].stage == Score && k in db.cells && Some(db.cells[k].run) == db.runs[run].parent
  }

  /** A record adds at most its own rows, to a cell its run planned. */
  ghost predicate Adds(a: Db, b: Db, run: Id, batch: seq<Record>) {
    && (forall k | k in b.measured.encodes :: EncodeFrom(a, b, run, batch, k))
    && (forall k | k in b.measured.failures && k !in a.measured.failures :: exists r :: r in batch && r.FailureRecord? && r.cell == k)
    && (forall k :: TimesAs(a, b, batch, k))
    && (forall r | r in batch && (IsProduct(r) || r.TimingRecord?) :: OnHub(b, r) && r.cell in CellsOf(a, run))
  }

  lemma RecordAdds(db: Db, run: Id, r: Record)
    requires IngestRecord(db, run, r).Ok?
    ensures var b := IngestRecord(db, run, r).value;
            && (IsProduct(r) || r.TimingRecord? ==> OnHub(b, r) && r.cell in CellsOf(db, run))
            && b.measured.failures.Keys == db.measured.failures.Keys + (if r.FailureRecord? then {r.cell} else {})
  {
    var b := IngestRecord(db, run, r).value;
    match r
    case EncodeRecord(_, _) =>
    case FailureRecord(_, _) =>
    case TimingRecord(_, _) => TimingAdds(db, run, r);
    case ScoreRecord(_, _, _, _, _) => ScoreAddsNone(db, run, r);
    case _ => assert b.measured.failures == db.measured.failures;
  }

  lemma RecordEncodes(db: Db, run: Id, r: Record, k: Id)
    requires IngestRecord(db, run, r).Ok? && k in IngestRecord(db, run, r).value.measured.encodes
    ensures EncodeFrom(db, IngestRecord(db, run, r).value, run, [r], k)
  {
    var b := IngestRecord(db, run, r).value;
    match r
    case ScoreRecord(_, _, _, _, _) => ScoreEncodes(db, run, r, k);
    case EncodeRecord(_, _) => assert r in [r];
    case _ => assert b.measured.encodes == db.measured.encodes;
  }

  lemma ScoreEncodes(db: Db, run: Id, r: Record, k: Id)
    requires r.ScoreRecord? && IngestRecord(db, run, r).Ok? && k in IngestRecord(db, run, r).value.measured.encodes
    ensures EncodeFrom(db, IngestRecord(db, run, r).value, run, [r], k)
  {
    var row := db.runs[run];
    if RowsAt(db.measured.scores, (run, r.cell)) == {} {
      var height := ScoreHeight(db, row).value;
      ScoredAddsNone(db.measured, run, r.cell, WantedScores(r, height, row.scorerBuild.value), StepRows(r.steps, height), r.kept);
    }
  }

  lemma EncodesOn(a: Db, mid: Db, b: Db, run: Id, batch: seq<Record>, k: Id)
    requires batch != [] && IngestRecord(a, run, batch[0]) == Ok(mid) && PlanUntouched(a, mid) && k in b.measured.encodes
    requires EncodeFrom(mid, b, run, batch[1..], k) && (k in mid.measured.encodes ==> EncodeFrom(a, mid, run, [batch[0]], k))
    ensures EncodeFrom(a, b, run, batch, k)
  {
    assert forall r | r in batch[1..] :: r in batch;
    assert forall r | r in [batch[0]] :: r == batch[0];
  }

  lemma TimingAdds(db: Db, run: Id, r: Record)
    requires r.TimingRecord? && IngestRecord(db, run, r).Ok?
    ensures var b := IngestRecord(db, run, r).value;
            && RowsAt(b.measured.timings, r.cell) == SampleSet(r.samples) && r.cell in CellsOf(db, run)
            && (forall k | k != r.cell :: RowsAt(b.measured.timings, k) == RowsAt(db.measured.timings, k))
            && b.measured.encodes == db.measured.encodes && b.measured.failures == db.measured.failures
  {
  }

  lemma RecordTimes(db: Db, run: Id, r: Record, k: Id)
    requires IngestRecord(db, run, r).Ok?
    ensures TimesAs(db, IngestRecord(db, run, r).value, [r], k)
  {
    var b := IngestRecord(db, run, r).value;
    assert r in [r];
    match r
    case TimingRecord(_, _) => TimingAdds(db, run, r);
    case ScoreRecord(_, _, _, _, _) => ScoreTimesNone(db, run, r);
    case _ => assert b.measured.timings == db.measured.timings;
  }

  lemma ScoreAddsNone(db: Db, run: Id, r: Record)
    requires r.ScoreRecord? && IngestRecord(db, run, r).Ok?
    ensures IngestRecord(db, run, r).value.measured.failures == db.measured.failures
  {
    var row := db.runs[run];
    if RowsAt(db.measured.scores, (run, r.cell)) == {} {
      var height := ScoreHeight(db, row).value;
      ScoredAddsNone(db.measured, run, r.cell, WantedScores(r, height, row.scorerBuild.value), StepRows(r.steps, height), r.kept);
    }
  }

  lemma ScoreTimesNone(db: Db, run: Id, r: Record)
    requires r.ScoreRecord? && IngestRecord(db, run, r).Ok?
    ensures IngestRecord(db, run, r).value.measured.timings == db.measured.timings
  {
    var row := db.runs[run];
    if RowsAt(db.measured.scores, (run, r.cell)) == {} {
      var height := ScoreHeight(db, row).value;
      var scored := WithScores(db.measured, run, r.cell, WantedScores(r, height, row.scorerBuild.value));
      var stepped := WithSteps(scored, run, r.cell, StepRows(r.steps, height));
      assert scored.timings == db.measured.timings && stepped.timings == db.measured.timings;
      assert FlipKept(stepped, r.cell, r.kept).timings == stepped.timings;
    }
  }

  lemma ScoredAddsNone(m: Measured, run: Id, cell: Id, want: set<ScoreRow>, steps: set<StepRow>, kept: bool)
    ensures var b := FlipKept(WithSteps(WithScores(m, run, cell, want), run, cell, steps), cell, kept);
            && b.encodes.Keys == m.encodes.Keys && b.failures == m.failures
            && forall k | k in m.encodes && k != cell :: b.encodes[k] == m.encodes[k]
  {
    var scored := WithScores(m, run, cell, want);
    assert scored.encodes == m.encodes && scored.failures == m.failures;
    var stepped := WithSteps(scored, run, cell, steps);
    assert stepped.encodes == m.encodes && stepped.failures == m.failures;
    FlipAddsNone(stepped, cell, kept);
  }

  lemma FlipAddsNone(m: Measured, cell: Id, kept: bool)
    ensures FlipKept(m, cell, kept).encodes.Keys == m.encodes.Keys && FlipKept(m, cell, kept).failures == m.failures
    ensures forall k | k in m.encodes && k != cell :: FlipKept(m, cell, kept).encodes[k] == m.encodes[k]
  {
    if cell in m.encodes { assert FlipKept(m, cell, kept).encodes == m.encodes[cell := m.encodes[cell].(kept := kept)]; }
  }

  lemma StaysOnHub(a: Db, b: Db, r: Record)
    requires (IsProduct(r) || r.TimingRecord?) && OnHub(a, r) && Keeps(a, b)
    ensures OnHub(b, r)
  {
  }

  /** Timing rows once there stay. */
  lemma TimesStay(a: Db, b: Db, k: Id)
    requires Keeps(a, b) && RowsAt(a.measured.timings, k) != {}
    ensures RowsAt(b.measured.timings, k) == RowsAt(a.measured.timings, k)
  {
  }

  lemma TimesOn(a: Db, mid: Db, b: Db, batch: seq<Record>, k: Id)
    requires batch != [] && Keeps(a, mid) && Keeps(mid, b) && TimesAs(a, mid, [batch[0]], k) && TimesAs(mid, b, batch[1..], k)
    ensures TimesAs(a, b, batch, k)
  {
    if RowsAt(b.measured.timings, k) != RowsAt(a.measured.timings, k) {
      if RowsAt(mid.measured.timings, k) != RowsAt(a.measured.timings, k) {
        var r :| r in [batch[0]] && r.TimingRecord? && r.cell == k && SampleSet(r.samples) == RowsAt(mid.measured.timings, k);
        if RowsAt(mid.measured.timings, k) == {} {
          TimesStay(a, mid, k);
        } else {
          TimesStay(mid, b, k);
          assert r in batch;
        }
      } else {
        var r :| r in batch[1..] && r.TimingRecord? && r.cell == k && SampleSet(r.samples) == RowsAt(b.measured.timings, k);
        assert r in batch;
      }
    }
  }

  lemma {:induction false} BatchAdds(db: Db, run: Id, batch: seq<Record>)
    requires IngestAll(db, run, batch).Ok?
    ensures Adds(db, IngestAll(db, run, batch).value, run, batch)
    decreases |batch|
  {
    if batch != [] {
      var mid, b := IngestRecord(db, run, batch[0]).value, IngestAll(db, run, batch).value;
      RecordAdds(db, run, batch[0]);
      RecordKeeps(db, run, batch[0]);
      BatchAdds(mid, run, batch[1..]);
      BatchKeeps(mid, run, batch[1..]);
      forall k ensures TimesAs(db, b, batch, k) {
        RecordTimes(db, run, batch[0], k);
        TimesOn(db, mid, b, batch, k);
      }
      forall k | k in b.measured.encodes ensures EncodeFrom(db, b, run, batch, k) {
        if k in mid.measured.encodes { RecordEncodes(db, run, batch[0], k); }
        EncodesOn(db, mid, b, run, batch, k);
      }
      BatchAddsProducts(db, mid, b, run, batch);
    }
  }

  lemma BatchAddsProducts(db: Db, mid: Db, b: Db, run: Id, batch: seq<Record>)
    requires batch != [] && IngestRecord(db, run, batch[0]) == Ok(mid) && Adds(mid, b, run, batch[1..]) && Keeps(mid, b) && PlanUntouched(db, mid)
    requires IsProduct(batch[0]) || batch[0].TimingRecord? ==> OnHub(mid, batch[0]) && batch[0].cell in CellsOf(db, run)
    requires mid.measured.failures.Keys == db.measured.failures.Keys + (if batch[0].FailureRecord? then {batch[0].cell} else {})
    ensures forall k | k in b.measured.failures && k !in db.measured.failures :: exists r :: r in batch && r.FailureRecord? && r.cell == k
    ensures forall r | r in batch && (IsProduct(r) || r.TimingRecord?) :: OnHub(b, r) && r.cell in CellsOf(db, run)
  {
    forall k | k in b.measured.failures && k !in db.measured.failures ensures exists r :: r in batch && r.FailureRecord? && r.cell == k {
      if k in mid.measured.failures {
        assert batch[0] in batch && batch[0].FailureRecord?;
      } else {
        var r :| r in batch[1..] && r.FailureRecord? && r.cell == k;
        assert r in batch;
      }
    }
    forall r | r in batch && (IsProduct(r) || r.TimingRecord?) ensures OnHub(b, r) && r.cell in CellsOf(db, run) {
      assert CellsOf(mid, run) == CellsOf(db, run);
      if r == batch[0] { StaysOnHub(mid, b, r); } else { assert r in batch[1..]; }
    }
  }

  // ---- what keeps a run recoverable

  /** Every record of the batch is the one in its file. */
  ghost predicate FromDisk(s: Stage, batch: seq<Record>, dir: Directory) {
    forall r | r in batch :: IsCellRecord(s, r) && FileOf(s, r) in dir && dir[FileOf(s, r)] == r
  }

  lemma OwnCellKeeps(a: Db, b: Db, dir: Directory, run: Id, batch: seq<Record>, s: Stage, k: Id)
    requires CellOnDisk(s, a, dir, k) && FromDisk(s, batch, dir) && Adds(a, b, run, batch) && Keeps(a, b) && !ScoresFor(a, run, k)
    ensures CellOnDisk(s, b, dir, k)
  {
    if k in b.measured.encodes { assert EncodeFrom(a, b, run, batch, k); }
    if k in b.measured.failures && k !in a.measured.failures {
      var r :| r in batch && r.FailureRecord? && r.cell == k;
      assert OnHub(b, r);
    }
    assert TimesAs(a, b, batch, k);
    if RowsAt(b.measured.timings, k) != RowsAt(a.measured.timings, k) {
      var r :| r in batch && r.TimingRecord? && r.cell == k && SampleSet(r.samples) == RowsAt(b.measured.timings, k);
      assert FileOf(s, r) in dir;
    }
  }

  lemma OwnBatchKeeps(a: Db, b: Db, dir: Directory, run: Id, batch: seq<Record>)
    requires run in a.runs && IsEncoding(a.runs[run].stage) && Recoverable(a, dir, run) && FromDisk(a.runs[run].stage, batch, dir)
    requires Adds(a, b, run, batch) && Keeps(a, b) && PlanUntouched(a, b)
    ensures Recoverable(b, dir, run)
  {
    assert CellsOf(b, run) == CellsOf(a, run);
    forall k | k in CellsOf(b, run) ensures CellOnDisk(b.runs[run].stage, b, dir, k) {
      OwnCellKeeps(a, b, dir, run, batch, a.runs[run].stage, k);
    }
    forall k | k in CellsOf(b, run) && k in b.measured.encodes && Unscored(b, run)
      ensures FileHas(dir, EncodeFile(b.runs[run].stage, k), EncodeRecord(k, b.measured.encodes[k]))
    {
      assert EncodeFrom(a, b, run, batch, k);
    }
  }

  lemma OtherCellKeeps(a: Db, b: Db, dir: Directory, poster: Id, batch: seq<Record>, s: Stage, k: Id)
    requires CellOnDisk(s, a, dir, k) && Adds(a, b, poster, batch) && Keeps(a, b) && k !in CellsOf(a, poster)
    ensures CellOnDisk(s, b, dir, k)
  {
    assert k in b.measured.encodes ==> EncodeFrom(a, b, poster, batch, k);
    assert k in b.measured.failures ==> k in a.measured.failures;
    assert TimesAs(a, b, batch, k);
    assert RowsAt(b.measured.timings, k) == RowsAt(a.measured.timings, k);
  }

  lemma OtherBatchKeeps(a: Db, b: Db, dir: Directory, run: Id, poster: Id, batch: seq<Record>)
    requires run in a.runs && Recoverable(a, dir, run) && run != poster
    requires Adds(a, b, poster, batch) && Keeps(a, b) && PlanUntouched(a, b)
    ensures Recoverable(b, dir, run)
  {
    assert CellsOf(b, run) == CellsOf(a, run);
    forall k | k in CellsOf(b, run) ensures CellOnDisk(b.runs[run].stage, b, dir, k) {
      OtherCellKeeps(a, b, dir, poster, batch, a.runs[run].stage, k);
    }
    forall k | k in CellsOf(b, run) && k in b.measured.encodes && Unscored(b, run)
      ensures FileHas(dir, EncodeFile(b.runs[run].stage, k), EncodeRecord(k, b.measured.encodes[k]))
    {
      assert EncodeFrom(a, b, poster, batch, k);
    }
  }

  /** A step that moves neither a record nor a cell. */
  lemma StoreMoved(a: Db, b: Db, dir: Directory, run: Id)
    requires Recoverable(a, dir, run) && CellsOf(b, run) == CellsOf(a, run) && b.measured == a.measured
    requires run in a.runs && run in b.runs && b.runs[run].stage == a.runs[run].stage && (Unscored(b, run) ==> Unscored(a, run))
    ensures Recoverable(b, dir, run)
  {
    forall k | k in CellsOf(b, run) ensures CellOnDisk(b.runs[run].stage, b, dir, k) { assert CellOnDisk(a.runs[run].stage, a, dir, k); }
  }

  lemma FileKeeps(db: Db, dir: Directory, run: Id, r: Record)
    requires run in db.runs && Recoverable(db, dir, run) && IsCellRecord(db.runs[run].stage, r) && r.cell in CellsOf(db, run)
    requires var f := FileOf(db.runs[run].stage, r); f in dir ==> dir[f] == r
    requires r.TimingRecord? ==> EncodePart(r.cell) in dir
    ensures Recoverable(db, dir[FileOf(db.runs[run].stage, r) := r], run)
  {
    var s, f := db.runs[run].stage, FileOf(db.runs[run].stage, r);
    var next := dir[f := r];
    forall g | g in next ensures FileSound(s, next, CellsOf(db, run), g) { if g != f { assert FileSound(s, dir, CellsOf(db, run), g); } }
    forall k | k in CellsOf(db, run) ensures CellOnDisk(s, db, next, k) { assert CellOnDisk(s, db, dir, k); }
    assert forall g, q | FileHas(dir, g, q) :: FileHas(next, g, q);
  }

  // ---- in every reachable state

  predicate EncodingRun(w: World, run: Id) { run in w.db.runs && IsEncoding(w.db.runs[run].stage) }

  /** What a unit has yet to write: its own files, a timing only beside its encode. */
  predicate TodoSound(s: Stage, unit: Id, todo: seq<(FileName, Record)>, dir: Directory) {
    && (forall f | f in todo :: IsCellRecord(s, f.1) && f.0 == FileOf(s, f.1) && f.1.cell == unit)
    && |todo| <= 2
    && (|todo| == 2 ==> todo[0].0 == EncodePart(unit))
    && (|todo| > 0 && todo[0].1.TimingRecord? ==> EncodePart(unit) in dir)
  }

  /** The batch an agent is putting together is on disk already, and what it has yet to write is its unit's. */
  ghost predicate WritingSound(w: World, a: Agent) {
    a.Writing? && a.entry.body.RunJob? ==> a.entry.body.run in w.db.runs && (EncodingRun(w, a.entry.body.run) ==>
      && FromDisk(w.db.runs[a.entry.body.run].stage, a.batch, DiskOf(w, a.entry.body.run))
      && a.n < |Units(w, a.entry)|
      && TodoSound(w.db.runs[a.entry.body.run].stage, Units(w, a.entry)[a.n], a.todo, DiskOf(w, a.entry.body.run)))
  }

  /** What is recorded is of planned cells, which the foreign keys see to. */
  ghost predicate ProductsPlanned(db: Db) {
    db.measured.encodes.Keys + db.measured.failures.Keys <= db.cells.Keys
    && forall k | RowsAt(db.measured.timings, k) != {} :: k in db.cells
  }

  ghost predicate OnDisk(w: World) {
    && w.disks.Keys <= w.db.runs.Keys && ProductsPlanned(w.db)
    && (forall r | EncodingRun(w, r) :: Recoverable(w.db, DiskOf(w, r), r))
    && (forall h :: WritingSound(w, AgentOf(w, h)))
  }

  predicate SameKind(a: RunRow, b: RunRow) { a.stage == b.stage && a.parent == b.parent }

  ghost predicate StoreQuiet(a: Db, b: Db) {
    && b.measured == a.measured && b.cells == a.cells && b.runs.Keys == a.runs.Keys
    && forall r | r in a.runs :: SameKind(b.runs[r], a.runs[r])
  }

  ghost predicate NoneStarts(a: map<Id, Agent>, b: map<Id, Agent>) { forall h | h in b && b[h].Writing? :: h in a && a[h] == b[h] }

  /** Neither a record nor a file nor a cell moves, and no agent starts to write. */
  ghost predicate Quiet(w: World, v: World) { v.disks == w.disks && StoreQuiet(w.db, v.db) && NoneStarts(w.agents, v.agents) }

  lemma EventQuiet(db: Db, run: Id, state: RunState, writer: Writer)
    requires run in db.runs
    ensures StoreQuiet(db, Posted(db, run, state, writer))
  {
  }

  /** A step that writes at most one event, and moves at most one agent, which does not start to write. */
  lemma MovesQuietly(w: World, v: World, host: Id)
    requires v.disks == w.disks && StoreQuiet(w.db, v.db)
    requires v.agents == w.agents || v.agents == w.agents[host := AgentOf(v, host)]
    requires AgentOf(v, host) == AgentOf(w, host) || !AgentOf(v, host).Writing?
    ensures Quiet(w, v)
  {
  }

  lemma StoreIsQuiet(db: Db)
    ensures StoreQuiet(db, db)
  {
  }

  lemma QuietKeeps(w: World, v: World)
    requires OnDisk(w) && Quiet(w, v)
    ensures OnDisk(v)
  {
    forall r | EncodingRun(v, r) ensures Recoverable(v.db, DiskOf(v, r), r) {
      assert EncodingRun(w, r) && CellsOf(v.db, r) == CellsOf(w.db, r);
      KindsUnscored(w.db, v.db, r);
      StoreMoved(w.db, v.db, DiskOf(w, r), r);
    }
    forall h ensures WritingSound(v, AgentOf(v, h)) { assert WritingSound(w, AgentOf(w, h)); }
  }

  lemma KindsUnscored(a: Db, b: Db, run: Id)
    requires StoreQuiet(a, b)
    ensures Unscored(b, run) ==> Unscored(a, run)
  {
    forall s | Unscored(b, run) && s in a.runs && a.runs[s].stage == Score ensures a.runs[s].parent != Some(run) {
      assert SameKind(b.runs[s], a.runs[s]);
    }
  }

  lemma SendsQuiet(w: World, host: Id, phase: Phase, waits: Option<Agent>)
    requires waits.Some? ==> !waits.value.Writing?
    ensures Quiet(w, Sends(w, host, phase, waits))
  {
    StoreIsQuiet(w.db);
    MovesQuietly(w, Sends(w, host, phase, waits), host);
  }

  lemma OffersQuiet(w: World, host: Id, entry: Entry<Job>, waits: bool)
    ensures Quiet(w, Offers(w, host, entry, waits))
  {
    StoreIsQuiet(w.db);
    if entry.body.RunJob? {
      var waiting := if waits then Some(Waiting(w.sent)) else None;
      if Stale(w.db, entry.body.run, host) {
        SendsQuiet(w, host, Releasing(entry), waiting);
      } else if MayHandOut(w.db, entry.body.run, host) {
        SendsQuiet(w, host, Claiming(entry, w.db.runs[entry.body.run].state), waiting);
      }
    } else if waits {
      MovesQuietly(w, w.(agents := w.agents[host := Publishing(entry)]), host);
    }
  }

  lemma ClaimStartsQuiet(w: World, host: Id, waits: bool)
    ensures Quiet(w, ClaimStarts(w, host, waits))
  {
    StoreIsQuiet(w.db);
    if (waits ==> AgentOf(w, host) == Idle) && Pending(w.queue, host) != [] {
      OffersQuiet(w.(queue := AfterClaim(w.queue, host)), host, Pending(w.queue, host)[0], waits);
    }
  }

  lemma ClaimEndsQuiet(w: World, id: nat, ok: bool)
    requires id in w.requests && w.requests[id].phase.Claiming? && w.requests[id].phase.entry.body.RunJob?
    ensures Quiet(w, ClaimEnds(w, id, ok))
  {
    var v, run := ClaimEnds(w, id, ok), w.requests[id].phase.entry.body.run;
    if v.db == w.db { StoreIsQuiet(w.db); } else { EventQuiet(w.db, run, Launched, ByHub); }
    MovesQuietly(w, v, w.requests[id].host);
  }

  lemma RunningSaidQuiet(w: World, id: nat, ok: bool)
    requires id in w.requests && w.requests[id].phase.Saying? && w.requests[id].phase.entry.body.RunJob?
    ensures Quiet(w, RunningSaid(w, id, ok))
  {
    var v, run := RunningSaid(w, id, ok), w.requests[id].phase.entry.body.run;
    if v.db == w.db { StoreIsQuiet(w.db); } else { EventQuiet(w.db, run, Running, ByAgent); }
    MovesQuietly(w, v, w.requests[id].host);
  }

  lemma RefusedQuiet(w: World, id: nat)
    requires id in w.requests
    ensures Quiet(w, w.(requests := w.requests - {id}, agents := Answered(w, id, Idle)))
  {
    StoreIsQuiet(w.db);
    MovesQuietly(w, w.(requests := w.requests - {id}, agents := Answered(w, id, Idle)), w.requests[id].host);
  }

  lemma VerdictQuiet(w: World, requests: map<nat, Request>, run: Id, state: RunState)
    requires run in w.db.runs
    ensures Quiet(w, w.(requests := requests, db := Posted(w.db, run, state, ByHub))) && Quiet(w, w.(requests := requests))
  {
    StoreIsQuiet(w.db);
    EventQuiet(w.db, run, state, ByHub);
  }

  lemma JudgesQuiet(w: World, id: nat, ok: bool)
    requires id in w.requests && w.requests[id].phase.Judging? && w.requests[id].phase.entry.body.RunJob?
    ensures Quiet(w, Judges(w, id, ok))
  {
    var Request(host, phase) := w.requests[id];
    var run, found := phase.entry.body.run, FindPending(Pending(w.queue, host), phase.entry.id);
    if run !in w.db.runs || found.None? || (w.db.runs[run].state != Abandoned && !ok) {
      RefusedQuiet(w, id);
    } else {
      VerdictQuiet(w, w.requests[id := Request(host, Releasing(phase.entry))], run, Verdict(w.db, run, PlanOf(found.value.body)));
    }
  }

  lemma ReleasesQuiet(w: World, id: nat)
    requires id in w.requests && w.requests[id].phase.Releasing?
    ensures Quiet(w, Releases(w, id))
  {
    StoreIsQuiet(w.db);
    MovesQuietly(w, Releases(w, id), w.requests[id].host);
  }

  lemma ServesQuiet(w: World, id: nat, ok: bool)
    ensures Quiet(w, Serves(w, id, ok))
  {
    if id !in w.requests || (!w.requests[id].phase.Releasing? && !w.requests[id].phase.entry.body.RunJob?) {
      StoreIsQuiet(w.db);
    } else {
      match w.requests[id].phase
      case Claiming(_, _) => ClaimEndsQuiet(w, id, ok);
      case Saying(_) => RunningSaidQuiet(w, id, ok);
      case Judging(_) => JudgesQuiet(w, id, ok);
      case Releasing(_) => ReleasesQuiet(w, id);
    }
  }

  lemma RequestsQuiet(w: World, host: Id)
    ensures Quiet(w, SaysRunning(w, host)) && Quiet(w, AcksRun(w, host))
  {
    StoreIsQuiet(w.db);
    MovesQuietly(w, SaysRunning(w, host), host);
    MovesQuietly(w, AcksRun(w, host), host);
  }

  lemma LooksQuiet(w: World, host: Id)
    ensures Quiet(w, LooksAtUnit(w, host))
  {
    StoreIsQuiet(w.db);
    MovesQuietly(w, LooksAtUnit(w, host), host);
  }

  lemma JobAcksQuiet(w: World, host: Id)
    ensures Quiet(w, JobAcks(w, host))
  {
    StoreIsQuiet(w.db);
    WhatJobAcksMoves(w, host);
    MovesQuietly(w, JobAcks(w, host), host);
  }

  lemma WhatJobAcksMoves(w: World, host: Id)
    ensures var v := JobAcks(w, host); v == w || v == w.(agents := w.agents[host := Idle], queue := v.queue)
  {
  }

  lemma SweepLooksQuiet(w: World, run: Id, ok: bool)
    ensures Quiet(w, SweepLooks(w, run, ok))
  {
    var v := SweepLooks(w, run, ok);
    if v.db == w.db { StoreIsQuiet(w.db); } else { EventQuiet(w.db, run, Failed, ByHub); }
    MovesQuietly(w, v, run);
  }

  lemma HubRestartsQuiet(w: World)
    ensures Quiet(w, HubRestarts(w))
  {
  }

  lemma EnqueuesKeeps(w: World, rows: RunPlan, plan: Plan, queueUp: bool, ok: bool)
    requires OnDisk(w) && History.Inv(w)
    ensures OnDisk(Enqueues(w, rows, plan, queueUp, ok))
  {
    if MayPlan(w.db, rows) {
      var planned := w.(db := Runs.Planned(w.db, rows), plans := w.plans[rows.run := plan]);
      PlannedKeeps(w, planned, rows);
      StoreIsQuiet(planned.db);
      EventQuiet(planned.db, rows.run, Abandoned, ByHub);
      var v := Enqueues(w, rows, plan, queueUp, ok);
      if v != w { QuietKeeps(planned, v); }
    }
  }

  lemma NewRunRecoverable(db: Db, rows: RunPlan)
    requires MayPlan(db, rows) && ProductsPlanned(db) && forall k | k in db.cells :: db.cells[k].run in db.runs
    ensures Recoverable(Runs.Planned(db, rows), map[], rows.run)
  {
    var b := Runs.Planned(db, rows);
    PlannedCells(db, rows, rows.run);
    forall k | k in CellsOf(b, rows.run) ensures CellOnDisk(b.runs[rows.run].stage, b, map[], k) {
      var c :| c in rows.cells && c.key == k;
      assert k !in db.cells;
    }
  }

  lemma OldRunRecoverable(db: Db, rows: RunPlan, dir: Directory, run: Id)
    requires run in db.runs && Recoverable(db, dir, run) && MayPlan(db, rows) && forall k | k in db.cells :: db.cells[k].run in db.runs
    ensures Recoverable(Runs.Planned(db, rows), dir, run)
  {
    var b := Runs.Planned(db, rows);
    PlannedCells(db, rows, run);
    forall s | Unscored(b, run) && s in db.runs && db.runs[s].stage == Score ensures db.runs[s].parent != Some(run) {
      assert s in b.runs && b.runs[s] == db.runs[s];
    }
    StoreMoved(db, b, dir, run);
  }

  lemma EachRecoverable(w: World, rows: RunPlan, run: Id)
    requires OnDisk(w) && History.Inv(w) && MayPlan(w.db, rows) && (run == rows.run || EncodingRun(w, run))
    ensures Recoverable(Runs.Planned(w.db, rows), DiskOf(w, run), run)
  {
    if run == rows.run {
      assert run !in w.disks;
      NewRunRecoverable(w.db, rows);
    } else {
      OldRunRecoverable(w.db, rows, DiskOf(w, run), run);
    }
  }

  lemma PlannedKeeps(w: World, v: World, rows: RunPlan)
    requires OnDisk(w) && History.Inv(w) && MayPlan(w.db, rows)
    requires v == w.(db := Runs.Planned(w.db, rows), plans := v.plans)
    ensures OnDisk(v)
  {
    forall r | EncodingRun(v, r) ensures Recoverable(v.db, DiskOf(v, r), r) {
      assert r != rows.run ==> EncodingRun(w, r);
      EachRecoverable(w, rows, r);
    }
    forall h ensures WritingSound(v, AgentOf(v, h)) { PlannedWritingSound(w, v, rows, AgentOf(w, h)); }
  }

  lemma PlannedWritingSound(w: World, v: World, rows: RunPlan, a: Agent)
    requires WritingSound(w, a) && MayPlan(w.db, rows) && v == w.(db := Runs.Planned(w.db, rows), plans := v.plans)
    ensures WritingSound(v, a)
  {
  }

  // ---- the agent writes

  /** The unit an agent is at is a cell its run planned: it works on the run's own plan. */
  lemma UnitIsPlanned(w: World, host: Id, n: nat)
    requires Stranding.Base(w) && History.Inv(w)
    requires EntryAt(AgentOf(w, host)).Some? && EncodingRun(w, EntryAt(AgentOf(w, host)).value.body.run)
    requires n < |Units(w, EntryAt(AgentOf(w, host)).value)|
    ensures var entry := EntryAt(AgentOf(w, host)).value; Units(w, entry)[n] in CellsOf(w.db, entry.body.run)
  {
    var job := AgentOf(w, host).entry.body;
    assert Stranding.AgentSound(w, host);
    assert Fits(w.db, job.run, w.db.runs[job.run].stage, w.plans[job.run]);
    assert job.plan.cells[n] in job.plan.cells;
  }

  /** The entry of an agent at work on a run's units. */
  function EntryAt(a: Agent): Option<Entry<Job>> {
    if (a.Working? || a.Writing?) && a.entry.body.RunJob? then Some(a.entry) else None
  }

  lemma ProducedSound(s: Stage, cells: seq<CellSpec>, unit: Id, files: seq<(FileName, Record)>, dir: Directory)
    requires IsEncoding(s) && Producible(s, cells, unit, files)
    ensures TodoSound(s, unit, files, dir)
  {
  }

  lemma RunsUnitKeeps(w: World, host: Id, made: Option<seq<(FileName, Record)>>)
    requires OnDisk(w)
    ensures OnDisk(RunsUnit(w, host, made))
  {
    var v, a := RunsUnit(w, host, made), AgentOf(w, host);
    forall h ensures WritingSound(v, AgentOf(v, h)) {
      assert WritingSound(w, AgentOf(w, h));
      if AgentOf(v, h) != AgentOf(w, h) && AgentOf(v, h).Writing? && EncodingRun(w, a.entry.body.run) {
        ProducedSound(w.db.runs[a.entry.body.run].stage, a.entry.body.plan.cells, Units(w, a.entry)[a.n], made.value, DiskOf(w, a.entry.body.run));
      }
    }
    forall r | EncodingRun(v, r) ensures Recoverable(v.db, DiskOf(v, r), r) { assert EncodingRun(w, r); }
  }

  /** One file written if its name is free or it is there already; else the record is left out. */
  ghost predicate WroteOne(w: World, v: World, host: Id) {
    var was, a := AgentOf(w, host), AgentOf(v, host);
    && was.Writing? && was.entry.body.RunJob? && was.todo != [] && a.Writing?
    && v == w.(agents := w.agents[host := a], disks := v.disks)
    && a == Writing(was.entry, was.done, was.n, was.todo[1..], a.batch)
    && var run, f, dir := was.entry.body.run, was.todo[0], DiskOf(w, was.entry.body.run);
       if f.0 in dir && dir[f.0] != f.1 then v.disks == w.disks && a.batch == was.batch
       else v.disks == w.disks[run := dir[f.0 := f.1]] && a.batch == was.batch + [f.1]
  }

  lemma WhatWritesNextMoves(w: World, host: Id)
    ensures WritesNext(w, host) == w || WroteOne(w, WritesNext(w, host), host)
  {
  }

  lemma FileWritten(w: World, v: World, host: Id, run: Id)
    requires OnDisk(w) && Stranding.Base(w) && History.Inv(w) && WroteOne(w, v, host)
    requires AgentOf(w, host).entry.body.run == run && EncodingRun(w, run)
    ensures Recoverable(w.db, DiskOf(v, run), run)
  {
    var a := AgentOf(w, host);
    assert WritingSound(w, a);
    UnitIsPlanned(w, host, a.n);
    assert a.todo[0] in a.todo;
    if v.disks != w.disks { FileKeeps(w.db, DiskOf(w, run), run, a.todo[0].1); }
  }

  lemma TodoNext(s: Stage, unit: Id, todo: seq<(FileName, Record)>, dir: Directory, next: Directory)
    requires TodoSound(s, unit, todo, dir) && todo != [] && todo[0].0 in next
    ensures TodoSound(s, unit, todo[1..], next)
  {
    assert forall f | f in todo[1..] :: f in todo;
  }

  lemma WritingStaysSound(w: World, v: World, host: Id, h: Id)
    requires OnDisk(w) && WroteOne(w, v, host)
    ensures WritingSound(v, AgentOf(v, h))
  {
    assert WritingSound(w, AgentOf(w, host)) && WritingSound(w, AgentOf(w, h));
    if h == host { WriterStaysSound(w, v, host); } else { OtherWriterSound(w, v, host, AgentOf(w, h)); }
  }

  lemma WriterStaysSound(w: World, v: World, host: Id)
    requires WroteOne(w, v, host) && WritingSound(w, AgentOf(w, host))
    ensures WritingSound(v, AgentOf(v, host))
  {
    var a := AgentOf(w, host);
    var run := a.entry.body.run;
    if EncodingRun(w, run) {
      assert a.todo[0] in a.todo;
      TodoNext(w.db.runs[run].stage, Units(w, a.entry)[a.n], a.todo, DiskOf(w, run), DiskOf(v, run));
    }
  }

  /** A directory that has gained a file still has what another writer counts on. */
  lemma OtherWriterSound(w: World, v: World, host: Id, a: Agent)
    requires WroteOne(w, v, host) && WritingSound(w, a)
    ensures WritingSound(v, a)
  {
  }

  lemma WritesNextKeeps(w: World, host: Id)
    requires OnDisk(w) && Stranding.Base(w) && History.Inv(w)
    ensures OnDisk(WritesNext(w, host))
  {
    WhatWritesNextMoves(w, host);
    if WritesNext(w, host) != w { WroteOneKeeps(w, WritesNext(w, host), host); }
  }

  lemma WroteOneKeeps(w: World, v: World, host: Id)
    requires OnDisk(w) && Stranding.Base(w) && History.Inv(w) && WroteOne(w, v, host)
    ensures OnDisk(v)
  {
    assert WritingSound(w, AgentOf(w, host));
    forall h ensures WritingSound(v, AgentOf(v, h)) { WritingStaysSound(w, v, host, h); }
    forall r | EncodingRun(v, r) ensures Recoverable(v.db, DiskOf(v, r), r) {
      assert EncodingRun(w, r);
      if r == AgentOf(w, host).entry.body.run { FileWritten(w, v, host, r); }
    }
  }

  // ---- batches arrive

  lemma BatchArrives(w: World, v: World, host: Id, run: Id, batch: seq<Record>)
    requires OnDisk(w) && IngestAll(w.db, run, batch).Ok? && v == w.(db := IngestAll(w.db, run, batch).value, agents := v.agents)
    requires EncodingRun(w, run) ==> FromDisk(w.db.runs[run].stage, batch, DiskOf(w, run))
    requires forall h :: AgentOf(v, h) == AgentOf(w, h) || !AgentOf(v, h).Writing?
    ensures OnDisk(v)
  {
    BatchKeeps(w.db, run, batch);
    BatchAdds(w.db, run, batch);
    forall r | EncodingRun(v, r) ensures Recoverable(v.db, DiskOf(v, r), r) {
      assert EncodingRun(w, r);
      if r == run {
        OwnBatchKeeps(w.db, v.db, DiskOf(w, r), r, batch);
      } else {
        OtherBatchKeeps(w.db, v.db, DiskOf(w, r), r, run, batch);
      }
    }
    StillPlanned(w.db, v.db, run, batch);
    forall h ensures WritingSound(v, AgentOf(v, h)) { assert WritingSound(w, AgentOf(w, h)); }
  }

  lemma StillPlanned(a: Db, b: Db, run: Id, batch: seq<Record>)
    requires ProductsPlanned(a) && Adds(a, b, run, batch) && PlanUntouched(a, b)
    ensures ProductsPlanned(b)
  {
    forall k | k in b.measured.encodes.Keys + b.measured.failures.Keys ensures k in b.cells {
      if k !in a.measured.encodes.Keys + a.measured.failures.Keys { var r :| r in batch && IsProduct(r) && r.cell == k; }
    }
    forall k | RowsAt(b.measured.timings, k) != {} ensures k in b.cells {
      assert TimesAs(a, b, batch, k);
      if RowsAt(a.measured.timings, k) == {} {
        var r :| r in batch && r.TimingRecord? && r.cell == k && SampleSet(r.samples) == RowsAt(b.measured.timings, k);
      }
    }
  }

  lemma HeldIsFromDisk(db: Db, dir: Directory, run: Id, done: set<Id>, batch: seq<Record>)
    requires run in db.runs && Recoverable(db, dir, run) && ListsHeld(dir, done, batch)
    ensures FromDisk(db.runs[run].stage, batch, dir)
  {
    var s := db.runs[run].stage;
    forall r | r in batch ensures IsCellRecord(s, r) && FileOf(s, r) in dir && dir[FileOf(s, r)] == r {
      assert r in dir.Values;
      var f :| f in dir && dir[f] == r;
      assert FileSound(s, dir, CellsOf(db, run), f);
    }
  }

  /** What a resuming agent has listed is taken. */
  lemma HeldArrives(w: World, host: Id, a: Agent, batch: seq<Record>, done: set<Id>)
    requires OnDisk(w) && a.Claimed? && a.entry.body.RunJob? && ListsHeld(DiskOf(w, a.entry.body.run), a.done, batch)
    requires IngestAll(w.db, a.entry.body.run, batch).Ok?
    ensures OnDisk(w.(db := IngestAll(w.db, a.entry.body.run, batch).value, agents := w.agents[host := Reposted(a.entry, done)]))
  {
    var run := a.entry.body.run;
    if EncodingRun(w, run) { HeldIsFromDisk(w.db, DiskOf(w, run), run, a.done, batch); }
    BatchArrives(w, w.(db := IngestAll(w.db, run, batch).value, agents := w.agents[host := Reposted(a.entry, done)]), host, run, batch);
  }

  lemma MovesOnKeeps(w: World, host: Id, a: Agent)
    requires OnDisk(w) && !a.Writing?
    ensures OnDisk(w.(agents := w.agents[host := a]))
  {
    StoreIsQuiet(w.db);
    MovesQuietly(w, w.(agents := w.agents[host := a]), host);
    QuietKeeps(w, w.(agents := w.agents[host := a]));
  }

  lemma RepostsKeeps(w: World, host: Id, batch: seq<Record>, ok: bool)
    requires OnDisk(w)
    ensures OnDisk(Reposts(w, host, batch, ok))
  {
    var a := AgentOf(w, host);
    if a.Claimed? && a.entry.body.RunJob? && ListsHeld(DiskOf(w, a.entry.body.run), a.done, batch) {
      if batch != [] && ok && IngestAll(w.db, a.entry.body.run, batch).Ok? {
        HeldArrives(w, host, a, batch, a.done + KeysIn(batch));
      } else {
        MovesOnKeeps(w, host, Reposted(a.entry, a.done));
      }
    }
  }

  lemma PostsRecordsKeeps(w: World, host: Id, ok: bool)
    requires OnDisk(w)
    ensures OnDisk(PostsRecords(w, host, ok))
  {
    var v, a := PostsRecords(w, host, ok), AgentOf(w, host);
    assert WritingSound(w, a);
    if v.db == w.db || !a.Writing? {
      QuietKeeps(w, v);
    } else {
      BatchArrives(w, v, host, a.entry.body.run, a.batch);
    }
  }

  // ---- every step

  predicate IsOther(a: Action) {
    History.IsAside(a) || a.Publish? || a.Report?
  }

  /** Whatever the store gains besides runs, cells and records. */
  lemma SideQuiet(w: World, v: World)
    requires v.disks == w.disks && v.agents == w.agents
    requires v.db.measured == w.db.measured && v.db.cells == w.db.cells && v.db.runs == w.db.runs
    ensures Quiet(w, v)
  {
  }

  lemma StoreSame(w: World, v: World)
    requires v.disks == w.disks && v.agents == w.agents && v.db == w.db
    ensures Quiet(w, v)
  {
    StoreIsQuiet(w.db);
  }

  lemma AsideQuiet(w: World, a: Action)
    requires History.IsAside(a)
    ensures Quiet(w, Step(w, a))
  {
    match a
    case EnqueueJob(host, files) => StoreSame(w, EnqueuesJob(w, host, files));
    case SweepStart => StoreSame(w, SweepStarts(w));
    case Beat(host, ttl) => StoreSame(w, w.(beats := w.beats[host := w.clock + ttl]));
    case Tick(elapsed) => StoreSame(w, w.(clock := w.clock + elapsed));
  }

  lemma PublishesQuiet(w: World, path: Id, row: PublishedRow)
    ensures Quiet(w, Publishes(w, path, row))
  {
    if path in w.db.published {
      StoreSame(w, w);
    } else {
      SideQuiet(w, w.(db := w.db.(published := w.db.published[path := row])));
    }
  }

  lemma ReportsQuiet(w: World, host: Id, artifact: Id)
    ensures Quiet(w, Reports(w, host, artifact))
  {
    SideQuiet(w, w.(db := w.db.(catalogue := w.db.catalogue.(identities := w.db.catalogue.identities[host := artifact]))));
  }

  lemma NewsQuiet(w: World, a: Action)
    requires a.Publish? || a.Report?
    ensures Quiet(w, Step(w, a))
  {
    match a
    case Publish(path, row) => PublishesQuiet(w, path, row);
    case Report(host, artifact) => ReportsQuiet(w, host, artifact);
  }

  lemma OtherQuiet(w: World, a: Action)
    requires IsOther(a)
    ensures Quiet(w, Step(w, a))
  {
    if History.IsAside(a) { AsideQuiet(w, a); } else { NewsQuiet(w, a); }
  }

  lemma AbandonsQuiet(w: World, run: Id, ok: bool)
    ensures Quiet(w, Abandons(w, run, ok))
  {
    if run in w.db.runs { EventQuiet(w.db, run, Abandoned, ByHub); }
  }

  lemma CrashQuiet(w: World, host: Id)
    ensures Quiet(w, AgentCrashes(w, host))
  {
  }

  predicate IsTalk(a: Action) { a.ClaimStart? || a.Serve? || a.SayRunning? || a.AckStart? || a.JobAck? }

  predicate IsEnd(a: Action) { a.LookAtUnit? || a.SweepLook? || a.HubRestart? || a.Abandon? || a.AgentCrash? }

  lemma TalkQuiet(w: World, a: Action)
    requires IsTalk(a)
    ensures Quiet(w, Step(w, a))
  {
    match a
    case ClaimStart(host, waits) => ClaimStartsQuiet(w, host, waits);
    case Serve(id, ok) => ServesQuiet(w, id, ok);
    case SayRunning(host) => RequestsQuiet(w, host);
    case AckStart(host) => RequestsQuiet(w, host);
    case JobAck(host) => JobAcksQuiet(w, host);
  }

  lemma EndQuiet(w: World, a: Action)
    requires IsEnd(a)
    ensures Quiet(w, Step(w, a))
  {
    match a
    case LookAtUnit(host) => LooksQuiet(w, host);
    case SweepLook(run, ok) => SweepLooksQuiet(w, run, ok);
    case HubRestart => HubRestartsQuiet(w);
    case Abandon(run, ok) => AbandonsQuiet(w, run, ok);
    case AgentCrash(host) => CrashQuiet(w, host);
  }

  lemma StepKeeps(w: World, a: Action)
    requires OnDisk(w) && Stranding.Base(w) && History.Inv(w)
    ensures OnDisk(Step(w, a))
  {
    if IsTalk(a) {
      TalkQuiet(w, a);
      QuietKeeps(w, Step(w, a));
    } else if IsEnd(a) {
      EndQuiet(w, a);
      QuietKeeps(w, Step(w, a));
    } else if IsOther(a) {
      OtherQuiet(w, a);
      QuietKeeps(w, Step(w, a));
    } else {
      WriteKeeps(w, a);
    }
  }

  lemma WriteKeeps(w: World, a: Action)
    requires OnDisk(w) && Stranding.Base(w) && History.Inv(w) && !IsTalk(a) && !IsEnd(a) && !IsOther(a)
    ensures OnDisk(Step(w, a))
  {
    match a
    case Enqueue(rows, plan, queueUp, ok) => EnqueuesKeeps(w, rows, plan, queueUp, ok);
    case Repost(host, batch, ok) => RepostsKeeps(w, host, batch, ok);
    case PostRecords(host, ok) => PostsRecordsKeeps(w, host, ok);
    case RunUnit(host, made) => RunsUnitKeeps(w, host, made);
    case WriteNext(host) => WritesNextKeeps(w, host);
  }

  lemma {:induction false} RunKeeps(w: World, actions: seq<Action>)
    requires OnDisk(w) && Stranding.Base(w) && History.Inv(w)
    ensures OnDisk(RunAll(w, actions))
    decreases |actions|
  {
    if actions != [] {
      StepKeeps(w, actions[0]);
      Stranding.StepBase(w, actions[0]);
      History.StepSound(w, actions[0]);
      RunKeeps(Step(w, actions[0]), actions[1..]);
    }
  }

  /** Whatever crashed, and wherever: in every reachable state, everything the hub holds of a run that encodes, views
      or times is in the run's own directory, each record in its file, a timing only beside its encode. The store
      starts with no record of an unplanned cell, which its foreign keys refuse. */
  lemma AlwaysRecoverable(start: World, actions: seq<Action>, run: Id)
    requires Initial(start) && ProductsPlanned(start.db)
    requires EncodingRun(RunAll(start, actions), run)
    ensures var w := RunAll(start, actions); Recoverable(w.db, DiskOf(w, run), run)
  {
    Stranding.InitialBase(start);
    RunKeeps(start, actions);
  }
}
