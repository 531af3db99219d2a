/** What a posted record does to the tables (sweep/hub/ingest.py): the rules as functions on the
    tables, and what they promise over any sequence of batches. */
module Ingest {
  import opened Names
  import opened Wrappers
  import opened Tables

  datatype ScoreValue = ScoreValue(metric: Id, statistic: Id, value: real)

  datatype StepTime = StepTime(step: Id, seconds: real, coresBusy: Option<real>, gpuMean: Option<real>, gpuMax: Option<real>)

  datatype Record =
    | EncodeRecord(cell: Id, encode: EncodeRow)
    | FailureRecord(cell: Id, failure: FailureRow)
    | ScoreRecord(cell: Id, recipe: Id, kept: bool, scores: seq<ScoreValue>, steps: seq<StepTime>)
    | TimingRecord(cell: Id, samples: seq<TimingRow>)
    | VerdictRecord(test: Option<Id>, setting: Id, baseSetting: Option<Id>, baseValue: Option<Id>,
                    verdict: VerdictRow, cells: seq<Id>)
    | TitleRecord(title: Id, row: TitleRow)
    | ReferenceSetRecord(referenceSet: Id, geometry: Id, pixFmt: Id, builtWith: Id, builtAt: Text)
    | CutRecord(cut: Id, cutRow: CutRow)
    | CutCheckRecord(checkedCut: Id, checkName: Id, check: CutCheckRow, checkedAt: Id)

  /** The stages a record's kind may come from. */
  predicate StageAllows(r: Record, s: Stage) {
    match r
    case EncodeRecord(_, _) => IsEncoding(s)
    case FailureRecord(_, _) => IsEncoding(s)
    case ScoreRecord(_, _, _, _, _) => s == Score
    case TimingRecord(_, _) => IsQuiet(s)
    case VerdictRecord(_, _, _, _, _, _) => s == Screen
    case TitleRecord(_, _) => s == Inventory
    case ReferenceSetRecord(_, _, _, _, _) => s == Materialise
    case CutRecord(_, _) => s == Materialise
    case CutCheckRecord(_, _, _, _) => s == Verify
  }

  /** The cell belongs to the run's plan; a score run scores its parent's. */
  predicate PlannedIn(db: Db, run: Id, row: RunRow, cell: Id) {
    cell in db.cells && Some(db.cells[cell].run) == if row.stage == Score then row.parent else Some(run)
  }

  function WriteOnce<K, V(==)>(table: map<K, V>, key: K, row: V): Result<map<K, V>> {
    if key !in table then Ok(table[key := row])
    else if table[key] == row then Ok(table)
    else Refused
  }

  /** The height a run's scores are read at: its search's, or the one its class's served lanes share. */
  function ScoreHeight(db: Db, row: RunRow): Result<int> {
    if row.search.Some? then
      if row.search.value in db.catalogue.searchHeights then Ok(db.catalogue.searchHeights[row.search.value]) else Refused
    else
      var lanes := db.catalogue.laneHeights;
      var heights := if row.contentClass.Some? && row.contentClass.value in lanes then lanes[row.contentClass.value] else [];
      if |heights| == 1 then Ok(heights[0]) else Refused
  }

  function WantedScores(r: Record, height: int, build: Id): set<ScoreRow>
    requires r.ScoreRecord?
  {
    set s | s in r.scores :: ScoreRow(height, s.metric, s.statistic, s.value, r.recipe, build)
  }

  predicate ScoreKeysDistinct(want: set<ScoreRow>) {
    forall a, b | a in want && b in want && a.metric == b.metric && a.statistic == b.statistic :: a == b
  }

  function StepOf(s: StepTime, height: int): StepRow {
    StepRow(height, s.step, s.seconds, s.coresBusy, s.gpuMean, s.gpuMax)
  }

  /** Inserting the steps one by one hits the primary key (run, cell, height, step) at no point. */
  predicate StepsInsertable(have: set<StepRow>, steps: seq<StepTime>, height: int) {
    && (forall i, j | 0 <= i < j < |steps| :: steps[i].step != steps[j].step)
    && (forall row, s | row in have && s in steps :: !(row.height == height && row.step == s.step))
  }

  function StepRows(steps: seq<StepTime>, height: int): set<StepRow> {
    set s | s in steps :: StepOf(s, height)
  }

  function FlipKept(m: Measured, cell: Id, kept: bool): Measured {
    if cell in m.encodes then m.(encodes := m.encodes[cell := m.encodes[cell].(kept := kept)]) else m
  }

  /** The rows a score record adds, before it flips `kept`; a set of no rows leaves no key. */
  function WithScores(m: Measured, run: Id, cell: Id, want: set<ScoreRow>): Measured {
    if want == {} then m else m.(scores := m.scores[(run, cell) := want])
  }

  function WithSteps(m: Measured, run: Id, cell: Id, steps: set<StepRow>): Measured {
    if steps == {} then m else m.(steps := m.steps[(run, cell) := RowsAt(m.steps, (run, cell)) + steps])
  }

  function IngestEncode(db: Db, run: Id, row: RunRow, r: Record): Result<Db>
    requires r.EncodeRecord?
  {
    if !PlannedIn(db, run, row, r.cell) then Refused
    else
      var encodes :- WriteOnce(db.measured.encodes, r.cell, r.encode);
      Ok(db.(measured := db.measured.(encodes := encodes)))
  }

  function IngestFailure(db: Db, run: Id, row: RunRow, r: Record): Result<Db>
    requires r.FailureRecord?
  {
    if !PlannedIn(db, run, row, r.cell) then Refused
    else
      var failures :- WriteOnce(db.measured.failures, r.cell, r.failure);
      Ok(db.(measured := db.measured.(failures := failures)))
  }

  function IngestScore(db: Db, run: Id, row: RunRow, r: Record): Result<Db>
    requires r.ScoreRecord?
  {
    if !PlannedIn(db, run, row, r.cell) || row.scorerBuild.None? then Refused
    else
      var height :- ScoreHeight(db, row);
      var want := WantedScores(r, height, row.scorerBuild.value);
      var existing := RowsAt(db.measured.scores, (run, r.cell));
      if existing != {} then
        if existing == want then Ok(db) else Refused
      else if !ScoreKeysDistinct(want) || !StepsInsertable(RowsAt(db.measured.steps, (run, r.cell)), r.steps, height) then Refused
      else
        var scored := WithScores(db.measured, run, r.cell, want);
        var stepped := WithSteps(scored, run, r.cell, StepRows(r.steps, height));
        Ok(db.(measured := FlipKept(stepped, r.cell, r.kept)))
  }

  predicate TimingKeysDistinct(want: set<TimingRow>) {
    forall a, b | a in want && b in want && a.workers == b.workers && a.repeatIndex == b.repeatIndex && a.leg == b.leg :: a == b
  }

  function SampleSet(samples: seq<TimingRow>): set<TimingRow> { set s | s in samples }

  function IngestTiming(db: Db, run: Id, row: RunRow, r: Record): Result<Db>
    requires r.TimingRecord?
  {
    if !PlannedIn(db, run, row, r.cell) then Refused
    else
      var want, existing := SampleSet(r.samples), RowsAt(db.measured.timings, r.cell);
      if existing != {} then
        if existing == want then Ok(db) else Refused
      else if !TimingKeysDistinct(want) then Refused
      else if want == {} then Ok(db)
      else Ok(db.(measured := db.measured.(timings := db.measured.timings[r.cell := want])))
  }

  function WindowOf(db: Db, cell: Id): Option<Id> { if cell in db.cells then Some(db.cells[cell].window) else None }

  /** The verdict's cells are the run's and lie on one window. */
  predicate OneWindow(db: Db, run: Id, row: RunRow, cells: seq<Id>) {
    && cells != []
    && (forall k | k in cells :: PlannedIn(db, run, row, k))
    && (forall k | k in cells :: WindowOf(db, k).Some? && WindowOf(db, k) == WindowOf(db, cells[0]))
  }

  predicate NoRepeats(cells: seq<Id>) { forall i, j | 0 <= i < j < |cells| :: cells[i] != cells[j] }

  function IngestVerdict(db: Db, run: Id, row: RunRow, r: Record): Result<Db>
    requires r.VerdictRecord?
  {
    if !OneWindow(db, run, row, r.cells) then Refused
    else
      var key := VerdictKey(r.test, row.unit, r.setting, WindowOf(db, r.cells[0]).value, r.baseSetting, r.baseValue);
      var cells := set k | k in r.cells;
      if key in db.measured.verdicts then
        if db.measured.verdicts[key] == (r.verdict, cells) then Ok(db) else Refused
      else if !NoRepeats(r.cells) then Refused
      else Ok(db.(measured := db.measured.(verdicts := db.measured.verdicts[key := (r.verdict, cells)])))
  }

  /** A rescan finds a title by its path and updates it; its id never moves. */
  function IngestTitle(db: Db, r: Record): Result<Db>
    requires r.TitleRecord?
  {
    if exists t | t in db.sample.titles :: db.sample.titles[t].path == r.row.path && t != r.title then Refused
    else if r.title in db.sample.titles && db.sample.titles[r.title].path != r.row.path then Refused
    else Ok(db.(sample := db.sample.(titles := db.sample.titles[r.title := r.row])))
  }

  function IngestCutCheck(db: Db, r: Record): Result<Db>
    requires r.CutCheckRecord?
  {
    var key := (r.checkedCut, r.checkName, r.checkedAt);
    if key in db.sample.cutChecks then
      if db.sample.cutChecks[key] == r.check then Ok(db) else Refused
    else if r.checkedCut !in db.sample.cuts then Refused
    else if r.check.result.Classified? && (r.check.reason.None? || r.check.reason.value == "") then Refused
    else Ok(db.(sample := db.sample.(cutChecks := db.sample.cutChecks[key := r.check])))
  }

  function IngestReferenceSet(db: Db, row: RunRow, r: Record): Result<Db>
    requires r.ReferenceSetRecord?
  {
    var sets :- WriteOnce(db.sample.referenceSets, r.referenceSet, ReferenceSetRow(r.geometry, r.pixFmt, row.host, r.builtWith, r.builtAt));
    Ok(db.(sample := db.sample.(referenceSets := sets)))
  }

  function IngestCut(db: Db, r: Record): Result<Db>
    requires r.CutRecord?
  {
    var cuts :- WriteOnce(db.sample.cuts, r.cut, r.cutRow);
    Ok(db.(sample := db.sample.(cuts := cuts)))
  }

  /** One posted record: refused, or the tables with it in them. */
  function IngestRecord(db: Db, run: Id, r: Record): Result<Db> {
    if run !in db.runs then Refused
    else
      var row := db.runs[run];
      if !StageAllows(r, row.stage) then Refused
      else
        match r
        case EncodeRecord(_, _) => IngestEncode(db, run, row, r)
        case FailureRecord(_, _) => IngestFailure(db, run, row, r)
        case ScoreRecord(_, _, _, _, _) => IngestScore(db, run, row, r)
        case TimingRecord(_, _) => IngestTiming(db, run, row, r)
        case VerdictRecord(_, _, _, _, _, _) => IngestVerdict(db, run, row, r)
        case TitleRecord(_, _) => IngestTitle(db, r)
        case ReferenceSetRecord(_, _, _, _, _) => IngestReferenceSet(db, row, r)
        case CutRecord(_, _) => IngestCut(db, r)
        case CutCheckRecord(_, _, _, _) => IngestCutCheck(db, r)
  }

  function IngestAll(db: Db, run: Id, records: seq<Record>): Result<Db>
    decreases |records|
  {
    if records == [] then Ok(db)
    else
      var db1 :- IngestRecord(db, run, records[0]);
      IngestAll(db1, run, records[1..])
  }

  /** A batch is one transaction: every record and every check, or the tables as they were. */
  function PostBatch(checks: Db -> bool, db: Db, run: Id, records: seq<Record>): Result<Db> {
    var db1 :- IngestAll(db, run, records);
    if checks(db1) then Ok(db1) else Refused
  }

  // ---- written once

  ghost predicate Includes<K, V>(a: map<K, V>, b: map<K, V>) { forall k | k in a :: k in b && b[k] == a[k] }

  /** As `Includes`, for tables of row sets, where no key and an empty set say the same. */
  ghost predicate IncludesRows<K, V>(a: map<K, set<V>>, b: map<K, set<V>>) {
    forall k | k in a && a[k] != {} :: k in b && b[k] == a[k]
  }

  /** Every row stays; a cell whose record brought steps and no score may get more of them later. */
  ghost predicate KeepsRows<K, V>(a: map<K, set<V>>, b: map<K, set<V>>) { forall k | k in a :: a[k] <= RowsAt(b, k) }

  predicate SameButKept(a: EncodeRow, b: EncodeRow) {
    a.bytes == b.bytes && a.bitrateKbps == b.bitrateKbps && a.frames == b.frames && a.durationS == b.durationS
    && a.decodePath == b.decodePath
  }

  ghost predicate IncludesEncodes(a: map<Id, EncodeRow>, b: map<Id, EncodeRow>) {
    forall k | k in a :: k in b && SameButKept(a[k], b[k])
  }

  ghost predicate KeepsMeasured(a: Measured, b: Measured) {
    && IncludesEncodes(a.encodes, b.encodes)
    && Includes(a.failures, b.failures)
    && IncludesRows(a.scores, b.scores)
    && KeepsRows(a.steps, b.steps)
    && IncludesRows(a.timings, b.timings)
    && Includes(a.verdicts, b.verdicts)
  }

  ghost predicate KeepsSample(a: Sample, b: Sample) {
    && Includes(a.referenceSets, b.referenceSets)
    && Includes(a.cuts, b.cuts)
    && Includes(a.cutChecks, b.cutChecks)
    && (forall t | t in a.titles :: t in b.titles && b.titles[t].path == a.titles[t].path)
  }

  /** Every measured row of `a` is in `b` unchanged; `encode.kept` and a rescanned title alone may differ. */
  ghost predicate Keeps(a: Db, b: Db) {
    KeepsMeasured(a.measured, b.measured) && KeepsSample(a.sample, b.sample)
  }

  /** A record touches no run, no event, no cell and nothing published. */
  ghost predicate PlanUntouched(a: Db, b: Db) {
    b.runs == a.runs && b.events == a.events && b.cells == a.cells && b.published == a.published && b.catalogue == a.catalogue
  }

  lemma MeasuredSame(m: Measured)
    ensures KeepsMeasured(m, m)
  {
  }

  lemma SampleSame(s: Sample)
    ensures KeepsSample(s, s)
  {
  }

  lemma FlipKeeps(m: Measured, cell: Id, kept: bool)
    ensures KeepsMeasured(m, FlipKept(m, cell, kept))
  {
  }

  lemma WithScoresKeeps(m: Measured, run: Id, cell: Id, want: set<ScoreRow>)
    requires RowsAt(m.scores, (run, cell)) == {}
    ensures KeepsMeasured(m, WithScores(m, run, cell, want))
  {
  }

  lemma WithStepsKeeps(m: Measured, run: Id, cell: Id, steps: set<StepRow>)
    ensures KeepsMeasured(m, WithSteps(m, run, cell, steps))
  {
    var b := WithSteps(m, run, cell, steps);
    forall k | k in m.steps ensures m.steps[k] <= RowsAt(b.steps, k) {}
  }

  lemma MeasuredTransitive(a: Measured, b: Measured, c: Measured)
    requires KeepsMeasured(a, b) && KeepsMeasured(b, c)
    ensures KeepsMeasured(a, c)
  {
    forall k | k in a.steps ensures a.steps[k] <= RowsAt(c.steps, k) { assert a.steps[k] <= RowsAt(b.steps, k); }
  }

  lemma ScoreKeeps(db: Db, run: Id, row: RunRow, r: Record)
    requires r.ScoreRecord? && IngestScore(db, run, row, r).Ok?
    ensures Keeps(db, IngestScore(db, run, row, r).value) && PlanUntouched(db, IngestScore(db, run, row, r).value)
  {
    SampleSame(db.sample);
    MeasuredSame(db.measured);
    if RowsAt(db.measured.scores, (run, r.cell)) == {} {
      var height := ScoreHeight(db, row).value;
      ScoredKeeps(db.measured, run, r.cell, WantedScores(r, height, row.scorerBuild.value), StepRows(r.steps, height), r.kept);
    }
  }

  lemma ScoredKeeps(m: Measured, run: Id, cell: Id, want: set<ScoreRow>, steps: set<StepRow>, kept: bool)
    requires RowsAt(m.scores, (run, cell)) == {}
    ensures KeepsMeasured(m, FlipKept(WithSteps(WithScores(m, run, cell, want), run, cell, steps), cell, kept))
  {
    var a := WithScores(m, run, cell, want);
    var b := WithSteps(a, run, cell, steps);
    WithScoresKeeps(m, run, cell, want);
    WithStepsKeeps(a, run, cell, steps);
    MeasuredTransitive(m, a, b);
    FlipKeeps(b, cell, kept);
    MeasuredTransitive(m, b, FlipKept(b, cell, kept));
  }

  lemma TimingKeeps(db: Db, run: Id, row: RunRow, r: Record)
    requires r.TimingRecord? && IngestTiming(db, run, row, r).Ok?
    ensures Keeps(db, IngestTiming(db, run, row, r).value) && PlanUntouched(db, IngestTiming(db, run, row, r).value)
  {
    SampleSame(db.sample);
    MeasuredSame(db.measured);
  }

  lemma VerdictKeeps(db: Db, run: Id, row: RunRow, r: Record)
    requires r.VerdictRecord? && IngestVerdict(db, run, row, r).Ok?
    ensures Keeps(db, IngestVerdict(db, run, row, r).value) && PlanUntouched(db, IngestVerdict(db, run, row, r).value)
  {
    SampleSame(db.sample);
    MeasuredSame(db.measured);
  }

  lemma EncodeKeeps(db: Db, run: Id, row: RunRow, r: Record)
    requires r.EncodeRecord? && IngestEncode(db, run, row, r).Ok?
    ensures Keeps(db, IngestEncode(db, run, row, r).value) && PlanUntouched(db, IngestEncode(db, run, row, r).value)
  {
    SampleSame(db.sample);
  }

  lemma FailureKeeps(db: Db, run: Id, row: RunRow, r: Record)
    requires r.FailureRecord? && IngestFailure(db, run, row, r).Ok?
    ensures Keeps(db, IngestFailure(db, run, row, r).value) && PlanUntouched(db, IngestFailure(db, run, row, r).value)
  {
    SampleSame(db.sample);
  }

  lemma TitleKeeps(db: Db, r: Record)
    requires r.TitleRecord? && IngestTitle(db, r).Ok?
    ensures Keeps(db, IngestTitle(db, r).value) && PlanUntouched(db, IngestTitle(db, r).value)
  {
    MeasuredSame(db.measured);
    SampleSame(db.sample);
  }

  lemma CutCheckKeeps(db: Db, r: Record)
    requires r.CutCheckRecord? && IngestCutCheck(db, r).Ok?
    ensures Keeps(db, IngestCutCheck(db, r).value) && PlanUntouched(db, IngestCutCheck(db, r).value)
  {
    MeasuredSame(db.measured);
    SampleSame(db.sample);
  }

  lemma ReferenceSetKeeps(db: Db, row: RunRow, r: Record)
    requires r.ReferenceSetRecord? && IngestReferenceSet(db, row, r).Ok?
    ensures Keeps(db, IngestReferenceSet(db, row, r).value) && PlanUntouched(db, IngestReferenceSet(db, row, r).value)
  {
    MeasuredSame(db.measured);
    SampleSame(db.sample);
  }

  lemma CutKeeps(db: Db, r: Record)
    requires r.CutRecord? && IngestCut(db, r).Ok?
    ensures Keeps(db, IngestCut(db, r).value) && PlanUntouched(db, IngestCut(db, r).value)
  {
    MeasuredSame(db.measured);
    SampleSame(db.sample);
  }

  lemma RecordKeeps(db: Db, run: Id, r: Record)
    requires IngestRecord(db, run, r).Ok?
    ensures Keeps(db, IngestRecord(db, run, r).value)
    ensures PlanUntouched(db, IngestRecord(db, run, r).value)
  {
    var row := db.runs[run];
    match r
    case EncodeRecord(_, _) => EncodeKeeps(db, run, row, r);
    case FailureRecord(_, _) => FailureKeeps(db, run, row, r);
    case ScoreRecord(_, _, _, _, _) => ScoreKeeps(db, run, row, r);
    case TimingRecord(_, _) => TimingKeeps(db, run, row, r);
    case VerdictRecord(_, _, _, _, _, _) => VerdictKeeps(db, run, row, r);
    case TitleRecord(_, _) => TitleKeeps(db, r);
    case ReferenceSetRecord(_, _, _, _, _) => ReferenceSetKeeps(db, row, r);
    case CutRecord(_, _) => CutKeeps(db, r);
    case CutCheckRecord(_, _, _, _) => CutCheckKeeps(db, r);
  }

  lemma KeepsTransitive(a: Db, b: Db, c: Db)
    requires Keeps(a, b) && Keeps(b, c)
    ensures Keeps(a, c)
  {
    MeasuredTransitive(a.measured, b.measured, c.measured);
  }

  lemma {:induction false} BatchKeeps(db: Db, run: Id, records: seq<Record>)
    requires IngestAll(db, run, records).Ok?
    ensures Keeps(db, IngestAll(db, run, records).value)
    ensures PlanUntouched(db, IngestAll(db, run, records).value)
    decreases |records|
  {
    if records != [] {
      RecordKeeps(db, run, records[0]);
      var db1 := IngestRecord(db, run, records[0]).value;
      BatchKeeps(db1, run, records[1..]);
      KeepsTransitive(db, db1, IngestAll(db, run, records).value);
    }
  }

  /** A batch posted to the hub: under which run, and its records. */
  datatype Batch = Batch(run: Id, records: seq<Record>)

  /** Any sequence of posts; a refused one changes nothing. */
  function PostMany(checks: Db -> bool, db: Db, batches: seq<Batch>): Db
    decreases |batches|
  {
    if batches == [] then db
    else
      var posted := PostBatch(checks, db, batches[0].run, batches[0].records);
      PostMany(checks, if posted.Ok? then posted.value else db, batches[1..])
  }

  /** Written once: whatever batches are posted afterwards, accepted or refused, a measured row stays
      identical for good, `encode.kept` aside. */
  lemma {:induction false} WrittenOnce(checks: Db -> bool, db: Db, batches: seq<Batch>)
    ensures Keeps(db, PostMany(checks, db, batches))
    decreases |batches|
  {
    if batches != [] {
      var posted := PostBatch(checks, db, batches[0].run, batches[0].records);
      var db1 := if posted.Ok? then posted.value else db;
      if posted.Ok? { BatchKeeps(db, batches[0].run, batches[0].records); }
      WrittenOnce(checks, db1, batches[1..]);
      KeepsTransitive(db, db1, PostMany(checks, db, batches));
    }
  }

  // ---- posted twice

  /** A score record with no scores but with step times: the one record whose repost is not a no-op. */
  predicate StepsWithoutScores(r: Record) { r.ScoreRecord? && r.scores == [] && r.steps != [] }

  /** An accepted record posted again changes nothing, exactly when it is not step times without scores,
      which the second post refuses. */
  lemma PostedTwice(db: Db, run: Id, r: Record)
    requires IngestRecord(db, run, r).Ok?
    ensures var db1 := IngestRecord(db, run, r).value;
            if StepsWithoutScores(r) then IngestRecord(db1, run, r).Refused? else IngestRecord(db1, run, r) == Ok(db1)
  {
    if r.ScoreRecord? {
      ScoredTwice(db, run, r);
    } else if r.TitleRecord? {
      var db1 := IngestRecord(db, run, r).value;
      assert db1.sample.titles[r.title := r.row] == db1.sample.titles;
    }
  }

  lemma ScoredTwice(db: Db, run: Id, r: Record)
    requires r.ScoreRecord? && IngestRecord(db, run, r).Ok?
    ensures var db1 := IngestRecord(db, run, r).value;
            if StepsWithoutScores(r) then IngestRecord(db1, run, r).Refused? else IngestRecord(db1, run, r) == Ok(db1)
  {
    var db1 := IngestRecord(db, run, r).value;
    var row := db.runs[run];
    var height := ScoreHeight(db, row).value;
    var want := WantedScores(r, height, row.scorerBuild.value);
    assert ScoreHeight(db1, row) == Ok(height);
    if r.scores != [] {
      assert ScoreRow(height, r.scores[0].metric, r.scores[0].statistic, r.scores[0].value, r.recipe, row.scorerBuild.value) in want;
      assert RowsAt(db1.measured.scores, (run, r.cell)) == want;
    } else {
      assert want == {};
      if RowsAt(db.measured.scores, (run, r.cell)) == {} {
        if r.steps != [] {
          assert StepOf(r.steps[0], height) in StepRows(r.steps, height);
          assert StepOf(r.steps[0], height) in RowsAt(db1.measured.steps, (run, r.cell));
          assert r.steps[0] in r.steps;
        } else {
          assert StepRows(r.steps, height) == {};
          assert db1.measured.encodes == FlipKept(db1.measured, r.cell, r.kept).encodes;
        }
      }
    }
  }

  // ---- kept

  predicate ScoresNamed(records: seq<Record>) { forall r | r in records && r.ScoreRecord? :: r.scores != [] }

  /** `kept` of an encode flips only where score rows of that cell appear under a run that had none. */
  ghost predicate FlipsWithScores(a: Db, b: Db, run: Id) {
    forall k | k in a.measured.encodes && k in b.measured.encodes && b.measured.encodes[k].kept != a.measured.encodes[k].kept ::
      RowsAt(a.measured.scores, (run, k)) == {} && RowsAt(b.measured.scores, (run, k)) != {}
  }

  lemma ScoreFlips(db: Db, run: Id, row: RunRow, r: Record)
    requires r.ScoreRecord? && r.scores != [] && IngestScore(db, run, row, r).Ok?
    ensures FlipsWithScores(db, IngestScore(db, run, row, r).value, run)
  {
    var height, build := ScoreHeight(db, row).value, row.scorerBuild.value;
    var want := WantedScores(r, height, build);
    assert ScoreRow(height, r.scores[0].metric, r.scores[0].statistic, r.scores[0].value, r.recipe, build) in want;
    if RowsAt(db.measured.scores, (run, r.cell)) == {} {
      var scored := WithScores(db.measured, run, r.cell, want);
      var stepped := WithSteps(scored, run, r.cell, StepRows(r.steps, height));
      assert RowsAt(stepped.scores, (run, r.cell)) == want && stepped.encodes == db.measured.encodes;
    }
  }

  lemma RecordFlips(db: Db, run: Id, r: Record)
    requires IngestRecord(db, run, r).Ok? && ScoresNamed([r])
    ensures FlipsWithScores(db, IngestRecord(db, run, r).value, run)
  {
    assert r in [r];
    var db1 := IngestRecord(db, run, r).value;
    match r
    case ScoreRecord(_, _, _, _, _) => ScoreFlips(db, run, db.runs[run], r);
    case EncodeRecord(_, _) => assert Includes(db.measured.encodes, db1.measured.encodes);
    case _ => assert db1.measured.encodes == db.measured.encodes;
  }

  /** A batch that flips an encode's `kept` writes that cell's first scores under the same run, in the same
      transaction, as long as none of its score records is empty. */
  lemma {:induction false} KeptOnlyWithScores(db: Db, run: Id, records: seq<Record>)
    requires IngestAll(db, run, records).Ok? && ScoresNamed(records)
    ensures FlipsWithScores(db, IngestAll(db, run, records).value, run)
    decreases |records|
  {
    if records != [] {
      var db1 := IngestRecord(db, run, records[0]).value;
      var db2 := IngestAll(db1, run, records[1..]).value;
      RecordFlips(db, run, records[0]);
      RecordKeeps(db, run, records[0]);
      KeptOnlyWithScores(db1, run, records[1..]);
      BatchKeeps(db1, run, records[1..]);
      forall k | k in db.measured.encodes && k in db2.measured.encodes && db2.measured.encodes[k].kept != db.measured.encodes[k].kept
        ensures RowsAt(db.measured.scores, (run, k)) == {} && RowsAt(db2.measured.scores, (run, k)) != {}
      {
        if db1.measured.encodes[k].kept != db.measured.encodes[k].kept {
          assert (run, k) in db1.measured.scores;
        } else {
          assert (run, k) in db.measured.scores && db.measured.scores[(run, k)] != {} ==> (run, k) in db1.measured.scores;
        }
      }
    }
  }

  /** Why the score list must not be empty: an empty one flips `kept` and leaves no score behind. */
  lemma EmptyScoresFlipKept(db: Db, run: Id, cell: Id, recipe: Id)
    requires run in db.runs && db.runs[run].stage == Score && db.runs[run].scorerBuild.Some?
    requires PlannedIn(db, run, db.runs[run], cell) && ScoreHeight(db, db.runs[run]).Ok?
    requires cell in db.measured.encodes && db.measured.encodes[cell].kept && RowsAt(db.measured.scores, (run, cell)) == {}
    ensures var r := ScoreRecord(cell, recipe, false, [], []);
            && IngestRecord(db, run, r).Ok?
            && !IngestRecord(db, run, r).value.measured.encodes[cell].kept
            && RowsAt(IngestRecord(db, run, r).value.measured.scores, (run, cell)) == {}
  {
    var r := ScoreRecord(cell, recipe, false, [], []);
    var height := ScoreHeight(db, db.runs[run]).value;
    assert WantedScores(r, height, db.runs[run].scorerBuild.value) == {};
    assert StepRows(r.steps, height) == {};
  }
}
