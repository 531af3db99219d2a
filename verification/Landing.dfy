/** What an accepted record leaves in the tables, in the rows themselves (sweep/hub/ingest.py): exactly when a record
    of each kind is accepted, what row it becomes, and that the row is there for good. Nothing here is said through the
    functions the rules of `Ingest` are written with. */
module Landing {
  import opened Names
  import opened Wrappers
  import opened Tables
  import opened Ingest

  // ---- what a record is held against

  /** The run whose cells a run's records name: a score run's parent, any other run itself. */
  function Owner(row: RunRow, run: Id): Option<Id> {
    match row.stage
    case Score => row.parent
    case _ => Some(run)
  }

  predicate IsNamed(db: Db, run: Id, cell: Id) {
    run in db.runs && cell in db.cells && Owner(db.runs[run], run) == Some(db.cells[cell].run)
  }

  predicate Encodes(s: Stage) {
    s == Screen || s == Locate || s == Encode || s == Time || s == Split || s == Concurrency || s == Viewing || s == Probe || s == Calibrate
  }

  /** The height a run's scores are at: its search's, else the only height its class's lanes are at. */
  predicate ReadAt(db: Db, row: RunRow, h: int) {
    || (row.search.Some? && row.search.value in db.catalogue.searchHeights && db.catalogue.searchHeights[row.search.value] == h)
    || (row.search.None? && row.contentClass.Some? && row.contentClass.value in db.catalogue.laneHeights
        && db.catalogue.laneHeights[row.contentClass.value] == [h])
  }

  lemma HeightIs(db: Db, row: RunRow)
    ensures ScoreHeight(db, row).Ok? <==> exists h :: ReadAt(db, row, h)
    ensures ScoreHeight(db, row).Ok? ==> forall h :: ReadAt(db, row, h) <==> h == ScoreHeight(db, row).value
  {
    if ScoreHeight(db, row).Ok? {
      var h := ScoreHeight(db, row).value;
      if row.search.None? {
        var heights := db.catalogue.laneHeights[row.contentClass.value];
        assert heights == [h];
      }
      assert ReadAt(db, row, h);
    } else {
      forall h ensures !ReadAt(db, row, h) { if row.search.None? { assert |[h]| == 1; } }
    }
  }

  // ---- encodes and failures

  /** Accepted for a cell of an encoding run's own that has no encode yet, or this one; then that is its encode. */
  lemma EncodeLands(db: Db, run: Id, cell: Id, e: EncodeRow)
    ensures var posted := IngestRecord(db, run, EncodeRecord(cell, e));
            && (posted.Ok? <==>
                  && run in db.runs && Encodes(db.runs[run].stage) && cell in db.cells && db.cells[cell].run == run
                  && (cell in db.measured.encodes ==> db.measured.encodes[cell] == e))
            && (posted.Ok? ==> posted.value == db.(measured := db.measured.(encodes := db.measured.encodes[cell := e])))
  {
    var encodes := db.measured.encodes;
    if cell in encodes && encodes[cell] == e { assert encodes[cell := e] == encodes; }
  }

  lemma FailureLands(db: Db, run: Id, cell: Id, f: FailureRow)
    ensures var posted := IngestRecord(db, run, FailureRecord(cell, f));
            && (posted.Ok? <==>
                  && run in db.runs && Encodes(db.runs[run].stage) && cell in db.cells && db.cells[cell].run == run
                  && (cell in db.measured.failures ==> db.measured.failures[cell] == f))
            && (posted.Ok? ==> posted.value == db.(measured := db.measured.(failures := db.measured.failures[cell := f])))
  {
    var failures := db.measured.failures;
    if cell in failures && failures[cell] == f { assert failures[cell := f] == failures; }
  }

  // ---- scores

  /** One value for a metric and a statistic. */
  predicate OneValueEach(scores: seq<ScoreValue>) {
    forall a, b | a in scores && b in scores && a.metric == b.metric && a.statistic == b.statistic :: a.value == b.value
  }

  /** The rows at this key are the listed values, each under its own metric and statistic. */
  ghost predicate ScoresAre(rows: set<ScoreRow>, h: int, recipe: Id, build: Id, scores: seq<ScoreValue>) {
    && (forall metric, statistic, value ::
          ScoreRow(h, metric, statistic, value, recipe, build) in rows <==> ScoreValue(metric, statistic, value) in scores)
    && forall s | s in rows :: s.height == h && s.recipe == recipe && s.scorerBuild == build
  }

  /** The rows at this key are those that were there and the listed steps, each with its own seconds and loads. */
  ghost predicate StepsAre(was: set<StepRow>, rows: set<StepRow>, h: int, steps: seq<StepTime>) {
    forall row :: row in rows <==>
      row in was || (row.height == h && StepTime(row.step, row.seconds, row.coresBusy, row.gpuMean, row.gpuMax) in steps)
  }

  /** No step is listed twice, and none has a row at this height already. */
  predicate StepsFree(was: set<StepRow>, h: int, steps: seq<StepTime>) {
    && (forall i, j | 0 <= i < j < |steps| :: steps[i].step != steps[j].step)
    && (forall row, s | row in was && s in steps && row.step == s.step :: row.height != h)
  }

  lemma WantedAre(r: Record, h: int, build: Id)
    requires r.ScoreRecord?
    ensures ScoresAre(WantedScores(r, h, build), h, r.recipe, build, r.scores)
    ensures forall rows :: ScoresAre(rows, h, r.recipe, build, r.scores) ==> rows == WantedScores(r, h, build)
    ensures ScoreKeysDistinct(WantedScores(r, h, build)) <==> OneValueEach(r.scores)
  {
    var want := WantedScores(r, h, build);
    forall metric, statistic, value | ScoreValue(metric, statistic, value) in r.scores
      ensures ScoreRow(h, metric, statistic, value, r.recipe, build) in want
    {
      var s := ScoreValue(metric, statistic, value);
      assert ScoreRow(h, s.metric, s.statistic, s.value, r.recipe, build) in want;
    }
    forall rows | ScoresAre(rows, h, r.recipe, build, r.scores) ensures rows == want { SameScores(rows, want, h, r.recipe, build, r.scores); }
    KeysAreValues(r, h, build, want);
  }

  lemma SameScores(a: set<ScoreRow>, b: set<ScoreRow>, h: int, recipe: Id, build: Id, scores: seq<ScoreValue>)
    requires ScoresAre(a, h, recipe, build, scores) && ScoresAre(b, h, recipe, build, scores)
    ensures a == b
  {
    forall s | s in a ensures s in b { assert s == ScoreRow(h, s.metric, s.statistic, s.value, recipe, build); }
    forall s | s in b ensures s in a { assert s == ScoreRow(h, s.metric, s.statistic, s.value, recipe, build); }
  }

  lemma KeysAreValues(r: Record, h: int, build: Id, want: set<ScoreRow>)
    requires r.ScoreRecord? && ScoresAre(want, h, r.recipe, build, r.scores)
    ensures ScoreKeysDistinct(want) <==> OneValueEach(r.scores)
  {
    if ScoreKeysDistinct(want) {
      forall a, b | a in r.scores && b in r.scores && a.metric == b.metric && a.statistic == b.statistic ensures a.value == b.value {
        assert a == ScoreValue(a.metric, a.statistic, a.value) && b == ScoreValue(b.metric, b.statistic, b.value);
        assert ScoreRow(h, a.metric, a.statistic, a.value, r.recipe, build) in want && ScoreRow(h, b.metric, b.statistic, b.value, r.recipe, build) in want;
      }
    }
    if OneValueEach(r.scores) {
      forall a, b | a in want && b in want && a.metric == b.metric && a.statistic == b.statistic ensures a == b {
        assert a == ScoreRow(h, a.metric, a.statistic, a.value, r.recipe, build) && b == ScoreRow(h, b.metric, b.statistic, b.value, r.recipe, build);
        assert ScoreValue(a.metric, a.statistic, a.value) in r.scores && ScoreValue(b.metric, b.statistic, b.value) in r.scores;
      }
    }
  }

  lemma StepRowsAre(was: set<StepRow>, h: int, steps: seq<StepTime>)
    ensures StepsAre(was, was + StepRows(steps, h), h, steps)
    ensures StepsInsertable(was, steps, h) <==> StepsFree(was, h, steps)
  {
    forall row ensures row in StepRows(steps, h) <==>
                         row.height == h && StepTime(row.step, row.seconds, row.coresBusy, row.gpuMean, row.gpuMax) in steps
    {
      var s := StepTime(row.step, row.seconds, row.coresBusy, row.gpuMean, row.gpuMax);
      if s in steps && row.height == h { assert StepOf(s, h) == row; }
    }
  }

  /** A score record of a cell its run has no score of: accepted under a score run that names a scorer build and has one
      height to read at, for a cell of its parent's, with one value a metric and statistic and no step twice. */
  predicate MayScore(db: Db, run: Id, r: Record, h: int)
    requires r.ScoreRecord?
  {
    && IsNamed(db, run, r.cell) && db.runs[run].stage == Score && db.runs[run].scorerBuild.Some? && ReadAt(db, db.runs[run], h)
    && OneValueEach(r.scores) && StepsFree(RowsAt(db.measured.steps, (run, r.cell)), h, r.steps)
  }

  /** Then its values are the cell's scores, each under its metric and statistic as listed, at the run's height, by the
      record's recipe and the run's scorer build; its steps are there beside any before; and the encode, if there is
      one, is kept or not as the record says. No other cell's rows and no other table move. */
  ghost predicate Scored(a: Db, b: Db, run: Id, r: Record, h: int, build: Id)
    requires r.ScoreRecord?
  {
    var key := (run, r.cell);
    && b == a.(measured := a.measured.(encodes := b.measured.encodes, scores := b.measured.scores, steps := b.measured.steps))
    && ScoresAre(RowsAt(b.measured.scores, key), h, r.recipe, build, r.scores)
    && StepsAre(RowsAt(a.measured.steps, key), RowsAt(b.measured.steps, key), h, r.steps)
    && (forall k | k != key :: RowsAt(b.measured.scores, k) == RowsAt(a.measured.scores, k))
    && (forall k | k != key :: RowsAt(b.measured.steps, k) == RowsAt(a.measured.steps, k))
    && b.measured.encodes.Keys == a.measured.encodes.Keys
    && (r.cell in a.measured.encodes ==> b.measured.encodes[r.cell] == a.measured.encodes[r.cell].(kept := r.kept))
    && (forall k | k in a.measured.encodes && k != r.cell :: b.measured.encodes[k] == a.measured.encodes[k])
  }

  lemma ScoreLands(db: Db, run: Id, r: Record)
    requires r.ScoreRecord? && RowsAt(db.measured.scores, (run, r.cell)) == {}
    ensures IngestRecord(db, run, r).Ok? <==> exists h :: MayScore(db, run, r, h)
    ensures IngestRecord(db, run, r).Ok? ==>
              forall h | MayScore(db, run, r, h) :: Scored(db, IngestRecord(db, run, r).value, run, r, h, db.runs[run].scorerBuild.value)
  {
    if run in db.runs && db.runs[run].stage == Score && IsNamed(db, run, r.cell) && db.runs[run].scorerBuild.Some? {
      HeightIs(db, db.runs[run]);
      if ScoreHeight(db, db.runs[run]).Ok? {
        var h := ScoreHeight(db, db.runs[run]).value;
        WantedAre(r, h, db.runs[run].scorerBuild.value);
        StepRowsAre(RowsAt(db.measured.steps, (run, r.cell)), h, r.steps);
        assert IngestRecord(db, run, r).Ok? <==> MayScore(db, run, r, h);
        if IngestRecord(db, run, r).Ok? { ScoredRows(db, run, r, h, db.runs[run].scorerBuild.value); }
      }
    }
  }

  lemma ScoredRows(db: Db, run: Id, r: Record, h: int, build: Id)
    requires r.ScoreRecord? && RowsAt(db.measured.scores, (run, r.cell)) == {}
    requires ScoresAre(WantedScores(r, h, build), h, r.recipe, build, r.scores)
    requires StepsAre(RowsAt(db.measured.steps, (run, r.cell)), RowsAt(db.measured.steps, (run, r.cell)) + StepRows(r.steps, h), h, r.steps)
    ensures var scored := WithScores(db.measured, run, r.cell, WantedScores(r, h, build));
            Scored(db, db.(measured := FlipKept(WithSteps(scored, run, r.cell, StepRows(r.steps, h)), r.cell, r.kept)), run, r, h, build)
  {
    var want, steps := WantedScores(r, h, build), StepRows(r.steps, h);
    var scored := WithScores(db.measured, run, r.cell, want);
    ScoreRowsAt(db.measured, run, r.cell, want);
    StepRowsAt(scored, run, r.cell, steps);
    KeptIs(WithSteps(scored, run, r.cell, steps), r.cell, r.kept);
  }

  lemma ScoreRowsAt(m: Measured, run: Id, cell: Id, want: set<ScoreRow>)
    requires RowsAt(m.scores, (run, cell)) == {}
    ensures var b := WithScores(m, run, cell, want);
            && b == m.(scores := b.scores) && RowsAt(b.scores, (run, cell)) == want
            && forall k | k != (run, cell) :: RowsAt(b.scores, k) == RowsAt(m.scores, k)
  {
  }

  lemma StepRowsAt(m: Measured, run: Id, cell: Id, steps: set<StepRow>)
    ensures var b := WithSteps(m, run, cell, steps);
            && b == m.(steps := b.steps) && RowsAt(b.steps, (run, cell)) == RowsAt(m.steps, (run, cell)) + steps
            && forall k | k != (run, cell) :: RowsAt(b.steps, k) == RowsAt(m.steps, k)
  {
  }

  lemma KeptIs(m: Measured, cell: Id, kept: bool)
    ensures var b := FlipKept(m, cell, kept);
            && b == m.(encodes := b.encodes) && b.encodes.Keys == m.encodes.Keys
            && (cell in m.encodes ==> b.encodes[cell] == m.encodes[cell].(kept := kept))
            && forall k | k in m.encodes && k != cell :: b.encodes[k] == m.encodes[k]
  {
  }

  /** Of a cell that has its scores, the very same values by the same recipe are taken and change nothing, and any
      others are refused. */
  lemma ScoreStands(db: Db, run: Id, r: Record)
    requires r.ScoreRecord? && RowsAt(db.measured.scores, (run, r.cell)) != {}
    ensures IngestRecord(db, run, r).Ok? <==>
              && IsNamed(db, run, r.cell) && db.runs[run].stage == Score && db.runs[run].scorerBuild.Some?
              && exists h :: ReadAt(db, db.runs[run], h)
                             && ScoresAre(RowsAt(db.measured.scores, (run, r.cell)), h, r.recipe, db.runs[run].scorerBuild.value, r.scores)
    ensures IngestRecord(db, run, r).Ok? ==> IngestRecord(db, run, r).value == db
  {
    if run in db.runs && db.runs[run].scorerBuild.Some? {
      HeightIs(db, db.runs[run]);
      if ScoreHeight(db, db.runs[run]).Ok? { WantedAre(r, ScoreHeight(db, db.runs[run]).value, db.runs[run].scorerBuild.value); }
    }
  }

  // ---- timings

  /** Two samples of one cell differ in their workers, their repeat or their leg, or are one. */
  predicate SamplesApart(samples: seq<TimingRow>) {
    forall a, b | a in samples && b in samples && a != b :: a.workers != b.workers || a.repeatIndex != b.repeatIndex || a.leg != b.leg
  }

  /** Accepted for a cell of a timing, split or concurrency run's own, which has no sample yet or exactly these; then it
      has exactly these. */
  lemma TimingLands(db: Db, run: Id, cell: Id, samples: seq<TimingRow>)
    ensures var posted, rows := IngestRecord(db, run, TimingRecord(cell, samples)), RowsAt(db.measured.timings, cell);
            && (posted.Ok? <==>
                  && run in db.runs && db.runs[run].stage in {Time, Split, Concurrency} && cell in db.cells && db.cells[cell].run == run
                  && (if rows == {} then SamplesApart(samples) else forall s :: s in rows <==> s in samples))
            && (posted.Ok? ==>
                  && posted.value == db.(measured := db.measured.(timings := posted.value.measured.timings))
                  && (forall s :: s in RowsAt(posted.value.measured.timings, cell) <==> s in samples)
                  && (forall k | k != cell :: RowsAt(posted.value.measured.timings, k) == RowsAt(db.measured.timings, k)))
  {
    var want := SampleSet(samples);
    assert forall s :: s in want <==> s in samples;
    assert TimingKeysDistinct(want) <==> SamplesApart(samples);
    assert RowsAt(db.measured.timings, cell) == want <==> forall s :: s in RowsAt(db.measured.timings, cell) <==> s in samples;
  }

  // ---- verdicts

  /** The run's own cells, at least one, all on this window. */
  predicate AllOn(db: Db, run: Id, cells: seq<Id>, window: Id) {
    cells != [] && forall k | k in cells :: k in db.cells && db.cells[k].run == run && db.cells[k].window == window
  }

  /** Accepted under a screen run for cells of its own on one window; filed under the test it took, the run's unit, the
      setting, that window and what it was held against, written once, with exactly these cells. */
  lemma VerdictLands(db: Db, run: Id, r: Record, window: Id)
    requires r.VerdictRecord? && AllOn(db, run, r.cells, window) && run in db.runs
    ensures var key := VerdictKey(test := r.test, unit := db.runs[run].unit, setting := r.setting, window := window,
                                  baseSetting := r.baseSetting, baseValue := r.baseValue);
            var posted, row := IngestRecord(db, run, r), (r.verdict, set k | k in r.cells);
            && (posted.Ok? <==>
                  && db.runs[run].stage == Screen
                  && (if key in db.measured.verdicts then db.measured.verdicts[key] == row else NoRepeats(r.cells)))
            && (posted.Ok? ==> posted.value == db.(measured := db.measured.(verdicts := db.measured.verdicts[key := row])))
  {
    assert r.cells[0] in r.cells;
    var key := VerdictKey(r.test, db.runs[run].unit, r.setting, window, r.baseSetting, r.baseValue);
    if key in db.measured.verdicts && db.measured.verdicts[key] == (r.verdict, set k | k in r.cells) {
      assert db.measured.verdicts[key := (r.verdict, set k | k in r.cells)] == db.measured.verdicts;
    }
  }

  lemma VerdictNeedsOneWindow(db: Db, run: Id, r: Record)
    requires r.VerdictRecord? && IngestRecord(db, run, r).Ok?
    ensures exists window :: AllOn(db, run, r.cells, window)
  {
    assert r.cells[0] in r.cells;
    assert AllOn(db, run, r.cells, db.cells[r.cells[0]].window);
  }

  // ---- the sample

  /** A title is found by its path: of an inventory run only, and its id and its path never part. */
  lemma TitleLands(db: Db, run: Id, title: Id, row: TitleRow)
    ensures var posted, titles := IngestRecord(db, run, TitleRecord(title, row)), db.sample.titles;
            && (posted.Ok? <==>
                  && run in db.runs && db.runs[run].stage == Inventory
                  && (forall t | t in titles :: titles[t].path == row.path <==> t == title))
            && (posted.Ok? ==> posted.value == db.(sample := db.sample.(titles := titles[title := row])))
  {
  }

  /** Built on the host of the materialise run that posts it. */
  lemma ReferenceSetLands(db: Db, run: Id, s: Id, geometry: Id, pixFmt: Id, builtWith: Id, builtAt: Text)
    ensures var posted, sets := IngestRecord(db, run, ReferenceSetRecord(s, geometry, pixFmt, builtWith, builtAt)), db.sample.referenceSets;
            && (posted.Ok? ==>
                  && run in db.runs && db.runs[run].stage == Materialise
                  && posted.value == db.(sample := db.sample.(referenceSets := sets[s := ReferenceSetRow(
                       geometry := geometry, pixFmt := pixFmt, builtOn := db.runs[run].host, builtWith := builtWith, builtAt := builtAt)])))
            && (posted.Ok? <==>
                  && run in db.runs && db.runs[run].stage == Materialise
                  && (s in sets ==> sets[s].geometry == geometry && sets[s].pixFmt == pixFmt && sets[s].builtOn == db.runs[run].host
                                    && sets[s].builtWith == builtWith && sets[s].builtAt == builtAt))
  {
    if run in db.runs && s in db.sample.referenceSets {
      var row := ReferenceSetRow(geometry, pixFmt, db.runs[run].host, builtWith, builtAt);
      if db.sample.referenceSets[s] == row { assert db.sample.referenceSets[s := row] == db.sample.referenceSets; }
    }
  }

  lemma CutLands(db: Db, run: Id, cut: Id, row: CutRow)
    ensures var posted, cuts := IngestRecord(db, run, CutRecord(cut, row)), db.sample.cuts;
            && (posted.Ok? <==> run in db.runs && db.runs[run].stage == Materialise && (cut in cuts ==> cuts[cut] == row))
            && (posted.Ok? ==> posted.value == db.(sample := db.sample.(cuts := cuts[cut := row])))
  {
    if cut in db.sample.cuts && db.sample.cuts[cut] == row { assert db.sample.cuts[cut := row] == db.sample.cuts; }
  }

  /** Of a cut that is there; one that is kept although it did not pass says why. */
  lemma CutCheckLands(db: Db, run: Id, cut: Id, name: Id, check: CutCheckRow, at: Id)
    ensures var posted, checks := IngestRecord(db, run, CutCheckRecord(cut, name, check, at)), db.sample.cutChecks;
            && (posted.Ok? <==>
                  && run in db.runs && db.runs[run].stage == Verify
                  && (if (cut, name, at) in checks then checks[(cut, name, at)] == check
                      else cut in db.sample.cuts && (check.result == Classified ==> check.reason.Some? && check.reason.value != "")))
            && (posted.Ok? ==> posted.value == db.(sample := db.sample.(cutChecks := checks[(cut, name, at) := check])))
  {
    var checks := db.sample.cutChecks;
    if (cut, name, at) in checks && checks[(cut, name, at)] == check { assert checks[(cut, name, at) := check] == checks; }
  }

  // ---- for good

  /** The record stands in the tables as it was posted, in its own row or rows; `kept`, and what a rescan says of a title
      besides its path, may have changed since. */
  ghost predicate Stands(db: Db, run: Id, r: Record) {
    run in db.runs &&
    match r
    case EncodeRecord(cell, e) => cell in db.measured.encodes && db.measured.encodes[cell].(kept := e.kept) == e
    case FailureRecord(cell, f) => cell in db.measured.failures && db.measured.failures[cell] == f
    case ScoreRecord(cell, recipe, _, scores, _) =>
      scores != [] ==>
        && db.runs[run].scorerBuild.Some?
        && exists h :: ReadAt(db, db.runs[run], h)
                       && ScoresAre(RowsAt(db.measured.scores, (run, cell)), h, recipe, db.runs[run].scorerBuild.value, scores)
    case TimingRecord(cell, samples) => samples != [] ==> forall s :: s in RowsAt(db.measured.timings, cell) <==> s in samples
    case VerdictRecord(test, setting, baseSetting, baseValue, verdict, cells) =>
      exists window :: AllOn(db, run, cells, window)
                       && FiledAs(db, VerdictKey(test, db.runs[run].unit, setting, window, baseSetting, baseValue), verdict, cells)
    case TitleRecord(title, row) => title in db.sample.titles && db.sample.titles[title].path == row.path
    case ReferenceSetRecord(s, geometry, pixFmt, builtWith, builtAt) =>
      s in db.sample.referenceSets && db.sample.referenceSets[s] == ReferenceSetRow(geometry, pixFmt, db.runs[run].host, builtWith, builtAt)
    case CutRecord(cut, row) => cut in db.sample.cuts && db.sample.cuts[cut] == row
    case CutCheckRecord(cut, name, check, at) => (cut, name, at) in db.sample.cutChecks && db.sample.cutChecks[(cut, name, at)] == check
  }

  ghost predicate FiledAs(db: Db, key: VerdictKey, verdict: VerdictRow, cells: seq<Id>) {
    key in db.measured.verdicts && db.measured.verdicts[key] == (verdict, set k | k in cells)
  }

  lemma ScoreRecordStands(db: Db, run: Id, r: Record)
    requires r.ScoreRecord? && r.scores != [] && IngestRecord(db, run, r).Ok?
    ensures Stands(IngestRecord(db, run, r).value, run, r)
  {
    var after := IngestRecord(db, run, r).value;
    RecordKeeps(db, run, r);
    var h: int;
    if RowsAt(db.measured.scores, (run, r.cell)) == {} {
      ScoreLands(db, run, r);
      h :| MayScore(db, run, r, h);
    } else {
      ScoreStands(db, run, r);
      h :| ReadAt(db, db.runs[run], h)
           && ScoresAre(RowsAt(db.measured.scores, (run, r.cell)), h, r.recipe, db.runs[run].scorerBuild.value, r.scores);
    }
    assert ReadAt(after, after.runs[run], h);
    assert ScoresAre(RowsAt(after.measured.scores, (run, r.cell)), h, r.recipe, after.runs[run].scorerBuild.value, r.scores);
  }

  lemma VerdictRecordStands(db: Db, run: Id, r: Record)
    requires r.VerdictRecord? && IngestRecord(db, run, r).Ok?
    ensures Stands(IngestRecord(db, run, r).value, run, r)
  {
    VerdictNeedsOneWindow(db, run, r);
    var window :| AllOn(db, run, r.cells, window);
    VerdictLands(db, run, r, window);
    var after := IngestRecord(db, run, r).value;
    assert AllOn(after, run, r.cells, window);
    assert FiledAs(after, VerdictKey(r.test, after.runs[run].unit, r.setting, window, r.baseSetting, r.baseValue), r.verdict, r.cells);
  }

  lemma RecordStands(db: Db, run: Id, r: Record)
    requires IngestRecord(db, run, r).Ok?
    ensures Stands(IngestRecord(db, run, r).value, run, r)
  {
    match r
    case EncodeRecord(cell, e) => EncodeLands(db, run, cell, e);
    case FailureRecord(cell, f) => FailureLands(db, run, cell, f);
    case ScoreRecord(_, _, _, scores, _) =>
      RecordKeeps(db, run, r);
      if scores != [] { ScoreRecordStands(db, run, r); }
    case TimingRecord(cell, samples) => TimingLands(db, run, cell, samples);
    case VerdictRecord(_, _, _, _, _, _) => VerdictRecordStands(db, run, r);
    case TitleRecord(title, row) => TitleLands(db, run, title, row);
    case ReferenceSetRecord(s, geometry, pixFmt, builtWith, builtAt) => ReferenceSetLands(db, run, s, geometry, pixFmt, builtWith, builtAt);
    case CutRecord(cut, row) => CutLands(db, run, cut, row);
    case CutCheckRecord(cut, name, check, at) => CutCheckLands(db, run, cut, name, check, at);
  }

  lemma ScoresStay(a: Db, b: Db, run: Id, r: Record)
    requires r.ScoreRecord? && r.scores != [] && Stands(a, run, r) && Keeps(a, b) && PlanUntouched(a, b)
    ensures Stands(b, run, r)
  {
    var build, key := a.runs[run].scorerBuild.value, (run, r.cell);
    var h :| ReadAt(a, a.runs[run], h) && ScoresAre(RowsAt(a.measured.scores, key), h, r.recipe, build, r.scores);
    var s := r.scores[0];
    assert s == ScoreValue(s.metric, s.statistic, s.value) && s in r.scores;
    assert ScoreRow(h, s.metric, s.statistic, s.value, r.recipe, build) in RowsAt(a.measured.scores, key);
    assert RowsAt(b.measured.scores, key) == RowsAt(a.measured.scores, key);
    assert ReadAt(b, b.runs[run], h) && ScoresAre(RowsAt(b.measured.scores, key), h, r.recipe, build, r.scores);
  }

  lemma TimingsStay(a: Db, b: Db, run: Id, r: Record)
    requires r.TimingRecord? && r.samples != [] && Stands(a, run, r) && Keeps(a, b) && PlanUntouched(a, b)
    ensures Stands(b, run, r)
  {
    assert r.samples[0] in RowsAt(a.measured.timings, r.cell);
    assert RowsAt(b.measured.timings, r.cell) == RowsAt(a.measured.timings, r.cell);
  }

  lemma VerdictStays(a: Db, b: Db, run: Id, r: Record)
    requires r.VerdictRecord? && Stands(a, run, r) && Keeps(a, b) && PlanUntouched(a, b)
    ensures Stands(b, run, r)
  {
    var window :| AllOn(a, run, r.cells, window)
                  && FiledAs(a, VerdictKey(r.test, a.runs[run].unit, r.setting, window, r.baseSetting, r.baseValue), r.verdict, r.cells);
    assert AllOn(b, run, r.cells, window);
    assert FiledAs(b, VerdictKey(r.test, b.runs[run].unit, r.setting, window, r.baseSetting, r.baseValue), r.verdict, r.cells);
  }

  lemma StandsStill(a: Db, b: Db, run: Id, r: Record)
    requires Stands(a, run, r) && Keeps(a, b) && PlanUntouched(a, b)
    ensures Stands(b, run, r)
  {
    if r.ScoreRecord? {
      if r.scores != [] { ScoresStay(a, b, run, r); }
    } else if r.TimingRecord? {
      if r.samples != [] { TimingsStay(a, b, run, r); }
    } else if r.VerdictRecord? {
      VerdictStays(a, b, run, r);
    }
  }

  lemma {:induction false} BatchStands(db: Db, run: Id, records: seq<Record>)
    requires IngestAll(db, run, records).Ok?
    ensures forall r | r in records :: Stands(IngestAll(db, run, records).value, run, r)
    decreases |records|
  {
    if records != [] {
      var mid, after := IngestRecord(db, run, records[0]).value, IngestAll(db, run, records).value;
      RecordStands(db, run, records[0]);
      BatchKeeps(mid, run, records[1..]);
      StandsStill(mid, after, run, records[0]);
      BatchStands(mid, run, records[1..]);
      assert records == [records[0]] + records[1..];
    }
  }

  lemma {:induction false} ManyUntouched(checks: Db -> bool, db: Db, batches: seq<Batch>)
    ensures PlanUntouched(db, PostMany(checks, db, batches))
    decreases |batches|
  {
    if batches != [] {
      var posted := PostBatch(checks, db, batches[0].run, batches[0].records);
      if posted.Ok? { BatchKeeps(db, batches[0].run, batches[0].records); }
      ManyUntouched(checks, if posted.Ok? then posted.value else db, batches[1..]);
    }
  }

  /** Once a batch is accepted, each of its records stands in the tables as it was posted, whatever is posted
      afterwards, by whichever run, accepted or refused. */
  lemma StandsForGood(checks: Db -> bool, db: Db, run: Id, records: seq<Record>, later: seq<Batch>)
    requires PostBatch(checks, db, run, records).Ok?
    ensures forall r | r in records :: Stands(PostMany(checks, PostBatch(checks, db, run, records).value, later), run, r)
  {
    var posted := PostBatch(checks, db, run, records).value;
    BatchStands(db, run, records);
    WrittenOnce(checks, posted, later);
    ManyUntouched(checks, posted, later);
    forall r | r in records ensures Stands(PostMany(checks, posted, later), run, r) {
      StandsStill(posted, PostMany(checks, posted, later), run, r);
    }
  }
}
