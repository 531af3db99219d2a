/** The hub's tables that the run protocol reads and writes (sweep/schema.sql), as finite maps from
    primary key to row. Columns that no rule reads are left out of a row. */
module Tables {
  import opened Names
  import opened Wrappers

  datatype Stage =
    | Inventory | Materialise | Verify | Screen | Locate | Encode | Score
    | Time | Split | Concurrency | Viewing | Probe | Calibrate

  /** Stages whose cells end in an encode or a failure record. */
  predicate IsEncoding(s: Stage) { s in {Screen, Locate, Encode, Time, Split, Concurrency, Viewing, Probe, Calibrate} }

  /** Stages that need their machine to themselves; also the ones that post timing records. */
  predicate IsQuiet(s: Stage) { s in {Time, Split, Concurrency} }

  datatype RunState = Planned | Launched | Running | Complete | Failed | Abandoned

  predicate IsTerminal(s: RunState) { s in {Complete, Failed, Abandoned} }

  datatype Writer = ByHub | ByAgent

  datatype Event = Event(state: RunState, writer: Writer)

  datatype RunRow = RunRow(
    stage: Stage, host: Id, parent: Option<Id>, search: Option<Id>, contentClass: Option<Id>,
    unit: Option<Id>, windows: seq<Id>, artifact: Id, scorerBuild: Option<Id>, state: RunState)

  datatype CellRow = CellRow(run: Id, window: Id, cutKind: Id)

  datatype EncodeRow = EncodeRow(bytes: int, bitrateKbps: real, frames: int, durationS: real, decodePath: Id, kept: bool)

  datatype FailureRow = FailureRow(at: Text, stderr: Text, rc: Option<int>)

  datatype ScoreRow = ScoreRow(height: int, metric: Id, statistic: Id, value: real, recipe: Id, scorerBuild: Id)

  datatype StepRow = StepRow(height: int, step: Id, seconds: real, coresBusy: Option<real>, gpuMean: Option<real>, gpuMax: Option<real>)

  datatype TimingRow = TimingRow(
    workers: int, repeatIndex: int, fps: real, wallS: real, frames: int, decodePath: Id, isWarmup: bool,
    noiseFloorPct: Option<real>, leg: Id)

  /** A verdict's UNIQUE key; an admissibility verdict carries the test it took, a screen verdict none. */
  datatype VerdictKey = VerdictKey(
    test: Option<Id>, unit: Option<Id>, setting: Id, window: Id, baseSetting: Option<Id>, baseValue: Option<Id>)

  datatype VerdictRow = VerdictRow(verdict: Id, magnitudePct: Option<real>, noiseFloorPct: Option<real>, reason: Option<Text>)

  datatype TitleRow = TitleRow(path: Id, library: Id, probed: Text)

  datatype ReferenceSetRow = ReferenceSetRow(geometry: Id, pixFmt: Id, builtOn: Id, builtWith: Id, builtAt: Text)

  datatype CutRow = CutRow(
    referenceSet: Id, window: Id, kind: Id, chain: Option<(Id, Id, Id)>, contentSha: Id,
    bytes: int, frames: int, tagsPinned: Option<Id>)

  datatype CheckResult = Pass | Fail | Classified

  datatype CutCheckRow = CutCheckRow(result: CheckResult, reason: Option<string>)

  datatype PublishedRow = PublishedRow(
    run: Option<Id>, cell: Option<Id>, cut: Option<Id>, byHost: Id, bytes: int, sha256: Id)

  /** The product of the encoding, timing, scoring and screening stages. */
  datatype Measured = Measured(
    encodes: map<Id, EncodeRow>,
    failures: map<Id, FailureRow>,
    scores: map<(Id, Id), set<ScoreRow>>,       // by (score run, cell)
    steps: map<(Id, Id), set<StepRow>>,
    timings: map<Id, set<TimingRow>>,
    verdicts: map<VerdictKey, (VerdictRow, set<Id>)>)

  /** The sample: what inventory, materialise and verify produced. */
  datatype Sample = Sample(
    titles: map<Id, TitleRow>,
    referenceSets: map<Id, ReferenceSetRow>,
    cuts: map<Id, CutRow>,
    cutChecks: map<(Id, Id, Id), CutCheckRow>)

  /** What the protocol reads and never writes, but for the agents' own reports. */
  datatype Catalogue = Catalogue(
    units: set<Id>, classes: set<Id>, windows: set<Id>,
    searchHeights: map<Id, int>,                    // search.score_height
    laneHeights: map<Id, seq<int>>,                 // the distinct heights of a class's served lanes
    machines: map<Id, Id>,                      // host.machine
    identities: map<Id, Id>)                    // the artifact each host last reported

  datatype Db = Db(
    runs: map<Id, RunRow>,
    events: map<Id, seq<Event>>,                    // a run's log, oldest first: one clock stamps every event
    cells: map<Id, CellRow>,
    measured: Measured,
    sample: Sample,
    published: map<Id, PublishedRow>,
    catalogue: Catalogue)

  function RowsAt<K, V>(table: map<K, set<V>>, key: K): set<V> {
    if key in table then table[key] else {}
  }

  /** The cells a run planned. */
  function CellsOf(db: Db, run: Id): set<Id> {
    set k | k in db.cells && db.cells[k].run == run
  }

  function EventsOf(db: Db, run: Id): seq<Event> {
    if run in db.events then db.events[run] else []
  }
}
