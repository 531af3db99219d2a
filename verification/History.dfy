/** What a run's log is worth: its newest entry is the run's state, it only ever grows, and once it says
    `complete`, everything the plan promised is in the store for good. */
module History {
  import opened Names
  import opened Wrappers
  import opened Tables
  import opened Ingest
  import opened Verify
  import opened Runs
  import opened Queue
  import opened Protocol
  import Stranding

  ghost predicate LoggedComplete(db: Db, run: Id) {
    exists i :: 0 <= i < |EventsOf(db, run)| && EventsOf(db, run)[i].state == Complete
  }

  /** Logs, cells and the completed runs' records. */
  ghost predicate StoreSound(db: Db, plans: map<Id, Plan>) {
    && LogAgrees(db)
    && plans.Keys == db.runs.Keys
    && (forall k | k in db.cells :: db.cells[k].run in db.runs)
    && (forall r | r in db.runs :: Fits(db, r, db.runs[r].stage, plans[r]))
    && (forall r | r in db.runs && db.runs[r].stage != Score && LoggedComplete(db, r) :: AllRecorded(db, r, db.runs[r], plans[r]))
  }

  /** Every log of `a` is a prefix of the same run's log in `b`. */
  ghost predicate Grows(a: Db, b: Db) { forall r :: EventsOf(a, r) <= EventsOf(b, r) }

  ghost predicate Inv(w: World) { StoreSound(w.db, w.plans) }

  // ---- the store's steps

  /** Rows stay, so what was recorded stays recorded. */
  lemma StaysRecorded(a: Db, b: Db, run: Id, ra: RunRow, rb: RunRow, plan: Plan)
    requires AllRecorded(a, run, ra, plan) && ra.stage == rb.stage != Score
    requires Keeps(a, b) && CellsOf(b, run) == CellsOf(a, run)
    ensures AllRecorded(b, run, rb, plan)
  {
    if IsQuiet(ra.stage) {
      forall c | c in plan.cells ensures RepeatsTimed(b, c.key) >= c.repeats {
        assert RowsAt(a.measured.timings, c.key) != {} ==> RowsAt(b.measured.timings, c.key) == RowsAt(a.measured.timings, c.key);
        if RowsAt(a.measured.timings, c.key) == {} {
          assert (set s | s in RowsAt(a.measured.timings, c.key) :: s.repeatIndex) == {};
        }
      }
    }
  }

  lemma EventAdded(a: Db, plans: map<Id, Plan>, run: Id, state: RunState, writer: Writer)
    requires StoreSound(a, plans) && run in a.runs
    requires state == Complete && a.runs[run].stage != Score ==> AllRecorded(a, run, a.runs[run], plans[run])
    ensures StoreSound(Posted(a, run, state, writer), plans)
  {
    var b := Posted(a, run, state, writer);
    PostedLogs(a, run, state, writer);
    forall r | r in b.runs
      ensures Fits(b, r, b.runs[r].stage, plans[r])
      ensures b.runs[r].stage != Score && LoggedComplete(b, r) ==> AllRecorded(b, r, b.runs[r], plans[r])
    {
      assert CellsOf(b, r) == CellsOf(a, r);
      assert Fits(a, r, a.runs[r].stage, plans[r]);
      if b.runs[r].stage != Score && LoggedComplete(b, r) { LoggedStands(a, plans, run, state, writer, r); }
    }
  }

  lemma LoggedStands(a: Db, plans: map<Id, Plan>, run: Id, state: RunState, writer: Writer, r: Id)
    requires StoreSound(a, plans) && run in a.runs && r in a.runs && a.runs[r].stage != Score
    requires state == Complete && a.runs[run].stage != Score ==> AllRecorded(a, run, a.runs[run], plans[run])
    requires LoggedComplete(Posted(a, run, state, writer), r)
    ensures var b := Posted(a, run, state, writer); AllRecorded(b, r, b.runs[r], plans[r])
  {
    var b := Posted(a, run, state, writer);
    var i :| 0 <= i < |EventsOf(b, r)| && EventsOf(b, r)[i].state == Complete;
    if i < |EventsOf(a, r)| {
      assert EventsOf(a, r)[i].state == Complete;
      assert LoggedComplete(a, r);
    }
    assert CellsOf(b, r) == CellsOf(a, r);
    MeasuredSame(a.measured);
    SampleSame(a.sample);
    StaysRecorded(a, b, r, a.runs[r], b.runs[r], plans[r]);
  }

  /** A run keeps its standing when rows were only added and its own row, log and cells are as they were. */
  lemma OldRunKept(a: Db, b: Db, plans: map<Id, Plan>, run: Id)
    requires StoreSound(a, plans) && run in a.runs && run in b.runs && Keeps(a, b)
    requires b.runs[run] == a.runs[run] && EventsOf(b, run) == EventsOf(a, run) && CellsOf(b, run) == CellsOf(a, run)
    ensures Fits(b, run, b.runs[run].stage, plans[run])
    ensures b.runs[run].stage != Score && LoggedComplete(b, run) ==> AllRecorded(b, run, b.runs[run], plans[run])
  {
    assert Fits(a, run, a.runs[run].stage, plans[run]);
    if b.runs[run].stage != Score && LoggedComplete(b, run) {
      assert LoggedComplete(a, run);
      StaysRecorded(a, b, run, a.runs[run], b.runs[run], plans[run]);
    }
  }

  /** Rows are only added: no run, event or cell moves. */
  lemma RowsAdded(a: Db, b: Db, plans: map<Id, Plan>)
    requires StoreSound(a, plans) && Keeps(a, b) && b.runs == a.runs && b.events == a.events && b.cells == a.cells
    ensures StoreSound(b, plans)
  {
    forall r | r in b.runs
      ensures Fits(b, r, b.runs[r].stage, plans[r])
      ensures b.runs[r].stage != Score && LoggedComplete(b, r) ==> AllRecorded(b, r, b.runs[r], plans[r])
    {
      assert CellsOf(b, r) == CellsOf(a, r);
      OldRunKept(a, b, plans, r);
    }
  }

  lemma NewRunFits(a: Db, rows: RunPlan, plan: Plan)
    requires MayPlan(a, rows) && BuiltTogether(rows, plan) && forall k | k in a.cells :: a.cells[k].run in a.runs
    ensures var b := Runs.Planned(a, rows);
            Fits(b, rows.run, b.runs[rows.run].stage, plan) && !LoggedComplete(b, rows.run)
  {
    var b := Runs.Planned(a, rows);
    PlannedCells(a, rows, rows.run);
    assert b.runs[rows.run].stage == rows.row.stage;
    if rows.row.stage !in {Inventory, Materialise, Score} {
      SameKeys(rows, plan);
    }
    assert EventsOf(b, rows.run) == [Event(RunState.Planned, ByHub)];
  }

  lemma RunPlanned(a: Db, plans: map<Id, Plan>, rows: RunPlan, plan: Plan)
    requires StoreSound(a, plans) && MayPlan(a, rows) && BuiltTogether(rows, plan)
    ensures StoreSound(Runs.Planned(a, rows), plans[rows.run := plan])
  {
    var b, plans1 := Runs.Planned(a, rows), plans[rows.run := plan];
    PlannedLogs(a, rows);
    PlannedCells(a, rows, rows.run);
    forall r | r in b.runs
      ensures Fits(b, r, b.runs[r].stage, plans1[r])
      ensures b.runs[r].stage != Score && LoggedComplete(b, r) ==> AllRecorded(b, r, b.runs[r], plans1[r])
    {
      if r == rows.run { NewRunFits(a, rows, plan); } else { OldRunPlanned(a, plans, rows, r); }
    }
  }

  lemma OldRunPlanned(a: Db, plans: map<Id, Plan>, rows: RunPlan, run: Id)
    requires StoreSound(a, plans) && MayPlan(a, rows) && run in a.runs
    ensures var b := Runs.Planned(a, rows);
            && run in b.runs && Fits(b, run, b.runs[run].stage, plans[run])
            && (b.runs[run].stage != Score && LoggedComplete(b, run) ==> AllRecorded(b, run, b.runs[run], plans[run]))
  {
    MeasuredSame(a.measured);
    SampleSame(a.sample);
    PlannedCells(a, rows, run);
    OldRunKept(a, Runs.Planned(a, rows), plans, run);
  }

  lemma SameKeys(rows: RunPlan, plan: Plan)
    requires |rows.cells| == |plan.cells| && forall i | 0 <= i < |plan.cells| :: rows.cells[i].key == plan.cells[i].key
    ensures (set c | c in rows.cells :: c.key) == (set c | c in plan.cells :: c.key)
  {
    var a, b := set c | c in rows.cells :: c.key, set c | c in plan.cells :: c.key;
    forall k | k in a ensures k in b {
      var i :| 0 <= i < |rows.cells| && rows.cells[i].key == k;
      assert plan.cells[i] in plan.cells;
    }
    forall k | k in b ensures k in a {
      var i :| 0 <= i < |plan.cells| && plan.cells[i].key == k;
      assert rows.cells[i] in rows.cells;
    }
  }

  // ---- every step

  /** A step that appends one event and leaves the plans alone. */
  lemma PostedSound(w: World, v: World, run: Id, state: RunState, writer: Writer)
    requires Inv(w) && run in w.db.runs && v.plans == w.plans && v.db == Posted(w.db, run, state, writer)
    requires state == Complete && w.db.runs[run].stage != Score ==> AllRecorded(w.db, run, w.db.runs[run], w.plans[run])
    ensures Inv(v) && Grows(w.db, v.db)
  {
    EventAdded(w.db, w.plans, run, state, writer);
  }

  /** A step that leaves the store and the plans alone. */
  lemma StoreStays(w: World, v: World)
    requires Inv(w) && v.db == w.db && v.plans == w.plans
    ensures Inv(v) && Grows(w.db, v.db)
  {
  }

  lemma EnqueuedSound(w: World, rows: RunPlan, plan: Plan)
    requires Inv(w) && MayPlan(w.db, rows) && BuiltTogether(rows, plan)
    ensures var db, plans := Runs.Planned(w.db, rows), w.plans[rows.run := plan];
            Inv(w.(db := db, plans := plans)) && Grows(w.db, db)
  {
    RunPlanned(w.db, w.plans, rows, plan);
  }

  lemma EnqueuesSound(w: World, rows: RunPlan, plan: Plan, queueUp: bool, ok: bool)
    requires Inv(w)
    ensures Inv(Enqueues(w, rows, plan, queueUp, ok)) && Grows(w.db, Enqueues(w, rows, plan, queueUp, ok).db)
  {
    var v := Enqueues(w, rows, plan, queueUp, ok);
    if v != w {
      EnqueuedSound(w, rows, plan);
      var planned := w.(db := Runs.Planned(w.db, rows), plans := w.plans[rows.run := plan]);
      if queueUp { StoreStays(planned, v); } else { PostedSound(planned, v, rows.run, Abandoned, ByHub); }
    }
  }

  lemma OffersMoves(w: World, host: Id, entry: Entry<Job>, waits: bool)
    ensures Offers(w, host, entry, waits).db == w.db && Offers(w, host, entry, waits).plans == w.plans
  {
  }

  lemma ClaimStartsSound(w: World, host: Id, waits: bool)
    requires Inv(w)
    ensures Inv(ClaimStarts(w, host, waits)) && Grows(w.db, ClaimStarts(w, host, waits).db)
  {
    if Pending(w.queue, host) != [] { OffersMoves(w.(queue := AfterClaim(w.queue, host)), host, Pending(w.queue, host)[0], waits); }
    StoreStays(w, ClaimStarts(w, host, waits));
  }

  lemma ClaimEndsSound(w: World, id: nat, ok: bool)
    requires Inv(w) && id in w.requests && w.requests[id].phase.Claiming? && w.requests[id].phase.entry.body.RunJob?
    ensures Inv(ClaimEnds(w, id, ok)) && Grows(w.db, ClaimEnds(w, id, ok).db)
  {
    var v := ClaimEnds(w, id, ok);
    if v.db == w.db { StoreStays(w, v); } else { PostedSound(w, v, w.requests[id].phase.entry.body.run, Launched, ByHub); }
  }

  lemma RunningSaidSound(w: World, id: nat, ok: bool)
    requires Inv(w) && id in w.requests && w.requests[id].phase.Saying? && w.requests[id].phase.entry.body.RunJob?
    ensures Inv(RunningSaid(w, id, ok)) && Grows(w.db, RunningSaid(w, id, ok).db)
  {
    var v := RunningSaid(w, id, ok);
    if v.db == w.db { StoreStays(w, v); } else { PostedSound(w, v, w.requests[id].phase.entry.body.run, Running, ByAgent); }
  }

  /** A verdict is reached on the run's own plan: the pending entry an ack finds is the one the run was enqueued as. */
  lemma JudgedOnItsPlan(w: World, id: nat)
    requires Stranding.Base(w) && id in w.requests && w.requests[id].phase.Judging?
    ensures var e := w.requests[id].phase.entry;
            && e.body.RunJob? && e.body.run in w.db.runs && e.body.run in w.plans && w.plans[e.body.run] == e.body.plan
            && var found := FindPending(Pending(w.queue, w.requests[id].host), e.id);
               found.Some? ==> found.value == e
  {
    assert Stranding.RequestSound(w, id);
    FoundIsPending(Pending(w.queue, w.requests[id].host), w.requests[id].phase.entry.id);
  }

  lemma {:induction false} FoundIsPending(es: seq<Entry<Job>>, id: nat)
    ensures FindPending(es, id).Some? ==> FindPending(es, id).value in es && FindPending(es, id).value.id == id
  {
    if es != [] { FoundIsPending(es[1..], id); }
  }

  lemma JudgesSound(w: World, id: nat, ok: bool)
    requires Inv(w) && Stranding.Base(w) && id in w.requests && w.requests[id].phase.Judging?
    ensures w.requests[id].phase.entry.body.RunJob? && Inv(Judges(w, id, ok)) && Grows(w.db, Judges(w, id, ok).db)
  {
    JudgedOnItsPlan(w, id);
    var v, e := Judges(w, id, ok), w.requests[id].phase.entry;
    JudgesPosts(w, id, ok);
    if v.db == w.db { StoreStays(w, v); } else { PostedSound(w, v, e.body.run, Verdict(w.db, e.body.run, e.body.plan), ByHub); }
  }

  /** A verdict, if it is reached, is the event of the run's own plan. */
  lemma JudgesPosts(w: World, id: nat, ok: bool)
    requires Inv(w) && Stranding.Base(w) && id in w.requests && w.requests[id].phase.Judging?
    ensures w.requests[id].phase.entry.body.RunJob?
    ensures var v, e := Judges(w, id, ok), w.requests[id].phase.entry;
            v.db == w.db || (e.body.run in w.db.runs && v.db == Posted(w.db, e.body.run, Verdict(w.db, e.body.run, e.body.plan), ByHub))
  {
    JudgedOnItsPlan(w, id);
  }

  lemma ServesSound(w: World, id: nat, ok: bool)
    requires Inv(w) && Stranding.Base(w)
    ensures Inv(Serves(w, id, ok)) && Grows(w.db, Serves(w, id, ok).db)
  {
    if id in w.requests {
      assert Stranding.RequestSound(w, id);
      match w.requests[id].phase
      case Claiming(_, _) => ClaimEndsSound(w, id, ok);
      case Saying(_) => RunningSaidSound(w, id, ok);
      case Judging(_) => JudgesSound(w, id, ok);
      case Releasing(_) => StoreStays(w, Releases(w, id));
    }
  }

  lemma BatchSound(w: World, v: World, run: Id, batch: seq<Record>)
    requires Inv(w) && v.plans == w.plans
    requires v.db == w.db || (IngestAll(w.db, run, batch).Ok? && v.db == IngestAll(w.db, run, batch).value)
    ensures Inv(v) && Grows(w.db, v.db)
  {
    if v.db != w.db {
      BatchKeeps(w.db, run, batch);
      RowsAdded(w.db, v.db, w.plans);
    }
  }

  lemma RepostsSound(w: World, host: Id, batch: seq<Record>, ok: bool)
    requires Inv(w)
    ensures Inv(Reposts(w, host, batch, ok)) && Grows(w.db, Reposts(w, host, batch, ok).db)
  {
    var a := AgentOf(w, host);
    if a.Claimed? && a.entry.body.RunJob? { BatchSound(w, Reposts(w, host, batch, ok), a.entry.body.run, batch); }
  }

  lemma PostsRecordsSound(w: World, host: Id, ok: bool)
    requires Inv(w)
    ensures Inv(PostsRecords(w, host, ok)) && Grows(w.db, PostsRecords(w, host, ok).db)
  {
    var a := AgentOf(w, host);
    if a.Writing? && a.entry.body.RunJob? { BatchSound(w, PostsRecords(w, host, ok), a.entry.body.run, a.batch); }
  }

  lemma SweepLooksSound(w: World, run: Id, ok: bool)
    requires Inv(w)
    ensures Inv(SweepLooks(w, run, ok)) && Grows(w.db, SweepLooks(w, run, ok).db)
  {
    var v := SweepLooks(w, run, ok);
    if v.db == w.db { StoreStays(w, v); } else { PostedSound(w, v, run, Failed, ByHub); }
  }

  lemma AbandonsSound(w: World, run: Id, ok: bool)
    requires Inv(w)
    ensures Inv(Abandons(w, run, ok)) && Grows(w.db, Abandons(w, run, ok).db)
  {
    var v := Abandons(w, run, ok);
    if v != w { PostedSound(w, v, run, Abandoned, ByHub); }
  }

  /** At most what was published or reported has moved. */
  predicate NoRowsMoved(w: World, v: World) {
    && v.plans == w.plans && v.db.runs == w.db.runs && v.db.events == w.db.events && v.db.cells == w.db.cells
    && v.db.measured == w.db.measured && v.db.sample == w.db.sample
  }

  lemma CatalogueMoved(w: World, v: World)
    requires Inv(w) && NoRowsMoved(w, v)
    ensures Inv(v) && Grows(w.db, v.db)
  {
    MeasuredSame(w.db.measured);
    SampleSame(w.db.sample);
    RowsAdded(w.db, v.db, w.plans);
  }

  lemma StoreUnmoved(w: World, v: World)
    requires v.db == w.db && v.plans == w.plans
    ensures NoRowsMoved(w, v)
  {
  }

  lemma RequestsMove(w: World, host: Id)
    ensures NoRowsMoved(w, SaysRunning(w, host)) && NoRowsMoved(w, AcksRun(w, host)) && NoRowsMoved(w, JobAcks(w, host))
  {
    StoreUnmoved(w, SaysRunning(w, host));
    StoreUnmoved(w, AcksRun(w, host));
    StoreUnmoved(w, JobAcks(w, host));
  }

  lemma LooksMove(w: World, host: Id)
    ensures NoRowsMoved(w, LooksAtUnit(w, host)) && NoRowsMoved(w, AgentCrashes(w, host))
  {
    StoreUnmoved(w, LooksAtUnit(w, host));
    StoreUnmoved(w, AgentCrashes(w, host));
  }

  lemma RunsMove(w: World, host: Id, made: Option<seq<(FileName, Record)>>)
    ensures NoRowsMoved(w, RunsUnit(w, host, made))
  {
    StoreUnmoved(w, RunsUnit(w, host, made));
  }

  lemma WritesNextMoves(w: World, host: Id)
    ensures NoRowsMoved(w, WritesNext(w, host))
  {
    StoreUnmoved(w, WritesNext(w, host));
  }

  lemma PublishesMove(w: World, path: Id, row: PublishedRow)
    ensures NoRowsMoved(w, Publishes(w, path, row))
  {
    if path in w.db.published { StoreUnmoved(w, w); }
  }

  lemma RestartMoves(w: World)
    ensures NoRowsMoved(w, HubRestarts(w))
  {
    StoreUnmoved(w, HubRestarts(w));
  }

  /** A step that writes no run, no event, no cell and no record. */
  predicate IsQuietStep(a: Action) { IsAsked(a) || IsAtWork(a) || IsAside(a) || IsNews(a) }

  predicate IsAsked(a: Action) { a.SayRunning? || a.AckStart? || a.JobAck? }

  predicate IsAtWork(a: Action) { a.LookAtUnit? || a.RunUnit? || a.WriteNext? || a.AgentCrash? }

  predicate IsAside(a: Action) { a.EnqueueJob? || a.SweepStart? || a.Beat? || a.Tick? }

  predicate IsNews(a: Action) { a.Publish? || a.Report? || a.HubRestart? }

  lemma QuietStepMoves(w: World, a: Action)
    requires IsQuietStep(a)
    ensures NoRowsMoved(w, Step(w, a))
  {
    if IsAside(a) { AsideMoves(w, a); } else if IsNews(a) { NewsMoves(w, a); } else if IsAsked(a) { AskedMoves(w, a); } else { AtWorkMoves(w, a); }
  }

  lemma AskedMoves(w: World, a: Action)
    requires IsAsked(a)
    ensures NoRowsMoved(w, Step(w, a))
  {
    match a
    case SayRunning(host) => RequestsMove(w, host);
    case AckStart(host) => RequestsMove(w, host);
    case JobAck(host) => RequestsMove(w, host);
  }

  lemma AtWorkMoves(w: World, a: Action)
    requires IsAtWork(a)
    ensures NoRowsMoved(w, Step(w, a))
  {
    match a
    case LookAtUnit(host) => LooksMove(w, host);
    case RunUnit(host, made) => RunsMove(w, host, made);
    case AgentCrash(host) => LooksMove(w, host);
    case WriteNext(host) => WritesNextMoves(w, host);
  }

  lemma AsideMoves(w: World, a: Action)
    requires IsAside(a)
    ensures NoRowsMoved(w, Step(w, a))
  {
    match a
    case EnqueueJob(host, files) => StoreUnmoved(w, EnqueuesJob(w, host, files));
    case SweepStart => StoreUnmoved(w, SweepStarts(w));
    case Beat(host, ttl) => StoreUnmoved(w, w.(beats := w.beats[host := w.clock + ttl]));
    case Tick(elapsed) => StoreUnmoved(w, w.(clock := w.clock + elapsed));
  }

  lemma NewsMoves(w: World, a: Action)
    requires IsNews(a)
    ensures NoRowsMoved(w, Step(w, a))
  {
    match a
    case Publish(path, row) => PublishesMove(w, path, row);
    case Report(host, artifact) => ReportsMove(w, host, artifact);
    case HubRestart => RestartMoves(w);
  }

  lemma ReportsMove(w: World, host: Id, artifact: Id)
    ensures NoRowsMoved(w, Reports(w, host, artifact))
  {
  }

  lemma WritingStepSound(w: World, a: Action)
    requires Inv(w) && Stranding.Base(w) && !IsQuietStep(a)
    ensures Inv(Step(w, a)) && Grows(w.db, Step(w, a).db)
  {
    match a
    case Enqueue(rows, plan, queueUp, ok) => EnqueuesSound(w, rows, plan, queueUp, ok);
    case Abandon(run, ok) => AbandonsSound(w, run, ok);
    case SweepLook(run, ok) => SweepLooksSound(w, run, ok);
    case ClaimStart(host, waits) => ClaimStartsSound(w, host, waits);
    case Serve(id, ok) => ServesSound(w, id, ok);
    case Repost(host, batch, ok) => RepostsSound(w, host, batch, ok);
    case PostRecords(host, ok) => PostsRecordsSound(w, host, ok);
  }

  lemma StepSound(w: World, a: Action)
    requires Inv(w) && Stranding.Base(w)
    ensures Inv(Step(w, a)) && Grows(w.db, Step(w, a).db)
  {
    if IsQuietStep(a) {
      QuietStepMoves(w, a);
      CatalogueMoved(w, Step(w, a));
    } else {
      WritingStepSound(w, a);
    }
  }

  lemma {:induction false} RunSound(w: World, actions: seq<Action>)
    requires Inv(w) && Stranding.Base(w)
    ensures Inv(RunAll(w, actions)) && Grows(w.db, RunAll(w, actions).db)
    decreases |actions|
  {
    if actions != [] {
      StepSound(w, actions[0]);
      Stranding.StepBase(w, actions[0]);
      RunSound(Step(w, actions[0]), actions[1..]);
      forall r ensures EventsOf(w.db, r) <= EventsOf(RunAll(w, actions).db, r) {
        assert EventsOf(w.db, r) <= EventsOf(Step(w, actions[0]).db, r);
      }
    }
  }

  /** The store holds what the plan promised: of a run that encodes, an encode or a failure of every cell it
      planned; of a timing run, at least the repeats asked for of every cell; a row of every title or cut. */
  ghost predicate HoldsPlan(db: Db, run: Id, plan: Plan)
    requires run in db.runs
  {
    var stage := db.runs[run].stage;
    if IsQuiet(stage) then forall c | c in plan.cells :: RepeatsTimed(db, c.key) >= c.repeats
    else if IsEncoding(stage) then forall c | c in plan.cells :: c.key in CellsOf(db, run) && HasProduct(db, c.key)
    else if stage == Inventory then forall t | t in plan.titles :: t in db.sample.titles
    else stage == Materialise ==> forall c | c in plan.cuts :: c in db.sample.cuts
  }

  /** In every reachable state, each run's state is its newest event's; and if its log holds a `complete`, the
      store holds the run's whole plan. */
  lemma CompleteIsForGood(w: World, actions: seq<Action>, run: Id)
    requires Initial(w) && run in RunAll(w, actions).db.runs
    ensures var db, plans := RunAll(w, actions).db, RunAll(w, actions).plans;
            LogAgrees(db) && run in plans && (LoggedComplete(db, run) ==> HoldsPlan(db, run, plans[run]))
  {
    Stranding.InitialBase(w);
    RunSound(w, actions);
    WorthOf(RunAll(w, actions).db, RunAll(w, actions).plans, run);
  }

  lemma WorthOf(db: Db, plans: map<Id, Plan>, run: Id)
    requires StoreSound(db, plans) && run in db.runs
    ensures run in plans && (LoggedComplete(db, run) ==> HoldsPlan(db, run, plans[run]))
  {
    assert Fits(db, run, db.runs[run].stage, plans[run]);
  }

  /** And it stays so: a log is only appended to, so a `complete` in it is there in every later state, with all
      that it stands for. */
  lemma CompleteNeverLeaves(w: World, before: seq<Action>, after: seq<Action>, run: Id)
    requires Initial(w) && LoggedComplete(RunAll(w, before).db, run)
    ensures LoggedComplete(RunAll(RunAll(w, before), after).db, run)
  {
    Stranding.InitialBase(w);
    RunSound(w, before);
    Stranding.RunBase(w, before);
    var u := RunAll(w, before);
    RunSound(u, after);
    var i :| 0 <= i < |EventsOf(u.db, run)| && EventsOf(u.db, run)[i].state == Complete;
    assert EventsOf(u.db, run) <= EventsOf(RunAll(u, after).db, run);
    assert EventsOf(RunAll(u, after).db, run)[i].state == Complete;
  }
}
