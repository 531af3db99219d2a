/** Runs that time: their cells write two files under one key, an encode and then a timing, and a process may die in
    between. When such a run recovers, exactly; and how it comes not to. */
module TimingRuns {
  import opened Names
  import opened Wrappers
  import opened Tables
  import opened Ingest
  import opened Verify
  import opened Runs
  import opened Queue
  import opened Protocol
  import Stranding
  import History
  import Crossing
  import opened Recovery
  import opened AgentLoop

  // ---- a timing on disk has the repeats its plan asks for

  predicate CountedFile(cells: seq<CellSpec>, r: Record) { r.TimingRecord? ==> |r.samples| == RepeatsWanted(cells, r.cell) }

  ghost predicate CountedDir(cells: seq<CellSpec>, dir: Directory) { forall f | f in dir :: CountedFile(cells, dir[f]) }

  ghost predicate CountedTodo(cells: seq<CellSpec>, todo: seq<(FileName, Record)>) { forall f | f in todo :: CountedFile(cells, f.1) }

  ghost predicate CountedRun(w: World, run: Id) {
    run in w.db.runs && IsQuiet(w.db.runs[run].stage) && run in w.plans ==> CountedDir(w.plans[run].cells, DiskOf(w, run))
  }

  ghost predicate CountedAgent(w: World, a: Agent) {
    a.Writing? && a.entry.body.RunJob? && EncodingRun(w, a.entry.body.run) && IsQuiet(w.db.runs[a.entry.body.run].stage) ==>
      CountedTodo(a.entry.body.plan.cells, a.todo)
  }

  ghost predicate Counted(w: World) { (forall r :: CountedRun(w, r)) && forall h :: CountedAgent(w, AgentOf(w, h)) }

  lemma PlansStay(w: World, a: Action)
    requires !a.Enqueue? && Stranding.Base(w)
    ensures Step(w, a).plans == w.plans
  {
    if History.IsQuietStep(a) {
      History.QuietStepMoves(w, a);
    } else if Stranding.IsAside(a) {
      Stranding.AsideStops(w, a);
    } else if Stranding.IsWork(a) {
      Stranding.WorkStepMoves(w, a);
    } else {
      TalkPlansStay(w, a);
    }
  }

  lemma TalkPlansStay(w: World, a: Action)
    requires a.ClaimStart? || a.Serve?
    ensures Step(w, a).plans == w.plans
  {
    match a {
      case ClaimStart(host, waits) =>
        if Pending(w.queue, host) != [] { History.OffersMoves(w.(queue := AfterClaim(w.queue, host)), host, Pending(w.queue, host)[0], waits); }
      case Serve(id, ok) => if id in w.requests { ServePlansStay(w, id, ok); }
    }
  }

  lemma ServePlansStay(w: World, id: nat, ok: bool)
    requires id in w.requests
    ensures Serves(w, id, ok).plans == w.plans
  {
    if w.requests[id].phase.entry.body.RunJob? {
      match w.requests[id].phase
      case Claiming(_, _) => assert ClaimEnds(w, id, ok).plans == w.plans;
      case Saying(_) => assert RunningSaid(w, id, ok).plans == w.plans;
      case Judging(_) => Stranding.WhatJudgesMoves(w, id, ok);
      case Releasing(_) => assert Releases(w, id).plans == w.plans;
    }
  }

  lemma QuietCounts(w: World, v: World)
    requires Counted(w) && Quiet(w, v) && v.plans == w.plans
    ensures Counted(v)
  {
    forall r ensures CountedRun(v, r) { assert CountedRun(w, r); }
    forall h ensures CountedAgent(v, AgentOf(v, h)) { assert CountedAgent(w, AgentOf(w, h)); }
  }

  lemma EnqueueCounts(w: World, rows: RunPlan, plan: Plan, queueUp: bool, ok: bool)
    requires Counted(w) && OnDisk(w) && Stranding.Base(w)
    ensures Counted(Enqueues(w, rows, plan, queueUp, ok))
  {
    var v := Enqueues(w, rows, plan, queueUp, ok);
    if v != w {
      assert v.plans == w.plans[rows.run := plan] && v.disks == w.disks && v.agents == w.agents && rows.run !in w.db.runs;
      assert forall r | r in w.db.runs :: r in v.db.runs && v.db.runs[r] == w.db.runs[r];
      NewRunCounts(w, v, rows.run);
    }
  }

  lemma NewRunCounts(w: World, v: World, run: Id)
    requires Counted(w) && OnDisk(w) && run !in w.db.runs && v.disks == w.disks && v.agents == w.agents
    requires forall r | r in w.db.runs :: r in v.db.runs && v.db.runs[r] == w.db.runs[r]
    requires forall r | r != run :: (r in v.plans <==> r in w.plans) && (r in w.plans ==> v.plans[r] == w.plans[r])
    requires v.db.runs.Keys == w.db.runs.Keys + {run}
    ensures Counted(v)
  {
    assert run !in w.disks;
    forall r ensures CountedRun(v, r) { assert CountedRun(w, r); }
    forall h ensures CountedAgent(v, AgentOf(v, h)) { assert CountedAgent(w, AgentOf(w, h)) && WritingSound(w, AgentOf(w, h)); }
  }

  /** Records arrive: no file moves, and no agent starts to write. */
  lemma ArrivalCounts(w: World, v: World, host: Id)
    requires Counted(w) && v.plans == w.plans && v.disks == w.disks && v.db.runs == w.db.runs
    requires v == w || (v.agents == w.agents[host := AgentOf(v, host)] && !AgentOf(v, host).Writing?)
    ensures Counted(v)
  {
    forall r ensures CountedRun(v, r) { assert CountedRun(w, r); }
    forall h ensures CountedAgent(v, AgentOf(v, h)) { assert CountedAgent(w, AgentOf(w, h)); }
  }

  lemma RunUnitCounts(w: World, host: Id, made: Option<seq<(FileName, Record)>>)
    requires Counted(w)
    ensures Counted(RunsUnit(w, host, made))
  {
    var v := RunsUnit(w, host, made);
    forall r ensures CountedRun(v, r) { assert CountedRun(w, r); }
    forall h ensures CountedAgent(v, AgentOf(v, h)) { assert CountedAgent(w, AgentOf(w, h)); }
  }

  lemma FileCounts(cells: seq<CellSpec>, dir: Directory, todo: seq<(FileName, Record)>)
    requires CountedDir(cells, dir) && CountedTodo(cells, todo) && todo != []
    ensures CountedDir(cells, dir[todo[0].0 := todo[0].1])
  {
    assert todo[0] in todo;
  }

  lemma RestCounts(cells: seq<CellSpec>, todo: seq<(FileName, Record)>)
    requires CountedTodo(cells, todo) && todo != []
    ensures CountedTodo(cells, todo[1..])
  {
    forall f | f in todo[1..] ensures CountedFile(cells, f.1) { assert f in todo; }
  }

  lemma WroteCounts(w: World, v: World, host: Id)
    requires Counted(w) && WroteOne(w, v, host)
    requires AgentOf(w, host).entry.body.run in w.plans ==> w.plans[AgentOf(w, host).entry.body.run] == AgentOf(w, host).entry.body.plan
    ensures Counted(v)
  {
    var a := AgentOf(w, host);
    var run, cells := a.entry.body.run, a.entry.body.plan.cells;
    assert CountedAgent(w, a) && CountedRun(w, run);
    forall r ensures CountedRun(v, r) {
      assert CountedRun(w, r);
      if r == run && v.disks != w.disks && EncodingRun(w, run) && IsQuiet(w.db.runs[run].stage) && run in w.plans { FileCounts(cells, DiskOf(w, run), a.todo); }
    }
    forall h ensures CountedAgent(v, AgentOf(v, h)) {
      assert CountedAgent(w, AgentOf(w, h));
      if h == host && EncodingRun(w, run) && IsQuiet(w.db.runs[run].stage) { RestCounts(cells, a.todo); }
    }
  }

  lemma WriteCounts(w: World, host: Id)
    requires Counted(w) && Stranding.Base(w)
    ensures Counted(WritesNext(w, host))
  {
    WhatWritesNextMoves(w, host);
    if WritesNext(w, host) != w {
      assert Stranding.AgentSound(w, host);
      WroteCounts(w, WritesNext(w, host), host);
    }
  }

  lemma RepostCounts(w: World, host: Id, batch: seq<Record>, ok: bool)
    requires Counted(w)
    ensures Counted(Reposts(w, host, batch, ok))
  {
    Stranding.RepostsMoves(w, host, batch, ok);
    ArrivalCounts(w, Reposts(w, host, batch, ok), host);
  }

  lemma PostCounts(w: World, host: Id, ok: bool)
    requires Counted(w)
    ensures Counted(PostsRecords(w, host, ok))
  {
    Stranding.PostsRecordsMoves(w, host, ok);
    ArrivalCounts(w, PostsRecords(w, host, ok), host);
  }

  lemma WorkCounts(w: World, a: Action)
    requires Counted(w) && OnDisk(w) && Stranding.Base(w) && !IsTalk(a) && !IsEnd(a) && !IsOther(a)
    ensures Counted(Step(w, a))
  {
    match a
    case Enqueue(rows, plan, queueUp, ok) => EnqueueCounts(w, rows, plan, queueUp, ok);
    case Repost(host, batch, ok) => RepostCounts(w, host, batch, ok);
    case PostRecords(host, ok) => PostCounts(w, host, ok);
    case RunUnit(host, made) => RunUnitCounts(w, host, made);
    case WriteNext(host) => WriteCounts(w, host);
  }

  lemma StepIsQuiet(w: World, a: Action)
    requires IsTalk(a) || IsEnd(a) || IsOther(a)
    ensures Quiet(w, Step(w, a))
  {
    if IsTalk(a) { TalkQuiet(w, a); } else if IsEnd(a) { EndQuiet(w, a); } else { OtherQuiet(w, a); }
  }

  lemma StepCounts(w: World, a: Action)
    requires Counted(w) && OnDisk(w) && Stranding.Base(w)
    ensures Counted(Step(w, a))
  {
    if IsTalk(a) || IsEnd(a) || IsOther(a) {
      StepIsQuiet(w, a);
      PlansStay(w, a);
      QuietCounts(w, Step(w, a));
    } else {
      WorkCounts(w, a);
    }
  }

  lemma {:induction false} RunCounts(w: World, actions: seq<Action>)
    requires Counted(w) && OnDisk(w) && Stranding.Base(w) && History.Inv(w)
    ensures Counted(RunAll(w, actions))
    decreases |actions|
  {
    if actions != [] {
      StepCounts(w, actions[0]);
      StepKeeps(w, actions[0]);
      Stranding.StepBase(w, actions[0]);
      History.StepSound(w, actions[0]);
      RunCounts(Step(w, actions[0]), actions[1..]);
    }
  }

  // ---- when it recovers

  /** The tool times every cell. */
  ghost predicate TimesAll(tool: Tool, cells: seq<CellSpec>) { forall k | k in KeysOf(cells) :: |FilesOf(tool, k)| == 2 }

  /** In every reachable state: a process that is handed a timing run, whose tool times every cell and which meets no
      trouble, completes the run if and only if each of its cells that has any file on disk has its timing file. */
  lemma RecoversExactly(start: World, actions: seq<Action>, run: Id, tool: Tool)
    requires Initial(start) && ProductsPlanned(start.db)
    requires run in RunAll(start, actions).db.runs && IsQuiet(RunAll(start, actions).db.runs[run].stage)
    ensures var w := RunAll(start, actions);
            run in w.plans &&
            (var cells := w.plans[run].cells;
             Suits(tool, w.db.runs[run].stage, cells) && TimesAll(tool, cells) ==>
               (WillComplete(w.db.runs[run].stage, cells, DiskOf(w, run), tool) <==>
                 forall k | k in KeysOf(cells) && k in Filed(DiskOf(w, run)) :: TimingPart(k) in DiskOf(w, run)))
  {
    var w := RunAll(start, actions);
    ReachedSound(start, actions, run);
    if Suits(tool, w.db.runs[run].stage, w.plans[run].cells) && TimesAll(tool, w.plans[run].cells) {
      CellsRecover(w.db, DiskOf(w, run), run, w.plans[run], tool);
    }
  }

  lemma ReachedSound(start: World, actions: seq<Action>, run: Id)
    requires Initial(start) && ProductsPlanned(start.db)
    requires run in RunAll(start, actions).db.runs && IsQuiet(RunAll(start, actions).db.runs[run].stage)
    ensures var w := RunAll(start, actions);
            && run in w.plans && InStep(w.db, DiskOf(w, run), run) && Fits(w.db, run, w.db.runs[run].stage, w.plans[run])
            && CountedDir(w.plans[run].cells, DiskOf(w, run))
  {
    Stranding.InitialBase(start);
    RunCounts(start, actions);
    History.RunSound(start, actions);
    AlwaysRecoverable(start, actions, run);
    assert CountedRun(RunAll(start, actions), run);
  }

  lemma CellsRecover(db: Db, dir: Directory, run: Id, plan: Plan, tool: Tool)
    requires InStep(db, dir, run) && IsQuiet(db.runs[run].stage) && Fits(db, run, db.runs[run].stage, plan)
    requires Suits(tool, db.runs[run].stage, plan.cells) && TimesAll(tool, plan.cells) && CountedDir(plan.cells, dir)
    ensures WillComplete(db.runs[run].stage, plan.cells, dir, tool) <==>
              forall k | k in KeysOf(plan.cells) && k in Filed(dir) :: TimingPart(k) in dir
  {
    forall c | c in plan.cells
      ensures c.repeats >= 1 && c.key in KeysOf(plan.cells)
      ensures WillBeTimed(dir, tool, c) <==> (c.key in Filed(dir) ==> TimingPart(c.key) in dir)
    {
      CellRecovers(db, dir, run, plan, tool, c);
    }
    forall k | k in KeysOf(plan.cells) ensures exists c :: c in plan.cells && c.key == k {
      var i :| 0 <= i < |plan.cells| && KeysOf(plan.cells)[i] == k;
      assert plan.cells[i] in plan.cells;
    }
  }

  lemma CellRecovers(db: Db, dir: Directory, run: Id, plan: Plan, tool: Tool, c: CellSpec)
    requires InStep(db, dir, run) && IsQuiet(db.runs[run].stage) && Fits(db, run, db.runs[run].stage, plan) && c in plan.cells
    requires Suits(tool, db.runs[run].stage, plan.cells) && TimesAll(tool, plan.cells)
    requires CountedDir(plan.cells, dir)
    ensures c.repeats >= 1 && c.key in KeysOf(plan.cells)
    ensures WillBeTimed(dir, tool, c) <==> (c.key in Filed(dir) ==> TimingPart(c.key) in dir)
  {
    var s := db.runs[run].stage;
    var i :| 0 <= i < |plan.cells| && plan.cells[i] == c;
    UnitInKeys(plan.cells, c);
    WantedOfCell(plan.cells, i);
    assert Producible(s, plan.cells, c.key, FilesOf(tool, c.key));
    if TimingPart(c.key) in dir { assert FileSound(s, dir, CellsOf(db, run), TimingPart(c.key)); }
  }

  // ---- how it comes not to

  /** A timing run of one cell: where it runs, and what its unit makes. */
  datatype Bench = Bench(host: Id, run: Id, artifact: Id, cell: Id, window: Id, kind: Id, encode: EncodeRow, samples: seq<TimingRow>) {
    function Row(state: RunState): RunRow { RunRow(Time, host, None, None, None, None, [], artifact, None, state) }
    function Cells(): seq<CellSpec> { [CellSpec(cell, |samples|)] }
    function Rows(): RunPlan { RunPlan(run, Row(RunState.Planned), [CellPlan(cell, window, kind)]) }
    function Ticket(): Entry<Job> { Entry(1, host, RunJob(run, Plan(Cells(), [], []))) }
    function Encode(): Record { EncodeRecord(cell, encode) }
    function Made(): seq<(FileName, Record)> { [(EncodePart(cell), Encode()), (TimingPart(cell), TimingRecord(cell, samples))] }
  }

  /** The bench's run alone on the hub, in this state, its entry pending, its agent here and its directory so. */
  ghost predicate Stands(w: World, b: Bench, state: RunState, held: bool, a: Agent, dir: Directory) {
    && w.db.runs == map[b.run := b.Row(state)] && CellsOf(w.db, b.run) == {b.cell} && RowsAt(w.db.measured.timings, b.cell) == {}
    && b.host in w.db.catalogue.identities && w.db.catalogue.identities[b.host] == b.artifact
    && LineOf(w.queue, b.host) == Line([b.Ticket()], held) && AgentOf(w, b.host) == a && DiskOf(w, b.run) == dir
  }

  lemma Identified(w: World, b: Bench) returns (actions: seq<Action>)
    ensures RunAll(w, actions) == Reports(w, b.host, b.artifact)
  {
    actions := Crossing.OneStep(w, Report(b.host, b.artifact));
  }

  lemma Queued(w: World, b: Bench) returns (actions: seq<Action>)
    requires Initial(w) && RowsAt(w.db.measured.timings, b.cell) == {} && b.host in w.db.catalogue.machines
    requires b.host in w.db.catalogue.identities && w.db.catalogue.identities[b.host] == b.artifact
    ensures Stands(RunAll(w, actions), b, RunState.Planned, false, Idle, map[])
  {
    actions := Crossing.OneStep(w, Enqueue(b.Rows(), Plan(b.Cells(), [], []), true, true));
    PlannedAlone(w.db, b);
    assert BuiltTogether(b.Rows(), Plan(b.Cells(), [], []));
  }

  lemma Enqueued(w: World, b: Bench) returns (actions: seq<Action>)
    requires Initial(w) && ProductsPlanned(w.db) && b.host in w.db.catalogue.machines
    ensures Stands(RunAll(w, actions), b, RunState.Planned, false, Idle, map[])
  {
    var first := Identified(w, b);
    var rest := Queued(Reports(w, b.host, b.artifact), b);
    actions := first + rest;
    Crossing.Joined(w, first, rest);
  }

  lemma PlannedAlone(db: Db, b: Bench)
    requires db.runs == map[] && db.events == map[] && db.cells == map[] && b.host in db.catalogue.machines
    ensures MayPlan(db, b.Rows()) && !Busy(Runs.Planned(db, b.Rows()), b.host, b.run)
    ensures Runs.Planned(db, b.Rows()).runs == map[b.run := b.Row(RunState.Planned)] && CellsOf(Runs.Planned(db, b.Rows()), b.run) == {b.cell}
  {
    var rows := b.Rows();
    assert Inherited(db, rows.row) == rows.row;
    PlannedCells(db, rows, b.run);
    assert (set c | c in rows.cells :: c.key) == {b.cell} by { assert rows.cells[0] in rows.cells; }
  }

  lemma ClaimGoesOut(w: World, b: Bench)
    requires Stands(w, b, RunState.Planned, false, Idle, map[])
    ensures ClaimStarts(w, b.host, true) ==
            Sends(w.(queue := AfterClaim(w.queue, b.host)), b.host, Claiming(b.Ticket(), RunState.Planned), Some(Waiting(w.sent)))
  {
    assert Pending(w.queue, b.host) == [b.Ticket()];
    assert !Busy(w.db, b.host, b.run) && !Stale(w.db, b.run, b.host) && MayHandOut(w.db, b.run, b.host);
  }

  lemma Asked(w: World, b: Bench) returns (actions: seq<Action>)
    requires Stands(w, b, RunState.Planned, false, Idle, map[])
    ensures var u := RunAll(w, actions);
            && u.requests == w.requests[w.sent := Request(b.host, Claiming(b.Ticket(), RunState.Planned))]
            && Stands(u, b, RunState.Planned, true, Waiting(w.sent), map[])
  {
    ClaimGoesOut(w, b);
    actions := Claims(w, b);
  }

  lemma Claims(w: World, b: Bench) returns (actions: seq<Action>)
    ensures RunAll(w, actions) == ClaimStarts(w, b.host, true)
  {
    actions := Crossing.OneStep(w, ClaimStart(b.host, true));
  }

  lemma PostedStands(w: World, v: World, b: Bench, was: RunState, state: RunState, writer: Writer, a: Agent, next: Agent)
    requires Stands(w, b, was, true, a, map[]) && v.db == Posted(w.db, b.run, state, writer)
    requires v.queue == w.queue && v.disks == w.disks && AgentOf(v, b.host) == next
    ensures Stands(v, b, state, true, next, map[])
  {
    assert v.db.runs == map[b.run := b.Row(state)];
    assert CellsOf(v.db, b.run) == CellsOf(w.db, b.run);
  }

  lemma ClaimAnswered(w: World, b: Bench, id: nat) returns (actions: seq<Action>)
    requires id in w.requests && w.requests[id] == Request(b.host, Claiming(b.Ticket(), RunState.Planned))
    requires Stands(w, b, RunState.Planned, true, Waiting(id), map[])
    ensures Stands(RunAll(w, actions), b, Launched, true, Claimed(b.Ticket(), {}), map[])
  {
    actions := Crossing.OneStep(w, Serve(id, true));
    var e, v := b.Ticket(), ClaimEnds(w, id, true);
    assert v.db == Posted(w.db, b.run, Launched, ByHub);
    NothingTimed(v.db, b);
    PostedStands(w, v, b, RunState.Planned, Launched, ByHub, Waiting(id), Claimed(e, {}));
  }

  lemma NothingTimed(db: Db, b: Bench)
    requires CellsOf(db, b.run) == {b.cell} && RowsAt(db.measured.timings, b.cell) == {}
    ensures Done(db, b.run, Time, Plan(b.Cells(), [], [])) == {}
  {
    NoRowsNoRepeats(db, b.cell);
  }

  lemma HandedOut(w: World, b: Bench) returns (actions: seq<Action>)
    requires Stands(w, b, RunState.Planned, false, Idle, map[])
    ensures Stands(RunAll(w, actions), b, Launched, true, Claimed(b.Ticket(), {}), map[])
  {
    var first := Asked(w, b);
    var rest := ClaimAnswered(RunAll(w, first), b, w.sent);
    actions := first + rest;
    Crossing.Joined(w, first, rest);
  }

  lemma NothingReposted(w: World, b: Bench) returns (actions: seq<Action>)
    requires Stands(w, b, Launched, true, Claimed(b.Ticket(), {}), map[])
    ensures RunAll(w, actions) == w.(agents := w.agents[b.host := Reposted(b.Ticket(), {})])
  {
    actions := Crossing.OneStep(w, Repost(b.host, [], true));
    assert ListsHeld(DiskOf(w, b.run), {}, []);
  }

  lemma Says(w: World, b: Bench) returns (actions: seq<Action>)
    requires Stands(w, b, Launched, true, Reposted(b.Ticket(), {}), map[])
    ensures var v := RunAll(w, actions);
            && v.requests == w.requests[w.sent := Request(b.host, Saying(b.Ticket()))]
            && Stands(v, b, Launched, true, Telling(b.Ticket(), {}, w.sent), map[])
  {
    actions := Crossing.OneStep(w, SayRunning(b.host));
  }

  lemma SaysSo(w: World, b: Bench) returns (actions: seq<Action>)
    requires Stands(w, b, Launched, true, Claimed(b.Ticket(), {}), map[])
    ensures var v := RunAll(w, actions);
            && v.requests == w.requests[w.sent := Request(b.host, Saying(b.Ticket()))]
            && Stands(v, b, Launched, true, Telling(b.Ticket(), {}, w.sent), map[])
  {
    var first := NothingReposted(w, b);
    var rest := Says(RunAll(w, first), b);
    actions := first + rest;
    Crossing.Joined(w, first, rest);
  }

  lemma Heard(w: World, b: Bench, id: nat) returns (actions: seq<Action>)
    requires id in w.requests && w.requests[id] == Request(b.host, Saying(b.Ticket())) && Stands(w, b, Launched, true, Telling(b.Ticket(), {}, id), map[])
    ensures Stands(RunAll(w, actions), b, Running, true, AtUnit(b.Ticket(), {}, 0), map[])
  {
    actions := Crossing.OneStep(w, Serve(id, true));
    PostedStands(w, RunningSaid(w, id, true), b, Launched, Running, ByAgent, Telling(b.Ticket(), {}, id), AtUnit(b.Ticket(), {}, 0));
  }

  lemma Looks(w: World, b: Bench) returns (actions: seq<Action>)
    requires Stands(w, b, Running, true, AtUnit(b.Ticket(), {}, 0), map[])
    ensures Stands(RunAll(w, actions), b, Running, true, Working(b.Ticket(), {}, 0), map[])
  {
    actions := Crossing.OneStep(w, LookAtUnit(b.host));
    assert Units(w, b.Ticket()) == KeysOf(b.Cells());
  }

  lemma SaidRunning(w: World, b: Bench, id: nat) returns (actions: seq<Action>)
    requires id in w.requests && w.requests[id] == Request(b.host, Saying(b.Ticket())) && Stands(w, b, Launched, true, Telling(b.Ticket(), {}, id), map[])
    ensures Stands(RunAll(w, actions), b, Running, true, Working(b.Ticket(), {}, 0), map[])
  {
    var first := Heard(w, b, id);
    var rest := Looks(RunAll(w, first), b);
    actions := first + rest;
    Crossing.Joined(w, first, rest);
  }

  lemma UnitRuns(w: World, b: Bench) returns (actions: seq<Action>)
    requires Stands(w, b, Running, true, Working(b.Ticket(), {}, 0), map[]) && !b.encode.kept && Numbered(b.samples)
    ensures RunAll(w, actions) == w.(agents := w.agents[b.host := Writing(b.Ticket(), {}, 0, b.Made(), [])])
  {
    actions := Crossing.OneStep(w, RunUnit(b.host, Some(b.Made())));
    assert Units(w, b.Ticket()) == KeysOf(b.Cells()) && KeysOf(b.Cells()) == [b.cell];
    MadeByBench(b);
  }

  lemma FirstWritten(w: World, b: Bench) returns (actions: seq<Action>)
    requires Stands(w, b, Running, true, Writing(b.Ticket(), {}, 0, b.Made(), []), map[])
    ensures Stands(RunAll(w, actions), b, Running, true, Writing(b.Ticket(), {}, 0, b.Made()[1..], [b.Encode()]), map[EncodePart(b.cell) := b.Encode()])
  {
    actions := Crossing.OneStep(w, WriteNext(b.host));
    var v := WritesNext(w, b.host);
    assert v == w.(agents := v.agents, disks := w.disks[b.run := map[][EncodePart(b.cell) := b.Encode()]]);
  }

  lemma UnitMade(w: World, b: Bench) returns (actions: seq<Action>)
    requires Stands(w, b, Running, true, Working(b.Ticket(), {}, 0), map[]) && !b.encode.kept && Numbered(b.samples)
    ensures Stands(RunAll(w, actions), b, Running, true, Writing(b.Ticket(), {}, 0, b.Made()[1..], [b.Encode()]), map[EncodePart(b.cell) := b.Encode()])
  {
    var first := UnitRuns(w, b);
    var rest := FirstWritten(RunAll(w, first), b);
    actions := first + rest;
    Crossing.Joined(w, first, rest);
  }

  lemma MadeByBench(b: Bench)
    requires !b.encode.kept && Numbered(b.samples)
    ensures Producible(Time, b.Cells(), b.cell, b.Made())
  {
    WantedOfCell(b.Cells(), 0);
  }

  lemma Dies(w: World, b: Bench, dir: Directory) returns (actions: seq<Action>)
    requires Stands(w, b, Running, true, AgentOf(w, b.host), dir)
    ensures Stands(RunAll(w, actions), b, Running, true, Idle, dir)
  {
    actions := Crossing.OneStep(w, AgentCrash(b.host));
  }

  // the way there, from its end

  lemma FromWorking(w: World, b: Bench) returns (actions: seq<Action>)
    requires Stands(w, b, Running, true, Working(b.Ticket(), {}, 0), map[]) && !b.encode.kept && Numbered(b.samples)
    ensures Stands(RunAll(w, actions), b, Running, true, Idle, map[EncodePart(b.cell) := b.Encode()])
  {
    var first := UnitMade(w, b);
    var rest := Dies(RunAll(w, first), b, map[EncodePart(b.cell) := b.Encode()]);
    actions := first + rest;
    Crossing.Joined(w, first, rest);
  }

  lemma FromTelling(w: World, b: Bench, id: nat) returns (actions: seq<Action>)
    requires id in w.requests && w.requests[id] == Request(b.host, Saying(b.Ticket())) && Stands(w, b, Launched, true, Telling(b.Ticket(), {}, id), map[])
    requires !b.encode.kept && Numbered(b.samples)
    ensures Stands(RunAll(w, actions), b, Running, true, Idle, map[EncodePart(b.cell) := b.Encode()])
  {
    var first := SaidRunning(w, b, id);
    var rest := FromWorking(RunAll(w, first), b);
    actions := first + rest;
    Crossing.Joined(w, first, rest);
  }

  lemma FromClaimed(w: World, b: Bench) returns (actions: seq<Action>)
    requires Stands(w, b, Launched, true, Claimed(b.Ticket(), {}), map[]) && !b.encode.kept && Numbered(b.samples)
    ensures Stands(RunAll(w, actions), b, Running, true, Idle, map[EncodePart(b.cell) := b.Encode()])
  {
    var first := SaysSo(w, b);
    var rest := FromTelling(RunAll(w, first), b, w.sent);
    actions := first + rest;
    Crossing.Joined(w, first, rest);
  }

  lemma FromQueued(w: World, b: Bench) returns (actions: seq<Action>)
    requires Stands(w, b, RunState.Planned, false, Idle, map[]) && !b.encode.kept && Numbered(b.samples)
    ensures Stands(RunAll(w, actions), b, Running, true, Idle, map[EncodePart(b.cell) := b.Encode()])
  {
    var first := HandedOut(w, b);
    var rest := FromClaimed(RunAll(w, first), b);
    actions := first + rest;
    Crossing.Joined(w, first, rest);
  }

  lemma NeverTimed(w: World, b: Bench)
    requires DiskOf(w, b.run) == map[EncodePart(b.cell) := b.Encode()] && Numbered(b.samples)
    ensures forall tool :: !WillComplete(Time, b.Cells(), DiskOf(w, b.run), tool)
  {
    var dir := DiskOf(w, b.run);
    assert KeyOf(dir[EncodePart(b.cell)]) == Some(b.cell) && b.cell in Filed(dir);
    forall tool ensures !WillComplete(Time, b.Cells(), dir, tool) {
      assert b.Cells()[0] in b.Cells() && !WillBeTimed(dir, tool, b.Cells()[0]);
    }
  }

  lemma LeftBehind(start: World, actions: seq<Action>, b: Bench)
    requires Initial(start) && ProductsPlanned(start.db) && Numbered(b.samples)
    requires Stands(RunAll(start, actions), b, Running, true, Idle, map[EncodePart(b.cell) := b.Encode()])
    ensures var w := RunAll(start, actions);
            && Next(w.queue, b.host) == b.Ticket() && Ready(w.db, w.queue, b.host, DiskOf(w, b.run))
            && forall tool :: !WillComplete(w.db.runs[b.run].stage, b.Ticket().body.plan.cells, DiskOf(w, b.run), tool)
  {
    var w := RunAll(start, actions);
    assert Pending(w.queue, b.host) == [b.Ticket()] && !Stale(w.db, b.run, b.host) && MayHandOut(w.db, b.run, b.host);
    ReachableIsReady(start, actions, b.host);
    NeverTimed(w, b);
  }

  /** From an empty hub: one timing run is enqueued, handed out and said to be running, its one unit makes its two
      files, and the agent dies with the first of them written. The entry is still held and a new process is handed
      it; but no process that meets no trouble completes it, whatever its tool: the repost takes the cell for done. */
  lemma DeathBetweenTwoFiles(start: World, b: Bench) returns (actions: seq<Action>)
    requires Initial(start) && ProductsPlanned(start.db) && b.host in start.db.catalogue.machines
    requires !b.encode.kept && Numbered(b.samples)
    ensures var w := RunAll(start, actions);
            && DiskOf(w, b.run) == map[EncodePart(b.cell) := b.Encode()] && AgentOf(w, b.host).Idle?
            && Next(w.queue, b.host) == b.Ticket() && Ready(w.db, w.queue, b.host, DiskOf(w, b.run))
            && forall tool :: !WillComplete(w.db.runs[b.run].stage, b.Ticket().body.plan.cells, DiskOf(w, b.run), tool)
  {
    var first := Enqueued(start, b);
    var rest := FromQueued(RunAll(start, first), b);
    actions := first + rest;
    Crossing.Joined(start, first, rest);
    LeftBehind(start, actions, b);
  }
}
