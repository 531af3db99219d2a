/** What an abandon stops (sweep/node/agent.py): the agent that is at work on the run finishes the unit it has in hand
    and runs no other, whatever else happens. */
module Stopping {
  import opened Names
  import opened Wrappers
  import opened Tables
  import opened Ingest
  import opened Verify
  import opened Runs
  import opened Queue
  import opened Protocol
  import opened Stranding
  import opened Abandon
  import Crossing
  import Recovery

  /** The agent is between the units of the run, or in one. */
  predicate OnIt(a: Agent, run: Id) { (a.AtUnit? || a.Working? || a.Writing?) && About(a.entry, run) }

  /** One of the files this unit of work may write. */
  predicate FileOf(hand: Option<Id>, f: FileName) {
    hand.Some? && f in {Whole(hand.value), EncodePart(hand.value), TimingPart(hand.value), ReferenceSetFile}
  }

  /** At most the unit in hand is being run or written; between units, it is not before the first. */
  predicate Halting(w: World, a: Agent, run: Id, hand: Option<Id>) {
    OnIt(a, run) ==>
      match a
      case AtUnit(_, _, n) => n > 0
      case Working(entry, _, n) => n < |Units(w, entry)| && Some(Units(w, entry)[n]) == hand
      case Writing(_, _, _, todo, _) => forall f | f in todo :: FileOf(hand, f.0)
      case _ => true
  }

  ghost predicate AllHalting(w: World, run: Id, hand: Option<Id>) { forall h :: Halting(w, AgentOf(w, h), run, hand) }

  /** What is new in the directory is the unit in hand's; nothing that was there has moved. */
  ghost predicate OnlyInHand(was: Directory, now: Directory, hand: Option<Id>) {
    && (forall f | f in was :: f in now && now[f] == was[f])
    && (forall f | f in now && f !in was :: FileOf(hand, f))
  }

  /** Neither the run's stage nor its directory moves, and no agent comes to a unit of it. */
  ghost predicate NobodyComes(w: World, v: World, run: Id) {
    && run in w.db.runs && run in v.db.runs && v.db.runs[run].stage == w.db.runs[run].stage && DiskOf(v, run) == DiskOf(w, run)
    && forall h | OnIt(AgentOf(v, h), run) :: AgentOf(v, h) == AgentOf(w, h)
  }

  lemma NobodyHalts(w: World, v: World, run: Id, hand: Option<Id>)
    requires AllHalting(w, run, hand) && NobodyComes(w, v, run)
    ensures AllHalting(v, run, hand) && OnlyInHand(DiskOf(w, run), DiskOf(v, run), hand)
  {
    forall h ensures Halting(v, AgentOf(v, h), run, hand) { assert Halting(w, AgentOf(w, h), run, hand); }
  }

  // ---- steps in which nobody comes

  lemma QuietComes(w: World, v: World, run: Id)
    requires run in w.db.runs && Recovery.Quiet(w, v) && forall h | OnIt(AgentOf(v, h), run) :: AgentOf(v, h) == AgentOf(w, h)
    ensures NobodyComes(w, v, run)
  {
    assert Recovery.SameKind(v.db.runs[run], w.db.runs[run]);
  }

  lemma EnqueuesComes(w: World, rows: RunPlan, plan: Plan, queueUp: bool, ok: bool, run: Id)
    requires run in w.db.runs
    ensures NobodyComes(w, Enqueues(w, rows, plan, queueUp, ok), run)
  {
  }

  lemma OffersComes(w: World, host: Id, entry: Entry<Job>, waits: bool, run: Id)
    ensures forall h | OnIt(AgentOf(Offers(w, host, entry, waits), h), run) :: AgentOf(Offers(w, host, entry, waits), h) == AgentOf(w, h)
  {
    var waiting := if waits then Some(Waiting(w.sent)) else None;
    if entry.body.RunJob? {
      SendsComes(w, host, Releasing(entry), waiting, run);
      if entry.body.run in w.db.runs { SendsComes(w, host, Claiming(entry, w.db.runs[entry.body.run].state), waiting, run); }
    }
  }

  lemma SendsComes(w: World, host: Id, phase: Phase, waits: Option<Agent>, run: Id)
    requires waits.Some? ==> !OnIt(waits.value, run)
    ensures forall h | OnIt(AgentOf(Sends(w, host, phase, waits), h), run) :: AgentOf(Sends(w, host, phase, waits), h) == AgentOf(w, h)
  {
  }

  lemma ClaimStartsComes(w: World, host: Id, waits: bool, run: Id)
    requires run in w.db.runs
    ensures NobodyComes(w, ClaimStarts(w, host, waits), run)
  {
    Recovery.ClaimStartsQuiet(w, host, waits);
    if Pending(w.queue, host) != [] { OffersComes(w.(queue := AfterClaim(w.queue, host)), host, Pending(w.queue, host)[0], waits, run); }
    QuietComes(w, ClaimStarts(w, host, waits), run);
  }

  /** An agent that is told its `running` was posted would come to the first unit; it would be of another run. */
  lemma AnsweredComes(w: World, id: nat, a: Agent, run: Id)
    requires id in w.requests && !OnIt(a, run)
    ensures var agents := Answered(w, id, a);
            forall h | OnIt(AgentOf(w.(agents := agents), h), run) :: AgentOf(w.(agents := agents), h) == AgentOf(w, h)
  {
  }

  lemma SaidToNoOne(w: World, id: nat, run: Id)
    requires Base(w) && Final(w, run) && id in w.requests && w.requests[id].phase.Saying?
    ensures var a := AgentOf(w, w.requests[id].host); Awaits(a, id) && a.Telling? ==> !About(a.entry, run)
  {
    assert AgentSound(w, w.requests[id].host);
    assert !RequestRouses(w.requests[id], run);
  }

  lemma ServesAgents(w: World, id: nat, ok: bool, run: Id)
    requires Base(w) && Final(w, run)
    ensures forall h | OnIt(AgentOf(Serves(w, id, ok), h), run) :: AgentOf(Serves(w, id, ok), h) == AgentOf(w, h)
  {
    if id in w.requests && w.requests[id].phase.entry.body.RunJob? {
      match w.requests[id].phase
      case Claiming(_, _) => ClaimEndsAgents(w, id, ok, run);
      case Saying(_) => SaidAgents(w, id, ok, run);
      case Judging(_) => JudgesAgents(w, id, ok, run);
      case Releasing(_) => AnsweredComes(w, id, Idle, run);
    } else if id in w.requests {
      AnsweredComes(w, id, Idle, run);
    }
  }

  lemma ClaimEndsAgents(w: World, id: nat, ok: bool, run: Id)
    requires id in w.requests && w.requests[id].phase.Claiming? && w.requests[id].phase.entry.body.RunJob?
    ensures forall h | OnIt(AgentOf(ClaimEnds(w, id, ok), h), run) :: AgentOf(ClaimEnds(w, id, ok), h) == AgentOf(w, h)
  {
    var entry := w.requests[id].phase.entry;
    AnsweredComes(w, id, Idle, run);
    if entry.body.run in w.db.runs {
      AnsweredComes(w, id, Claimed(entry, Done(w.db, entry.body.run, w.db.runs[entry.body.run].stage, entry.body.plan)), run);
    }
  }

  lemma SaidAgents(w: World, id: nat, ok: bool, run: Id)
    requires Base(w) && Final(w, run) && id in w.requests && w.requests[id].phase.Saying? && w.requests[id].phase.entry.body.RunJob?
    ensures forall h | OnIt(AgentOf(RunningSaid(w, id, ok), h), run) :: AgentOf(RunningSaid(w, id, ok), h) == AgentOf(w, h)
  {
    SaidToNoOne(w, id, run);
    var a := AgentOf(w, w.requests[id].host);
    AnsweredComes(w, id, Idle, run);
    if a.Telling? && !About(a.entry, run) { AnsweredComes(w, id, AtUnit(a.entry, a.done, 0), run); }
  }

  lemma JudgesAgents(w: World, id: nat, ok: bool, run: Id)
    requires id in w.requests && w.requests[id].phase.Judging? && w.requests[id].phase.entry.body.RunJob?
    ensures forall h | OnIt(AgentOf(Judges(w, id, ok), h), run) :: AgentOf(Judges(w, id, ok), h) == AgentOf(w, h)
  {
    WhatJudgesMoves(w, id, ok);
    AnsweredComes(w, id, Idle, run);
  }

  lemma ServesComes(w: World, id: nat, ok: bool, run: Id)
    requires Base(w) && Final(w, run)
    ensures NobodyComes(w, Serves(w, id, ok), run)
  {
    Recovery.ServesQuiet(w, id, ok);
    ServesAgents(w, id, ok, run);
    QuietComes(w, Serves(w, id, ok), run);
  }

  lemma TalkComes(w: World, a: Action, run: Id)
    requires Base(w) && Final(w, run) && Recovery.IsTalk(a)
    ensures NobodyComes(w, Step(w, a), run)
  {
    match a
    case ClaimStart(host, waits) => ClaimStartsComes(w, host, waits, run);
    case Serve(id, ok) => ServesComes(w, id, ok, run);
    case SayRunning(host) => RequestsComes(w, host, run);
    case AckStart(host) => RequestsComes(w, host, run);
    case JobAck(host) => JobAcksComes(w, host, run);
  }

  lemma RequestsComes(w: World, host: Id, run: Id)
    requires run in w.db.runs
    ensures NobodyComes(w, SaysRunning(w, host), run) && NobodyComes(w, AcksRun(w, host), run)
  {
    Recovery.RequestsQuiet(w, host);
    QuietComes(w, SaysRunning(w, host), run);
    QuietComes(w, AcksRun(w, host), run);
  }

  lemma JobAcksComes(w: World, host: Id, run: Id)
    requires run in w.db.runs
    ensures NobodyComes(w, JobAcks(w, host), run)
  {
    Recovery.JobAcksQuiet(w, host);
    QuietComes(w, JobAcks(w, host), run);
  }

  lemma SweepLooksComes(w: World, looked: Id, ok: bool, run: Id)
    requires run in w.db.runs
    ensures NobodyComes(w, SweepLooks(w, looked, ok), run)
  {
    Recovery.SweepLooksQuiet(w, looked, ok);
    QuietComes(w, SweepLooks(w, looked, ok), run);
  }

  lemma AbandonsComes(w: World, other: Id, ok: bool, run: Id)
    requires run in w.db.runs
    ensures NobodyComes(w, Abandons(w, other, ok), run)
  {
    Recovery.AbandonsQuiet(w, other, ok);
    QuietComes(w, Abandons(w, other, ok), run);
  }

  lemma CrashesCome(w: World, host: Id, run: Id)
    requires run in w.db.runs
    ensures NobodyComes(w, AgentCrashes(w, host), run) && NobodyComes(w, HubRestarts(w), run)
  {
    Recovery.CrashQuiet(w, host);
    QuietComes(w, AgentCrashes(w, host), run);
    Recovery.HubRestartsQuiet(w);
    QuietComes(w, HubRestarts(w), run);
  }

  lemma EndComes(w: World, a: Action, host: Id, run: Id)
    requires run in w.db.runs && Recovery.IsEnd(a) && !a.LookAtUnit? && (a.AgentCrash? ==> a.host == host)
    ensures NobodyComes(w, Step(w, a), run)
  {
    match a
    case SweepLook(looked, ok) => SweepLooksComes(w, looked, ok, run);
    case Abandon(other, ok) => AbandonsComes(w, other, ok, run);
    case HubRestart => CrashesCome(w, host, run);
    case AgentCrash(_) => CrashesCome(w, host, run);
  }

  lemma OtherComes(w: World, a: Action, run: Id)
    requires run in w.db.runs && Recovery.IsOther(a)
    ensures NobodyComes(w, Step(w, a), run)
  {
    Recovery.OtherQuiet(w, a);
    OtherAgents(w, a);
    QuietComes(w, Step(w, a), run);
  }

  lemma OtherAgents(w: World, a: Action)
    requires Recovery.IsOther(a)
    ensures Step(w, a).agents == w.agents
  {
    match a
    case EnqueueJob(host, files) => assert EnqueuesJob(w, host, files).agents == w.agents;
    case SweepStart => assert SweepStarts(w).agents == w.agents;
    case Publish(path, row) => assert Publishes(w, path, row).agents == w.agents;
    case Report(host, artifact) => assert Reports(w, host, artifact).agents == w.agents;
    case Beat(_, _) =>
    case Tick(_) =>
  }

  // ---- the agent's own steps

  /** One agent has moved, at most to a unit past the first or on with the unit in hand. */
  lemma MovedHalts(w: World, v: World, host: Id, run: Id, hand: Option<Id>)
    requires AllHalting(w, run, hand) && v.agents == w.agents[host := AgentOf(v, host)] && Halting(v, AgentOf(v, host), run, hand)
    requires run in w.db.runs && v.db.runs == w.db.runs
    ensures AllHalting(v, run, hand)
  {
    forall h ensures Halting(v, AgentOf(v, h), run, hand) { assert Halting(w, AgentOf(w, h), run, hand); }
  }

  /** Told to stop: an abandoned run's next unit is not run. */
  lemma LooksHalts(w: World, host: Id, run: Id, hand: Option<Id>)
    requires IsAbandoned(w, run) && AllHalting(w, run, hand)
    ensures AllHalting(LooksAtUnit(w, host), run, hand) && LooksAtUnit(w, host).disks == w.disks
  {
    var a := AgentOf(w, host);
    if a.AtUnit? && a.entry.body.RunJob? {
      assert Halting(w, a, run, hand);
      MovedHalts(w, LooksAtUnit(w, host), host, run, hand);
    }
  }

  lemma MadeInHand(s: Stage, cells: seq<CellSpec>, unit: Id, files: seq<(FileName, Record)>)
    requires Producible(s, cells, unit, files)
    ensures forall f | f in files :: FileOf(Some(unit), f.0)
  {
  }

  lemma RunsHalts(w: World, host: Id, made: Option<seq<(FileName, Record)>>, run: Id, hand: Option<Id>)
    requires run in w.db.runs && AllHalting(w, run, hand)
    ensures AllHalting(RunsUnit(w, host, made), run, hand) && RunsUnit(w, host, made).disks == w.disks
  {
    var a, v := AgentOf(w, host), RunsUnit(w, host, made);
    if v != w {
      assert Halting(w, a, run, hand);
      if made.Some? { MadeInHand(w.db.runs[a.entry.body.run].stage, a.entry.body.plan.cells, Units(w, a.entry)[a.n], made.value); }
      MovedHalts(w, v, host, run, hand);
    }
  }

  lemma WritesHalts(w: World, host: Id, run: Id, hand: Option<Id>)
    requires run in w.db.runs && AllHalting(w, run, hand)
    ensures AllHalting(WritesNext(w, host), run, hand) && OnlyInHand(DiskOf(w, run), DiskOf(WritesNext(w, host), run), hand)
  {
    var a, v := AgentOf(w, host), WritesNext(w, host);
    Recovery.WhatWritesNextMoves(w, host);
    if v != w {
      assert Halting(w, a, run, hand) && a.todo[0] in a.todo;
      assert forall f | f in a.todo[1..] :: f in a.todo;
      MovedHalts(w, v, host, run, hand);
      WroteHalts(w, v, host, run, hand);
    }
  }

  lemma WroteHalts(w: World, v: World, host: Id, run: Id, hand: Option<Id>)
    requires Recovery.WroteOne(w, v, host) && (About(AgentOf(w, host).entry, run) ==> FileOf(hand, AgentOf(w, host).todo[0].0))
    ensures OnlyInHand(DiskOf(w, run), DiskOf(v, run), hand)
  {
  }

  lemma PostsHalts(w: World, host: Id, ok: bool, run: Id, hand: Option<Id>)
    requires run in w.db.runs && AllHalting(w, run, hand)
    ensures AllHalting(PostsRecords(w, host, ok), run, hand) && PostsRecords(w, host, ok).disks == w.disks
  {
    WorkStepMoves(w, PostRecords(host, ok));
    if PostsRecords(w, host, ok) != w { MovedHalts(w, PostsRecords(w, host, ok), host, run, hand); }
  }

  lemma RepostsHalts(w: World, host: Id, batch: seq<Record>, ok: bool, run: Id, hand: Option<Id>)
    requires run in w.db.runs && AllHalting(w, run, hand)
    ensures AllHalting(Reposts(w, host, batch, ok), run, hand) && Reposts(w, host, batch, ok).disks == w.disks
  {
    WorkStepMoves(w, Repost(host, batch, ok));
    if Reposts(w, host, batch, ok) != w { MovedHalts(w, Reposts(w, host, batch, ok), host, run, hand); }
  }

  lemma WorkHalts(w: World, a: Action, run: Id, hand: Option<Id>)
    requires IsAbandoned(w, run) && AllHalting(w, run, hand)
    requires a.Repost? || a.LookAtUnit? || a.RunUnit? || a.WriteNext? || a.PostRecords?
    ensures AllHalting(Step(w, a), run, hand) && OnlyInHand(DiskOf(w, run), DiskOf(Step(w, a), run), hand)
  {
    assert OnlyInHand(DiskOf(w, run), DiskOf(w, run), hand);
    match a
    case Repost(host, batch, ok) => RepostsHalts(w, host, batch, ok, run, hand);
    case LookAtUnit(host) => LooksHalts(w, host, run, hand);
    case RunUnit(host, made) => RunsHalts(w, host, made, run, hand);
    case WriteNext(host) => WritesHalts(w, host, run, hand);
    case PostRecords(host, ok) => PostsHalts(w, host, ok, run, hand);
  }

  lemma StepHalts(w: World, a: Action, run: Id, hand: Option<Id>)
    requires Base(w) && Final(w, run) && AllHalting(w, run, hand)
    ensures AllHalting(Step(w, a), run, hand) && OnlyInHand(DiskOf(w, run), DiskOf(Step(w, a), run), hand)
  {
    if a.Repost? || a.LookAtUnit? || a.RunUnit? || a.WriteNext? || a.PostRecords? {
      WorkHalts(w, a, run, hand);
    } else {
      if Recovery.IsTalk(a) {
        TalkComes(w, a, run);
      } else if Recovery.IsEnd(a) {
        EndComes(w, a, if a.AgentCrash? then a.host else run, run);
      } else if a.Enqueue? {
        EnqueuesComes(w, a.rows, a.plan, a.queueUp, a.ok, run);
      } else {
        OtherComes(w, a, run);
      }
      NobodyHalts(w, Step(w, a), run, hand);
    }
  }

  lemma InHandTransitive(a: Directory, b: Directory, c: Directory, hand: Option<Id>)
    requires OnlyInHand(a, b, hand) && OnlyInHand(b, c, hand)
    ensures OnlyInHand(a, c, hand)
  {
  }

  lemma {:induction false} RunHalts(w: World, actions: seq<Action>, run: Id, hand: Option<Id>)
    requires Base(w) && Final(w, run) && AllHalting(w, run, hand)
    ensures var v := RunAll(w, actions);
            Final(v, run) && AllHalting(v, run, hand) && OnlyInHand(DiskOf(w, run), DiskOf(v, run), hand)
    decreases |actions|
  {
    if actions != [] {
      var next := Step(w, actions[0]);
      StepBase(w, actions[0]);
      StepKeeps(w, actions[0], run);
      StepHalts(w, actions[0], run, hand);
      RunHalts(next, actions[1..], run, hand);
      InHandTransitive(DiskOf(w, run), DiskOf(next, run), DiskOf(RunAll(next, actions[1..]), run), hand);
    }
  }

  // ---- what an operator may count on

  /** The unit an agent has in hand. */
  function InHand(w: World, a: Agent): Option<Id> {
    if (a.Working? || a.Writing?) && a.entry.body.RunJob? && a.n < |Units(w, a.entry)| then Some(Units(w, a.entry)[a.n]) else None
  }

  /** The agent has not yet to begin with the run's first unit; what it writes is its unit's. */
  predicate PastFirst(w: World, a: Agent) {
    && (a.AtUnit? ==> a.n > 0) && (a.Working? || a.Writing? ==> InHand(w, a).Some?)
    && (a.Writing? ==> forall f | f in a.todo :: FileOf(InHand(w, a), f.0))
  }

  /** In every reachable state, and whatever happens after it: an abandon committed while the agent is at work past the
      run's first unit, or in it, leaves the run abandoned for good, and of all the units that are left at most the
      one in hand is run: nothing but its files is added to the run's directory, ever, by this process or a later one,
      and with none in hand nothing is. */
  lemma AbandonStopsWork(start: World, before: seq<Action>, host: Id, run: Id, after: seq<Action>)
    requires Initial(start)
    requires var w := RunAll(start, before);
             && run in w.db.runs && !IsTerminal(w.db.runs[run].state) && BetweenRunningAndAck(AgentOf(w, host), run)
             && PastFirst(w, AgentOf(w, host)) && run !in w.sweep && Crossing.NoneInFlight(w, host)
    ensures var w, v := RunAll(start, before), RunAll(Abandons(RunAll(start, before), run, true), after);
            && IsAbandoned(v, run)
            && OnlyInHand(DiskOf(w, run), DiskOf(v, run), InHand(w, AgentOf(w, host)))
            && (InHand(w, AgentOf(w, host)).None? ==>
                  DiskOf(v, run) == DiskOf(w, run) && forall h :: !(AgentOf(v, h).Working? && About(AgentOf(v, h).entry, run)))
  {
    var w := RunAll(start, before);
    var v, hand := Abandons(w, run, true), InHand(w, AgentOf(w, host));
    InitialBase(start);
    RunBase(start, before);
    AbandonHalts(w, host, run);
    RunHalts(v, after, run, hand);
    if hand.None? { NoneInHand(RunAll(v, after), v, run); }
  }

  /** The abandon itself. */
  lemma AbandonHalts(w: World, host: Id, run: Id)
    requires Base(w) && run in w.db.runs && !IsTerminal(w.db.runs[run].state) && BetweenRunningAndAck(AgentOf(w, host), run)
    requires PastFirst(w, AgentOf(w, host)) && run !in w.sweep && Crossing.NoneInFlight(w, host)
    ensures var v := Abandons(w, run, true);
            && Base(v) && Final(v, run) && AllHalting(v, run, InHand(w, AgentOf(w, host))) && v.disks == w.disks
  {
    NotRousedAtWork(w, host, run);
    AbandonedFinal(w, run);
    var v, hand := Abandons(w, run, true), InHand(w, AgentOf(w, host));
    forall h ensures Halting(v, AgentOf(v, h), run, hand) {
      if OnIt(AgentOf(v, h), run) { OneHost(w, host, run, h); }
    }
  }

  lemma NoneInHand(u: World, v: World, run: Id)
    requires AllHalting(u, run, None) && OnlyInHand(DiskOf(v, run), DiskOf(u, run), None)
    ensures DiskOf(u, run) == DiskOf(v, run) && forall h :: !(AgentOf(u, h).Working? && About(AgentOf(u, h).entry, run))
  {
    forall h ensures !(AgentOf(u, h).Working? && About(AgentOf(u, h).entry, run)) { assert Halting(u, AgentOf(u, h), run, None); }
  }

  /** Only one host's agent is at work on a run. */
  lemma OneHost(w: World, host: Id, run: Id, other: Id)
    requires Base(w) && BetweenRunningAndAck(AgentOf(w, host), run) && OnIt(AgentOf(w, other), run)
    ensures other == host
  {
    assert AgentSound(w, host) && AgentSound(w, other);
  }

  function Looks(host: Id, n: nat): seq<Action> { seq(n, i => LookAtUnit(host)) }

  /** And it does stop: past the first unit of an abandoned run, looking on takes the agent to its ack, with no record
      posted, no file written and no unit run. */
  lemma {:induction false} LooksToAck(w: World, host: Id) returns (n: nat)
    requires AgentOf(w, host).AtUnit? && AgentOf(w, host).entry.body.RunJob? && AgentOf(w, host).n > 0
    requires IsAbandoned(w, AgentOf(w, host).entry.body.run)
    ensures var v := RunAll(w, Looks(host, n));
            AgentOf(v, host) == Acking(AgentOf(w, host).entry) && v == w.(agents := v.agents)
    decreases |Units(w, AgentOf(w, host).entry)| - AgentOf(w, host).n
  {
    var a := AgentOf(w, host);
    var v := LooksAtUnit(w, host);
    if AgentOf(v, host).Acking? {
      n := 1;
      assert Looks(host, 1) == [LookAtUnit(host)];
      Crossing.Prepend(w, LookAtUnit(host), []);
    } else {
      var rest := LooksToAck(v, host);
      n := rest + 1;
      assert Looks(host, n) == [LookAtUnit(host)] + Looks(host, rest);
      Crossing.Prepend(w, LookAtUnit(host), Looks(host, rest));
    }
  }
}
