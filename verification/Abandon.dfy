/** When an abandon is final. Nothing guards the transitions of a run, so a step that was under way when the
    operator abandoned it may still move it; `Threatened` says exactly which steps those are. */
module Abandon {
  import opened Names
  import opened Wrappers
  import opened Tables
  import opened Ingest
  import opened Verify
  import opened Runs
  import opened Queue
  import opened Protocol
  import opened Stranding
  import Crossing

  predicate IsAbandoned(w: World, run: Id) { run in w.db.runs && w.db.runs[run].state == Abandoned }

  /** The windows in which an abandon is lost: a sweep that read the run as active before; a claim under way that
      read it as planned or failed, or that an agent waits for; an agent between its claim and its `running`, or a
      `running` not yet served. */
  ghost predicate Threatened(w: World, run: Id) { run in w.sweep || Roused(w, run) }

  ghost predicate Final(w: World, run: Id) { IsAbandoned(w, run) && !Threatened(w, run) }

  // ---- outside the windows it stays

  lemma FinalKept(w: World, v: World, run: Id)
    requires Final(w, run) && IsAbandoned(v, run) && run !in v.sweep && (Roused(v, run) ==> Roused(w, run))
    ensures Final(v, run)
  {
  }

  lemma WorkKeeps(w: World, v: World, host: Id, run: Id)
    requires Final(w, run) && AgentMoves(w, v, host)
    ensures Final(v, run)
  {
    forall h | AgentRouses(v, h, run) ensures AgentRouses(w, h, run) {}
    FinalKept(w, v, run);
  }

  lemma NobodyKeeps(w: World, v: World, run: Id)
    requires Final(w, run) && NobodyMoves(w, v) && IsAbandoned(v, run) && run !in v.sweep
    ensures Final(v, run)
  {
    forall h | AgentRouses(v, h, run) ensures AgentRouses(w, h, run) {}
    FinalKept(w, v, run);
  }

  lemma SweepLooksKeeps(w: World, looked: Id, ok: bool, run: Id)
    requires Final(w, run)
    ensures Final(SweepLooks(w, looked, ok), run)
  {
    NobodyKeeps(w, SweepLooks(w, looked, ok), run);
  }

  lemma AbandonsKeeps(w: World, other: Id, ok: bool, run: Id)
    requires Final(w, run)
    ensures Final(Abandons(w, other, ok), run)
  {
    NobodyKeeps(w, Abandons(w, other, ok), run);
  }

  lemma StopKeeps(w: World, a: Action, run: Id)
    requires Final(w, run) && (a.Abandon? || a.SweepStart? || a.SweepLook?)
    ensures Final(Step(w, a), run)
  {
    match a
    case Abandon(other, ok) => AbandonsKeeps(w, other, ok, run);
    case SweepStart => NobodyKeeps(w, SweepStarts(w), run);
    case SweepLook(looked, ok) => SweepLooksKeeps(w, looked, ok, run);
  }

  /** Nothing moves but what the store holds besides runs, the heartbeats and the clock. */
  lemma SideKeeps(w: World, v: World, run: Id)
    requires Final(w, run) && NobodyMoves(w, v) && v.sweep == w.sweep && v.db.runs == w.db.runs
    ensures Final(v, run)
  {
    NobodyKeeps(w, v, run);
  }

  lemma PublishesKeeps(w: World, path: Id, row: PublishedRow, run: Id)
    requires Final(w, run)
    ensures Final(Publishes(w, path, row), run)
  {
    if path !in w.db.published { SideKeeps(w, w.(db := w.db.(published := w.db.published[path := row])), run); }
  }

  lemma ReportsKeeps(w: World, host: Id, artifact: Id, run: Id)
    requires Final(w, run)
    ensures Final(Reports(w, host, artifact), run)
  {
    SideKeeps(w, w.(db := w.db.(catalogue := w.db.catalogue.(identities := w.db.catalogue.identities[host := artifact]))), run);
  }

  lemma ClockKeeps(w: World, beats: map<Id, int>, clock: int, run: Id)
    requires Final(w, run)
    ensures Final(w.(beats := beats), run) && Final(w.(clock := clock), run)
  {
    SideKeeps(w, w.(beats := beats), run);
    SideKeeps(w, w.(clock := clock), run);
  }

  lemma NewsKeeps(w: World, a: Action, run: Id)
    requires Final(w, run) && (a.Publish? || a.Report?)
    ensures Final(Step(w, a), run)
  {
    match a
    case Publish(path, row) => PublishesKeeps(w, path, row, run);
    case Report(host, artifact) => ReportsKeeps(w, host, artifact, run);
  }

  lemma TimeKeeps(w: World, a: Action, run: Id)
    requires Final(w, run) && (a.Beat? || a.Tick?)
    ensures Final(Step(w, a), run)
  {
    match a
    case Beat(host, ttl) => ClockKeeps(w, w.beats[host := w.clock + ttl], w.clock, run);
    case Tick(elapsed) => ClockKeeps(w, w.beats, w.clock + elapsed, run);
  }

  lemma AsideKeeps(w: World, a: Action, run: Id)
    requires Final(w, run) && IsAside(a)
    ensures Final(Step(w, a), run)
  {
    if a.Abandon? || a.SweepStart? || a.SweepLook? {
      StopKeeps(w, a, run);
    } else if a.Publish? || a.Report? {
      NewsKeeps(w, a, run);
    } else {
      TimeKeeps(w, a, run);
    }
  }

  lemma EnqueuesKeeps(w: World, rows: RunPlan, plan: Plan, queueUp: bool, ok: bool, run: Id)
    requires Final(w, run)
    ensures Final(Enqueues(w, rows, plan, queueUp, ok), run)
  {
    NobodyKeeps(w, Enqueues(w, rows, plan, queueUp, ok), run);
  }

  lemma SendsKeeps(w: World, host: Id, phase: Phase, waits: Option<Agent>, run: Id)
    requires Base(w) && Final(w, run) && (About(phase.entry, run) ==> phase.Releasing? || phase.Judging?)
    requires waits.Some? ==> Waits(waits.value) && waits.value.id == w.sent
    ensures Final(Sends(w, host, phase, waits), run)
  {
    var v := Sends(w, host, phase, waits);
    FreshId(w);
    forall h | AgentRouses(v, h, run) ensures AgentRouses(w, h, run) { assert AgentSound(w, h); }
    FinalKept(w, v, run);
  }

  /** A run abandoned by now is never handed out. */
  lemma OffersKeeps(w: World, host: Id, entry: Entry<Job>, waits: bool, run: Id)
    requires Base(w) && Final(w, run) && (waits ==> AgentOf(w, host).Idle?)
    ensures Final(Offers(w, host, entry, waits), run)
  {
    var waiting := if waits then Some(Waiting(w.sent)) else None;
    if entry.body.PublishJob? {
      GoneKeeps(w, Offers(w, host, entry, waits), host, run);
    } else if Stale(w.db, entry.body.run, host) {
      SendsKeeps(w, host, Releasing(entry), waiting, run);
    } else if MayHandOut(w.db, entry.body.run, host) {
      SendsKeeps(w, host, Claiming(entry, w.db.runs[entry.body.run].state), waiting, run);
    }
  }

  /** An agent that turns to a publish job, or from it. */
  lemma GoneKeeps(w: World, v: World, host: Id, run: Id)
    requires Final(w, run) && v.db == w.db && v.sweep == w.sweep && v.requests == w.requests
    requires v.agents == w.agents || (v.agents == w.agents[host := AgentOf(v, host)] && (AgentOf(v, host).Idle? || AgentOf(v, host).Publishing?))
    ensures Final(v, run)
  {
    forall h | AgentRouses(v, h, run) ensures AgentRouses(w, h, run) {}
    FinalKept(w, v, run);
  }

  lemma ClaimStartsKeeps(w: World, host: Id, waits: bool, run: Id)
    requires Base(w) && Final(w, run)
    ensures Final(ClaimStarts(w, host, waits), run)
  {
    if (waits ==> AgentOf(w, host) == Idle) && Pending(w.queue, host) != [] {
      var claimed := w.(queue := AfterClaim(w.queue, host));
      HoldsBase(w, host);
      NobodyKeeps(w, claimed, run);
      OffersKeeps(claimed, host, Pending(w.queue, host)[0], waits, run);
    }
  }

  lemma ClaimEndsAbandoned(w: World, id: nat, ok: bool, run: Id)
    requires IsAbandoned(w, run) && id in w.requests && w.requests[id].phase.Claiming? && w.requests[id].phase.entry.body.RunJob?
    requires !RequestRouses(w.requests[id], run)
    ensures IsAbandoned(ClaimEnds(w, id, ok), run) && ClaimEnds(w, id, ok).sweep == w.sweep
  {
  }

  lemma JudgesAbandoned(w: World, id: nat, ok: bool, run: Id)
    requires IsAbandoned(w, run) && id in w.requests && w.requests[id].phase.Judging? && w.requests[id].phase.entry.body.RunJob?
    ensures IsAbandoned(Judges(w, id, ok), run) && Judges(w, id, ok).sweep == w.sweep
  {
  }

  /** What is served finds an abandoned run abandoned, unless it rouses it. */
  lemma ServedAbandoned(w: World, id: nat, ok: bool, run: Id)
    requires Final(w, run)
    ensures IsAbandoned(Serves(w, id, ok), run) && run !in Serves(w, id, ok).sweep
  {
    if id in w.requests && w.requests[id].phase.entry.body.RunJob? {
      assert !RequestRouses(w.requests[id], run);
      match w.requests[id].phase
      case Claiming(_, _) => ClaimEndsAbandoned(w, id, ok, run);
      case Judging(_) => JudgesAbandoned(w, id, ok, run);
      case _ =>
    }
  }

  lemma ServesKeeps(w: World, id: nat, ok: bool, run: Id)
    requires Base(w) && Final(w, run)
    ensures Final(Serves(w, id, ok), run)
  {
    ServedAbandoned(w, id, ok, run);
    Crossing.ServesApart(w, id, ok, run);
    FinalKept(w, Serves(w, id, ok), run);
  }

  lemma SaysRunningKeeps(w: World, host: Id, run: Id)
    requires Base(w) && Final(w, run)
    ensures Final(SaysRunning(w, host), run)
  {
    Crossing.SaysRunningApart(w, host, run);
    FinalKept(w, SaysRunning(w, host), run);
  }

  lemma AcksRunKeeps(w: World, host: Id, run: Id)
    requires Base(w) && Final(w, run)
    ensures Final(AcksRun(w, host), run)
  {
    var a := AgentOf(w, host);
    if a.Acking? && a.entry.body.RunJob? { SendsKeeps(w, host, Judging(a.entry), Some(AwaitingAck(a.entry, w.sent)), run); }
  }

  lemma JobAcksKeeps(w: World, host: Id, run: Id)
    requires Final(w, run)
    ensures Final(JobAcks(w, host), run)
  {
    var a := AgentOf(w, host);
    if a.Publishing? && a.entry.body.PublishJob? {
      var idle := w.(agents := w.agents[host := Idle]);
      GoneKeeps(w, if AllPublished(w.db, a.entry.body.files) then idle.(queue := AfterAck(w.queue, host, a.entry.id)) else idle, host, run);
    }
  }

  lemma HubRestartsKeeps(w: World, run: Id)
    requires Final(w, run)
    ensures Final(HubRestarts(w), run)
  {
    var v := HubRestarts(w);
    forall h | AgentRouses(v, h, run) ensures AgentRouses(w, h, run) {}
    FinalKept(w, v, run);
  }

  lemma TalkKeeps(w: World, a: Action, run: Id)
    requires Base(w) && Final(w, run) && !IsWork(a) && !IsAside(a)
    ensures Final(Step(w, a), run)
  {
    match a
    case Enqueue(rows, plan, queueUp, ok) => EnqueuesKeeps(w, rows, plan, queueUp, ok, run);
    case EnqueueJob(host, files) => NobodyKeeps(w, EnqueuesJob(w, host, files), run);
    case ClaimStart(host, waits) => ClaimStartsKeeps(w, host, waits, run);
    case Serve(id, ok) => ServesKeeps(w, id, ok, run);
    case SayRunning(host) => SaysRunningKeeps(w, host, run);
    case AckStart(host) => AcksRunKeeps(w, host, run);
    case JobAck(host) => JobAcksKeeps(w, host, run);
    case HubRestart => HubRestartsKeeps(w, run);
  }

  lemma StepKeeps(w: World, a: Action, run: Id)
    requires Base(w) && Final(w, run)
    ensures Final(Step(w, a), run)
  {
    if IsWork(a) {
      WorkStepMoves(w, a);
      if Step(w, a) != w { WorkKeeps(w, Step(w, a), a.host, run); }
    } else if IsAside(a) {
      AsideKeeps(w, a, run);
    } else {
      TalkKeeps(w, a, run);
    }
  }

  lemma {:induction false} RunKeeps(w: World, actions: seq<Action>, run: Id)
    requires Base(w) && Final(w, run)
    ensures Final(RunAll(w, actions), run)
    decreases |actions|
  {
    if actions != [] {
      StepBase(w, actions[0]);
      StepKeeps(w, actions[0], run);
      RunKeeps(Step(w, actions[0]), actions[1..], run);
    }
  }

  // ---- inside a window it is lost

  lemma Then(w: World, a: Action, v: World, rest: seq<Action>, run: Id) returns (actions: seq<Action>)
    requires v == Step(w, a) && !IsAbandoned(RunAll(v, rest), run)
    ensures !IsAbandoned(RunAll(w, actions), run)
  {
    actions := [a] + rest;
    Crossing.Prepend(w, a, rest);
  }

  lemma RousedMoves(w: World, id: nat, run: Id)
    requires id in w.requests && RequestRouses(w.requests[id], run)
    ensures !IsAbandoned(Serves(w, id, true), run)
  {
  }

  /** A claim that read the run as planned or failed launches it; a `running` sent before is posted. */
  lemma LostToRequest(w: World, id: nat, run: Id) returns (actions: seq<Action>)
    requires id in w.requests && RequestRouses(w.requests[id], run)
    ensures !IsAbandoned(RunAll(w, actions), run)
  {
    RousedMoves(w, id, run);
    actions := Then(w, Serve(id, true), Serves(w, id, true), [], run);
  }

  lemma LostToRunning(w: World, host: Id, run: Id) returns (actions: seq<Action>)
    requires AgentOf(w, host).Reposted? && About(AgentOf(w, host).entry, run)
    ensures !IsAbandoned(RunAll(w, actions), run)
  {
    var v := SaysRunning(w, host);
    assert RequestRouses(v.requests[w.sent], run);
    var rest := LostToRequest(v, w.sent, run);
    actions := Then(w, SayRunning(host), v, rest, run);
  }

  lemma LostToClaimed(w: World, host: Id, run: Id) returns (actions: seq<Action>)
    requires AgentOf(w, host).Claimed? && About(AgentOf(w, host).entry, run)
    ensures !IsAbandoned(RunAll(w, actions), run)
  {
    var a := AgentOf(w, host);
    var batch := Crossing.Listed(set r | r in DiskOf(w, run).Values && IsHeld(r, a.done));
    var v := Reposts(w, host, batch, false);
    assert AgentOf(v, host) == Reposted(a.entry, a.done);
    var rest := LostToRunning(v, host, run);
    actions := Then(w, Repost(host, batch, false), v, rest, run);
  }

  lemma AnsweredClaim(w: World, host: Id, run: Id)
    requires AgentOf(w, host).Waiting? && AgentRouses(w, host, run) && AnswerDue(w, host) && run in w.db.runs
    ensures var v := Serves(w, AgentOf(w, host).id, true);
            AgentOf(v, host).Claimed? && About(AgentOf(v, host).entry, run)
  {
  }

  /** An agent that waits for its claim of the run, or has it, says `running` in the end. */
  lemma LostToAgent(w: World, host: Id, run: Id) returns (actions: seq<Action>)
    requires Base(w) && run in w.db.runs && AgentRouses(w, host, run)
    ensures !IsAbandoned(RunAll(w, actions), run)
  {
    var a := AgentOf(w, host);
    if a.Reposted? {
      actions := LostToRunning(w, host, run);
    } else if a.Claimed? {
      actions := LostToClaimed(w, host, run);
    } else {
      assert AgentSound(w, host);
      AnsweredClaim(w, host, run);
      var v := Serves(w, a.id, true);
      var rest := LostToClaimed(v, host, run);
      actions := Then(w, Serve(a.id, true), v, rest, run);
    }
  }

  lemma SilentFails(w: World, run: Id)
    requires run in w.db.runs && run in w.sweep && Silent(w, w.db.runs[run].host)
    ensures !IsAbandoned(SweepLooks(w, run, true), run)
  {
  }

  lemma LostToSweep(w: World, run: Id) returns (actions: seq<Action>)
    requires IsAbandoned(w, run) && run in w.sweep
    ensures !IsAbandoned(RunAll(w, actions), run)
  {
    var host := w.db.runs[run].host;
    var wait: nat := if host in w.beats && w.beats[host] >= w.clock then w.beats[host] - w.clock + 1 else 0;
    var late := w.(clock := w.clock + wait);
    SilentFails(late, run);
    var rest := LookedFails(late, run);
    actions := AfterAWhile(w, wait, late, rest, run);
  }

  lemma AfterAWhile(w: World, wait: nat, late: World, rest: seq<Action>, run: Id) returns (actions: seq<Action>)
    requires late == w.(clock := w.clock + wait) && !IsAbandoned(RunAll(late, rest), run)
    ensures !IsAbandoned(RunAll(w, actions), run)
  {
    assert Step(w, Tick(wait)) == late;
    actions := Then(w, Tick(wait), late, rest, run);
  }

  lemma LookedFails(w: World, run: Id) returns (actions: seq<Action>)
    requires !IsAbandoned(SweepLooks(w, run, true), run)
    ensures !IsAbandoned(RunAll(w, actions), run)
  {
    actions := Then(w, SweepLook(run, true), SweepLooks(w, run, true), [], run);
  }

  /** An abandoned run stays abandoned in every later state, whatever happens, exactly when it was abandoned in
      none of the windows. */
  lemma AbandonIsFinal(w: World, run: Id)
    requires Base(w) && IsAbandoned(w, run)
    ensures (forall actions :: IsAbandoned(RunAll(w, actions), run)) <==> !Threatened(w, run)
  {
    if !Threatened(w, run) {
      forall actions ensures IsAbandoned(RunAll(w, actions), run) { RunKeeps(w, actions, run); }
    } else {
      var actions: seq<Action>;
      if run in w.sweep {
        actions := LostToSweep(w, run);
      } else if id :| id in w.requests && RequestRouses(w.requests[id], run) {
        actions := LostToRequest(w, id, run);
      } else {
        var host :| AgentRouses(w, host, run);
        actions := LostToAgent(w, host, run);
      }
      assert !IsAbandoned(RunAll(w, actions), run);
    }
  }

  // ---- while the agent is at work

  /** The agent has said `running` for its present claim and not yet acked. */
  predicate BetweenRunningAndAck(a: Agent, run: Id) {
    (a.AtUnit? || a.Working? || a.Writing? || a.Acking?) && About(a.entry, run)
  }

  /** With no older request of the host in flight, nothing rouses a run whose agent is at work on it. */
  lemma NotRousedAtWork(w: World, host: Id, run: Id)
    requires Base(w) && BetweenRunningAndAck(AgentOf(w, host), run) && Crossing.NoneInFlight(w, host)
    ensures !Roused(w, run)
  {
    assert AgentSound(w, host);
    forall id | id in w.requests ensures !RequestRouses(w.requests[id], run) { assert RequestSound(w, id); }
    forall h ensures !AgentRouses(w, h, run) { OneAtWork(w, host, run, h); }
  }

  lemma OneAtWork(w: World, host: Id, run: Id, other: Id)
    requires Base(w) && BetweenRunningAndAck(AgentOf(w, host), run) && Crossing.NoneInFlight(w, host)
    ensures !AgentRouses(w, other, run)
  {
    assert AgentSound(w, host) && AgentSound(w, other);
    var a := AgentOf(w, other);
    if a.Waiting? { assert RequestSound(w, a.id) && w.requests[a.id].host == other; }
  }

  /** In every reachable state: an abandon committed after the agent said `running` for its present claim and
      before its ack, with no sweep half done and no request of an agent that died before still in flight, leaves
      the run abandoned for good, whether the agent stops between cells, acks, or dies and claims again. */
  lemma AbandonWhileAtWork(start: World, before: seq<Action>, host: Id, run: Id, after: seq<Action>)
    requires Initial(start)
    requires var w := RunAll(start, before);
             && run in w.db.runs && !IsTerminal(w.db.runs[run].state)
             && BetweenRunningAndAck(AgentOf(w, host), run) && run !in w.sweep && Crossing.NoneInFlight(w, host)
    ensures IsAbandoned(RunAll(Abandons(RunAll(start, before), run, true), after), run)
  {
    var w := RunAll(start, before);
    var v := Abandons(w, run, true);
    InitialBase(start);
    RunBase(start, before);
    NotRousedAtWork(w, host, run);
    AbandonedFinal(w, run);
    RunKeeps(v, after, run);
  }

  lemma AbandonedFinal(w: World, run: Id)
    requires Base(w) && run in w.db.runs && !IsTerminal(w.db.runs[run].state) && run !in w.sweep && !Roused(w, run)
    ensures Base(Abandons(w, run, true)) && Final(Abandons(w, run, true), run)
  {
    var v := Abandons(w, run, true);
    AbandonStops(w, run, true);
    Unmoved(w, v);
    forall h | AgentRouses(v, h, run) ensures AgentRouses(w, h, run) {}
  }

  /** And with one request of a host served at a time none is. */
  lemma InTurnNoneInFlight(start: World, before: seq<Action>, host: Id)
    requires Initial(start) && Crossing.AllInTurn(start, before)
    ensures var w := RunAll(start, before);
            var a := AgentOf(w, host);
            !a.Idle? && !Waits(a) ==> Crossing.NoneInFlight(w, host)
  {
    InitialBase(start);
    Crossing.InTurnOneEach(start, before);
  }
}
