/** When requests that are under way strand a run: exactly when one that makes it active and an ack of its entry
    cross. And that hosts that send one request at a time never get there. */
module Crossing {
  import opened Names
  import opened Wrappers
  import opened Tables
  import opened Ingest
  import opened Verify
  import opened Runs
  import opened Queue
  import opened Protocol
  import opened Stranding

  /** A step that finishes what is under way: a request is served, an agent that has its claim goes on to `running`. */
  predicate Settles(a: Action) { a.Serve? || a.Repost? || a.SayRunning? }

  predicate AllSettle(actions: seq<Action>) { forall a | a in actions :: Settles(a) }

  /** What makes the run active is under way together with an ack of its entry, judged already or not. */
  ghost predicate Crosses(w: World, run: Id) { Roused(w, run) && BeingAcked(w, run) }

  // ---- apart, they stay apart

  ghost predicate NoneAcking(w: World, v: World, run: Id) {
    forall id | id in v.requests && IsAcking(v.requests[id], run) :: id in w.requests && IsAcking(w.requests[id], run)
  }

  lemma ServesFits(w: World, id: nat, ok: bool)
    requires Base(w) && id in w.requests
    ensures ServedOne(w, Serves(w, id, ok), id) && AnswerFits(w, Serves(w, id, ok), id)
    ensures ServedRightly(w, Serves(w, id, ok), id)
  {
    assert RequestSound(w, id);
    match w.requests[id].phase {
      case Claiming(_, _) => ClaimEndsFits(w, id, ok);
      case Saying(_) => RunningSaidFits(w, id, ok);
      case Judging(_) => WhatJudgesMoves(w, id, ok); JudgedFits(w, Judges(w, id, ok), id);
      case Releasing(_) => ReleasesFits(w, id);
    }
  }

  lemma ReleasesFits(w: World, id: nat)
    requires id in w.requests && w.requests[id].phase.Releasing?
    ensures ServedOne(w, Releases(w, id), id) && AnswerFits(w, Releases(w, id), id) && ServedRightly(w, Releases(w, id), id)
  {
  }

  /** A request that is served and still there was an ack: judged, it is to release its entry. And only a claim hands
      out a run. */
  ghost predicate ServedRightly(w: World, v: World, id: nat)
    requires id in w.requests
  {
    var k := w.requests[id];
    && (id in v.requests ==> k.phase.Judging? && v.requests[id] == Request(k.host, Releasing(k.phase.entry)))
    && (AgentOf(v, k.host).Claimed? && AgentOf(v, k.host) != AgentOf(w, k.host) ==> k.phase.Claiming?)
  }

  lemma ServesApart(w: World, id: nat, ok: bool, run: Id)
    requires Base(w)
    ensures NoneRoused(w, Serves(w, id, ok), run) && NoneAcking(w, Serves(w, id, ok), run)
  {
    if id in w.requests {
      ServesFits(w, id, ok);
      ServedApart(w, Serves(w, id, ok), id, run);
    }
  }

  lemma ServedApart(w: World, v: World, id: nat, run: Id)
    requires Base(w) && ServedOne(w, v, id) && AnswerFits(w, v, id)
    requires ServedRightly(w, v, id)
    ensures NoneRoused(w, v, run) && NoneAcking(w, v, run)
  {
    ServingRousesNone(w, v, id, run);
  }

  lemma SaysRunningApart(w: World, host: Id, run: Id)
    requires Base(w)
    ensures var v := SaysRunning(w, host); (Roused(v, run) ==> Roused(w, run)) && NoneAcking(w, v, run)
  {
    var a, v := AgentOf(w, host), SaysRunning(w, host);
    if v != w {
      FreshId(w);
      if About(a.entry, run) { assert AgentRouses(w, host, run); }
      forall h | AgentRouses(v, h, run) ensures AgentRouses(w, h, run) { assert AgentSound(w, h); }
    }
  }

  lemma RepostsApart(w: World, host: Id, batch: seq<Record>, ok: bool, run: Id)
    ensures NoneRoused(w, Reposts(w, host, batch, ok), run) && NoneAcking(w, Reposts(w, host, batch, ok), run)
  {
    var v := Reposts(w, host, batch, ok);
    RepostsMoves(w, host, batch, ok);
    forall h | AgentRouses(v, h, run) ensures AgentRouses(w, h, run) {}
  }

  lemma StepApart(w: World, a: Action, run: Id)
    requires Base(w) && Settles(a) && !Crosses(w, run)
    ensures !Crosses(Step(w, a), run)
  {
    match a
    case Serve(id, ok) => ServesApart(w, id, ok, run); StayApart(w, Serves(w, id, ok), run);
    case Repost(host, batch, ok) => RepostsApart(w, host, batch, ok, run); StayApart(w, Reposts(w, host, batch, ok), run);
    case SayRunning(host) => SaysRunningApart(w, host, run); StayApart(w, SaysRunning(w, host), run);
  }

  lemma StayApart(w: World, v: World, run: Id)
    requires !Crosses(w, run) && NoneAcking(w, v, run) && (NoneRoused(w, v, run) || (Roused(v, run) ==> Roused(w, run)))
    ensures !Crosses(v, run)
  {
    assert BeingAcked(v, run) ==> BeingAcked(w, run);
    assert Roused(v, run) ==> Roused(w, run);
  }

  lemma {:induction false} ApartNeverCrosses(w: World, actions: seq<Action>, run: Id)
    requires Base(w) && AllSettle(actions) && !Crosses(w, run)
    ensures NeverCrosses(w, actions, run)
    decreases |actions|
  {
    assert Overlaps(w, run) ==> Crosses(w, run);
    if actions != [] {
      assert actions[0] in actions;
      StepBase(w, actions[0]);
      StepApart(w, actions[0], run);
      ApartNeverCrosses(Step(w, actions[0]), actions[1..], run);
    }
  }

  // ---- crossing, they strand

  /** The entry the run holds is about to be released. */
  ghost predicate Doomed(w: World, run: Id, id: nat) {
    && Base(w) && run in w.db.runs && HeldFor(w, run)
    && id in w.requests && w.requests[id] == Request(w.db.runs[run].host, Releasing(w.tickets[run]))
  }

  lemma ReleasedActive(w: World, run: Id, id: nat)
    requires Doomed(w, run, id) && IsActive(w.db.runs[run].state)
    ensures Stranded(Serves(w, id, true), run)
  {
    var v, host := Serves(w, id, true), w.db.runs[run].host;
    ServesBase(w, id, true);
    AckedLine(w.queue, host, w.tickets[run].id);
    assert LineSound(w, host);
    assert Pending(v.queue, host) == Pending(w.queue, host)[1..];
    StrandedIs(v, run);
  }

  lemma RousedActive(w: World, run: Id, id: nat, k: nat)
    requires Doomed(w, run, id) && k in w.requests && RequestRouses(w.requests[k], run)
    ensures Doomed(Serves(w, k, true), run, id) && IsActive(Serves(w, k, true).db.runs[run].state)
  {
    assert RequestSound(w, k);
    ServesBase(w, k, true);
    var v := Serves(w, k, true);
    assert v.queue == w.queue && v.tickets == w.tickets;
  }

  lemma Prepend(w: World, a: Action, rest: seq<Action>)
    ensures RunAll(w, [a] + rest) == RunAll(Step(w, a), rest)
  {
    assert ([a] + rest)[1..] == rest;
  }

  lemma {:induction false} Joined(w: World, first: seq<Action>, rest: seq<Action>)
    ensures RunAll(w, first + rest) == RunAll(RunAll(w, first), rest)
    decreases |first|
  {
    if first == [] {
      assert first + rest == rest;
    } else {
      assert (first + rest)[1..] == first[1..] + rest;
      Joined(Step(w, first[0]), first[1..], rest);
    }
  }

  lemma OneStep(w: World, a: Action) returns (actions: seq<Action>)
    ensures RunAll(w, actions) == Step(w, a) && (Settles(a) ==> AllSettle(actions))
  {
    actions := [a] + [];
    Prepend(w, a, []);
  }

  lemma ServesOne(w: World, id: nat) returns (actions: seq<Action>)
    ensures RunAll(w, actions) == Serves(w, id, true) && AllSettle(actions)
  {
    actions := OneStep(w, Serve(id, true));
  }

  lemma SaysOne(w: World, host: Id) returns (actions: seq<Action>)
    ensures RunAll(w, actions) == SaysRunning(w, host) && AllSettle(actions)
  {
    actions := OneStep(w, SayRunning(host));
  }

  lemma RefusesOne(w: World, host: Id, batch: seq<Record>) returns (actions: seq<Action>)
    ensures RunAll(w, actions) == Reposts(w, host, batch, false) && AllSettle(actions)
  {
    actions := OneStep(w, Repost(host, batch, false));
  }

  /** More steps in front of what strands the run. */
  lemma First(w: World, first: seq<Action>, rest: seq<Action>, run: Id) returns (actions: seq<Action>)
    requires AllSettle(first) && AllSettle(rest) && Stranded(RunAll(RunAll(w, first), rest), run)
    ensures AllSettle(actions) && Stranded(RunAll(w, actions), run)
  {
    actions := first + rest;
    Joined(w, first, rest);
  }

  lemma ByRelease(w: World, run: Id, id: nat) returns (actions: seq<Action>)
    requires Doomed(w, run, id) && IsActive(w.db.runs[run].state)
    ensures AllSettle(actions) && Stranded(RunAll(w, actions), run)
  {
    ReleasedActive(w, run, id);
    actions := ServesOne(w, id);
  }

  lemma ByRequest(w: World, run: Id, id: nat, k: nat) returns (actions: seq<Action>)
    requires Doomed(w, run, id) && k in w.requests && RequestRouses(w.requests[k], run)
    ensures AllSettle(actions) && Stranded(RunAll(w, actions), run)
  {
    RousedActive(w, run, id, k);
    var rest := ByRelease(Serves(w, k, true), run, id);
    var first := ServesOne(w, k);
    actions := First(w, first, rest, run);
  }

  lemma BySaying(w: World, run: Id, id: nat, host: Id) returns (actions: seq<Action>)
    requires Doomed(w, run, id) && AgentOf(w, host).Reposted? && About(AgentOf(w, host).entry, run)
    ensures AllSettle(actions) && Stranded(RunAll(w, actions), run)
  {
    var v := SaysRunning(w, host);
    SaysRunningBase(w, host);
    FreshId(w);
    var rest := ByRequest(v, run, id, w.sent);
    var first := SaysOne(w, host);
    actions := First(w, first, rest, run);
  }

  lemma {:induction false} Listed(s: set<Record>) returns (batch: seq<Record>)
    ensures forall r :: r in batch <==> r in s
    decreases |s|
  {
    if s == {} {
      batch := [];
    } else {
      var r :| r in s;
      var rest := Listed(s - {r});
      batch := rest + [r];
    }
  }

  lemma ByClaimed(w: World, run: Id, id: nat, host: Id) returns (actions: seq<Action>)
    requires Doomed(w, run, id) && AgentOf(w, host).Claimed? && About(AgentOf(w, host).entry, run)
    ensures AllSettle(actions) && Stranded(RunAll(w, actions), run)
  {
    var a := AgentOf(w, host);
    var batch := Listed(set r | r in DiskOf(w, run).Values && IsHeld(r, a.done));
    RepostRefused(w, run, id, host, batch);
    var rest := BySaying(Reposts(w, host, batch, false), run, id, host);
    var first := RefusesOne(w, host, batch);
    actions := First(w, first, rest, run);
  }

  lemma RepostRefused(w: World, run: Id, id: nat, host: Id, batch: seq<Record>)
    requires Doomed(w, run, id) && AgentOf(w, host).Claimed? && About(AgentOf(w, host).entry, run)
    requires ListsHeld(DiskOf(w, run), AgentOf(w, host).done, batch)
    ensures var v := Reposts(w, host, batch, false); Doomed(v, run, id) && AgentOf(v, host).Reposted? && About(AgentOf(v, host).entry, run)
  {
    var a, v := AgentOf(w, host), Reposts(w, host, batch, false);
    assert v == w.(agents := w.agents[host := Reposted(a.entry, a.done)]);
    AgentMovesBase(w, v, host);
  }

  lemma WaitingClaimed(w: World, run: Id, id: nat, host: Id, k: nat)
    requires Doomed(w, run, id) && AgentOf(w, host) == Waiting(k) && AgentRouses(w, host, run) && AgentSound(w, host)
    ensures var v := Serves(w, k, true); Doomed(v, run, id) && AgentOf(v, host).Claimed? && About(AgentOf(v, host).entry, run)
  {
    var v := Serves(w, k, true);
    assert RequestSound(w, k);
    ServesBase(w, k, true);
    assert v.queue == w.queue && v.tickets == w.tickets && v.requests == w.requests - {k};
  }

  lemma ByWaiting(w: World, run: Id, id: nat, host: Id) returns (actions: seq<Action>)
    requires Doomed(w, run, id) && AgentOf(w, host).Waiting? && AgentRouses(w, host, run)
    ensures AllSettle(actions) && Stranded(RunAll(w, actions), run)
  {
    var k := AgentOf(w, host).id;
    assert RequestSound(w, k) && AgentSound(w, host);
    if RequestRouses(w.requests[k], run) {
      actions := ByRequest(w, run, id, k);
    } else {
      actions := ByAnswer(w, run, id, host, k);
    }
  }

  lemma ByAnswer(w: World, run: Id, id: nat, host: Id, k: nat) returns (actions: seq<Action>)
    requires Doomed(w, run, id) && AgentOf(w, host) == Waiting(k) && AgentRouses(w, host, run) && AgentSound(w, host)
    ensures AllSettle(actions) && Stranded(RunAll(w, actions), run)
  {
    WaitingClaimed(w, run, id, host, k);
    var rest := ByClaimed(Serves(w, k, true), run, id, host);
    var first := ServesOne(w, k);
    actions := First(w, first, rest, run);
  }

  lemma OverlapStrands(w: World, run: Id) returns (actions: seq<Action>)
    requires Base(w) && Safe(w, run) && run in w.db.runs && Overlaps(w, run)
    ensures AllSettle(actions) && Stranded(RunAll(w, actions), run)
  {
    var id :| id in w.requests && IsReleasing(w.requests[id], run);
    assert RequestSound(w, id);
    assert Doomed(w, run, id);
    if k :| k in w.requests && RequestRouses(w.requests[k], run) {
      actions := ByRequest(w, run, id, k);
    } else {
      var host :| AgentRouses(w, host, run);
      if AgentOf(w, host).Waiting? {
        actions := ByWaiting(w, run, id, host);
      } else if AgentOf(w, host).Claimed? {
        actions := ByClaimed(w, run, id, host);
      } else {
        actions := BySaying(w, run, id, host);
      }
    }
  }

  /** The verdict comes in, and the entry is to be released with what makes the run active still under way. */
  lemma JudgedOverlaps(w: World, run: Id, id: nat)
    requires Base(w) && Safe(w, run) && run in w.db.runs && Roused(w, run)
    requires id in w.requests && w.requests[id].phase.Judging? && About(w.requests[id].phase.entry, run)
    ensures Overlaps(Serves(w, id, true), run)
  {
    var v := Serves(w, id, true);
    TicketJudged(w, run, id);
    assert v.requests == w.requests[id := Request(w.requests[id].host, Releasing(w.tickets[run]))] && v.agents == w.agents;
    assert IsReleasing(v.requests[id], run);
    StillRoused(w, v, id, run);
  }

  lemma TicketJudged(w: World, run: Id, id: nat)
    requires Base(w) && Safe(w, run) && run in w.db.runs && Roused(w, run)
    requires id in w.requests && w.requests[id].phase.Judging? && About(w.requests[id].phase.entry, run)
    ensures run in w.tickets && w.requests[id].phase.entry == w.tickets[run]
    ensures FindPending(Pending(w.queue, w.requests[id].host), w.tickets[run].id) == Some(w.tickets[run])
  {
    assert RequestSound(w, id);
  }

  lemma StillRoused(w: World, v: World, id: nat, run: Id)
    requires Roused(w, run) && id in w.requests && w.requests[id].phase.Judging? && v.agents == w.agents
    requires forall i | i in w.requests && i != id :: i in v.requests && v.requests[i] == w.requests[i]
    ensures Roused(v, run)
  {
    if k :| k in w.requests && RequestRouses(w.requests[k], run) {
      assert k in v.requests && RequestRouses(v.requests[k], run);
    } else {
      var host :| AgentRouses(w, host, run);
      assert AgentRouses(v, host, run);
    }
  }

  lemma RunStays(w: World, run: Id, id: nat)
    requires Base(w) && run in w.db.runs && id in w.requests && w.requests[id].phase.Judging?
    ensures run in Serves(w, id, true).db.runs
  {
    assert RequestSound(w, id);
    WhatJudgesMoves(w, id, true);
  }

  lemma JudgedThenStrands(w: World, run: Id, id: nat) returns (actions: seq<Action>)
    requires Base(w) && Safe(w, run) && run in w.db.runs && Roused(w, run) && !Overlaps(w, run)
    requires id in w.requests && w.requests[id].phase.Judging? && About(w.requests[id].phase.entry, run)
    ensures AllSettle(actions) && Stranded(RunAll(w, actions), run)
  {
    JudgedCrosses(w, run, id);
    var rest := OverlapStrands(Serves(w, id, true), run);
    var first := ServesOne(w, id);
    actions := First(w, first, rest, run);
  }

  lemma JudgedCrosses(w: World, run: Id, id: nat)
    requires Base(w) && Safe(w, run) && run in w.db.runs && Roused(w, run) && !Overlaps(w, run)
    requires id in w.requests && w.requests[id].phase.Judging? && About(w.requests[id].phase.entry, run)
    ensures var v := Serves(w, id, true); Base(v) && Safe(v, run) && run in v.db.runs && Overlaps(v, run)
  {
    JudgedOverlaps(w, run, id);
    ServesBase(w, id, true);
    ServesSafe(w, id, true, run);
    RunStays(w, run, id);
  }

  lemma CrossingStrands(w: World, run: Id) returns (actions: seq<Action>)
    requires Base(w) && Safe(w, run) && run in w.db.runs && Crosses(w, run)
    ensures AllSettle(actions) && Stranded(RunAll(w, actions), run)
  {
    if Overlaps(w, run) {
      actions := OverlapStrands(w, run);
    } else {
      var id :| id in w.requests && IsAcking(w.requests[id], run);
      assert !IsReleasing(w.requests[id], run);
      actions := JudgedThenStrands(w, run, id);
    }
  }

  /** In every state reached with nothing crossed before: some order of finishing what is under way strands the run
      exactly when a request or an agent that makes it active is under way together with an ack of its entry. */
  lemma StrandedExactlyByCrossing(start: World, actions: seq<Action>, run: Id)
    requires Initial(start) && NeverCrosses(start, actions, run) && run in RunAll(start, actions).db.runs
    ensures var w := RunAll(start, actions);
            Crosses(w, run) <==> exists more :: AllSettle(more) && Stranded(RunAll(w, more), run)
  {
    var w := RunAll(start, actions);
    InitialBase(start);
    RunSafe(start, actions, run);
    if Crosses(w, run) {
      var more := CrossingStrands(w, run);
      assert AllSettle(more) && Stranded(RunAll(w, more), run);
    } else {
      forall more | AllSettle(more) ensures !Stranded(RunAll(w, more), run) {
        ApartNeverCrosses(w, more, run);
        RunSafe(w, more, run);
        StrandedIs(RunAll(w, more), run);
      }
    }
  }

  // ---- one request at a time

  predicate NoneInFlight(w: World, host: Id) { forall id | id in w.requests :: w.requests[id].host != host }

  /** A host's request goes out only when none of its is in flight; a dead agent's claim is read before its
      successor's. */
  predicate InTurn(w: World, a: Action) {
    match a
    case ClaimStart(host, waits) => NoneInFlight(w, host) && AgentOf(w, host).Idle?
    case SayRunning(host) => NoneInFlight(w, host)
    case AckStart(host) => NoneInFlight(w, host)
    case _ => true
  }

  ghost predicate AllInTurn(w: World, actions: seq<Action>)
    decreases |actions|
  {
    actions != [] ==> InTurn(w, actions[0]) && AllInTurn(Step(w, actions[0]), actions[1..])
  }

  /** The one request of a host is its agent's, or that of an agent that died and has no successor yet. */
  ghost predicate OneEach(w: World) {
    && (forall i, j | i in w.requests && j in w.requests && w.requests[i].host == w.requests[j].host :: i == j)
    && (forall i | i in w.requests :: AgentOf(w, w.requests[i].host).Idle? || Awaits(AgentOf(w, w.requests[i].host), i))
  }

  lemma ReleasedAlone(w: World, run: Id, id: nat)
    requires Base(w) && OneEach(w) && id in w.requests && IsReleasing(w.requests[id], run)
    ensures !Roused(w, run)
  {
    assert RequestSound(w, id);
    forall k | k in w.requests && About(w.requests[k].phase.entry, run) ensures k == id {
      assert RequestSound(w, k);
      assert w.requests[k].host == w.requests[id].host;
    }
    forall h ensures !AgentRouses(w, h, run) { AgentAside(w, run, id, h); }
  }

  lemma AgentAside(w: World, run: Id, id: nat, host: Id)
    requires Base(w) && OneEach(w) && id in w.requests && IsReleasing(w.requests[id], run)
    ensures !AgentRouses(w, host, run)
  {
    var a := AgentOf(w, host);
    assert RequestSound(w, id) && AgentSound(w, host);
    if a.Waiting? {
      assert RequestSound(w, a.id);
      if About(w.requests[a.id].phase.entry, run) { assert w.requests[a.id].host == w.requests[id].host; }
    } else if a.Claimed? || a.Reposted? {
      assert About(a.entry, run) ==> a.entry == w.tickets[run] == w.requests[id].phase.entry;
    }
  }

  lemma OneEachApart(w: World, run: Id)
    requires Base(w) && OneEach(w)
    ensures !Overlaps(w, run)
  {
    if BeingReleased(w, run) {
      var id :| id in w.requests && IsReleasing(w.requests[id], run);
      ReleasedAlone(w, run, id);
    }
  }

  lemma ServesOneEach(w: World, id: nat, ok: bool)
    requires Base(w) && OneEach(w)
    ensures OneEach(Serves(w, id, ok))
  {
    if id in w.requests {
      ServesFits(w, id, ok);
      ServedOneEach(w, Serves(w, id, ok), id);
    }
  }

  lemma ServedOneEach(w: World, v: World, id: nat)
    requires OneEach(w) && ServedOne(w, v, id) && AnswerFits(w, v, id)
    ensures OneEach(v)
  {
    forall i | i in v.requests ensures AgentOf(v, v.requests[i].host).Idle? || Awaits(AgentOf(v, v.requests[i].host), i) {
      assert i in w.requests;
    }
  }

  lemma SendsOneEach(w: World, host: Id, phase: Phase, waits: Option<Agent>)
    requires Base(w) && OneEach(w) && NoneInFlight(w, host)
    requires if waits.Some? then Awaits(waits.value, w.sent) else AgentOf(w, host).Idle?
    ensures OneEach(Sends(w, host, phase, waits))
  {
    FreshId(w);
  }

  lemma OffersOneEach(w: World, host: Id, entry: Entry<Job>, waits: bool)
    requires Base(w) && OneEach(w) && NoneInFlight(w, host) && AgentOf(w, host).Idle?
    ensures OneEach(Offers(w, host, entry, waits))
  {
    if entry.body.RunJob? {
      var waiting := if waits then Some(Waiting(w.sent)) else None;
      if Stale(w.db, entry.body.run, host) {
        SendsOneEach(w, host, Releasing(entry), waiting);
      } else if MayHandOut(w.db, entry.body.run, host) {
        SendsOneEach(w, host, Claiming(entry, w.db.runs[entry.body.run].state), waiting);
      }
    } else if waits {
      PublishingOneEach(w, host, entry);
    }
  }

  lemma PublishingOneEach(w: World, host: Id, entry: Entry<Job>)
    requires OneEach(w) && NoneInFlight(w, host)
    ensures OneEach(w.(agents := w.agents[host := Publishing(entry)]))
  {
  }

  lemma ClaimStartsOneEach(w: World, host: Id, waits: bool)
    requires Base(w) && OneEach(w) && InTurn(w, ClaimStart(host, waits))
    ensures OneEach(ClaimStarts(w, host, waits))
  {
    if Pending(w.queue, host) != [] {
      HoldsBase(w, host);
      OffersOneEach(w.(queue := AfterClaim(w.queue, host)), host, Pending(w.queue, host)[0], waits);
    }
  }

  lemma AgentMovesOneEach(w: World, v: World, host: Id)
    requires OneEach(w) && AgentMoves(w, v, host)
    ensures OneEach(v)
  {
  }

  lemma StepOneEach(w: World, a: Action)
    requires Base(w) && OneEach(w) && InTurn(w, a)
    ensures OneEach(Step(w, a))
  {
    if IsWork(a) {
      WorkStepMoves(w, a);
      if Step(w, a) != w { AgentMovesOneEach(w, Step(w, a), a.host); }
    } else if IsAside(a) {
      AsideStops(w, a);
    } else {
      TalkOneEach(w, a);
    }
  }

  lemma SaysRunningOneEach(w: World, host: Id)
    requires Base(w) && OneEach(w) && NoneInFlight(w, host)
    ensures OneEach(SaysRunning(w, host)) && OneEach(AcksRun(w, host))
  {
    var a := AgentOf(w, host);
    if a.Reposted? && a.entry.body.RunJob? { SendsOneEach(w, host, Saying(a.entry), Some(Telling(a.entry, a.done, w.sent))); }
    if a.Acking? && a.entry.body.RunJob? { SendsOneEach(w, host, Judging(a.entry), Some(AwaitingAck(a.entry, w.sent))); }
  }

  lemma LeavingOneEach(w: World, host: Id)
    requires OneEach(w)
    ensures OneEach(JobAcks(w, host))
  {
  }

  lemma QueueingOneEach(w: World, rows: RunPlan, plan: Plan, queueUp: bool, ok: bool)
    requires OneEach(w)
    ensures OneEach(Enqueues(w, rows, plan, queueUp, ok))
  {
    assert NobodyMoves(w, Enqueues(w, rows, plan, queueUp, ok));
  }

  lemma TalkOneEach(w: World, a: Action)
    requires Base(w) && OneEach(w) && InTurn(w, a) && !IsWork(a) && !IsAside(a)
    ensures OneEach(Step(w, a))
  {
    match a
    case Enqueue(rows, plan, queueUp, ok) => QueueingOneEach(w, rows, plan, queueUp, ok);
    case EnqueueJob(host, files) => assert NobodyMoves(w, EnqueuesJob(w, host, files));
    case ClaimStart(host, waits) => ClaimStartsOneEach(w, host, waits);
    case Serve(id, ok) => ServesOneEach(w, id, ok);
    case SayRunning(host) => SaysRunningOneEach(w, host);
    case AckStart(host) => SaysRunningOneEach(w, host);
    case JobAck(host) => LeavingOneEach(w, host);
    case HubRestart => assert HubRestarts(w).requests == map[];
  }

  /** With one request of a host served at a time nothing ever crosses, so no run is ever stranded. */
  lemma {:induction false} InTurnNeverCrosses(w: World, actions: seq<Action>, run: Id)
    requires Base(w) && OneEach(w) && AllInTurn(w, actions)
    ensures NeverCrosses(w, actions, run)
    decreases |actions|
  {
    OneEachApart(w, run);
    if actions != [] {
      StepBase(w, actions[0]);
      StepOneEach(w, actions[0]);
      InTurnNeverCrosses(Step(w, actions[0]), actions[1..], run);
    }
  }

  lemma {:induction false} InTurnOneEach(w: World, actions: seq<Action>)
    requires Base(w) && OneEach(w) && AllInTurn(w, actions)
    ensures OneEach(RunAll(w, actions))
    decreases |actions|
  {
    if actions != [] {
      StepBase(w, actions[0]);
      StepOneEach(w, actions[0]);
      InTurnOneEach(Step(w, actions[0]), actions[1..]);
    }
  }

  lemma OneAtATime(start: World, actions: seq<Action>, run: Id)
    requires Initial(start) && AllInTurn(start, actions)
    ensures NeverCrosses(start, actions, run) && !Stranded(RunAll(start, actions), run)
  {
    InitialBase(start);
    InTurnNeverCrosses(start, actions, run);
    NoRunIsStranded(start, actions, run);
  }
}
