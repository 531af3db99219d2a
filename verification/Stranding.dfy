/** When a run is stranded: planned, launched or running with no entry pending, so that no agent will ever be handed
    it. Whatever is interleaved, that takes a request that makes the run active crossing the release of its entry;
    and where two such are under way, some order of finishing them strands it. */
module Stranding {
  import opened Names
  import opened Wrappers
  import opened Tables
  import opened Ingest
  import opened Verify
  import opened Runs
  import opened Queue
  import opened Protocol

  // ---- every entry is a ticket

  function EntryOf(a: Agent): Option<Entry<Job>> { if a.Idle? || a.Waiting? then None else Some(a.entry) }

  /** The entry has its id to itself, and is the one its run was enqueued as, with the run's own plan and host. */
  ghost predicate Issued(w: World, e: Entry<Job>) {
    && e.id <= w.queue.next
    && (forall h, x | x in Pending(w.queue, h) && x.id == e.id :: x == e)
    && (e.body.RunJob? ==>
          && e.body.run in w.db.runs && w.db.runs[e.body.run].host == e.host
          && e.body.run in w.tickets && w.tickets[e.body.run] == e
          && e.body.run in w.plans && w.plans[e.body.run] == e.body.plan)
  }

  ghost predicate Ascending(es: seq<Entry<Job>>) { forall i, j | 0 <= i < j < |es| :: es[i].id < es[j].id }

  ghost predicate LineSound(w: World, host: Id) {
    Ascending(Pending(w.queue, host)) && forall x | x in Pending(w.queue, host) :: x.host == host && Issued(w, x)
  }

  predicate Waits(a: Agent) { a.Waiting? || a.Telling? || a.AwaitingAck? }

  /** The request an agent waits for is its own. */
  predicate AnswerDue(w: World, host: Id) {
    var a := AgentOf(w, host);
    Waits(a) ==>
      && a.id in w.requests && w.requests[a.id].host == host
      && (a.Waiting? ==> w.requests[a.id].phase.Claiming? || w.requests[a.id].phase.Releasing?)
      && (a.Telling? ==> w.requests[a.id].phase == Saying(a.entry))
      && (a.AwaitingAck? ==> w.requests[a.id].phase in {Judging(a.entry), Releasing(a.entry)})
  }

  ghost predicate AgentSound(w: World, host: Id) {
    var a := AgentOf(w, host);
    && (EntryOf(a).Some? ==> a.entry.host == host && Issued(w, a.entry) && (a.Publishing? <==> a.entry.body.PublishJob?))
    && AnswerDue(w, host)
  }

  ghost predicate RequestSound(w: World, id: nat) {
    id in w.requests ==>
      && id < w.sent && w.requests[id].phase.entry.host == w.requests[id].host
      && w.requests[id].phase.entry.body.RunJob? && Issued(w, w.requests[id].phase.entry)
  }

  ghost predicate Base(w: World) {
    && QueueOk(w.queue)
    && (forall h :: LineSound(w, h) && AgentSound(w, h))
    && (forall id :: RequestSound(w, id))
    && (forall r | r in w.tickets :: About(w.tickets[r], r) && Issued(w, w.tickets[r]))
  }

  // ---- what keeps it so

  /** Runs, plans and tickets only grow; new entries have new ids. */
  ghost predicate Later(w: World, v: World) {
    && w.queue.next <= v.queue.next && w.sent <= v.sent && QueueOk(v.queue)
    && (forall r | r in w.db.runs :: r in v.db.runs && v.db.runs[r].host == w.db.runs[r].host)
    && (forall r | r in w.plans :: r in v.plans && v.plans[r] == w.plans[r])
    && (forall r | r in w.tickets :: r in v.tickets && v.tickets[r] == w.tickets[r])
    && (forall h, x | x in Pending(v.queue, h) :: x in Pending(w.queue, h) || x.id > w.queue.next)
  }

  lemma StaysIssued(w: World, v: World, e: Entry<Job>)
    requires Issued(w, e) && Later(w, v)
    ensures Issued(v, e)
  {
  }

  ghost predicate SameAgent(w: World, v: World, host: Id) {
    && AgentOf(v, host) == AgentOf(w, host)
    && (Waits(AgentOf(w, host)) ==>
          AgentOf(w, host).id in w.requests && AgentOf(w, host).id in v.requests
          && v.requests[AgentOf(w, host).id] == w.requests[AgentOf(w, host).id])
  }

  lemma AgentStays(w: World, v: World, host: Id)
    requires AgentSound(w, host) && Later(w, v) && SameAgent(w, v, host)
    ensures AgentSound(v, host)
  {
    if EntryOf(AgentOf(w, host)).Some? { StaysIssued(w, v, AgentOf(w, host).entry); }
  }

  lemma LineStays(w: World, v: World, host: Id)
    requires LineSound(w, host) && Later(w, v) && Pending(v.queue, host) == Pending(w.queue, host)
    ensures LineSound(v, host)
  {
    forall x | x in Pending(v.queue, host) ensures Issued(v, x) { StaysIssued(w, v, x); }
  }

  /** A step that leaves the lines as they are. */
  lemma BaseKept(w: World, v: World)
    requires Base(w) && Later(w, v) && v.tickets == w.tickets && (forall h :: Pending(v.queue, h) == Pending(w.queue, h))
    requires forall h :: SameAgent(w, v, h) || AgentSound(v, h)
    requires forall id | id in v.requests :: (id in w.requests && v.requests[id] == w.requests[id]) || RequestSound(v, id)
    ensures Base(v)
  {
    forall h ensures LineSound(v, h) { LineStays(w, v, h); }
    RestKept(w, v);
  }

  lemma RestKept(w: World, v: World)
    requires Base(w) && Later(w, v) && v.tickets == w.tickets && forall h :: LineSound(v, h)
    requires forall h :: SameAgent(w, v, h) || AgentSound(v, h)
    requires forall id | id in v.requests :: (id in w.requests && v.requests[id] == w.requests[id]) || RequestSound(v, id)
    ensures Base(v)
  {
    forall h ensures AgentSound(v, h) { if SameAgent(w, v, h) { AgentStays(w, v, h); } }
    forall id ensures RequestSound(v, id) {
      assert RequestSound(w, id);
      if id in v.requests && id in w.requests && v.requests[id] == w.requests[id] { StaysIssued(w, v, w.requests[id].phase.entry); }
    }
    forall r | r in v.tickets ensures About(v.tickets[r], r) && Issued(v, v.tickets[r]) { StaysIssued(w, v, w.tickets[r]); }
  }

  /** No request or agent is touched. */
  ghost predicate NobodyMoves(w: World, v: World) { v.requests == w.requests && v.agents == w.agents && v.sent == w.sent }

  lemma NobodyKept(w: World, v: World)
    requires Base(w) && NobodyMoves(w, v)
    ensures forall h :: SameAgent(w, v, h)
    ensures forall id | id in v.requests :: id in w.requests && v.requests[id] == w.requests[id]
  {
    forall h ensures SameAgent(w, v, h) { assert AgentSound(w, h); }
  }

  /** Neither the queue nor who works on what has moved. */
  lemma Unmoved(w: World, v: World)
    requires Base(w) && NobodyMoves(w, v) && v.queue == w.queue && v.plans == w.plans && v.tickets == w.tickets
    requires forall r | r in w.db.runs :: r in v.db.runs && v.db.runs[r].host == w.db.runs[r].host
    ensures Base(v)
  {
    NobodyKept(w, v);
    BaseKept(w, v);
  }

  // ---- a run that is not stranded

  /** The run's entry is pending at its host. */
  ghost predicate Queued(w: World, run: Id)
    requires run in w.db.runs
  {
    run in w.tickets && w.tickets[run] in Pending(w.queue, w.db.runs[run].host)
  }

  ghost predicate HeldFor(w: World, run: Id)
    requires run in w.db.runs
  {
    run in w.tickets && Held(w.queue, w.db.runs[run].host) == Some(w.tickets[run])
  }

  /** An active run has its entry, and nothing is about to release it; what makes a run active holds it. */
  ghost predicate Safe(w: World, run: Id) {
    run in w.db.runs ==>
      && (IsActive(w.db.runs[run].state) ==> Queued(w, run) && !BeingReleased(w, run))
      && (Roused(w, run) ==> HeldFor(w, run))
  }

  /** What makes the run active crosses the release of its entry. */
  ghost predicate Overlaps(w: World, run: Id) { Roused(w, run) && BeingReleased(w, run) }

  ghost predicate StaysPut(w: World, v: World, run: Id)
    requires run in w.db.runs && run in v.db.runs
  {
    (Queued(w, run) ==> Queued(v, run)) && (HeldFor(w, run) ==> HeldFor(v, run))
  }

  lemma HeldIsQueued(w: World, run: Id)
    requires run in w.db.runs && HeldFor(w, run)
    ensures Queued(w, run)
  {
  }

  lemma SafeKept(w: World, v: World, run: Id)
    requires Safe(w, run) && run in w.db.runs && run in v.db.runs && StaysPut(w, v, run)
    requires IsActive(v.db.runs[run].state) ==> (IsActive(w.db.runs[run].state) || HeldFor(w, run)) && !BeingReleased(v, run)
    requires Roused(v, run) ==> Roused(w, run) || HeldFor(v, run)
    ensures Safe(v, run)
  {
    if HeldFor(w, run) { HeldIsQueued(w, run); }
  }

  /** Nobody newly makes the run active. */
  ghost predicate NoneRoused(w: World, v: World, run: Id) {
    && (forall id | id in v.requests && RequestRouses(v.requests[id], run) :: id in w.requests && RequestRouses(w.requests[id], run))
    && (forall h | AgentRouses(v, h, run) :: AgentRouses(w, h, run))
  }

  ghost predicate NoneReleased(w: World, v: World, run: Id) {
    forall id | id in v.requests && IsReleasing(v.requests[id], run) :: id in w.requests && IsReleasing(w.requests[id], run)
  }

  /** A step that makes no run active, and none newly to be so or to be released. */
  lemma QuietlySafe(w: World, v: World, run: Id)
    requires Safe(w, run) && run in w.db.runs && run in v.db.runs && StaysPut(w, v, run)
    requires NoneRoused(w, v, run) && NoneReleased(w, v, run)
    requires IsActive(v.db.runs[run].state) ==> IsActive(w.db.runs[run].state)
    ensures Safe(v, run)
  {
    assert Roused(v, run) ==> Roused(w, run);
    assert BeingReleased(v, run) ==> BeingReleased(w, run);
    SafeKept(w, v, run);
  }

  /** Of a run that is not planned yet nothing is under way. */
  lemma NothingBeforePlan(w: World, run: Id)
    requires Base(w) && run !in w.db.runs
    ensures run !in w.tickets && !Roused(w, run) && !BeingReleased(w, run)
    ensures forall h, x | x in Pending(w.queue, h) :: !About(x, run)
  {
    forall id | id in w.requests ensures !RequestRouses(w.requests[id], run) && !IsReleasing(w.requests[id], run) { assert RequestSound(w, id); }
    forall h ensures !AgentRouses(w, h, run) {
      assert AgentSound(w, h);
      if AgentOf(w, h).Waiting? { assert RequestSound(w, AgentOf(w, h).id); }
    }
    forall h, x | x in Pending(w.queue, h) ensures !About(x, run) { assert LineSound(w, h); }
  }

  // ---- enqueue

  lemma AppendedLine(w: World, v: World, host: Id, job: Job, h: Id)
    requires Base(w) && Later(w, v) && v.queue == AfterEnqueue(w.queue, host, job)
    requires Issued(v, Entry(w.queue.next + 1, host, job))
    ensures LineSound(v, h)
  {
    assert LineSound(w, h);
    forall x | x in Pending(v.queue, h) ensures x.host == h && Issued(v, x) {
      if x in Pending(w.queue, h) { StaysIssued(w, v, x); }
    }
  }

  lemma NewEntryAlone(w: World, host: Id, job: Job)
    requires Base(w)
    ensures var q := AfterEnqueue(w.queue, host, job);
            && QueueOk(q)
            && (forall h, x | x in Pending(q, h) :: x in Pending(w.queue, h) || (h == host && x == Entry(w.queue.next + 1, host, job)))
            && (forall h :: Pending(w.queue, h) <= Pending(q, h) && (Held(w.queue, h).Some? ==> Held(q, h) == Held(w.queue, h)))
  {
  }

  lemma EnqueuesJobBase(w: World, host: Id, files: seq<Id>)
    requires Base(w)
    ensures Base(EnqueuesJob(w, host, files))
  {
    var v, job := EnqueuesJob(w, host, files), PublishJob(files);
    NewEntryAlone(w, host, job);
    forall h, x | x in Pending(v.queue, h) && x.id == w.queue.next + 1 ensures x == Entry(w.queue.next + 1, host, job) {
      assert LineSound(w, h);
    }
    forall h ensures LineSound(v, h) { AppendedLine(w, v, host, job, h); }
    NobodyKept(w, v);
    RestKept(w, v);
  }

  lemma TicketNew(w: World, v: World, rows: RunPlan, plan: Plan)
    requires Base(w) && MayPlan(w.db, rows)
    requires v == w.(db := Runs.Planned(w.db, rows), plans := w.plans[rows.run := plan],
                     queue := AfterEnqueue(w.queue, rows.row.host, RunJob(rows.run, plan)), tickets := v.tickets)
    requires v.tickets == w.tickets[rows.run := Entry(w.queue.next + 1, rows.row.host, RunJob(rows.run, plan))]
    ensures Later(w.(plans := map r | r in w.plans && r != rows.run :: w.plans[r]), v) && Issued(v, v.tickets[rows.run])
  {
    var job := RunJob(rows.run, plan);
    NewEntryAlone(w, rows.row.host, job);
    NothingBeforePlan(w, rows.run);
    forall h, x | x in Pending(v.queue, h) && x.id == w.queue.next + 1 ensures x == v.tickets[rows.run] { assert LineSound(w, h); }
  }

  /** A plan no entry names may be forgotten. */
  lemma PlanForgotten(w: World, run: Id)
    requires Base(w) && run !in w.db.runs
    ensures Base(w.(plans := map r | r in w.plans && r != run :: w.plans[r]))
  {
    var v := w.(plans := map r | r in w.plans && r != run :: w.plans[r]);
    forall e | Issued(w, e) ensures Issued(v, e) {}
    forall h ensures LineSound(v, h) && AgentSound(v, h) { assert LineSound(w, h) && AgentSound(w, h); }
    forall id ensures RequestSound(v, id) { assert RequestSound(w, id); }
  }

  lemma TicketAdded(u: World, v: World, run: Id, host: Id, job: Job)
    requires Base(u) && Later(u, v) && NobodyMoves(u, v) && run !in u.tickets
    requires v.queue == AfterEnqueue(u.queue, host, job) && v.tickets == u.tickets[run := Entry(u.queue.next + 1, host, job)]
    requires About(v.tickets[run], run) && Issued(v, v.tickets[run])
    ensures Base(v)
  {
    NobodyKept(u, v);
    forall h ensures LineSound(v, h) && AgentSound(v, h) {
      AppendedLine(u, v, host, job, h);
      AgentStays(u, v, h);
    }
    forall id ensures RequestSound(v, id) {
      assert RequestSound(u, id);
      if id in v.requests { StaysIssued(u, v, v.requests[id].phase.entry); }
    }
    forall r | r in v.tickets ensures About(v.tickets[r], r) && Issued(v, v.tickets[r]) {
      if r != run { StaysIssued(u, v, u.tickets[r]); }
    }
  }

  lemma EnqueuedBase(w: World, v: World, rows: RunPlan, plan: Plan)
    requires Base(w) && MayPlan(w.db, rows)
    requires v == w.(db := Runs.Planned(w.db, rows), plans := w.plans[rows.run := plan],
                     queue := AfterEnqueue(w.queue, rows.row.host, RunJob(rows.run, plan)), tickets := v.tickets)
    requires v.tickets == w.tickets[rows.run := Entry(w.queue.next + 1, rows.row.host, RunJob(rows.run, plan))]
    ensures Base(v)
  {
    var u := w.(plans := map r | r in w.plans && r != rows.run :: w.plans[r]);
    PlanForgotten(w, rows.run);
    TicketNew(w, v, rows, plan);
    NothingBeforePlan(w, rows.run);
    TicketAdded(u, v, rows.run, rows.row.host, RunJob(rows.run, plan));
  }

  lemma UnqueuedBase(w: World, v: World, rows: RunPlan, plan: Plan)
    requires Base(w) && MayPlan(w.db, rows) && v == w.(db := v.db, plans := w.plans[rows.run := plan])
    requires forall r | r in w.db.runs :: r in v.db.runs && v.db.runs[r].host == w.db.runs[r].host
    ensures Base(v)
  {
    var u := w.(plans := map r | r in w.plans && r != rows.run :: w.plans[r]);
    PlanForgotten(w, rows.run);
    NobodyKept(u, v);
    BaseKept(u, v);
  }

  lemma EnqueuesBase(w: World, rows: RunPlan, plan: Plan, queueUp: bool, ok: bool)
    requires Base(w)
    ensures Base(Enqueues(w, rows, plan, queueUp, ok))
  {
    var v := Enqueues(w, rows, plan, queueUp, ok);
    if v != w {
      if queueUp { EnqueuedBase(w, v, rows, plan); } else { UnqueuedBase(w, v, rows, plan); }
    }
  }

  lemma AppendedStays(w: World, v: World, host: Id, job: Job, run: Id)
    requires Base(w) && run in w.db.runs && run in v.db.runs && v.db.runs[run].host == w.db.runs[run].host
    requires v.queue == AfterEnqueue(w.queue, host, job) && (run in w.tickets ==> run in v.tickets && v.tickets[run] == w.tickets[run])
    ensures StaysPut(w, v, run)
  {
    NewEntryAlone(w, host, job);
  }

  lemma EnqueuesSafe(w: World, rows: RunPlan, plan: Plan, queueUp: bool, ok: bool, run: Id)
    requires Base(w) && Safe(w, run)
    ensures Safe(Enqueues(w, rows, plan, queueUp, ok), run)
  {
    var v := Enqueues(w, rows, plan, queueUp, ok);
    if v != w {
      if run == rows.run {
        NewRunSafe(w, v, rows, plan);
      } else if run in w.db.runs {
        if queueUp { AppendedStays(w, v, rows.row.host, RunJob(rows.run, plan), run); }
        QuietlySafe(w, v, run);
      }
    }
  }

  lemma NewRunSafe(w: World, v: World, rows: RunPlan, plan: Plan)
    requires Base(w) && rows.run !in w.db.runs && NobodyMoves(w, v) && rows.run in v.db.runs
    requires IsActive(v.db.runs[rows.run].state) ==>
               && v.db.runs[rows.run].host == rows.row.host && rows.run in v.tickets
               && v.queue == AfterEnqueue(w.queue, rows.row.host, RunJob(rows.run, plan))
               && v.tickets[rows.run] == Entry(w.queue.next + 1, rows.row.host, RunJob(rows.run, plan))
    ensures Safe(v, rows.run)
  {
    NothingBeforePlan(w, rows.run);
    assert NoneRoused(w, v, rows.run) && NoneReleased(w, v, rows.run);
    assert !Roused(v, rows.run) && !BeingReleased(v, rows.run);
  }

  lemma EnqueuesJobSafe(w: World, host: Id, files: seq<Id>, run: Id)
    requires Base(w) && Safe(w, run)
    ensures Safe(EnqueuesJob(w, host, files), run)
  {
    var v := EnqueuesJob(w, host, files);
    if run in w.db.runs {
      AppendedStays(w, v, host, PublishJob(files), run);
      QuietlySafe(w, v, run);
    }
  }

  // ---- claim

  lemma ClaimKeepsLines(q: QueueState<Job>, host: Id)
    requires QueueOk(q)
    ensures QueueOk(AfterClaim(q, host)) && forall h :: Pending(AfterClaim(q, host), h) == Pending(q, h)
    ensures forall h | Held(q, h).Some? :: Held(AfterClaim(q, host), h) == Held(q, h)
    ensures Pending(q, host) != [] ==> Held(AfterClaim(q, host), host) == Some(Pending(q, host)[0])
  {
  }

  /** A request goes out about an entry in the sender's hand. */
  lemma SendsBase(w: World, host: Id, phase: Phase, waits: Option<Agent>)
    requires Base(w) && Issued(w, phase.entry) && phase.entry.host == host && phase.entry.body.RunJob?
    requires waits.Some? ==>
               && Waits(waits.value) && waits.value.id == w.sent
               && (waits.value.Waiting? ==> phase.Claiming? || phase.Releasing?)
               && (waits.value.Telling? ==> phase == Saying(waits.value.entry))
               && (waits.value.AwaitingAck? ==> phase == Judging(waits.value.entry))
    ensures Base(Sends(w, host, phase, waits))
  {
    var v := Sends(w, host, phase, waits);
    forall e | Issued(w, e) ensures Issued(v, e) {}
    forall h ensures SameAgent(w, v, h) || AgentSound(v, h) {
      assert AgentSound(w, h);
      if Waits(AgentOf(w, h)) { assert RequestSound(w, AgentOf(w, h).id); }
    }
    forall id | id in v.requests ensures (id in w.requests && v.requests[id] == w.requests[id]) || RequestSound(v, id) {
      assert RequestSound(w, id);
    }
    BaseKept(w, v);
  }

  lemma OffersBase(w: World, host: Id, entry: Entry<Job>, waits: bool)
    requires Base(w) && entry.host == host && Issued(w, entry) && (waits ==> AgentOf(w, host).Idle?)
    ensures Base(Offers(w, host, entry, waits))
  {
    var v := Offers(w, host, entry, waits);
    if entry.body.RunJob? {
      var waiting := if waits then Some(Waiting(w.sent)) else None;
      if Stale(w.db, entry.body.run, host) {
        SendsBase(w, host, Releasing(entry), waiting);
      } else if MayHandOut(w.db, entry.body.run, host) {
        SendsBase(w, host, Claiming(entry, w.db.runs[entry.body.run].state), waiting);
      }
    } else if waits {
      forall e | Issued(w, e) ensures Issued(v, e) {}
      forall h ensures SameAgent(w, v, h) || AgentSound(v, h) { assert AgentSound(w, h); }
      BaseKept(w, v);
    }
  }

  lemma HoldsBase(w: World, host: Id)
    requires Base(w)
    ensures Base(w.(queue := AfterClaim(w.queue, host)))
  {
    var v := w.(queue := AfterClaim(w.queue, host));
    ClaimKeepsLines(w.queue, host);
    NobodyKept(w, v);
    BaseKept(w, v);
  }

  lemma ClaimStartsBase(w: World, host: Id, waits: bool)
    requires Base(w)
    ensures Base(ClaimStarts(w, host, waits))
  {
    if (waits ==> AgentOf(w, host) == Idle) && Pending(w.queue, host) != [] {
      var claimed, entry := w.(queue := AfterClaim(w.queue, host)), Pending(w.queue, host)[0];
      HoldsBase(w, host);
      ClaimKeepsLines(w.queue, host);
      assert LineSound(claimed, host) && entry in Pending(claimed.queue, host);
      OffersBase(claimed, host, entry, waits);
    }
  }

  /** A request about the run goes out: to release it only if it is not active, to rouse it only if it is held. */
  lemma SendsSafe(w: World, host: Id, phase: Phase, waits: Option<Agent>, run: Id)
    requires Safe(w, run) && run in w.db.runs && About(phase.entry, run) && HeldFor(w, run)
    requires phase.Releasing? ==> !IsActive(w.db.runs[run].state)
    ensures Safe(Sends(w, host, phase, waits), run)
  {
    var v := Sends(w, host, phase, waits);
    if IsActive(w.db.runs[run].state) { assert NoneReleased(w, v, run); }
    SafeKept(w, v, run);
  }

  /** A request about another run, or none. */
  lemma OtherSendsSafe(w: World, v: World, host: Id, run: Id)
    requires Base(w) && Safe(w, run) && run in w.db.runs && v.db == w.db && v.queue == w.queue && v.tickets == w.tickets && NoNews(w, v, run)
    requires forall h :: AgentOf(v, h) == AgentOf(w, h) || AgentOf(v, h).Publishing? || (Waits(AgentOf(v, h)) && AgentOf(v, h).id !in w.requests)
    ensures Safe(v, run)
  {
    forall h | AgentRouses(v, h, run) ensures AgentRouses(w, h, run) { OthersRouse(w, v, h, run); }
    QuietlySafe(w, v, run);
  }

  lemma SentSafe(w: World, host: Id, phase: Phase, waits: bool, run: Id)
    requires Base(w) && Safe(w, run) && run in w.db.runs && w.sent !in w.requests
    requires About(phase.entry, run) ==> HeldFor(w, run) && (phase.Releasing? ==> !IsActive(w.db.runs[run].state))
    ensures Safe(Sends(w, host, phase, if waits then Some(Waiting(w.sent)) else None), run)
  {
    var waiting := if waits then Some(Waiting(w.sent)) else None;
    if About(phase.entry, run) {
      SendsSafe(w, host, phase, waiting, run);
    } else {
      OtherSendsSafe(w, Sends(w, host, phase, waiting), host, run);
    }
  }

  lemma OffersSafe(w: World, host: Id, entry: Entry<Job>, waits: bool, run: Id)
    requires Base(w) && Safe(w, run) && entry.host == host && Issued(w, entry) && Held(w.queue, host) == Some(entry)
    ensures Safe(Offers(w, host, entry, waits), run)
  {
    if run in w.db.runs {
      FreshId(w);
      if entry.body.PublishJob? {
        OtherSendsSafe(w, Offers(w, host, entry, waits), host, run);
      } else if Stale(w.db, entry.body.run, host) {
        SentSafe(w, host, Releasing(entry), waits, run);
      } else if MayHandOut(w.db, entry.body.run, host) {
        SentSafe(w, host, Claiming(entry, w.db.runs[entry.body.run].state), waits, run);
      }
    }
  }

  lemma FreshId(w: World)
    requires Base(w)
    ensures w.sent !in w.requests
  {
    assert RequestSound(w, w.sent);
  }

  /** Requests that were there stay as they were, and none of the new ones is about the run. */
  ghost predicate NoNews(w: World, v: World, run: Id) {
    && (forall id | id in w.requests :: id in v.requests && v.requests[id] == w.requests[id])
    && (forall id | id in v.requests && id !in w.requests :: !About(v.requests[id].phase.entry, run))
  }

  lemma OthersRouse(w: World, v: World, host: Id, run: Id)
    requires Base(w) && NoNews(w, v, run) && AgentRouses(v, host, run)
    requires AgentOf(v, host) == AgentOf(w, host) || AgentOf(v, host).Publishing? || (AgentOf(v, host).Waiting? && AgentOf(v, host).id !in w.requests)
    ensures AgentRouses(w, host, run)
  {
    assert AgentSound(w, host);
  }

  lemma ClaimStartsSafe(w: World, host: Id, waits: bool, run: Id)
    requires Base(w) && Safe(w, run)
    ensures Safe(ClaimStarts(w, host, waits), run)
  {
    if (waits ==> AgentOf(w, host) == Idle) && Pending(w.queue, host) != [] {
      var claimed, entry := w.(queue := AfterClaim(w.queue, host)), Pending(w.queue, host)[0];
      HoldsBase(w, host);
      ClaimKeepsLines(w.queue, host);
      if run in w.db.runs {
        QuietlySafe(w, claimed, run);
      }
      assert LineSound(claimed, host) && entry in Pending(claimed.queue, host);
      OffersSafe(claimed, host, entry, waits, run);
    }
  }

  // ---- the hub serves

  /** One request moves on or is done with, and the agent that waits for it with it. */
  ghost predicate ServedOne(w: World, v: World, id: nat) {
    && id in w.requests
    && (forall i | i != id :: (i in v.requests <==> i in w.requests) && (i in w.requests ==> v.requests[i] == w.requests[i]))
    && (forall h :: AgentOf(v, h) == AgentOf(w, h) || (h == w.requests[id].host && Awaits(AgentOf(w, h), id)))
    && v.sent == w.sent && v.plans == w.plans && v.tickets == w.tickets
  }

  /** The agent that waited has moved on with the entry it asked about. */
  ghost predicate AnswerFits(w: World, v: World, id: nat)
    requires id in w.requests
  {
    var host, e := w.requests[id].host, w.requests[id].phase.entry;
    var a := AgentOf(v, host);
    && (id in v.requests ==> v.requests[id].host == host && v.requests[id].phase.entry == e)
    && (Awaits(AgentOf(w, host), id) ==>
          || a == Idle || ((a.Claimed? || a.AtUnit?) && a.entry == e && id !in v.requests)
          || (a == AgentOf(w, host) && a.AwaitingAck? && id in v.requests && v.requests[id].phase == Releasing(e)))
    && (!Awaits(AgentOf(w, host), id) ==> a == AgentOf(w, host))
  }

  lemma ServedBase(w: World, v: World, id: nat)
    requires Base(w) && ServedOne(w, v, id) && AnswerFits(w, v, id) && Later(w, v)
    requires forall h :: LineSound(v, h)
    ensures Base(v)
  {
    var host, e := w.requests[id].host, w.requests[id].phase.entry;
    assert RequestSound(w, id);
    StaysIssued(w, v, e);
    forall h ensures SameAgent(w, v, h) || AgentSound(v, h) {
      assert AgentSound(w, h);
      if h == host && Awaits(AgentOf(w, h), id) {
        assert AgentSound(v, h);
      } else {
        assert SameAgent(w, v, h) by { if Waits(AgentOf(w, h)) { assert AgentOf(w, h).id != id; } }
      }
    }
    RestKept(w, v);
  }

  lemma ClaimEndsFits(w: World, id: nat, ok: bool)
    requires Base(w) && id in w.requests && w.requests[id].phase.Claiming?
    ensures RequestSound(w, id) && ServedOne(w, ClaimEnds(w, id, ok), id) && AnswerFits(w, ClaimEnds(w, id, ok), id)
    ensures ClaimEnds(w, id, ok).queue == w.queue && Later(w, ClaimEnds(w, id, ok))
  {
    assert RequestSound(w, id);
  }

  lemma RunningSaidFits(w: World, id: nat, ok: bool)
    requires Base(w) && id in w.requests && w.requests[id].phase.Saying?
    ensures RequestSound(w, id) && ServedOne(w, RunningSaid(w, id, ok), id) && AnswerFits(w, RunningSaid(w, id, ok), id)
    ensures RunningSaid(w, id, ok).queue == w.queue && Later(w, RunningSaid(w, id, ok))
  {
    assert RequestSound(w, id) && AgentSound(w, w.requests[id].host);
  }

  /** A verdict refused, or in: then the run is active no more and its entry is to be released. */
  ghost predicate Judged(w: World, v: World, id: nat)
    requires id in w.requests
  {
    var Request(host, phase) := w.requests[id];
    && v.queue == w.queue && v.sent == w.sent && v.plans == w.plans && v.tickets == w.tickets
    && (|| (v.db == w.db && v.requests == w.requests - {id} && v.agents == Answered(w, id, Idle))
        || (&& v.requests == w.requests[id := Request(host, Releasing(phase.entry))] && v.agents == w.agents
            && phase.entry.body.RunJob? && phase.entry.body.run in w.db.runs && phase.entry.body.run in v.db.runs
            && !IsActive(v.db.runs[phase.entry.body.run].state)
            && v.db.runs == w.db.runs[phase.entry.body.run := w.db.runs[phase.entry.body.run].(state := v.db.runs[phase.entry.body.run].state)]))
  }

  lemma WhatJudgesMoves(w: World, id: nat, ok: bool)
    requires id in w.requests && w.requests[id].phase.Judging? && w.requests[id].phase.entry.body.RunJob?
    ensures Judged(w, Judges(w, id, ok), id)
  {
    var Request(host, phase) := w.requests[id];
    var run, found := phase.entry.body.run, FindPending(Pending(w.queue, host), phase.entry.id);
    if run in w.db.runs && found.Some? && (w.db.runs[run].state == Abandoned || ok) {
      JudgedAs(w, id, Verdict(w.db, run, PlanOf(found.value.body)));
    }
  }

  lemma JudgedAs(w: World, id: nat, verdict: RunState)
    requires id in w.requests && w.requests[id].phase.Judging? && w.requests[id].phase.entry.body.RunJob?
    requires w.requests[id].phase.entry.body.run in w.db.runs && verdict in {Complete, Failed}
    ensures var Request(host, phase) := w.requests[id];
            var run, judged := phase.entry.body.run, w.(requests := w.requests[id := Request(host, Releasing(phase.entry))]);
            && Judged(w, judged.(db := Posted(w.db, run, verdict, ByHub)), id)
            && (w.db.runs[run].state == Abandoned ==> Judged(w, judged, id))
  {
    var run := w.requests[id].phase.entry.body.run;
    assert w.db.runs[run := w.db.runs[run]] == w.db.runs;
  }

  lemma JudgedFits(w: World, v: World, id: nat)
    requires Base(w) && id in w.requests && w.requests[id].phase.Judging? && Judged(w, v, id)
    ensures ServedOne(w, v, id) && AnswerFits(w, v, id) && Later(w, v)
  {
    assert RequestSound(w, id) && AgentSound(w, w.requests[id].host);
    if id in v.requests { VerdictFits(w, v, id); } else { RefusalFits(w, v, id); }
  }

  lemma RefusalFits(w: World, v: World, id: nat)
    requires Base(w) && id in w.requests && RequestSound(w, id) && w.requests[id].phase.Judging? && Judged(w, v, id) && id !in v.requests
    ensures ServedOne(w, v, id) && AnswerFits(w, v, id) && Later(w, v)
  {
  }

  lemma VerdictFits(w: World, v: World, id: nat)
    requires Base(w) && id in w.requests && RequestSound(w, id) && w.requests[id].phase.Judging? && Judged(w, v, id) && id in v.requests
    requires AgentSound(w, w.requests[id].host)
    ensures ServedOne(w, v, id) && AnswerFits(w, v, id) && Later(w, v)
  {
  }

  /** An entry leaves its line from the front, or nothing does. */
  lemma AckedLine(q: QueueState<Job>, host: Id, id: nat)
    requires QueueOk(q)
    ensures QueueOk(AfterAck(q, host, id)) && AfterAck(q, host, id).next == q.next
    ensures forall h | h != host :: LineOf(AfterAck(q, host, id), h) == LineOf(q, h)
    ensures if MayAck(q, host, id) then Pending(AfterAck(q, host, id), host) == Pending(q, host)[1..] else AfterAck(q, host, id) == q
  {
  }

  lemma AckedLines(w: World, v: World, host: Id, id: nat)
    requires Base(w) && v.queue == AfterAck(w.queue, host, id) && v.db == w.db && v.plans == w.plans && v.tickets == w.tickets && v.sent == w.sent
    ensures Later(w, v) && forall h :: LineSound(v, h)
  {
    AckedLine(w.queue, host, id);
    assert Later(w, v);
    forall h ensures LineSound(v, h) {
      assert LineSound(w, h);
      forall x | x in Pending(v.queue, h) ensures x.host == h && Issued(v, x) { StaysIssued(w, v, x); }
    }
  }

  lemma ServesBase(w: World, id: nat, ok: bool)
    requires Base(w)
    ensures Base(Serves(w, id, ok))
  {
    if id in w.requests {
      var v := Serves(w, id, ok);
      assert RequestSound(w, id);
      match w.requests[id].phase {
        case Claiming(_, _) => ClaimEndsFits(w, id, ok);
        case Saying(_) => RunningSaidFits(w, id, ok);
        case Judging(_) => WhatJudgesMoves(w, id, ok); JudgedFits(w, v, id);
        case Releasing(entry) => AckedLines(w, v, w.requests[id].host, entry.id);
      }
      if !w.requests[id].phase.Releasing? {
        forall h ensures LineSound(v, h) { LineStays(w, v, h); }
      }
      ServedBase(w, v, id);
    }
  }

  /** Serving makes nobody newly about to make a run active. */
  lemma ServingRousesNone(w: World, v: World, id: nat, run: Id)
    requires Base(w) && ServedOne(w, v, id) && AnswerFits(w, v, id)
    requires id in v.requests ==> v.requests[id].phase.Releasing?
    requires AgentOf(v, w.requests[id].host).Claimed? && AgentOf(w, w.requests[id].host) != AgentOf(v, w.requests[id].host) ==> w.requests[id].phase.Claiming?
    ensures NoneRoused(w, v, run)
  {
    var host := w.requests[id].host;
    forall h | AgentRouses(v, h, run) ensures AgentRouses(w, h, run) {
      assert AgentSound(w, h);
      if AgentOf(v, h) != AgentOf(w, h) { assert AgentSound(w, host) && AgentOf(w, host).Waiting?; }
    }
  }

  lemma ClaimEndsSafe(w: World, id: nat, ok: bool, run: Id)
    requires Base(w) && Safe(w, run) && !Overlaps(w, run) && id in w.requests && w.requests[id].phase.Claiming?
    ensures RequestSound(w, id) && Safe(ClaimEnds(w, id, ok), run)
  {
    ClaimEndsFits(w, id, ok);
    var v := ClaimEnds(w, id, ok);
    ServingRousesNone(w, v, id, run);
    if run in w.db.runs {
      assert NoneReleased(w, v, run) && StaysPut(w, v, run);
      assert Roused(v, run) ==> Roused(w, run);
      assert BeingReleased(v, run) ==> BeingReleased(w, run);
      assert v.db != w.db && w.requests[id].phase.entry.body.run == run ==> RequestRouses(w.requests[id], run);
      SafeKept(w, v, run);
    }
  }

  lemma RunningSaidSafe(w: World, id: nat, ok: bool, run: Id)
    requires Base(w) && Safe(w, run) && !Overlaps(w, run) && id in w.requests && w.requests[id].phase.Saying?
    ensures RequestSound(w, id) && Safe(RunningSaid(w, id, ok), run)
  {
    RunningSaidFits(w, id, ok);
    var v := RunningSaid(w, id, ok);
    ServingRousesNone(w, v, id, run);
    if run in w.db.runs {
      assert NoneReleased(w, v, run) && StaysPut(w, v, run);
      assert Roused(v, run) ==> Roused(w, run);
      assert BeingReleased(v, run) ==> BeingReleased(w, run);
      assert v.db != w.db && w.requests[id].phase.entry.body.run == run ==> RequestRouses(w.requests[id], run);
      SafeKept(w, v, run);
    }
  }

  lemma JudgedSafe(w: World, v: World, id: nat, run: Id)
    requires Base(w) && Safe(w, run) && id in w.requests && w.requests[id].phase.Judging? && Judged(w, v, id)
    ensures Safe(v, run)
  {
    JudgedFits(w, v, id);
    assert RequestSound(w, id);
    ServingRousesNone(w, v, id, run);
    if run in w.db.runs {
      assert Roused(v, run) ==> Roused(w, run);
      if About(w.requests[id].phase.entry, run) && id in v.requests {
        SafeKept(w, v, run);
      } else {
        QuietlySafe(w, v, run);
      }
    }
  }

  /** Another run's entry is not the one that leaves. */
  lemma OtherStays(w: World, v: World, host: Id, e: Entry<Job>, run: Id)
    requires Base(w) && Issued(w, e) && !About(e, run) && run in w.db.runs
    requires v.queue == AfterAck(w.queue, host, e.id) && v.db == w.db && v.tickets == w.tickets
    ensures StaysPut(w, v, run)
  {
    AckedLine(w.queue, host, e.id);
    var at := w.db.runs[run].host;
    if at == host && MayAck(w.queue, host, e.id) {
      assert Pending(w.queue, host)[0] == e;
      if run in w.tickets { assert About(w.tickets[run], run); }
    }
  }

  lemma ReleasesSafe(w: World, id: nat, run: Id)
    requires Base(w) && Safe(w, run) && !Overlaps(w, run) && id in w.requests && w.requests[id].phase.Releasing?
    ensures Safe(Releases(w, id), run)
  {
    var v, e := Releases(w, id), w.requests[id].phase.entry;
    assert RequestSound(w, id);
    assert ServedOne(w, v, id) && AnswerFits(w, v, id);
    ServingRousesNone(w, v, id, run);
    if run in w.db.runs {
      assert Roused(v, run) ==> Roused(w, run);
      if About(e, run) {
        assert IsReleasing(w.requests[id], run);
      } else {
        OtherStays(w, v, w.requests[id].host, e, run);
        QuietlySafe(w, v, run);
      }
    }
  }

  lemma ServesSafe(w: World, id: nat, ok: bool, run: Id)
    requires Base(w) && Safe(w, run) && !Overlaps(w, run)
    ensures Safe(Serves(w, id, ok), run)
  {
    if id in w.requests {
      assert RequestSound(w, id);
      match w.requests[id].phase
      case Claiming(_, _) => ClaimEndsSafe(w, id, ok, run);
      case Saying(_) => RunningSaidSafe(w, id, ok, run);
      case Judging(_) => WhatJudgesMoves(w, id, ok); JudgedSafe(w, Judges(w, id, ok), id, run);
      case Releasing(_) => ReleasesSafe(w, id, run);
    }
  }

  // ---- the agent

  /** One agent moves on with the entry it has, or forgets it. */
  ghost predicate AgentMoves(w: World, v: World, host: Id) {
    var was, a := AgentOf(w, host), AgentOf(v, host);
    && v == w.(db := v.db, disks := v.disks, agents := v.agents) && v.agents == w.agents[host := a]
    && v.db.runs == w.db.runs
    && (a == Idle || (EntryOf(a).Some? && EntryOf(a) == EntryOf(was) && !Waits(a) && !Waits(was) && (a.Publishing? <==> was.Publishing?)
                      && (a.Claimed? || a.Reposted? ==> was.Claimed? || was.Reposted?)))
  }

  lemma AgentMovesBase(w: World, v: World, host: Id)
    requires Base(w) && AgentMoves(w, v, host)
    ensures Base(v)
  {
    assert Later(w, v);
    forall h ensures SameAgent(w, v, h) || AgentSound(v, h) {
      assert AgentSound(w, h);
      if h == host && EntryOf(AgentOf(v, h)).Some? { StaysIssued(w, v, AgentOf(v, h).entry); }
    }
    BaseKept(w, v);
  }

  lemma AgentMovesSafe(w: World, v: World, host: Id, run: Id)
    requires Safe(w, run) && AgentMoves(w, v, host)
    ensures Safe(v, run)
  {
    if run in w.db.runs {
      forall h | AgentRouses(v, h, run) ensures AgentRouses(w, h, run) {}
      QuietlySafe(w, v, run);
    }
  }

  lemma BatchKeepsRuns(db: Db, run: Id, batch: seq<Record>)
    ensures IngestAll(db, run, batch).Ok? ==> IngestAll(db, run, batch).value.runs == db.runs
  {
    if IngestAll(db, run, batch).Ok? { BatchKeeps(db, run, batch); }
  }

  /** An agent that had its batch answered, whether taken or refused. */
  lemma BatchMoves(w: World, host: Id, a: Agent, db: Db, run: Id, batch: seq<Record>)
    requires db == w.db || (IngestAll(w.db, run, batch).Ok? && db == IngestAll(w.db, run, batch).value)
    requires EntryOf(a).Some? && EntryOf(a) == EntryOf(AgentOf(w, host)) && !Waits(a) && !Waits(AgentOf(w, host))
    requires !a.Publishing? && !AgentOf(w, host).Publishing?
    requires a.Claimed? || a.Reposted? ==> AgentOf(w, host).Claimed?
    ensures AgentMoves(w, w.(db := db, agents := w.agents[host := a]), host)
  {
    BatchKeepsRuns(w.db, run, batch);
  }

  lemma RepostsMoves(w: World, host: Id, batch: seq<Record>, ok: bool)
    ensures Reposts(w, host, batch, ok) == w || AgentMoves(w, Reposts(w, host, batch, ok), host)
  {
    var a, v := AgentOf(w, host), Reposts(w, host, batch, ok);
    if v != w { BatchMoves(w, host, AgentOf(v, host), v.db, a.entry.body.run, batch); }
  }

  lemma PostsRecordsMoves(w: World, host: Id, ok: bool)
    ensures PostsRecords(w, host, ok) == w || AgentMoves(w, PostsRecords(w, host, ok), host)
  {
    var a, v := AgentOf(w, host), PostsRecords(w, host, ok);
    if v != w { BatchMoves(w, host, AgentOf(v, host), v.db, a.entry.body.run, a.batch); }
  }

  lemma LooksMoves(w: World, host: Id)
    ensures LooksAtUnit(w, host) == w || AgentMoves(w, LooksAtUnit(w, host), host)
  {
  }

  lemma RunsMoves(w: World, host: Id, made: Option<seq<(FileName, Record)>>)
    ensures RunsUnit(w, host, made) == w || AgentMoves(w, RunsUnit(w, host, made), host)
  {
  }

  lemma CrashMoves(w: World, host: Id)
    ensures AgentMoves(w, AgentCrashes(w, host), host)
  {
  }

  lemma WritesNextMoves(w: World, host: Id)
    ensures WritesNext(w, host) == w || AgentMoves(w, WritesNext(w, host), host)
  {
  }

  lemma SaysRunningBase(w: World, host: Id)
    requires Base(w)
    ensures Base(SaysRunning(w, host))
  {
    var a := AgentOf(w, host);
    assert AgentSound(w, host);
    if a.Reposted? && a.entry.body.RunJob? { SendsBase(w, host, Saying(a.entry), Some(Telling(a.entry, a.done, w.sent))); }
  }

  lemma SaysRunningSafe(w: World, host: Id, run: Id)
    requires Base(w) && Safe(w, run)
    ensures Safe(SaysRunning(w, host), run)
  {
    var a := AgentOf(w, host);
    if a.Reposted? && a.entry.body.RunJob? && run in w.db.runs {
      FreshId(w);
      if About(a.entry, run) {
        assert AgentRouses(w, host, run);
        SendsSafe(w, host, Saying(a.entry), Some(Telling(a.entry, a.done, w.sent)), run);
      } else {
        OtherSendsSafe(w, SaysRunning(w, host), host, run);
      }
    }
  }

  lemma AcksRunBase(w: World, host: Id)
    requires Base(w)
    ensures Base(AcksRun(w, host))
  {
    var a := AgentOf(w, host);
    assert AgentSound(w, host);
    if a.Acking? && a.entry.body.RunJob? { SendsBase(w, host, Judging(a.entry), Some(AwaitingAck(a.entry, w.sent))); }
  }

  lemma AcksRunSafe(w: World, host: Id, run: Id)
    requires Base(w) && Safe(w, run)
    ensures Safe(AcksRun(w, host), run)
  {
    var v := AcksRun(w, host);
    if v != w && run in w.db.runs {
      FreshId(w);
      forall h | AgentRouses(v, h, run) ensures AgentRouses(w, h, run) { assert AgentSound(w, h); }
      QuietlySafe(w, v, run);
    }
  }

  lemma JobAcksBase(w: World, host: Id)
    requires Base(w)
    ensures Base(JobAcks(w, host))
  {
    var a, v := AgentOf(w, host), JobAcks(w, host);
    if a.Publishing? && a.entry.body.PublishJob? {
      var idle := w.(agents := w.agents[host := Idle]);
      AgentMovesBase(w, idle, host);
      if v != idle {
        AckedLines(idle, v, host, a.entry.id);
        NobodyKept(idle, v);
        RestKept(idle, v);
      }
    }
  }

  lemma JobAcksSafe(w: World, host: Id, run: Id)
    requires Base(w) && Safe(w, run)
    ensures Safe(JobAcks(w, host), run)
  {
    var a, v := AgentOf(w, host), JobAcks(w, host);
    if a.Publishing? && a.entry.body.PublishJob? {
      assert AgentSound(w, host);
      JobDone(w, v, host, a.entry, run);
    }
  }

  lemma JobDone(w: World, v: World, host: Id, e: Entry<Job>, run: Id)
    requires Base(w) && Safe(w, run) && Issued(w, e) && e.body.PublishJob?
    requires v == w.(agents := w.agents[host := Idle], queue := v.queue) && (v.queue == w.queue || v.queue == AfterAck(w.queue, host, e.id))
    ensures Safe(v, run)
  {
    if run in w.db.runs {
      if v.queue != w.queue { OtherStays(w, v, host, e, run); }
      QuietlySafe(w, v, run);
    }
  }

  lemma HubRestartsBase(w: World)
    requires Base(w)
    ensures Base(HubRestarts(w))
  {
    var v := HubRestarts(w);
    assert Later(w, v);
    forall h ensures SameAgent(w, v, h) || AgentSound(v, h) { assert AgentSound(w, h); }
    BaseKept(w, v);
  }

  lemma HubRestartsSafe(w: World, run: Id)
    requires Safe(w, run)
    ensures Safe(HubRestarts(w), run)
  {
    var v := HubRestarts(w);
    if run in w.db.runs {
      forall h | AgentRouses(v, h, run) ensures AgentRouses(w, h, run) {}
      QuietlySafe(w, v, run);
    }
  }

  // ---- the operator, the sweep and the clock

  /** One event that leaves a run active no more, or nothing. */
  ghost predicate StopsOne(w: World, v: World) {
    && NobodyMoves(w, v) && v.queue == w.queue && v.plans == w.plans && v.tickets == w.tickets
    && (forall r :: r in w.db.runs <==> r in v.db.runs)
    && (forall r | r in w.db.runs :: v.db.runs[r].host == w.db.runs[r].host
                                     && (IsActive(v.db.runs[r].state) ==> IsActive(w.db.runs[r].state)))
  }

  lemma StopsSafe(w: World, v: World, run: Id)
    requires Safe(w, run) && StopsOne(w, v)
    ensures Safe(v, run)
  {
    if run in w.db.runs { QuietlySafe(w, v, run); }
  }

  lemma AbandonStops(w: World, run: Id, ok: bool)
    ensures StopsOne(w, Abandons(w, run, ok))
  {
  }

  lemma FailedStops(w: World, sweep: set<Id>, run: Id)
    requires run in w.db.runs
    ensures StopsOne(w, w.(sweep := sweep, db := Posted(w.db, run, Failed, ByHub)))
  {
  }

  lemma SweepStops(w: World, run: Id, ok: bool)
    ensures StopsOne(w, SweepLooks(w, run, ok))
  {
    if run in w.sweep && run in w.db.runs && Silent(w, w.db.runs[run].host) && ok { FailedStops(w, w.sweep - {run}, run); }
  }

  lemma WhatIsAside(w: World, path: Id, row: PublishedRow, host: Id, artifact: Id)
    ensures StopsOne(w, Publishes(w, path, row)) && StopsOne(w, Reports(w, host, artifact))
  {
  }

  // ---- every step

  /** What a step of each kind is: an agent at its work, a run stopped or nothing, or one of the others. */
  predicate IsWork(a: Action) {
    a.Repost? || a.LookAtUnit? || a.RunUnit? || a.WriteNext? || a.PostRecords? || a.AgentCrash?
  }

  predicate IsAside(a: Action) {
    a.Abandon? || a.SweepStart? || a.SweepLook? || a.Publish? || a.Report? || a.Beat? || a.Tick?
  }

  lemma WorkStepMoves(w: World, a: Action)
    requires IsWork(a)
    ensures Step(w, a) == w || AgentMoves(w, Step(w, a), a.host)
  {
    match a
    case Repost(host, batch, ok) => RepostsMoves(w, host, batch, ok);
    case LookAtUnit(host) => LooksMoves(w, host);
    case RunUnit(host, made) => RunsMoves(w, host, made);
    case WriteNext(host) => WritesNextMoves(w, host);
    case PostRecords(host, ok) => PostsRecordsMoves(w, host, ok);
    case AgentCrash(host) => CrashMoves(w, host);
  }

  lemma AsideStops(w: World, a: Action)
    requires IsAside(a)
    ensures StopsOne(w, Step(w, a))
  {
    match a
    case Abandon(run, ok) => AbandonStops(w, run, ok);
    case SweepLook(run, ok) => SweepStops(w, run, ok);
    case SweepStart => var v := Step(w, a); assert v.db == w.db;
    case Publish(path, row) => WhatIsAside(w, path, row, path, path);
    case Report(host, artifact) => var v := Step(w, a); assert v.db.runs == w.db.runs;
    case Beat(_, _) => var v := Step(w, a); assert v.db == w.db;
    case Tick(_) => var v := Step(w, a); assert v.db == w.db;
  }

  lemma StepBase(w: World, a: Action)
    requires Base(w)
    ensures Base(Step(w, a))
  {
    if IsWork(a) {
      WorkStepMoves(w, a);
      if Step(w, a) != w { AgentMovesBase(w, Step(w, a), a.host); }
    } else if IsAside(a) {
      AsideStops(w, a);
      Unmoved(w, Step(w, a));
    } else {
      TalkBase(w, a);
    }
  }

  lemma TalkBase(w: World, a: Action)
    requires Base(w) && !IsWork(a) && !IsAside(a)
    ensures Base(Step(w, a))
  {
    match a
    case Enqueue(rows, plan, queueUp, ok) => EnqueuesBase(w, rows, plan, queueUp, ok);
    case EnqueueJob(host, files) => EnqueuesJobBase(w, host, files);
    case ClaimStart(host, waits) => ClaimStartsBase(w, host, waits);
    case Serve(id, ok) => ServesBase(w, id, ok);
    case SayRunning(host) => SaysRunningBase(w, host);
    case AckStart(host) => AcksRunBase(w, host);
    case JobAck(host) => JobAcksBase(w, host);
    case HubRestart => HubRestartsBase(w);
  }

  /** A step from a state in which nothing crosses keeps the run from being stranded. */
  lemma StepSafe(w: World, a: Action, run: Id)
    requires Base(w) && Safe(w, run) && !Overlaps(w, run)
    ensures Safe(Step(w, a), run)
  {
    if IsWork(a) {
      WorkStepMoves(w, a);
      if Step(w, a) != w { AgentMovesSafe(w, Step(w, a), a.host, run); }
    } else if IsAside(a) {
      AsideStops(w, a);
      StopsSafe(w, Step(w, a), run);
    } else {
      TalkSafe(w, a, run);
    }
  }

  lemma TalkSafe(w: World, a: Action, run: Id)
    requires Base(w) && Safe(w, run) && !Overlaps(w, run) && !IsWork(a) && !IsAside(a)
    ensures Safe(Step(w, a), run)
  {
    match a
    case Enqueue(rows, plan, queueUp, ok) => EnqueuesSafe(w, rows, plan, queueUp, ok, run);
    case EnqueueJob(host, files) => EnqueuesJobSafe(w, host, files, run);
    case ClaimStart(host, waits) => ClaimStartsSafe(w, host, waits, run);
    case Serve(id, ok) => ServesSafe(w, id, ok, run);
    case SayRunning(host) => SaysRunningSafe(w, host, run);
    case AckStart(host) => AcksRunSafe(w, host, run);
    case JobAck(host) => JobAcksSafe(w, host, run);
    case HubRestart => HubRestartsSafe(w, run);
  }

  lemma {:induction false} RunBase(w: World, actions: seq<Action>)
    requires Base(w)
    ensures Base(RunAll(w, actions))
    decreases |actions|
  {
    if actions != [] {
      StepBase(w, actions[0]);
      RunBase(Step(w, actions[0]), actions[1..]);
    }
  }

  lemma InitialBase(w: World)
    requires Initial(w)
    ensures Base(w) && forall run :: Safe(w, run)
  {
  }

  // ---- no run is stranded, but by two requests that cross

  /** How many of the entries are this run's. */
  function CountRun(es: seq<Entry<Job>>, run: Id): nat {
    if es == [] then 0
    else (if About(es[0], run) then 1 else 0) + CountRun(es[1..], run)
  }

  /** Active, and not with exactly one entry on its own host's line and none on any other. */
  ghost predicate Stranded(w: World, run: Id) {
    && run in w.db.runs && IsActive(w.db.runs[run].state)
    && !(CountRun(Pending(w.queue, w.db.runs[run].host), run) == 1
         && forall h | h != w.db.runs[run].host :: CountRun(Pending(w.queue, h), run) == 0)
  }

  lemma {:induction false} CountIs(es: seq<Entry<Job>>, run: Id, ticket: Entry<Job>)
    requires Ascending(es) && About(ticket, run) && forall x | x in es && About(x, run) :: x == ticket
    ensures CountRun(es, run) == if ticket in es then 1 else 0
  {
    if es != [] {
      CountIs(es[1..], run, ticket);
      assert ticket in es <==> es[0] == ticket || ticket in es[1..];
      assert es[0] == ticket ==> ticket !in es[1..];
    }
  }

  lemma {:induction false} CountNone(es: seq<Entry<Job>>, run: Id)
    requires forall x | x in es :: !About(x, run)
    ensures CountRun(es, run) == 0
  {
    if es != [] { CountNone(es[1..], run); }
  }

  /** Stranded means: active with no entry, since no run ever has two. */
  lemma StrandedIs(w: World, run: Id)
    requires Base(w)
    ensures Stranded(w, run) <==> run in w.db.runs && IsActive(w.db.runs[run].state) && !Queued(w, run)
  {
    if run in w.db.runs {
      forall h ensures CountRun(Pending(w.queue, h), run) ==
                         if run in w.tickets && w.tickets[run] in Pending(w.queue, h) then 1 else 0
      {
        assert LineSound(w, h);
        if run in w.tickets { CountIs(Pending(w.queue, h), run, w.tickets[run]); } else { CountNone(Pending(w.queue, h), run); }
      }
      forall h | run in w.tickets && w.tickets[run] in Pending(w.queue, h) ensures h == w.db.runs[run].host { assert LineSound(w, h); }
    }
  }

  /** In no state before the last does what makes the run active cross the release of its entry. */
  ghost predicate NeverCrosses(w: World, actions: seq<Action>, run: Id)
    decreases |actions|
  {
    actions != [] ==> !Overlaps(w, run) && NeverCrosses(Step(w, actions[0]), actions[1..], run)
  }

  lemma {:induction false} RunSafe(w: World, actions: seq<Action>, run: Id)
    requires Base(w) && Safe(w, run) && NeverCrosses(w, actions, run)
    ensures Base(RunAll(w, actions)) && Safe(RunAll(w, actions), run)
    decreases |actions|
  {
    if actions != [] {
      StepBase(w, actions[0]);
      StepSafe(w, actions[0], run);
      RunSafe(Step(w, actions[0]), actions[1..], run);
    }
  }

  /** Over every interleaving of enqueues, claims, events, records, acks, abandons, sweeps, heartbeats and crashes,
      with any number of a host's requests in flight: a run that is planned, launched or running has exactly one
      entry pending, on its own host's line, unless a request that makes it active has crossed the release of its entry. */
  lemma NoRunIsStranded(start: World, actions: seq<Action>, run: Id)
    requires Initial(start) && NeverCrosses(start, actions, run)
    ensures !Stranded(RunAll(start, actions), run)
  {
    InitialBase(start);
    RunSafe(start, actions, run);
    StrandedIs(RunAll(start, actions), run);
  }
}
