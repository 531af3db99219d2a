/** The hub's handlers, run one at a time on its store and its queue (sweep/hub/api/agents.py,
    sweep/hub/api/runs.py, sweep/hub/planner.py, sweep/hub/wait.py), proved to take exactly the steps of
    `Protocol`: what is proved of every interleaving of those steps is proved of these. */
module Hub {
  import opened Names
  import opened Wrappers
  import opened Tables
  import opened Ingest
  import opened Verify
  import opened Runs
  import opened Queue
  import opened Protocol
  import Store

  /** What a claim answers. */
  datatype Answer = Nothing | PublishWork(entry: Entry<Job>) | RunWork(entry: Entry<Job>, done: set<Id>)

  /** A heartbeat's payload: the run and the counts it reports. */
  datatype Progress = Progress(run: Option<Id>, done: nat, total: nat)

  /** The hub's own part of a world in which no request is being served and every agent is idle. */
  function AtRest(db: Db, q: QueueState<Job>): World { World(db, q, map[], 0, map[], map[], map[], 0, {}, map[], map[]) }

  /** A claim from its first line to its answer, with nothing in between. */
  ghost function Claims(w: World, host: Id, ok: bool): World { Serves(ClaimStarts(w, host, true), w.sent, ok) }

  /** An ack from its first line to its answer. */
  ghost function Acks(w: World, host: Id, entry: Entry<Job>, ok: bool): World {
    Serves(Serves(AcksRun(w.(agents := map[host := Acking(entry)]), host), w.sent, ok), w.sent, ok)
  }

  function AnswerOf(a: Agent): Answer {
    match a
    case Publishing(e) => PublishWork(e)
    case Claimed(e, done) => RunWork(e, done)
    case _ => Nothing
  }

  // ---- the two requests that take two steps, written out

  /** The event a claim posts: a run that never started, or failed, is launched. */
  function Launching(db: Db, run: Id): Db
    requires run in db.runs
  {
    if db.runs[run].state in {RunState.Planned, Failed} then Posted(db, run, Launched, ByHub) else db
  }

  lemma StaleServed(w: World, host: Id, entry: Entry<Job>, ok: bool)
    ensures var v := Serves(Sends(w, host, Releasing(entry), Some(Waiting(w.sent))), w.sent, ok);
            v.db == w.db && v.queue == AfterAck(w.queue, host, entry.id) && AgentOf(v, host) == Idle
  {
    var u := Sends(w, host, Releasing(entry), Some(Waiting(w.sent)));
    assert u.requests[w.sent] == Request(host, Releasing(entry)) && AgentOf(u, host) == Waiting(w.sent);
  }

  lemma ClaimServed(w: World, host: Id, entry: Entry<Job>, ok: bool)
    requires entry.body.RunJob? && entry.body.run in w.db.runs
    ensures var run := entry.body.run;
            var v := Serves(Sends(w, host, Claiming(entry, w.db.runs[run].state), Some(Waiting(w.sent))), w.sent, ok);
            && v.queue == w.queue && v.db == (if ok then Launching(w.db, run) else w.db)
            && AgentOf(v, host) == if ok then Claimed(entry, Done(w.db, run, w.db.runs[run].stage, entry.body.plan)) else Idle
  {
    var u := Sends(w, host, Claiming(entry, w.db.runs[entry.body.run].state), Some(Waiting(w.sent)));
    assert u.requests[w.sent] == Request(host, Claiming(entry, w.db.runs[entry.body.run].state)) && AgentOf(u, host) == Waiting(w.sent);
  }

  lemma ClaimsAre(db: Db, q: QueueState<Job>, host: Id, ok: bool)
    requires Pending(q, host) != []
    ensures var v, entry, held := Claims(AtRest(db, q), host, ok), Pending(q, host)[0], AfterClaim(q, host);
            if entry.body.PublishJob? then v.db == db && v.queue == held && AgentOf(v, host) == Publishing(entry)
            else if Stale(db, entry.body.run, host) then v.db == db && v.queue == AfterAck(held, host, entry.id) && AgentOf(v, host) == Idle
            else if !MayHandOut(db, entry.body.run, host) || !ok then v.db == db && v.queue == held && AgentOf(v, host) == Idle
            else
              && v.db == Launching(db, entry.body.run) && v.queue == held
              && AgentOf(v, host) == Claimed(entry, Done(db, entry.body.run, db.runs[entry.body.run].stage, entry.body.plan))
  {
    var entry, held := Pending(q, host)[0], AtRest(db, AfterClaim(q, host));
    assert ClaimStarts(AtRest(db, q), host, true) == Offers(held, host, entry, true);
    if entry.body.RunJob? {
      if Stale(db, entry.body.run, host) {
        StaleServed(held, host, entry, ok);
      } else if MayHandOut(db, entry.body.run, host) {
        ClaimServed(held, host, entry, ok);
      }
    }
  }

  // ---- the quiet machine

  /** No other run that is launched or running has its host on this host's machine. */
  ghost predicate Alone(db: Db, run: Id, host: Id) {
    forall r | r in db.runs && r != run && (db.runs[r].state == Launched || db.runs[r].state == Running) ::
      host !in db.catalogue.machines || db.runs[r].host !in db.catalogue.machines
      || db.catalogue.machines[db.runs[r].host] != db.catalogue.machines[host]
  }

  /** A plan that the store takes is refused exactly when it is a timing, split or concurrency run and its machine is
      not quiet: no run on any host of that machine may be launched or running. */
  lemma EnqueuedExactly(w: World, rows: RunPlan, plan: Plan, queueUp: bool)
    requires MayPlan(w.db, rows) && BuiltTogether(rows, plan)
    ensures var v := Enqueues(w, rows, plan, queueUp, true);
            if rows.row.stage in {Time, Split, Concurrency} && !Alone(w.db, rows.run, rows.row.host) then v == w
            else rows.run in v.db.runs && v.db.runs[rows.run].state == if queueUp then RunState.Planned else Abandoned
  {
    var db := Runs.Planned(w.db, rows);
    assert forall r | r in db.runs && r != rows.run :: r in w.db.runs && db.runs[r] == w.db.runs[r];
    assert Busy(db, rows.row.host, rows.run) <==> !Alone(w.db, rows.run, rows.row.host);
  }

  /** A host is handed its oldest run exactly when the run is not over and is this host's, the host reports the
      artifact it was planned for, and, for a timing, split or concurrency run, no other run is active on the machine.
      The run's own state does not count against it, and what runs beside a run of another stage is not asked. */
  lemma HandedOutExactly(db: Db, q: QueueState<Job>, host: Id)
    requires Pending(q, host) != [] && Pending(q, host)[0].body.RunJob?
    ensures var run, v := Pending(q, host)[0].body.run, Claims(AtRest(db, q), host, true);
            AgentOf(v, host).Claimed? <==>
              && run in db.runs && db.runs[run].state != Complete && db.runs[run].state != Abandoned && db.runs[run].host == host
              && host in db.catalogue.identities && db.catalogue.identities[host] == db.runs[run].artifact
              && (db.runs[run].stage in {Time, Split, Concurrency} ==> Alone(db, run, host))
  {
    var run := Pending(q, host)[0].body.run;
    ClaimsAre(db, q, host, true);
    assert Busy(db, host, run) <==> !Alone(db, run, host);
  }

  /** The rule looks one way only: a run of another stage is handed out on a machine where a timing run is running, and
      from then on the two run side by side. */
  lemma TimingRunDisturbed(db: Db, q: QueueState<Job>, host: Id, timing: Id)
    requires Pending(q, host) != [] && Pending(q, host)[0].body.RunJob?
    requires var run := Pending(q, host)[0].body.run;
             && run in db.runs && db.runs[run].state == RunState.Planned && db.runs[run].host == host && !IsQuiet(db.runs[run].stage)
             && host in db.catalogue.identities && db.catalogue.identities[host] == db.runs[run].artifact && host in db.catalogue.machines
    requires timing in db.runs && db.runs[timing].stage == Time && db.runs[timing].state == Running
    requires db.runs[timing].host in db.catalogue.machines && db.catalogue.machines[db.runs[timing].host] == db.catalogue.machines[host]
    ensures var run, v := Pending(q, host)[0].body.run, Claims(AtRest(db, q), host, true);
            v.db.runs[run].state == Launched && v.db.runs[timing].state == Running && !Alone(v.db, timing, db.runs[timing].host)
  {
    var run, v := Pending(q, host)[0].body.run, Claims(AtRest(db, q), host, true);
    ClaimsAre(db, q, host, true);
    assert v.db.runs[run].host == host && run != timing;
  }

  function LastEvent(db: Db, run: Id): Event
    requires EventsOf(db, run) != []
  {
    EventsOf(db, run)[|EventsOf(db, run)| - 1]
  }

  /** What has become of an entry a host was given, and the answer. */
  ghost predicate Offered(db: Db, q: QueueState<Job>, host: Id, entry: Entry<Job>, checks: Db -> bool, now: Db, after: QueueState<Job>, answer: Answer) {
    if entry.body.PublishJob? then now == db && after == q && answer == PublishWork(entry)
    else if Stale(db, entry.body.run, host) then now == db && after == AfterAck(q, host, entry.id) && answer == Nothing
    else if !MayHandOut(db, entry.body.run, host) || !checks(Launching(db, entry.body.run)) then now == db && after == q && answer == Nothing
    else
      && now == Launching(db, entry.body.run) && after == q
      && answer == RunWork(entry, Done(db, entry.body.run, db.runs[entry.body.run].stage, entry.body.plan))
  }

  lemma OfferIsClaim(db: Db, q: QueueState<Job>, host: Id, checks: Db -> bool, now: Db, after: QueueState<Job>, answer: Answer)
    requires Pending(q, host) != [] && Offered(db, AfterClaim(q, host), host, Pending(q, host)[0], checks, now, after, answer) && checks(db)
    ensures var w := AtRest(db, q);
            var v := Claims(w, host, checks(Claims(w, host, true).db));
            now == v.db && after == v.queue && answer == AnswerOf(AgentOf(v, host))
  {
    ClaimsAre(db, q, host, true);
    ClaimsAre(db, q, host, checks(Claims(AtRest(db, q), host, true).db));
  }

  function Judged(db: Db, run: Id, state: RunState): Db
    requires run in db.runs
  {
    if db.runs[run].state == Abandoned then db else Posted(db, run, state, ByHub)
  }

  /** The verdict an ack reaches of a run, on whatever entry was found. */
  ghost function Ruled(db: Db, run: Id, e: Entry<Job>): Db
    requires run in db.runs
  {
    Judged(db, run, Verdict(db, run, PlanOf(e.body)))
  }

  lemma AcksAre(db: Db, q: QueueState<Job>, run: Id, id: nat, ok: bool)
    requires run in db.runs
    ensures var host := db.runs[run].host;
            var v, found := Acks(AtRest(db, q), host, Asked(db, run, id), ok), FindPending(Pending(q, host), id);
            if found.None? || (db.runs[run].state != Abandoned && !ok) then v.db == db && v.queue == q
            else v.db == Ruled(db, run, found.value) && v.queue == AfterAck(q, host, id)
  {
    var host := db.runs[run].host;
    var sent := AcksRun(AtRest(db, q).(agents := map[host := Acking(Asked(db, run, id))]), host);
    assert sent.requests == map[0 := Request(host, Judging(Asked(db, run, id)))];
  }

  /** Ids are distinct along every line. */
  ghost predicate IdsDistinct(q: QueueState<Job>) {
    forall h, i, j | 0 <= i < j < |Pending(q, h)| :: Pending(q, h)[i].id != Pending(q, h)[j].id
  }

  /** What an ack of a run releases: the entry the run's host holds under that id, whosever it is and of whatever
      kind; a publish job too, published or not, and another run's. */
  lemma WhatAckReleases(db: Db, q: QueueState<Job>, run: Id, id: nat, ok: bool, host: Id, e: Entry<Job>)
    requires run in db.runs && QueueOk(q) && IdsDistinct(q) && e in Pending(q, host)
    ensures var v := Acks(AtRest(db, q), db.runs[run].host, Asked(db, run, id), ok);
            e !in Pending(v.queue, host) <==>
              host == db.runs[run].host && Held(q, host) == Some(e) && e.id == id && (db.runs[run].state == Abandoned || ok)
  {
    AcksAre(db, q, run, id, ok);
    var at := db.runs[run].host;
    if MayAck(q, at, id) {
      assert FindPending(Pending(q, at), id) == Some(Pending(q, at)[0]);
      assert forall x | x in Pending(q, at)[1..] :: x.id != id;
      assert Pending(AfterAck(q, at, id), at) == Pending(q, at)[1..];
      if host == at && e.id != id { assert e in Pending(q, at)[1..]; }
    }
    if host != at { OtherHostsUnaffected(q, DoAck(at, id), host); }
  }

  /** So an ack of one run that names another's entry leaves the other active with no entry pending anywhere. */
  lemma ForeignAckStrands(db: Db, q: QueueState<Job>, run: Id, ok: bool, e: Entry<Job>, other: Id)
    requires run in db.runs && other in db.runs && other != run && IsActive(db.runs[other].state) && QueueOk(q) && IdsDistinct(q)
    requires Held(q, db.runs[run].host) == Some(e) && About(e, other) && (db.runs[run].state == Abandoned || ok)
    requires forall h, x | x in Pending(q, h) && About(x, other) :: x == e && h == db.runs[run].host
    ensures var v := Acks(AtRest(db, q), db.runs[run].host, Asked(db, run, e.id), ok);
            && other in v.db.runs && IsActive(v.db.runs[other].state)
            && forall h, x | x in Pending(v.queue, h) :: !About(x, other)
  {
    var at := db.runs[run].host;
    AcksAre(db, q, run, e.id, ok);
    WhatAckReleases(db, q, run, e.id, ok, at, e);
    forall h, x | x in Pending(AfterAck(q, at, e.id), h) ensures !About(x, other) {
      if h != at { OtherHostsUnaffected(q, DoAck(at, e.id), h); }
      assert x in Pending(q, h);
    }
  }

  /** The entry an ack of this run and this id is about, as far as the ack reads it. */
  function Asked(db: Db, run: Id, id: nat): Entry<Job>
    requires run in db.runs
  {
    Entry(id, db.runs[run].host, RunJob(run, Plan([], [], [])))
  }

  /** A store between requests has passed its checks. */
  class Service {
    const store: Store.Connection
    const queue: FakeQueue<Job, Progress>

    ghost predicate Valid()
      reads this, store, queue
    {
      store.undo.None? && store.checks(store.conn) && queue.Valid()
    }

    constructor (store: Store.Connection, queue: FakeQueue<Job, Progress>)
      requires store.undo.None? && store.checks(store.conn) && queue.Valid()
      ensures Valid() && this.store == store && this.queue == queue
    {
      this.store, this.queue := store, queue;
    }

    // ---- agents

    method Claim(host: Id) returns (answer: Answer)
      requires Valid()
      modifies store, queue
      ensures Valid() && queue.beats == old(queue.beats)
      ensures var w := old(AtRest(store.conn, queue.State()));
              var v := Claims(w, host, store.checks(Claims(w, host, true).db));
              store.conn == v.db && queue.State() == v.queue && answer == AnswerOf(AgentOf(v, host))
      ensures answer.RunWork? ==> answer.entry.body.RunJob? && answer.entry.body.run in store.conn.runs
    {
      ghost var db, q := store.conn, queue.State();
      var claimed := queue.Claim(host);
      if claimed.None? { return Nothing; }
      answer := Offer(host, claimed.value);
      OfferIsClaim(db, q, host, store.checks, store.conn, queue.State(), answer);
    }

    /** What becomes of the entry a host has just been given: a publish job goes out as it is, a stale entry is acked
        away, a run that may not start stays held, any other is launched. */
    method Offer(host: Id, entry: Entry<Job>) returns (answer: Answer)
      requires Valid()
      modifies store, queue
      ensures Valid() && queue.beats == old(queue.beats)
      ensures Offered(old(store.conn), old(queue.State()), host, entry, store.checks, store.conn, queue.State(), answer)
    {
      if entry.body.PublishJob? { return PublishWork(entry); }
      var run := entry.body.run;
      var db := store.conn;
      if run !in db.runs || db.runs[run].state in {Complete, Abandoned} || db.runs[run].host != host {
        var _ := queue.Ack(host, entry.id);
        return Nothing;
      }
      if host !in db.catalogue.identities || db.catalogue.identities[host] != db.runs[run].artifact { return Nothing; }
      if IsQuiet(db.runs[run].stage) && Busy(db, host, run) { return Nothing; }
      var done := Launch(run, entry.body.plan);
      answer := if done.Some? then RunWork(entry, done.value) else Nothing;
    }

    /** The claim's transaction: the launch, and what the store already holds of the plan. */
    method Launch(run: Id, plan: Plan) returns (done: Option<set<Id>>)
      requires Valid() && run in store.conn.runs
      modifies store
      ensures Valid()
      ensures done.Some? <==> store.checks(Launching(old(store.conn), run))
      ensures store.conn == if done.Some? then Launching(old(store.conn), run) else old(store.conn)
      ensures done.Some? ==> done.value == Done(old(store.conn), run, old(store.conn).runs[run].stage, plan)
    {
      ghost var db := store.conn;
      store.Begin();
      if store.conn.runs[run].state in {RunState.Planned, Failed} {
        var _ := store.PostEvent(run, Launched, ByHub);
      }
      var held := DoneCells(store.conn, run, store.conn.runs[run].stage, plan);
      PostedDone(db, run, Launched, ByHub, plan);
      var ok := store.End(true, true);
      done := if ok then Some(held) else None;
    }

    /** An agent may post `running` or `failed`; nothing else. */
    method Events(run: Id, state: RunState) returns (ok: bool)
      requires Valid()
      modifies store
      ensures Valid()
      ensures var may := state in {Running, Failed} && run in old(store.conn).runs;
              && (ok <==> may && store.checks(Posted(old(store.conn), run, state, ByAgent)))
              && store.conn == if ok then Posted(old(store.conn), run, state, ByAgent) else old(store.conn)
    {
      if state != Running && state != Failed { return false; }
      store.Begin();
      var posted := store.PostEvent(run, state, ByAgent);
      ok := store.End(posted, true);
    }

    /** One transaction for the batch. */
    method Records(run: Id, batch: seq<Record>) returns (ok: bool)
      requires Valid()
      modifies store
      ensures Valid()
      ensures var posted := PostBatch(store.checks, old(store.conn), run, batch);
              && (ok <==> run in old(store.conn).runs && posted.Ok?)
              && store.conn == if ok then posted.value else old(store.conn)
    {
      store.Begin();
      ghost var db := store.conn;
      ok := run in store.conn.runs;
      var i := 0;
      while ok && i < |batch|
        invariant 0 <= i <= |batch|
        invariant store.undo == Some(db)
        invariant ok ==> run in db.runs && IngestAll(db, run, batch) == IngestAll(store.conn, run, batch[i..])
        invariant !ok ==> run !in db.runs || IngestAll(db, run, batch).Refused?
      {
        assert batch[i..][0] == batch[i] && batch[i..][1..] == batch[i + 1..];
        ok := store.StoreRecord(run, batch[i]);
        i := i + 1;
      }
      if ok { assert batch[i..] == []; }
      ok := store.End(ok, true);
    }

    /** The verdict in one transaction, then the entry goes; a queue that refuses does so after the verdict is in.
        Neither the entry's kind nor its run is looked at. */
    method Ack(run: Id, id: nat) returns (state: Option<RunState>)
      requires Valid()
      modifies store, queue
      ensures Valid() && queue.beats == old(queue.beats)
      ensures run !in old(store.conn).runs ==>
                state == None && store.conn == old(store.conn) && queue.State() == old(queue.State())
      ensures run in old(store.conn).runs ==>
                var w, host := old(AtRest(store.conn, queue.State())), old(store.conn).runs[run].host;
                var entry := Asked(w.db, run, id);
                var v := Acks(w, host, entry, store.checks(Acks(w, host, entry, true).db));
                && store.conn == v.db && queue.State() == v.queue
                && (state.Some? ==> store.conn.runs[run].state == state.value)
      ensures run in old(store.conn).runs ==>
                var db, q, host := old(store.conn), old(queue.State()), old(store.conn).runs[run].host;
                var found := FindPending(Pending(q, host), id);
                var due := found.Some? && store.checks(Ruled(db, run, found.value));
                && store.conn == (if due then Ruled(db, run, found.value) else db)
                && (state.Some? <==> due && MayAck(q, host, id))
                && (!due ==> queue.State() == q)
    {
      if run !in store.conn.runs { return None; }
      var host := store.conn.runs[run].host;
      ghost var db, q := store.conn, queue.State();
      ghost var w := AtRest(db, q);
      AcksAre(db, q, run, id, true);
      AcksAre(db, q, run, id, store.checks(Acks(w, host, Asked(db, run, id), true).db));
      var pending := queue.PendingEntries(host);
      var found := FindPending(pending, id);
      if found.None? { return None; }
      state := Judge(run, PlanOf(found.value.body));
      if state.Some? {
        var released := queue.Ack(host, id);
        if !released { state := None; }
      }
    }

    /** The ack's transaction: an abandoned run keeps its state, any other gets its verdict. */
    method Judge(run: Id, plan: Plan) returns (state: Option<RunState>)
      requires Valid() && run in store.conn.runs
      modifies store
      ensures Valid()
      ensures var judged := Judged(old(store.conn), run, Verdict(old(store.conn), run, plan));
              && (state.Some? <==> store.checks(judged))
              && store.conn == (if state.Some? then judged else old(store.conn))
              && (state.Some? ==> judged.runs[run].state == state.value)
    {
      store.Begin();
      var row := store.conn.runs[run];
      var judged := Abandoned;
      if row.state != Abandoned {
        var reason := VerifyAtAck(store.conn, run, row, plan);
        judged := if reason.None? then Complete else Failed;
        var _ := store.PostEvent(run, judged, ByHub);
      }
      var ok := store.End(true, true);
      state := if ok then Some(judged) else None;
    }

    /** A publish job's ack: refused, and the job kept, until every file it names is a published row. */
    method JobAck(host: Id, id: nat) returns (ok: bool)
      requires Valid()
      modifies queue
      ensures Valid() && queue.beats == old(queue.beats)
      ensures var q, found := old(queue.State()), FindPending(Pending(old(queue.State()), host), id);
              && (ok <==> found.Some? && found.value.body.PublishJob? && AllPublished(store.conn, found.value.body.files) && MayAck(q, host, id))
              && queue.State() == if ok then AfterAck(q, host, id) else q
    {
      var pending := queue.PendingEntries(host);
      var found := FindPending(pending, id);
      if found.None? || !found.value.body.PublishJob? { return false; }
      var reason := VerifyPublish(store.conn, found.value.body.files);
      if reason.Some? { return false; }
      ok := queue.Ack(host, id);
    }

    /** Read between cells: whether the log's last word on the run is that it was abandoned. */
    method AbandonFlag(run: Id) returns (abandon: bool)
      ensures LogAgrees(store.conn) ==> (abandon <==> EventsOf(store.conn, run) != [] && LastEvent(store.conn, run).state == Abandoned)
      ensures abandon <==> run in store.conn.runs && store.conn.runs[run].state == Abandoned
    {
      abandon := run in store.conn.runs && store.conn.runs[run].state == Abandoned;
    }

    // ---- the operator and the hub's own loop

    method Abandon(run: Id) returns (ok: bool)
      requires Valid()
      modifies store
      ensures Valid()
      ensures var w := AtRest(old(store.conn), queue.State());
              && store.conn == Abandons(w, run, store.checks(Abandons(w, run, true).db)).db
              && (ok <==>
                    && run in w.db.runs && store.checks(Abandons(w, run, true).db)
                    && (w.db.runs[run].state == RunState.Planned || w.db.runs[run].state == Launched || w.db.runs[run].state == Running))
              && (ok ==> store.conn.runs[run].state == Abandoned)
    {
      store.Begin();
      var may := run in store.conn.runs && !IsTerminal(store.conn.runs[run].state);
      if may {
        var _ := store.PostEvent(run, Abandoned, ByHub);
      }
      ok := store.End(may, true);
    }

    /** The plan in one checked transaction, the quiet machine asked inside it, then the entry; a queue that
        fails leaves the run abandoned. */
    method Enqueue(rows: RunPlan, plan: Plan, queueUp: bool) returns (id: Option<nat>)
      requires Valid() && BuiltTogether(rows, plan)
      modifies store, queue
      ensures Valid() && queue.beats == old(queue.beats)
      ensures var w := old(AtRest(store.conn, queue.State()));
              var v := Enqueues(w, rows, plan, queueUp, MayPlan(w.db, rows) && store.checks(Runs.Planned(w.db, rows)));
              queueUp || store.checks(v.db) ==> store.conn == v.db && queue.State() == v.queue
      ensures queue.State() == old(queue.State()) <==> id.None?
      ensures id.Some? ==> queueUp && id.value == queue.next && rows.run in store.conn.runs && store.conn.runs[rows.run].state == RunState.Planned
    {
      store.Begin();
      var planned := store.PlanRun(rows);
      if planned && IsQuiet(rows.row.stage) && Busy(store.conn, rows.row.host, rows.run) {
        planned := false;
      }
      var ok := store.End(planned, true);
      if !ok { return None; }
      if !queueUp {
        store.Begin();
        var _ := store.PostEvent(rows.run, Abandoned, ByHub);
        var _ := store.End(true, true);
        return None;
      }
      var entry := queue.Enqueue(rows.row.host, RunJob(rows.run, plan));
      id := Some(entry);
    }

    /** Fail every run that was active when the sweep began and whose host's heartbeat has expired; the first
        refusal ends the sweep. */
    method SweepOnce(now: int) returns (ok: bool, failed: set<Id>)
      requires Valid()
      modifies store
      ensures Valid()
      ensures failed <= ActiveAndSilent(old(store.conn), queue.beats, now)
      ensures store.conn == AllFailed(old(store.conn), failed)
      ensures if ok then failed == ActiveAndSilent(old(store.conn), queue.beats, now)
              else exists run :: run in ActiveAndSilent(old(store.conn), queue.beats, now) - failed && !store.checks(AllFailed(old(store.conn), failed + {run}))
    {
      ghost var db := store.conn;
      ghost var silentOnes := ActiveAndSilent(db, queue.beats, now);
      failed, ok := {}, true;
      var active := set r | r in store.conn.runs && store.conn.runs[r].state in {Launched, Running};
      var left := active;
      FailedNone(db);
      while left != {}
        invariant Valid()
        invariant left <= active
        invariant forall r | r in failed :: r !in left
        invariant failed <= silentOnes <= failed + left
        invariant store.conn == AllFailed(db, failed)
        decreases |left|
      {
        var run :| run in left;
        FailedOneMore(db, failed, run);
        assert run in silentOnes <==> SilentSince(queue.beats, db.runs[run].host, now);
        var silent;
        ok, silent := FailIfSilent(run, now);
        if !ok {
          assert run in silentOnes - failed;
          return;
        }
        if silent { failed := failed + {run}; }
        left := left - {run};
      }
    }

    method FailIfSilent(run: Id, now: int) returns (ok: bool, silent: bool)
      requires Valid() && run in store.conn.runs
      modifies store
      ensures Valid()
      ensures silent <==> SilentSince(queue.beats, old(store.conn).runs[run].host, now)
      ensures ok <==> !silent || store.checks(Posted(old(store.conn), run, Failed, ByHub))
      ensures store.conn == if ok && silent then Posted(old(store.conn), run, Failed, ByHub) else old(store.conn)
    {
      var pulse := queue.Pulse(store.conn.runs[run].host, now);
      ok, silent := true, pulse.None?;
      if silent {
        store.Begin();
        var _ := store.PostEvent(run, Failed, ByHub);
        ok := store.End(true, true);
      }
    }
  }

  predicate SilentSince(beats: map<Id, (Progress, int)>, host: Id, now: int) { host !in beats || now > beats[host].1 }

  /** The runs a sweep finds launched or running whose host has been silent for longer than its heartbeat lasts. */
  ghost function ActiveAndSilent(db: Db, beats: map<Id, (Progress, int)>, now: int): set<Id> {
    set r | r in db.runs && db.runs[r].state in {Launched, Running}
            && SilentSince(beats, db.runs[r].host, now)
  }

  /** Each of these runs failed by one event of the hub's, everything else as it was. */
  function AllFailed(db: Db, runs: set<Id>): Db {
    db.(runs := map r | r in db.runs :: if r in runs then db.runs[r].(state := Failed) else db.runs[r],
        events := map r | r in db.events.Keys + runs :: if r in runs then EventsOf(db, r) + [Event(Failed, ByHub)] else EventsOf(db, r))
  }

  lemma FailedNone(db: Db)
    ensures AllFailed(db, {}) == db
  {
    assert AllFailed(db, {}).runs == db.runs && AllFailed(db, {}).events == db.events;
  }

  lemma FailedOneMore(db: Db, runs: set<Id>, run: Id)
    requires run in db.runs && run !in runs
    ensures run in AllFailed(db, runs).runs && AllFailed(db, runs).runs[run] == db.runs[run]
    ensures Posted(AllFailed(db, runs), run, Failed, ByHub) == AllFailed(db, runs + {run})
  {
    var a, b := Posted(AllFailed(db, runs), run, Failed, ByHub), AllFailed(db, runs + {run});
    assert a.runs == b.runs && a.events == b.events;
  }

  // ---- events, records and the sweep are the protocol's steps too

  /** A resting hub and one agent. */
  function WithAgent(db: Db, q: QueueState<Job>, host: Id, a: Agent): World { AtRest(db, q).(agents := map[host := a]) }

  /** `running`, from the agent's saying it to the hub's answer, is the event of `Service.Events`. */
  lemma EventsAre(db: Db, q: QueueState<Job>, host: Id, entry: Entry<Job>, done: set<Id>, ok: bool)
    requires entry.body.RunJob?
    ensures var w := WithAgent(db, q, host, Reposted(entry, done));
            var v, run := Serves(SaysRunning(w, host), w.sent, ok), entry.body.run;
            && v.db == (if ok && run in db.runs then Posted(db, run, Running, ByAgent) else db)
            && v.queue == q && AgentOf(v, host) == AtUnit(entry, done, 0)
  {
    var w := WithAgent(db, q, host, Reposted(entry, done));
    var u := SaysRunning(w, host);
    assert u.requests == map[0 := Request(host, Saying(entry))] && AgentOf(u, host) == Telling(entry, done, 0);
  }

  /** The post of a unit's batch is the transaction of `Service.Records`. */
  lemma RecordsAre(db: Db, q: QueueState<Job>, host: Id, entry: Entry<Job>, done: set<Id>, n: nat, batch: seq<Record>, checks: Db -> bool)
    requires entry.body.RunJob? && entry.body.run in db.runs && batch != []
    requires n < |UnitKeys(db.runs[entry.body.run].stage, entry.body.plan)|
    ensures var posted, all := PostBatch(checks, db, entry.body.run, batch), IngestAll(db, entry.body.run, batch);
            var v := PostsRecords(WithAgent(db, q, host, Writing(entry, done, n, [], batch)), host, all.Ok? && checks(all.value));
            && v.db == (if posted.Ok? then posted.value else db) && v.queue == q
            && AgentOf(v, host) == AtUnit(entry, if posted.Ok? then done + {UnitKeys(db.runs[entry.body.run].stage, entry.body.plan)[n]} else done, n + 1)
  {
  }

  function LooksAtAll(w: World, order: seq<Id>): World
    decreases |order|
  {
    if order == [] then w else LooksAtAll(SweepLooks(w, order[0], true), order[1..])
  }

  ghost function ToFail(w: World): set<Id> { set r | r in w.sweep && r in w.db.runs && Silent(w, w.db.runs[r].host) }

  lemma FailedFirst(db: Db, runs: set<Id>, run: Id)
    requires run in db.runs && run in runs
    ensures AllFailed(Posted(db, run, Failed, ByHub), runs - {run}) == AllFailed(db, runs)
  {
    var a, b := AllFailed(Posted(db, run, Failed, ByHub), runs - {run}), AllFailed(db, runs);
    assert a.runs == b.runs && a.events == b.events;
  }

  /** One look leaves the rest to fail as they were to. */
  lemma OneLook(w: World, run: Id)
    requires run in w.sweep && w.sweep <= w.db.runs.Keys
    ensures var v := SweepLooks(w, run, true);
            v.sweep == w.sweep - {run} && v.sweep <= v.db.runs.Keys && AllFailed(v.db, ToFail(v)) == AllFailed(w.db, ToFail(w))
  {
    var v := SweepLooks(w, run, true);
    if Silent(w, w.db.runs[run].host) {
      assert v.db == Posted(w.db, run, Failed, ByHub) && v.beats == w.beats && v.clock == w.clock;
      LaterFails(w, v, run);
      FailedFirst(w.db, ToFail(w), run);
    } else {
      assert v == w.(sweep := w.sweep - {run});
      assert ToFail(v) == ToFail(w);
    }
  }

  lemma LaterFails(w: World, v: World, run: Id)
    requires run in w.sweep && run in w.db.runs && v.sweep == w.sweep - {run} && v.beats == w.beats && v.clock == w.clock
    requires v.db == Posted(w.db, run, Failed, ByHub)
    ensures ToFail(v) == ToFail(w) - {run}
  {
  }

  /** A sweep that looks at every run it read, in whatever order and with nothing in between, fails exactly the silent
      ones, each by one event: what `Service.SweepOnce` leaves behind. */
  lemma {:induction false} SweepIs(w: World, order: seq<Id>)
    requires NoRepeats(order) && w.sweep == (set r | r in order) && w.sweep <= w.db.runs.Keys
    ensures LooksAtAll(w, order).db == AllFailed(w.db, ToFail(w)) && LooksAtAll(w, order).sweep == {}
    decreases |order|
  {
    if order == [] {
      assert ToFail(w) == {};
      FailedNone(w.db);
    } else {
      OneLook(w, order[0]);
      assert order == [order[0]] + order[1..] && order[0] !in order[1..];
      SweepIs(SweepLooks(w, order[0], true), order[1..]);
    }
  }

  /** The protocol's sweep and the hub's read the same heartbeats alike: what a sweep in progress is to fail is what
      `Service.SweepOnce` fails. */
  lemma SweepReadsAlike(w: World, beats: map<Id, (Progress, int)>)
    requires w.beats == map h | h in beats :: beats[h].1
    ensures ToFail(SweepStarts(w)) == ActiveAndSilent(w.db, beats, w.clock)
  {
  }

  /** And a heartbeat is the same to both. */
  lemma BeatsAlike(w: World, beats: map<Id, (Progress, int)>, host: Id, payload: Progress, ttl: int)
    requires w.beats == map h | h in beats :: beats[h].1
    ensures var after := beats[host := (payload, w.clock + ttl)]; Step(w, Beat(host, ttl)).beats == map h | h in after :: after[h].1
  {
  }

  /** An event moves nothing `done_cells` reads. */
  lemma PostedDone(db: Db, run: Id, state: RunState, writer: Writer, plan: Plan)
    requires run in db.runs
    ensures var b := Posted(db, run, state, writer);
            Done(b, run, b.runs[run].stage, plan) == Done(db, run, db.runs[run].stage, plan)
  {
    assert CellsOf(Posted(db, run, state, writer), run) == CellsOf(db, run);
  }
}
