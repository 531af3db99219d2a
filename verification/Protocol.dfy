/** The run protocol as one state machine: the hub's tables and queue, the requests it is serving, each host's
    agent with its records directory, the operator and the sweep, interleaved in any order, with crashes on both
    sides.

    A host has one agent process at a time, but any number of its requests may be in flight: those of an agent
    that has died are served all the same, and no sooner than those of its successor. A claim reads, then writes;
    an ack commits its verdict, then releases the entry; anything else may happen in between, or before either.
    `ok` stands for what the model does not compute: whether every check of the store passes at that commit. */
module Protocol {
  import opened Names
  import opened Wrappers
  import opened Tables
  import opened Ingest
  import opened Verify
  import opened Runs
  import opened Queue

  datatype Job = RunJob(run: Id, plan: Plan) | PublishJob(files: seq<Id>)

  /** A file of a run's records directory; a timing cell writes two. */
  datatype FileName = Whole(unit: Id) | EncodePart(cell: Id) | TimingPart(cell: Id) | ReferenceSetFile

  type Directory = map<FileName, Record>

  /** How far the hub is with a request: a claim that has read the run's state and not yet written; a `running`
      or an ack it has not looked at; an entry it has decided to release, by a verdict or as a finished run's. */
  datatype Phase =
    | Claiming(entry: Entry<Job>, seen: RunState)
    | Saying(entry: Entry<Job>)
    | Judging(entry: Entry<Job>)
    | Releasing(entry: Entry<Job>)

  datatype Request = Request(host: Id, phase: Phase)

  /** Where an agent is in `serve_once`; all of it is lost in a crash. */
  datatype Agent =
    | Idle
    | Waiting(id: nat)
    | Claimed(entry: Entry<Job>, done: set<Id>)
    | Reposted(entry: Entry<Job>, done: set<Id>)
    | Telling(entry: Entry<Job>, done: set<Id>, id: nat)
    | AtUnit(entry: Entry<Job>, done: set<Id>, n: nat)
    | Working(entry: Entry<Job>, done: set<Id>, n: nat)
    | Writing(entry: Entry<Job>, done: set<Id>, n: nat, todo: seq<(FileName, Record)>, batch: seq<Record>)
    | Acking(entry: Entry<Job>)
    | AwaitingAck(entry: Entry<Job>, id: nat)
    | Publishing(entry: Entry<Job>)

  datatype World = World(
    db: Db,
    queue: QueueState<Job>,
    requests: map<nat, Request>,        // in flight, by the order they were sent in
    sent: nat,
    agents: map<Id, Agent>,             // a host not in it is idle
    disks: map<Id, Directory>,          // each run's records directory, under its host's work root
    beats: map<Id, int>,                // when each host's last heartbeat expires
    clock: int,
    sweep: set<Id>,                     // the runs a sweep in progress has read as active and not yet looked at
    plans: map<Id, Plan>,               // for the statements only: the plan each run was enqueued with
    tickets: map<Id, Entry<Job>>)       // for the statements only: the entry each run was enqueued as

  function AgentOf(w: World, host: Id): Agent { if host in w.agents then w.agents[host] else Idle }

  function DiskOf(w: World, run: Id): Directory { if run in w.disks then w.disks[run] else map[] }

  predicate IsActive(s: RunState) { s in {RunState.Planned, Launched, Running} }

  predicate Busy(db: Db, host: Id, except: Id) {
    host in db.catalogue.machines &&
    exists r | r in db.runs ::
      && r != except && db.runs[r].state in {Launched, Running}
      && db.runs[r].host in db.catalogue.machines
      && db.catalogue.machines[db.runs[r].host] == db.catalogue.machines[host]
  }

  // ---- the operator

  /** The rows and the claim body are built together: a cell stage's body names exactly the planned cells. */
  predicate BuiltTogether(rows: RunPlan, plan: Plan) {
    if rows.row.stage in {Inventory, Materialise, Score} then rows.cells == []
    else
      && |rows.cells| == |plan.cells|
      && forall i | 0 <= i < |plan.cells| :: rows.cells[i].key == plan.cells[i].key
  }

  /** The plan rows in one transaction, then the entry; a queue that fails leaves the run abandoned. */
  function Enqueues(w: World, rows: RunPlan, plan: Plan, queueUp: bool, ok: bool): World {
    if !MayPlan(w.db, rows) || !BuiltTogether(rows, plan) || !ok then w
    else
      var db := Runs.Planned(w.db, rows);
      if IsQuiet(rows.row.stage) && Busy(db, rows.row.host, rows.run) then w
      else
        var plans := w.plans[rows.run := plan];
        if queueUp then
          w.(db := db, plans := plans, queue := AfterEnqueue(w.queue, rows.row.host, RunJob(rows.run, plan)),
             tickets := w.tickets[rows.run := Entry(w.queue.next + 1, rows.row.host, RunJob(rows.run, plan))])
        else w.(db := Posted(db, rows.run, Abandoned, ByHub), plans := plans)
  }

  function EnqueuesJob(w: World, host: Id, files: seq<Id>): World {
    w.(queue := AfterEnqueue(w.queue, host, PublishJob(files)))
  }

  function Abandons(w: World, run: Id, ok: bool): World {
    if run in w.db.runs && !IsTerminal(w.db.runs[run].state) && ok
    then w.(db := Posted(w.db, run, Abandoned, ByHub))
    else w
  }

  // ---- the hub's own loop

  function SweepStarts(w: World): World {
    w.(sweep := set r | r in w.db.runs && w.db.runs[r].state in {Launched, Running})
  }

  predicate Silent(w: World, host: Id) { host !in w.beats || w.clock > w.beats[host] }

  function SweepLooks(w: World, run: Id, ok: bool): World {
    if run !in w.sweep || run !in w.db.runs then w
    else if !Silent(w, w.db.runs[run].host) then w.(sweep := w.sweep - {run})
    else if !ok then w.(sweep := {})
    else w.(sweep := w.sweep - {run}, db := Posted(w.db, run, Failed, ByHub))
  }

  // ---- claim

  /** The entry's run is finished, or not this host's. */
  predicate Stale(db: Db, run: Id, host: Id) {
    run !in db.runs || db.runs[run].state in {Complete, Abandoned} || db.runs[run].host != host
  }

  /** The host reports the plan's artifact, and a timing run's machine is quiet. */
  predicate MayHandOut(db: Db, run: Id, host: Id)
    requires run in db.runs
  {
    && host in db.catalogue.identities && db.catalogue.identities[host] == db.runs[run].artifact
    && !(IsQuiet(db.runs[run].stage) && Busy(db, host, run))
  }

  /** A request goes out; its agent waits for the answer if there is one to wait. */
  function Sends(w: World, host: Id, phase: Phase, waits: Option<Agent>): World {
    w.(requests := w.requests[w.sent := Request(host, phase)], sent := w.sent + 1,
       agents := if waits.Some? then w.agents[host := waits.value] else w.agents)
  }

  /** The hub has the host's oldest entry in hand: a publish job goes out as it is, a finished run's entry is to be
      dropped, a run the host may not start yet stays held. */
  function Offers(w: World, host: Id, entry: Entry<Job>, waits: bool): World {
    match entry.body
    case PublishJob(_) => if waits then w.(agents := w.agents[host := Publishing(entry)]) else w
    case RunJob(run, _) =>
      var waiting := if waits then Some(Waiting(w.sent)) else None;
      if Stale(w.db, run, host) then Sends(w, host, Releasing(entry), waiting)
      else if !MayHandOut(w.db, run, host) then w
      else Sends(w, host, Claiming(entry, w.db.runs[run].state), waiting)
  }

  /** A claim is read: the idle agent's own, or one that an agent sent before it died. */
  function ClaimStarts(w: World, host: Id, waits: bool): World {
    if (waits && AgentOf(w, host) != Idle) || Pending(w.queue, host) == [] then w
    else Offers(w.(queue := AfterClaim(w.queue, host)), host, Pending(w.queue, host)[0], waits)
  }

  /** The agent that waits for this request, if it still lives, has its answer. */
  function Answered(w: World, id: nat, a: Agent): map<Id, Agent>
    requires id in w.requests
  {
    var host := w.requests[id].host;
    if Awaits(AgentOf(w, host), id) then w.agents[host := a] else w.agents
  }

  predicate Awaits(a: Agent, id: nat) { (a.Waiting? || a.Telling? || a.AwaitingAck?) && a.id == id }

  ghost function ClaimEnds(w: World, id: nat, ok: bool): World
    requires id in w.requests && w.requests[id].phase.Claiming? && w.requests[id].phase.entry.body.RunJob?
  {
    var Claiming(entry, seen) := w.requests[id].phase;
    var run := entry.body.run;
    var w1 := w.(requests := w.requests - {id});
    if !ok || run !in w.db.runs then w1.(agents := Answered(w, id, Idle))
    else
      var db := if seen in {RunState.Planned, Failed} then Posted(w.db, run, Launched, ByHub) else w.db;
      w1.(db := db, agents := Answered(w, id, Claimed(entry, Done(db, run, db.runs[run].stage, entry.body.plan))))
  }

  /** `running` is posted, or refused; the agent goes on either way. */
  function RunningSaid(w: World, id: nat, ok: bool): World
    requires id in w.requests && w.requests[id].phase.Saying? && w.requests[id].phase.entry.body.RunJob?
  {
    var entry, a := w.requests[id].phase.entry, AgentOf(w, w.requests[id].host);
    var run := entry.body.run;
    var w1 := w.(requests := w.requests - {id}, agents := Answered(w, id, if a.Telling? then AtUnit(a.entry, a.done, 0) else Idle));
    if ok && run in w.db.runs then w1.(db := Posted(w.db, run, Running, ByAgent)) else w1
  }

  // ---- ack

  function FindPending(es: seq<Entry<Job>>, id: nat): Option<Entry<Job>> {
    if es == [] then None else if es[0].id == id then Some(es[0]) else FindPending(es[1..], id)
  }

  /** What an ack reads of an entry: a publish job's names no cell, no title and no cut. */
  function PlanOf(job: Job): Plan { if job.RunJob? then job.plan else Plan([], [], []) }

  ghost function Verdict(db: Db, run: Id, plan: Plan): RunState
    requires run in db.runs
  {
    if AllRecorded(db, run, db.runs[run], plan) then Complete else Failed
  }

  /** The verdict of an ack: refused for an entry that is not pending, none for an abandoned run. */
  ghost function Judges(w: World, id: nat, ok: bool): World
    requires id in w.requests && w.requests[id].phase.Judging? && w.requests[id].phase.entry.body.RunJob?
  {
    var Request(host, phase) := w.requests[id];
    var run, found := phase.entry.body.run, FindPending(Pending(w.queue, host), phase.entry.id);
    var judged := w.(requests := w.requests[id := Request(host, Releasing(phase.entry))]);
    if run !in w.db.runs || found.None? || (w.db.runs[run].state != Abandoned && !ok)
    then w.(requests := w.requests - {id}, agents := Answered(w, id, Idle))
    else if w.db.runs[run].state == Abandoned then judged
    else judged.(db := Posted(w.db, run, Verdict(w.db, run, PlanOf(found.value.body)), ByHub))
  }

  function Releases(w: World, id: nat): World
    requires id in w.requests && w.requests[id].phase.Releasing?
  {
    var Request(host, phase) := w.requests[id];
    w.(requests := w.requests - {id}, queue := AfterAck(w.queue, host, phase.entry.id), agents := Answered(w, id, Idle))
  }

  /** The hub's next step with a request. */
  ghost function Serves(w: World, id: nat, ok: bool): World {
    if id !in w.requests then w
    else
      var phase := w.requests[id].phase;
      if phase.Releasing? then Releases(w, id)
      else if !phase.entry.body.RunJob? then w
      else
        match phase
        case Claiming(_, _) => ClaimEnds(w, id, ok)
        case Saying(_) => RunningSaid(w, id, ok)
        case Judging(_) => Judges(w, id, ok)
  }

  // ---- the agent at work

  /** The key a record on disk is skipped by. */
  function KeyOf(r: Record): Option<Id> {
    match r
    case EncodeRecord(k, _) => Some(k)
    case FailureRecord(k, _) => Some(k)
    case ScoreRecord(k, _, _, _, _) => Some(k)
    case TimingRecord(k, _) => Some(k)
    case TitleRecord(t, _) => Some(t)
    case CutRecord(c, _) => Some(c)
    case ReferenceSetRecord(s, _, _, _, _) => Some(s)
    case CutCheckRecord(c, _, _, _) => Some(c)
    case VerdictRecord(_, _, _, _, _, _) => None
  }

  predicate IsHeld(r: Record, done: set<Id>) { KeyOf(r).None? || KeyOf(r).value !in done }

  /** The batch a resuming agent reposts: exactly the records on disk whose key the claim did not list. */
  ghost predicate ListsHeld(dir: Directory, done: set<Id>, batch: seq<Record>) {
    forall r :: r in batch <==> r in dir.Values && IsHeld(r, done)
  }

  function KeysIn(batch: seq<Record>): set<Id> { set r | r in batch && KeyOf(r).Some? :: KeyOf(r).value }

  ghost function Reposts(w: World, host: Id, batch: seq<Record>, ok: bool): World {
    var a := AgentOf(w, host);
    if !a.Claimed? || !a.entry.body.RunJob? || !ListsHeld(DiskOf(w, a.entry.body.run), a.done, batch) then w
    else
      var posted := IngestAll(w.db, a.entry.body.run, batch);
      var taken := batch != [] && ok && posted.Ok?;
      w.(db := if taken then posted.value else w.db,
         agents := w.agents[host := Reposted(a.entry, if taken then a.done + KeysIn(batch) else a.done)])
  }

  function SaysRunning(w: World, host: Id): World {
    var a := AgentOf(w, host);
    if !a.Reposted? || !a.entry.body.RunJob? then w
    else Sends(w, host, Saying(a.entry), Some(Telling(a.entry, a.done, w.sent)))
  }

  function AcksRun(w: World, host: Id): World {
    var a := AgentOf(w, host);
    if !a.Acking? || !a.entry.body.RunJob? then w
    else Sends(w, host, Judging(a.entry), Some(AwaitingAck(a.entry, w.sent)))
  }

  function Units(w: World, entry: Entry<Job>): seq<Id>
    requires entry.body.RunJob?
  {
    if entry.body.run in w.db.runs then UnitKeys(w.db.runs[entry.body.run].stage, entry.body.plan) else []
  }

  /** The loop's head: past the last unit, at a recorded one, told to stop, or about to run one. */
  function AfterLooking(w: World, a: Agent): Agent
    requires a.AtUnit? && a.entry.body.RunJob?
  {
    var units := Units(w, a.entry);
    if a.n >= |units| then Acking(a.entry)
    else if units[a.n] in a.done then AtUnit(a.entry, a.done, a.n + 1)
    else if a.n > 0 && w.db.runs[a.entry.body.run].state == Abandoned then Acking(a.entry)
    else Working(a.entry, a.done, a.n)
  }

  function LooksAtUnit(w: World, host: Id): World {
    var a := AgentOf(w, host);
    if !a.AtUnit? || !a.entry.body.RunJob? then w else w.(agents := w.agents[host := AfterLooking(w, a)])
  }

  /** One sample a repeat, numbered from nought. */
  predicate Numbered(samples: seq<TimingRow>) { samples != [] && forall i | 0 <= i < |samples| :: samples[i].repeatIndex == i }

  /** A timing cell's encode, discarded, and the repeats its plan asks for. */
  predicate Times(cells: seq<CellSpec>, unit: Id, encode: Record, timing: Record) {
    && encode.EncodeRecord? && encode.cell == unit && !encode.encode.kept
    && timing.TimingRecord? && timing.cell == unit && Numbered(timing.samples) && |timing.samples| == RepeatsWanted(cells, unit)
  }

  /** What one unit of a stage may produce: the files in the order they are written. */
  predicate Producible(stage: Stage, cells: seq<CellSpec>, unit: Id, files: seq<(FileName, Record)>) {
    if IsQuiet(stage) then
      || (|files| == 1 && files[0].0 == Whole(unit) && files[0].1.FailureRecord? && files[0].1.cell == unit)
      || (|files| == 2 && files[0].0 == EncodePart(unit) && files[1].0 == TimingPart(unit) && Times(cells, unit, files[0].1, files[1].1))
    else if stage == Score then
      |files| == 1 && files[0].0 == Whole(unit) && files[0].1.ScoreRecord? && files[0].1.cell == unit
    else if stage == Inventory then
      |files| == 1 && files[0].0 == Whole(unit) && files[0].1.TitleRecord? && files[0].1.title == unit
    else if stage == Materialise then
      && 1 <= |files| <= 2
      && (|files| == 2 ==> files[0].0 == ReferenceSetFile && files[0].1.ReferenceSetRecord?)
      && files[|files| - 1].0 == Whole(unit) && files[|files| - 1].1.CutRecord? && files[|files| - 1].1.cut == unit
    else
      && |files| == 1 && files[0].0 == Whole(unit)
      && (files[0].1.EncodeRecord? || files[0].1.FailureRecord?) && files[0].1.cell == unit
  }

  /** A unit of work ends in records, or in an error that is only logged. */
  function RunsUnit(w: World, host: Id, made: Option<seq<(FileName, Record)>>): World {
    var a := AgentOf(w, host);
    if !a.Working? || !a.entry.body.RunJob? || a.n >= |Units(w, a.entry)| then w
    else if made.None? then w.(agents := w.agents[host := AtUnit(a.entry, a.done, a.n + 1)])
    else if !Producible(w.db.runs[a.entry.body.run].stage, a.entry.body.plan.cells, Units(w, a.entry)[a.n], made.value) then w
    else w.(agents := w.agents[host := Writing(a.entry, a.done, a.n, made.value, [])])
  }

  /** A record is written once: the file that is there wins, and a differing record is not posted. */
  function WritesNext(w: World, host: Id): World {
    var a := AgentOf(w, host);
    if !a.Writing? || !a.entry.body.RunJob? || a.todo == [] then w
    else
      var (name, record) := a.todo[0];
      var run := a.entry.body.run;
      var dir := DiskOf(w, run);
      if name in dir && dir[name] != record then
        w.(agents := w.agents[host := Writing(a.entry, a.done, a.n, a.todo[1..], a.batch)])
      else
        w.(agents := w.agents[host := Writing(a.entry, a.done, a.n, a.todo[1..], a.batch + [record])],
           disks := w.disks[run := dir[name := record]])
  }

  function PostsRecords(w: World, host: Id, ok: bool): World {
    var a := AgentOf(w, host);
    if !a.Writing? || !a.entry.body.RunJob? || a.todo != [] || a.n >= |Units(w, a.entry)| then w
    else
      var key := Units(w, a.entry)[a.n];
      var posted := if a.batch == [] then Ok(w.db) else IngestAll(w.db, a.entry.body.run, a.batch);
      var taken := a.batch == [] || (ok && posted.Ok?);
      w.(db := if taken then posted.value else w.db,
         agents := w.agents[host := AtUnit(a.entry, if taken then a.done + {key} else a.done, a.n + 1)])
  }

  /** A publish job's ack is refused, and the job stays, until every file it names is a published row. */
  function JobAcks(w: World, host: Id): World {
    var a := AgentOf(w, host);
    if !a.Publishing? || !a.entry.body.PublishJob? then w
    else
      var w1 := w.(agents := w.agents[host := Idle]);
      if AllPublished(w.db, a.entry.body.files) then w1.(queue := AfterAck(w.queue, host, a.entry.id)) else w1
  }

  /** A file proven and recorded by the exchange, once. */
  function Publishes(w: World, path: Id, row: PublishedRow): World {
    if path in w.db.published then w else w.(db := w.db.(published := w.db.published[path := row]))
  }

  /** The artifact an agent's heartbeat reports. */
  function Reports(w: World, host: Id, artifact: Id): World {
    var identities := w.db.catalogue.identities[host := artifact];
    w.(db := w.db.(catalogue := w.db.catalogue.(identities := identities)))
  }

  // ---- crashes

  function AgentCrashes(w: World, host: Id): World { w.(agents := w.agents[host := Idle]) }

  /** A hub that restarts drops the requests it was serving and the sweep; an agent waiting on one dies of it. */
  function HubRestarts(w: World): World {
    var alive := map h | h in w.agents && !w.agents[h].Waiting? && !w.agents[h].Telling? && !w.agents[h].AwaitingAck? :: w.agents[h];
    w.(requests := map[], sweep := {}, agents := alive)
  }

  // ---- all steps

  datatype Action =
    | Enqueue(rows: RunPlan, plan: Plan, queueUp: bool, ok: bool)
    | EnqueueJob(host: Id, files: seq<Id>)
    | Abandon(run: Id, ok: bool)
    | SweepStart
    | SweepLook(run: Id, ok: bool)
    | ClaimStart(host: Id, waits: bool)
    | Serve(id: nat, ok: bool)
    | Repost(host: Id, batch: seq<Record>, ok: bool)
    | SayRunning(host: Id)
    | LookAtUnit(host: Id)
    | RunUnit(host: Id, made: Option<seq<(FileName, Record)>>)
    | WriteNext(host: Id)
    | PostRecords(host: Id, ok: bool)
    | AckStart(host: Id)
    | JobAck(host: Id)
    | Publish(path: Id, row: PublishedRow)
    | Report(host: Id, artifact: Id)
    | Beat(host: Id, ttl: int)
    | Tick(elapsed: nat)
    | AgentCrash(host: Id)
    | HubRestart

  /** A step that is not possible in `w` leaves it unchanged. */
  ghost function Step(w: World, a: Action): World {
    match a
    case Enqueue(rows, plan, queueUp, ok) => Enqueues(w, rows, plan, queueUp, ok)
    case EnqueueJob(host, files) => EnqueuesJob(w, host, files)
    case Abandon(run, ok) => Abandons(w, run, ok)
    case SweepStart => SweepStarts(w)
    case SweepLook(run, ok) => SweepLooks(w, run, ok)
    case ClaimStart(host, waits) => ClaimStarts(w, host, waits)
    case Serve(id, ok) => Serves(w, id, ok)
    case Repost(host, batch, ok) => Reposts(w, host, batch, ok)
    case SayRunning(host) => SaysRunning(w, host)
    case LookAtUnit(host) => LooksAtUnit(w, host)
    case RunUnit(host, made) => RunsUnit(w, host, made)
    case WriteNext(host) => WritesNext(w, host)
    case PostRecords(host, ok) => PostsRecords(w, host, ok)
    case AckStart(host) => AcksRun(w, host)
    case JobAck(host) => JobAcks(w, host)
    case Publish(path, row) => Publishes(w, path, row)
    case Report(host, artifact) => Reports(w, host, artifact)
    case Beat(host, ttl) => w.(beats := w.beats[host := w.clock + ttl])
    case Tick(elapsed) => w.(clock := w.clock + elapsed)
    case AgentCrash(host) => AgentCrashes(w, host)
    case HubRestart => HubRestarts(w)
  }

  /** A store with no run yet, whatever else it holds, an empty queue and idle agents. */
  ghost predicate Initial(w: World) {
    && w.db.runs == map[] && w.db.events == map[] && w.db.cells == map[]
    && w.queue == QueueState(map[], 0) && w.requests == map[] && w.agents == map[] && w.disks == map[]
    && w.sweep == {} && w.plans == map[] && w.tickets == map[]
  }

  ghost function RunAll(w: World, actions: seq<Action>): World
    decreases |actions|
  {
    if actions == [] then w else RunAll(Step(w, actions[0]), actions[1..])
  }

  // ---- what is under way about a run

  predicate About(entry: Entry<Job>, run: Id) { entry.body.RunJob? && entry.body.run == run }

  /** A request that makes the run active when it is served: a claim that read it as planned or failed, or `running`. */
  predicate RequestRouses(k: Request, run: Id) {
    match k.phase
    case Claiming(entry, seen) => About(entry, run) && seen in {RunState.Planned, Failed}
    case Saying(entry) => About(entry, run)
    case _ => false
  }

  /** An agent that will say `running`: it waits for a claim of the run, or has it. */
  predicate AgentRouses(w: World, host: Id, run: Id) {
    match AgentOf(w, host)
    case Waiting(id) => id in w.requests && w.requests[id].phase.Claiming? && About(w.requests[id].phase.entry, run)
    case Claimed(entry, _) => About(entry, run)
    case Reposted(entry, _) => About(entry, run)
    case _ => false
  }

  /** Something under way makes the run active without looking at its state again. */
  ghost predicate Roused(w: World, run: Id) {
    (exists id :: id in w.requests && RequestRouses(w.requests[id], run)) || exists host :: AgentRouses(w, host, run)
  }

  predicate IsReleasing(k: Request, run: Id) { k.phase.Releasing? && About(k.phase.entry, run) }

  predicate IsAcking(k: Request, run: Id) { (k.phase.Judging? || k.phase.Releasing?) && About(k.phase.entry, run) }

  ghost predicate BeingReleased(w: World, run: Id) { exists id :: id in w.requests && IsReleasing(w.requests[id], run) }

  ghost predicate BeingAcked(w: World, run: Id) { exists id :: id in w.requests && IsAcking(w.requests[id], run) }
}
