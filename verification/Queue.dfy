/** The hub's queue: one line per host, at most one entry held by its agent. `FakeQueue` is the
    contract in memory (sweep/hub/queue.py); `Line` and `QueueState` are what it means. */
module Queue {
  import opened Names
  import opened Wrappers

  datatype Entry<+B> = Entry(id: nat, host: Id, body: B)

  /** One host's line: the entries still pending, oldest first, and whether the oldest is held. */
  datatype Line<+B> = Line(pending: seq<Entry<B>>, held: bool)

  datatype QueueState<+B> = QueueState(lines: map<Id, Line<B>>, next: nat)

  predicate LineOk<B>(l: Line<B>) { l.held ==> l.pending != [] }

  ghost predicate QueueOk<B>(q: QueueState<B>) { forall h :: h in q.lines ==> LineOk(q.lines[h]) }

  function LineOf<B>(q: QueueState<B>, host: Id): Line<B> {
    if host in q.lines then q.lines[host] else Line([], false)
  }

  function Pending<B>(q: QueueState<B>, host: Id): seq<Entry<B>> { LineOf(q, host).pending }

  function Held<B>(q: QueueState<B>, host: Id): Option<Entry<B>> {
    var l := LineOf(q, host);
    if l.held && l.pending != [] then Some(l.pending[0]) else None
  }

  function AfterEnqueue<B>(q: QueueState<B>, host: Id, body: B): QueueState<B> {
    var l := LineOf(q, host);
    QueueState(q.lines[host := l.(pending := l.pending + [Entry(q.next + 1, host, body)])], q.next + 1)
  }

  /** The host's held entry again, else its oldest entry, which it holds from now on. */
  function AfterClaim<B>(q: QueueState<B>, host: Id): QueueState<B> {
    var l := LineOf(q, host);
    if l.pending == [] then q else q.(lines := q.lines[host := l.(held := true)])
  }

  predicate MayAck<B>(q: QueueState<B>, host: Id, id: nat) {
    Held(q, host).Some? && Held(q, host).value.id == id
  }

  function AfterAck<B>(q: QueueState<B>, host: Id, id: nat): QueueState<B> {
    if MayAck(q, host, id)
    then q.(lines := q.lines[host := Line(Pending(q, host)[1..], false)])
    else q
  }

  // ---- whole histories

  datatype Op<+B> = DoEnqueue(host: Id, body: B) | DoClaim(host: Id) | DoAck(host: Id, id: nat)

  function Apply<B>(q: QueueState<B>, op: Op<B>): QueueState<B> {
    match op
    case DoEnqueue(h, b) => AfterEnqueue(q, h, b)
    case DoClaim(h) => AfterClaim(q, h)
    case DoAck(h, id) => AfterAck(q, h, id)
  }

  function Run<B>(ops: seq<Op<B>>): QueueState<B> {
    if ops == [] then QueueState(map[], 0)
    else Apply(Run(ops[..|ops| - 1]), ops[|ops| - 1])
  }

  /** Every entry ever put on a host's line, in the order of the calls; ids count the calls on all hosts. */
  function Enqueued<B>(ops: seq<Op<B>>, host: Id): seq<Entry<B>> {
    if ops == [] then []
    else
      var before, op := ops[..|ops| - 1], ops[|ops| - 1];
      if op.DoEnqueue? && op.host == host
      then Enqueued(before, host) + [Entry(EnqueueCount(ops), host, op.body)]
      else Enqueued(before, host)
  }

  function EnqueueCount<B>(ops: seq<Op<B>>): nat {
    if ops == [] then 0
    else EnqueueCount(ops[..|ops| - 1]) + if ops[|ops| - 1].DoEnqueue? then 1 else 0
  }

  /** What a host's accepted acks released, in the order of the acks. */
  function Acked<B>(ops: seq<Op<B>>, host: Id): seq<Entry<B>> {
    if ops == [] then []
    else
      var before, op := ops[..|ops| - 1], ops[|ops| - 1];
      if op.DoAck? && op.host == host && MayAck(Run(before), host, op.id)
      then Acked(before, host) + [Held(Run(before), host).value]
      else Acked(before, host)
  }

  /** First in, first out, nothing lost and nothing invented: after any calls whatever, what was acked,
      then what is held, then what is queued is exactly what was enqueued, in that order. */
  lemma {:induction false} FirstInFirstOut<B>(ops: seq<Op<B>>, host: Id)
    ensures QueueOk(Run(ops))
    ensures Run(ops).next == EnqueueCount(ops)
    ensures Acked(ops, host) + Pending(Run(ops), host) == Enqueued(ops, host)
  {
    if ops != [] {
      FirstInFirstOut(ops[..|ops| - 1], host);
    }
  }

  /** A call on one host's line leaves every other host's line exactly as it was. */
  lemma OtherHostsUnaffected<B>(q: QueueState<B>, op: Op<B>, host: Id)
    requires host != op.host
    ensures LineOf(Apply(q, op), host) == LineOf(q, host)
  {
    assert LineOf(Apply(q, op), host) == LineOf(q, host);
  }

  /** Until it is acked, a held entry is what every further claim answers, whatever else is called. */
  lemma {:induction false} HeldUntilAcked<B>(q: QueueState<B>, ops: seq<Op<B>>, host: Id)
    requires Held(q, host).Some?
    requires forall op :: op in ops && op.host == host ==> !op.DoAck? || op.id != Held(q, host).value.id
    ensures Held(RunFrom(q, ops), host) == Held(q, host)
    ensures Held(AfterClaim(RunFrom(q, ops), host), host) == Held(q, host)
    decreases |ops|
  {
    if ops != [] {
      var q1 := Apply(q, ops[0]);
      if ops[0].host != host { OtherHostsUnaffected(q, ops[0], host); }
      HeldUntilAcked(q1, ops[1..], host);
    }
  }

  function RunFrom<B>(q: QueueState<B>, ops: seq<Op<B>>): QueueState<B>
    decreases |ops|
  {
    if ops == [] then q else RunFrom(Apply(q, ops[0]), ops[1..])
  }

  /** Ids never repeat: an entry is named by its id alone, on every host at once. */
  lemma {:induction false} IdsIncrease<B>(ops: seq<Op<B>>, host: Id)
    ensures forall i :: 0 <= i < |Enqueued(ops, host)| ==> 1 <= Enqueued(ops, host)[i].id <= EnqueueCount(ops)
    ensures forall i, j :: 0 <= i < j < |Enqueued(ops, host)| ==> Enqueued(ops, host)[i].id < Enqueued(ops, host)[j].id
  {
    if ops != [] {
      IdsIncrease(ops[..|ops| - 1], host);
    }
  }

  // ---- the object itself

  /** The in-memory queue: `queued` is each host's deque, `claimed` the one entry a host holds,
      `beats` each host's last heartbeat with the instant it expires; the clock is a parameter. */
  class FakeQueue<B, P> {
    var queued: map<Id, seq<Entry<B>>>
    var claimed: map<Id, Entry<B>>
    var next: nat
    var beats: map<Id, (P, int)>

    ghost predicate Valid()
      reads this
    {
      claimed.Keys <= queued.Keys
    }

    constructor ()
      ensures Valid() && State() == QueueState(map[], 0) && beats == map[]
    {
      queued, claimed, next, beats := map[], map[], 0, map[];
    }

    function Queued(host: Id): seq<Entry<B>>
      reads this
    {
      if host in queued then queued[host] else []
    }

    /** The lines this object stands for: a held entry is the head of its host's line. */
    ghost function State(): (q: QueueState<B>)
      reads this
      ensures QueueOk(q)
    {
      QueueState(map h | h in queued :: Line((if h in claimed then [claimed[h]] else []) + queued[h], h in claimed), next)
    }

    method Enqueue(host: Id, body: B) returns (id: nat)
      requires Valid()
      modifies this`next, this`queued
      ensures Valid()
      ensures State() == AfterEnqueue(old(State()), host, body)
      ensures id == next == old(next) + 1
    {
      ghost var was := State();
      next := next + 1;
      var entry := Entry(next, host, body);
      queued := queued[host := Queued(host) + [entry]];
      assert State().lines[host].pending == Pending(was, host) + [entry];
      assert State().lines == AfterEnqueue(was, host, body).lines;
      id := entry.id;
    }

    method Claim(host: Id) returns (e: Option<Entry<B>>)
      requires Valid()
      modifies this`queued, this`claimed
      ensures Valid()
      ensures State() == AfterClaim(old(State()), host)
      ensures e == Held(State(), host)
      ensures e.None? <==> Pending(old(State()), host) == []
    {
      ghost var was := State();
      if host in claimed {
        assert was.lines[host].held;
        assert State().lines == AfterClaim(was, host).lines;
        return Some(claimed[host]);
      }
      if Queued(host) == [] {
        return None;
      }
      ghost var line := Queued(host);
      claimed := claimed[host := Queued(host)[0]];
      queued := queued[host := Queued(host)[1..]];
      assert State().lines[host].pending == line == Pending(was, host);
      assert State().lines == AfterClaim(was, host).lines;
      e := Some(claimed[host]);
    }

    method Ack(host: Id, id: nat) returns (ok: bool)
      requires Valid()
      modifies this`claimed
      ensures Valid()
      ensures ok == MayAck(old(State()), host, id)
      ensures State() == AfterAck(old(State()), host, id)
    {
      if host !in claimed || claimed[host].id != id {
        return false;
      }
      ghost var was := State();
      claimed := claimed - {host};
      assert State().lines[host].pending == Pending(was, host)[1..];
      assert State().lines == AfterAck(was, host, id).lines;
      ok := true;
    }

    method PendingEntries(host: Id) returns (es: seq<Entry<B>>)
      requires Valid()
      ensures es == Pending(State(), host)
    {
      es := (if host in claimed then [claimed[host]] else []) + Queued(host);
    }

    /** What a pulse answers at an instant: the last heartbeat, or nothing once it has expired. */
    function Heard(host: Id, now: int): Option<P>
      reads this
    {
      if host in beats && now <= beats[host].1 then Some(beats[host].0) else None
    }

    /** The host is heard with this payload for so long and then no more; what is heard of another does not change. */
    method Beat(host: Id, payload: P, now: int, ttl: int)
      modifies this`beats
      ensures forall t :: Heard(host, t) == if t - now <= ttl then Some(payload) else None
      ensures forall h, t | h != host :: Heard(h, t) == old(Heard(h, t))
    {
      beats := beats[host := (payload, now + ttl)];
    }

    /** The last heartbeat, or nothing once it expired: silent is not zero. */
    method Pulse(host: Id, now: int) returns (p: Option<P>)
      ensures p == Heard(host, now)
    {
      if host !in beats || now > beats[host].1 {
        return None;
      }
      p := Some(beats[host].0);
    }
  }
}
