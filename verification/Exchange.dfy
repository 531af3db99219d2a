/** The exchange (sweep/hub/exchange.py): a stream lands under a temporary name, is proven against what was
    declared, moved into place, and only then recorded; so a row always means its file is there. */
module Exchange {
  import opened Names
  import opened Wrappers
  import opened Queue

  type Bytes = seq<bv8>

  type Digest = Bytes -> Id

  /** What a PUT declares, and what a `published` row records. */
  datatype Declaration = Declaration(run: Option<Id>, cell: Option<Id>, cut: Option<Id>, byHost: Id, bytes: int, sha: Id)

  /** The content has the declared size and sha. */
  predicate Proves(digest: Digest, content: Bytes, d: Declaration) { |content| == d.bytes && digest(content) == d.sha }

  /** Every row's file is in place, with the recorded size and sha. */
  ghost predicate RowsHold(digest: Digest, published: map<Id, Declaration>, targets: map<Id, Bytes>) {
    forall p | p in published :: p in targets && Proves(digest, targets[p], published[p])
  }

  // ---- the objects

  /** The share: files in place, and files still under a temporary name. */
  class Share {
    var targets: map<Id, Bytes>
    var temps: map<nat, Bytes>
    var names: nat                  // temporary names given out so far

    constructor ()
      ensures targets == map[] && temps == map[] && names == 0
    {
      targets, temps, names := map[], map[], 0;
    }
  }

  /** One stream landing beside its target, hashed as it goes. */
  class Receiver {
    const share: Share
    const path: Id
    const temp: nat
    var hashed: Bytes               // what the hash has seen
    var bytes: int

    ghost predicate Valid()
      reads this, share
    {
      temp in share.temps && share.temps[temp] == hashed && bytes == |hashed|
    }

    /** A temporary file of its own: no two receivers share one. */
    constructor (share: Share, path: Id)
      requires forall t | t in share.temps :: t < share.names
      modifies share
      ensures Valid() && this.share == share && this.path == path && hashed == []
      ensures temp == old(share.names) && share.names == temp + 1
      ensures share.targets == old(share.targets) && share.temps == old(share.temps)[temp := []]
    {
      this.share, this.path, temp := share, path, share.names;
      hashed, bytes := [], 0;
      new;
      share.names := share.names + 1;
      share.temps := share.temps[temp := []];
    }

    method Write(chunk: Bytes)
      requires Valid()
      modifies this, share`temps
      ensures Valid() && hashed == old(hashed) + chunk
      ensures share.temps == old(share.temps)[temp := hashed]
    {
      share.temps := share.temps[temp := share.temps[temp] + chunk];
      hashed := hashed + chunk;
      bytes := bytes + |chunk|;
    }

    /** Held against the declared size and sha; a disagreement discards it and refuses. */
    method Finish(digest: Digest, d: Declaration) returns (ok: bool)
      requires Valid()
      modifies share`temps
      ensures ok <==> Proves(digest, hashed, d)
      ensures share.temps == if ok then old(share.temps) else old(share.temps) - {temp}
    {
      ok := bytes == d.bytes && digest(hashed) == d.sha;
      if !ok { Discard(); }
    }

    method Commit()
      requires Valid()
      modifies share`targets, share`temps
      ensures share.targets == old(share.targets)[path := hashed]
      ensures share.temps == old(share.temps) - {temp}
    {
      share.targets := share.targets[path := share.temps[temp]];
      share.temps := share.temps - {temp};
    }

    method Discard()
      modifies share`temps
      ensures share.temps == old(share.temps) - {temp}
    {
      share.temps := share.temps - {temp};
    }
  }

  function Concat(chunks: seq<Bytes>): Bytes { if chunks == [] then [] else Concat(chunks[..|chunks| - 1]) + chunks[|chunks| - 1] }

  /** How a PUT ended: recorded, refused, or with the hub's death. */
  datatype Ending = Recorded | TurnedDown | Died

  /** The hub's half: the `published` table and its share. */
  class Desk {
    const share: Share
    const digest: Digest
    const checks: map<Id, Declaration> -> bool
    var published: map<Id, Declaration>
    var life: nat                   // the steps the hub has left before it dies

    ghost predicate Valid()
      reads this, share
    {
      RowsHold(digest, published, share.targets) && forall t | t in share.temps :: t < share.names
    }

    constructor (share: Share, digest: Digest, checks: map<Id, Declaration> -> bool, life: nat)
      requires forall t | t in share.temps :: t < share.names
      ensures Valid() && published == map[] && this.share == share && this.digest == digest && this.checks == checks && this.life == life
    {
      this.share, this.digest, this.checks, this.life := share, digest, checks, life;
      published := map[];
    }

    method Lives() returns (alive: bool)
      modifies `life
      ensures alive <==> old(life) > 0
      ensures life == if alive then old(life) - 1 else 0
    {
      alive := life > 0;
      if alive { life := life - 1; }
    }

    /** Once: an identical repost is nothing, a differing one is refused. */
    method RecordPublish(path: Id, d: Declaration) returns (ok: bool)
      modifies `published
      ensures ok <==> if path in old(published) then old(published)[path] == d else checks(old(published)[path := d])
      ensures published == if ok then old(published)[path := d] else old(published)
    {
      if path in published { return published[path] == d; }
      ok := checks(published[path := d]);
      if ok { published := published[path := d]; }
    }

    /** The stream, chunk by chunk, for as long as the hub lives. */
    method Stream(r: Receiver, chunks: seq<Bytes>) returns (alive: bool)
      requires r.Valid() && r.share == share && r.hashed == []
      modifies `life, r, share`temps
      ensures alive <==> old(life) >= |chunks|
      ensures alive ==> life == old(life) - |chunks| && r.Valid() && r.hashed == Concat(chunks)
      ensures share.temps == old(share.temps)[r.temp := r.hashed]
    {
      assert chunks[..0] == [] && share.temps == share.temps[r.temp := r.hashed];
      var i := 0;
      while i < |chunks|
        invariant 0 <= i <= |chunks| && r.Valid() && r.hashed == Concat(chunks[..i]) && life == old(life) - i
        invariant share.temps == old(share.temps)[r.temp := r.hashed]
      {
        var living := Lives();
        if !living { return false; }
        assert chunks[..i + 1][..i] == chunks[..i];
        r.Write(chunks[i]);
        i := i + 1;
      }
      assert chunks[..i] == chunks;
      alive := true;
    }

    /** A file lands in the exchange, in the order that leaves a file the next claim sends again and never a row
        nothing sends again; the hub may die between any two steps, and the stream may break off. */
    method PutFile(path: Id, d: Declaration, chunks: seq<Bytes>, whole: bool) returns (ending: Ending)
      requires Valid()
      modifies this, share
      ensures Valid()
      // recorded exactly when nothing speaks against it and the hub lives through its steps
      ensures ending.Recorded? <==>
                && whole && Proves(digest, Concat(chunks), d) && old(life) >= |chunks| + 2
                && (if path in old(published) then old(published)[path] == d else checks(old(published)[path := d]))
      ensures ending.Died? ==> old(life) < |chunks| + 2
      ensures published == if ending.Recorded? then old(published)[path := d] else old(published)
      // the target changes only to what was proven, and has before any row says so
      ensures ending.Recorded? ==> share.targets == old(share.targets)[path := Concat(chunks)]
      ensures share.targets == old(share.targets)
              || (Proves(digest, Concat(chunks), d) && share.targets == old(share.targets)[path := Concat(chunks)])
      // only a death leaves a temporary file behind
      ensures !ending.Died? ==> share.temps == old(share.temps)
    {
      if path in published && published[path] != d { return TurnedDown; }
      var r := new Receiver(share, path);
      var alive := Stream(r, chunks);
      if !alive { return Died; }
      assert share.temps - {r.temp} == old(share.temps);
      if !whole {
        r.Discard();
        return TurnedDown;
      }
      var proven := r.Finish(digest, d);
      if !proven { return TurnedDown; }
      var living := Lives();
      if !living { return Died; }
      r.Commit();
      living := Lives();
      if !living { return Died; }
      var ok := RecordPublish(path, d);
      ending := if ok then Recorded else TurnedDown;
    }
  }

  // ---- all PUTs at once, one a path

  datatype Upload = Receiving(d: Declaration, temp: Bytes) | Proven(d: Declaration, temp: Bytes) | Landed(d: Declaration)

  datatype State = State(
    targets: map<Id, Bytes>, published: map<Id, Declaration>, uploads: map<Id, Upload>, queue: QueueState<seq<Id>>)

  datatype Action =
    | Open(path: Id, d: Declaration)
    | Receive(path: Id, chunk: Bytes)
    | Prove(path: Id)
    | Land(path: Id)
    | Record(path: Id, ok: bool)
    | Abort(path: Id)
    | Crash
    | EnqueueJob(host: Id, files: seq<Id>)
    | ClaimJob(host: Id)
    | AckJob(host: Id, id: nat)
    | AckRun(host: Id, id: nat)     // the ack of some run of this host, naming the entry of this id, and accepted

  function AllPublished(s: State, files: seq<Id>): bool { forall f | f in files :: f in s.published }

  /** A step that is not possible leaves the state unchanged. */
  function Step(digest: Digest, s: State, a: Action): State {
    match a
    case Open(p, d) =>
      if p in s.uploads || (p in s.published && s.published[p] != d) then s else s.(uploads := s.uploads[p := Receiving(d, [])])
    case Receive(p, chunk) =>
      if p in s.uploads && s.uploads[p].Receiving?
      then s.(uploads := s.uploads[p := Receiving(s.uploads[p].d, s.uploads[p].temp + chunk)]) else s
    case Prove(p) =>
      if p !in s.uploads || !s.uploads[p].Receiving? then s
      else if Proves(digest, s.uploads[p].temp, s.uploads[p].d)
      then s.(uploads := s.uploads[p := Proven(s.uploads[p].d, s.uploads[p].temp)])
      else s.(uploads := s.uploads - {p})
    case Land(p) =>
      if p in s.uploads && s.uploads[p].Proven?
      then s.(targets := s.targets[p := s.uploads[p].temp], uploads := s.uploads[p := Landed(s.uploads[p].d)]) else s
    case Record(p, ok) =>
      if p !in s.uploads || !s.uploads[p].Landed? then s
      else if p in s.published || !ok then s.(uploads := s.uploads - {p})
      else s.(published := s.published[p := s.uploads[p].d], uploads := s.uploads - {p})
    case Abort(p) => if p in s.uploads && s.uploads[p].Receiving? then s.(uploads := s.uploads - {p}) else s
    case Crash => s.(uploads := map[])
    case EnqueueJob(h, files) => s.(queue := AfterEnqueue(s.queue, h, files))
    case ClaimJob(h) => s.(queue := AfterClaim(s.queue, h))
    case AckJob(h, id) =>
      if MayAck(s.queue, h, id) && AllPublished(s, Held(s.queue, h).value.body) then s.(queue := AfterAck(s.queue, h, id)) else s
    case AckRun(h, id) => s.(queue := AfterAck(s.queue, h, id))
  }

  function RunAll(digest: Digest, s: State, actions: seq<Action>): State
    decreases |actions|
  {
    if actions == [] then s else RunAll(digest, Step(digest, s, actions[0]), actions[1..])
  }

  /** A proven upload is what it declares; where a row stands already, every later upload declares the same. */
  ghost predicate UploadSound(digest: Digest, s: State, p: Id)
    requires p in s.uploads
  {
    var u := s.uploads[p];
    && (u.Proven? ==> Proves(digest, u.temp, u.d))
    && (u.Landed? ==> p in s.targets && Proves(digest, s.targets[p], u.d))
    && (p in s.published ==> s.published[p] == u.d)
  }

  ghost predicate Sound(digest: Digest, s: State) {
    RowsHold(digest, s.published, s.targets) && forall p | p in s.uploads :: UploadSound(digest, s, p)
  }

  lemma StepSound(digest: Digest, s: State, a: Action)
    requires Sound(digest, s)
    ensures Sound(digest, Step(digest, s, a))
    ensures forall p | p in s.published :: p in Step(digest, s, a).published && Step(digest, s, a).published[p] == s.published[p]
  {
    var t := Step(digest, s, a);
    forall p | p in t.uploads ensures UploadSound(digest, t, p) {
      if p in s.uploads { assert UploadSound(digest, s, p); }
    }
    if a.Land? && a.path in s.uploads { assert UploadSound(digest, s, a.path); }
    if a.Record? && a.path in s.uploads { assert UploadSound(digest, s, a.path); }
  }

  lemma {:induction false} RunSound(digest: Digest, s: State, actions: seq<Action>)
    requires Sound(digest, s)
    ensures Sound(digest, RunAll(digest, s, actions))
    ensures forall p | p in s.published :: p in RunAll(digest, s, actions).published && RunAll(digest, s, actions).published[p] == s.published[p]
    decreases |actions|
  {
    if actions != [] {
      StepSound(digest, s, actions[0]);
      RunSound(digest, Step(digest, s, actions[0]), actions[1..]);
    }
  }

  /** In every reachable state, whatever streams, proofs, moves, records, refusals and crashes are interleaved,
      every published row's file is in place with the recorded size and sha. */
  lemma RowMeansFile(digest: Digest, actions: seq<Action>)
    ensures var s := RunAll(digest, State(map[], map[], map[], QueueState(map[], 0)), actions);
            RowsHold(digest, s.published, s.targets)
  {
    RunSound(digest, State(map[], map[], map[], QueueState(map[], 0)), actions);
  }

  // ---- one PUT is these steps

  lemma {:induction false} OneMoreStep(digest: Digest, s: State, actions: seq<Action>, a: Action)
    ensures RunAll(digest, s, actions + [a]) == Step(digest, RunAll(digest, s, actions), a)
    decreases |actions|
  {
    if actions == [] {
      assert actions + [a] == [a];
    } else {
      assert (actions + [a])[0] == actions[0] && (actions + [a])[1..] == actions[1..] + [a];
      OneMoreStep(digest, Step(digest, s, actions[0]), actions[1..], a);
    }
  }

  function Receives(path: Id, chunks: seq<Bytes>): seq<Action> { seq(|chunks|, i requires 0 <= i < |chunks| => Receive(path, chunks[i])) }

  lemma {:induction false} Received(digest: Digest, s: State, path: Id, d: Declaration, chunks: seq<Bytes>)
    requires path !in s.uploads && (path in s.published ==> s.published[path] == d)
    ensures RunAll(digest, s, [Open(path, d)] + Receives(path, chunks)) == s.(uploads := s.uploads[path := Receiving(d, Concat(chunks))])
  {
    if chunks == [] {
      assert [Open(path, d)] + Receives(path, chunks) == [] + [Open(path, d)];
      OneMoreStep(digest, s, [], Open(path, d));
    } else {
      var init, last := chunks[..|chunks| - 1], chunks[|chunks| - 1];
      Received(digest, s, path, d, init);
      assert [Open(path, d)] + Receives(path, chunks) == ([Open(path, d)] + Receives(path, init)) + [Receive(path, last)];
      OneMoreStep(digest, s, [Open(path, d)] + Receives(path, init), Receive(path, last));
    }
  }

  /** A PUT from its first line to its answer, the whole stream received. */
  function PutActions(path: Id, d: Declaration, chunks: seq<Bytes>, ok: bool): seq<Action> {
    [Open(path, d)] + Receives(path, chunks) + [Prove(path)] + [Land(path)] + [Record(path, ok)]
  }

  /** The three steps after the stream, of bytes that are as declared. */
  lemma ProvenSteps(digest: Digest, s: State, path: Id, d: Declaration, bytes: Bytes, ok: bool)
    requires path !in s.uploads && Proves(digest, bytes, d)
    ensures var t := s.(uploads := s.uploads[path := Receiving(d, bytes)]);
            Step(digest, Step(digest, Step(digest, t, Prove(path)), Land(path)), Record(path, ok)) ==
            s.(targets := s.targets[path := bytes],
               published := if path in s.published || !ok then s.published else s.published[path := d])
  {
    var t := s.(uploads := s.uploads[path := Receiving(d, bytes)]);
    var proven := Step(digest, t, Prove(path));
    var landed := Step(digest, proven, Land(path));
    assert landed.uploads - {path} == s.uploads;
  }

  /** What `Desk.PutFile` does with a whole stream, and nothing else in between, is what these steps do: unproven it
      leaves everything as it was; proven, the target is the stream, and the row is recorded unless it stands already or
      a check fires. */
  lemma PutStepsAre(digest: Digest, s: State, path: Id, d: Declaration, chunks: seq<Bytes>, ok: bool)
    requires path !in s.uploads && (path in s.published ==> s.published[path] == d)
    ensures RunAll(digest, s, PutActions(path, d, chunks, ok)) ==
            if |Concat(chunks)| != d.bytes || digest(Concat(chunks)) != d.sha then s
            else s.(targets := s.targets[path := Concat(chunks)],
                    published := if path in s.published || !ok then s.published else s.published[path := d])
  {
    var stream := [Open(path, d)] + Receives(path, chunks);
    var t := s.(uploads := s.uploads[path := Receiving(d, Concat(chunks))]);
    Received(digest, s, path, d, chunks);
    OneMoreStep(digest, s, stream, Prove(path));
    OneMoreStep(digest, s, stream + [Prove(path)], Land(path));
    OneMoreStep(digest, s, stream + [Prove(path)] + [Land(path)], Record(path, ok));
    if Proves(digest, Concat(chunks), d) {
      ProvenSteps(digest, s, path, d, Concat(chunks), ok);
    } else {
      assert t.uploads - {path} == s.uploads;
    }
  }

  // ---- a publish job

  /** Entries leave from the front of a line, in the order of their ids. */
  ghost predicate Ordered(q: QueueState<seq<Id>>) {
    forall h :: LineOrdered(q, h)
  }

  predicate IdsBounded(es: seq<Entry<seq<Id>>>, next: nat) { forall e | e in es :: e.id <= next }

  predicate IdsRise(es: seq<Entry<seq<Id>>>) { forall i, j | 0 <= i < j < |es| :: es[i].id < es[j].id }

  ghost predicate LineOrdered(q: QueueState<seq<Id>>, h: Id) {
    LineOk(LineOf(q, h)) && IdsBounded(Pending(q, h), q.next) && IdsRise(Pending(q, h))
  }

  lemma EnqueueOrdered(q: QueueState<seq<Id>>, host: Id, files: seq<Id>, h: Id)
    requires Ordered(q)
    ensures LineOrdered(AfterEnqueue(q, host, files), h)
  {
    assert LineOrdered(q, h);
  }

  lemma AckOrdered(q: QueueState<seq<Id>>, host: Id, id: nat, h: Id)
    requires Ordered(q)
    ensures LineOrdered(AfterAck(q, host, id), h)
  {
    assert LineOrdered(q, h);
    if h == host && MayAck(q, host, id) { assert Pending(AfterAck(q, host, id), h) == Pending(q, h)[1..]; }
  }

  lemma StepOrdered(digest: Digest, s: State, a: Action)
    requires Ordered(s.queue)
    ensures Ordered(Step(digest, s, a).queue)
  {
    forall h ensures LineOrdered(Step(digest, s, a).queue, h) {
      assert LineOrdered(s.queue, h);
      match a
      case EnqueueJob(host, files) => EnqueueOrdered(s.queue, host, files, h);
      case AckJob(host, id) => AckOrdered(s.queue, host, id, h);
      case AckRun(host, id) => AckOrdered(s.queue, host, id, h);
      case ClaimJob(host) => assert Pending(AfterClaim(s.queue, host), h) == Pending(s.queue, h);
      case _ =>
    }
  }

  /** The step takes this entry off its host's line: its own ack, with all its files published, or the ack of a run,
      which asks for none of them. */
  ghost predicate Takes(s: State, a: Action, host: Id, e: Entry<seq<Id>>) {
    && Held(s.queue, host) == Some(e)
    && ((a == AckJob(host, e.id) && AllPublished(s, e.body)) || a == AckRun(host, e.id))
  }

  lemma AckTakesFirst(q: QueueState<seq<Id>>, at: Id, id: nat, host: Id, e: Entry<seq<Id>>)
    requires LineOrdered(q, host) && e in Pending(q, host)
    ensures e !in Pending(AfterAck(q, at, id), host) <==> at == host && id == e.id && Held(q, host) == Some(e)
  {
    var es := Pending(q, host);
    if at == host && MayAck(q, host, id) {
      assert es == [es[0]] + es[1..] && Pending(AfterAck(q, host, id), host) == es[1..];
      if e in es[1..] {
        var i :| 0 <= i < |es[1..]| && es[1..][i] == e;
        assert es[0].id < es[i + 1].id;
      }
    }
  }

  /** A publish job leaves its line by these two steps and by no other. */
  lemma LeavesExactly(digest: Digest, s: State, a: Action, host: Id, e: Entry<seq<Id>>)
    requires Ordered(s.queue) && e in Pending(s.queue, host)
    ensures e !in Pending(Step(digest, s, a).queue, host) <==> Takes(s, a, host, e)
  {
    assert LineOrdered(s.queue, host);
    match a
    case EnqueueJob(h, files) => assert e in Pending(AfterEnqueue(s.queue, h, files), host);
    case ClaimJob(h) => assert Pending(AfterClaim(s.queue, h), host) == Pending(s.queue, host);
    case AckJob(h, id) => AckTakesFirst(s.queue, h, id, host, e);
    case AckRun(h, id) => AckTakesFirst(s.queue, h, id, host, e);
    case _ =>
  }

  /** A publish job leaves its host's line only once every file it names is published, each of which is there from then
      on with the size and the sha of its row, or else by the ack of a run that names the job's id. */
  lemma {:induction false} JobLeavesPublished(digest: Digest, s: State, actions: seq<Action>, host: Id, e: Entry<seq<Id>>)
    requires Sound(digest, s) && Ordered(s.queue) && e in Pending(s.queue, host)
    ensures var t := RunAll(digest, s, actions);
            || e in Pending(t.queue, host)
            || (forall f | f in e.body :: f in t.published && f in t.targets && Proves(digest, t.targets[f], t.published[f]))
            || AckRun(host, e.id) in actions
    decreases |actions|
  {
    RunSound(digest, s, actions);
    if actions != [] {
      var next := Step(digest, s, actions[0]);
      StepSound(digest, s, actions[0]);
      StepOrdered(digest, s, actions[0]);
      LeavesExactly(digest, s, actions[0], host, e);
      if e in Pending(next.queue, host) {
        JobLeavesPublished(digest, next, actions[1..], host, e);
        assert AckRun(host, e.id) in actions[1..] ==> AckRun(host, e.id) in actions;
      }
    }
  }

  /** Why one PUT a path at a time: of two opened before either was recorded, the second to land replaces the
      file under the first one's row. */
  lemma TwoPutsOfOnePath(digest: Digest, s: State, path: Id, d: Declaration, other: Declaration, content: Bytes)
    requires path in s.published && s.published[path] == d && path in s.uploads && s.uploads[path] == Proven(other, content)
    requires other.sha != d.sha && Proves(digest, content, other)
    ensures !RowsHold(digest, Step(digest, s, Land(path)).published, Step(digest, s, Land(path)).targets)
  {
    assert path in Step(digest, s, Land(path)).published;
  }
}
