/** The loop of `AgentLoop` and the agent of `Protocol` are one: what the loop does of a claim, a unit and an ack is what
    the protocol's steps do, taken one after the other with nothing of another's in between. */
module AgentSteps {
  import opened Names
  import opened Wrappers
  import opened Tables
  import opened Ingest
  import opened Verify
  import opened Runs
  import opened Queue
  import opened Protocol
  import opened AgentLoop
  import Crossing

  /** The host's agent, and what it works on. */
  ghost predicate HasAt(w: World, host: Id, a: Agent, run: Id, db: Db, dir: Directory) { AgentOf(w, host) == a && w.db == db && DiskOf(w, run) == dir }

  /** What a record on disk is known by: its cell, its title, its cut, or the reference set that was built; a verdict has
      no such key. It is reposted exactly when the claim does not list that key. */
  lemma HeldByKey(r: Record, done: set<Id>)
    ensures IsHeld(r, done) <==>
              match r
              case EncodeRecord(cell, _) => cell !in done
              case FailureRecord(cell, _) => cell !in done
              case ScoreRecord(cell, _, _, _, _) => cell !in done
              case TimingRecord(cell, _) => cell !in done
              case TitleRecord(title, _) => title !in done
              case CutRecord(cut, _) => cut !in done
              case ReferenceSetRecord(s, _, _, _, _) => s !in done
              case CutCheckRecord(cut, _, _, _) => cut !in done
              case VerdictRecord(_, _, _, _, _, _) => true
  {
  }

  /** Reposting what the directory holds and the claim does not list. */
  lemma RepostStepIs(w: World, host: Id, entry: Entry<Job>, claimed: set<Id>, held: seq<Record>, checks: Db -> bool)
    requires AgentOf(w, host) == Claimed(entry, claimed) && entry.body.RunJob? && ListsHeld(DiskOf(w, entry.body.run), claimed, held)
    ensures var run, all := entry.body.run, IngestAll(w.db, entry.body.run, held);
            var v := Reposts(w, host, held, all.Ok? && checks(all.value));
            HasAt(v, host, Reposted(entry, if Took(checks, w.db, run, held) then claimed + KeysIn(held) else claimed), run,
                  AfterPost(checks, w.db, run, held), DiskOf(w, run))
  {
    if held == [] { assert KeysIn(held) == {}; }
  }

  /** A look at a unit, as `AtUnit` takes it: passed over when done, left alone when the run is abandoned and the unit
      not the first, else run. */
  lemma LookStepIs(w: World, host: Id, entry: Entry<Job>, done: set<Id>, n: nat)
    requires AgentOf(w, host) == AtUnit(entry, done, n) && entry.body.RunJob? && entry.body.run in w.db.runs
    requires n < |UnitKeys(w.db.runs[entry.body.run].stage, entry.body.plan)|
    ensures var run := entry.body.run;
            var key := UnitKeys(w.db.runs[run].stage, entry.body.plan)[n];
            HasAt(LooksAtUnit(w, host), host,
                  if key in done then AtUnit(entry, done, n + 1)
                  else if n > 0 && w.db.runs[run].state == Abandoned then Acking(entry)
                  else Working(entry, done, n),
                  run, w.db, DiskOf(w, run))
  {
  }

  function Writes(host: Id, n: nat): seq<Action> { seq(n, i => WriteNext(host)) }

  /** The first `k` of a unit's files are written. */
  ghost predicate WritingAt(w: World, host: Id, entry: Entry<Job>, done: set<Id>, n: nat, db: Db, was: Directory, made: seq<(FileName, Record)>, k: nat) {
    && entry.body.RunJob? && k <= |made|
    && HasAt(w, host, Writing(entry, done, n, made[k..], Written(was, made[..k])), entry.body.run, db, WithFiles(was, made[..k]))
  }

  function WritesMany(w: World, host: Id, k: nat): World
    decreases k
  {
    if k == 0 then w else WritesMany(WritesNext(w, host), host, k - 1)
  }

  lemma {:induction false} WritesAreMany(w: World, host: Id, k: nat)
    ensures RunAll(w, Writes(host, k)) == WritesMany(w, host, k)
    decreases k
  {
    if k == 0 {
      assert Writes(host, 0) == [];
    } else {
      assert Writes(host, k) == [WriteNext(host)] + Writes(host, k - 1);
      Crossing.Prepend(w, WriteNext(host), Writes(host, k - 1));
      WritesAreMany(WritesNext(w, host), host, k - 1);
    }
  }

  lemma {:induction false} WritesAll(w: World, host: Id, entry: Entry<Job>, done: set<Id>, n: nat, db: Db, was: Directory, made: seq<(FileName, Record)>, k: nat)
    requires WritingAt(w, host, entry, done, n, db, was, made, k)
    ensures WritingAt(WritesMany(w, host, |made| - k), host, entry, done, n, db, was, made, |made|)
    decreases |made| - k
  {
    if k < |made| {
      WriteStepIs(w, host, entry, done, n, db, was, made, k);
      WritesAll(WritesNext(w, host), host, entry, done, n, db, was, made, k + 1);
    }
  }

  lemma WriteStepIs(w: World, host: Id, entry: Entry<Job>, done: set<Id>, n: nat, db: Db, was: Directory, made: seq<(FileName, Record)>, k: nat)
    requires WritingAt(w, host, entry, done, n, db, was, made, k) && k < |made|
    ensures WritingAt(WritesNext(w, host), host, entry, done, n, db, was, made, k + 1)
  {
    var dir, batch := WithFiles(was, made[..k]), Written(was, made[..k]);
    assert made[k..][0] == made[k] && made[k..][1..] == made[k + 1..];
    assert made[..k + 1][..k] == made[..k] && made[..k + 1][k] == made[k];
    OneWritten(w, host, entry, done, n, made[k..], batch, dir);
    assert WithFiles(was, made[..k + 1]) == WithFile(dir, made[k]);
    assert Written(was, made[..k + 1]) == batch + if made[k].0 in dir && dir[made[k].0] != made[k].1 then [] else [made[k].1];
  }

  lemma OneWritten(w: World, host: Id, entry: Entry<Job>, done: set<Id>, n: nat, todo: seq<(FileName, Record)>, batch: seq<Record>, dir: Directory)
    requires AgentOf(w, host) == Writing(entry, done, n, todo, batch) && entry.body.RunJob? && todo != [] && DiskOf(w, entry.body.run) == dir
    ensures HasAt(WritesNext(w, host), host,
                  Writing(entry, done, n, todo[1..], batch + if todo[0].0 in dir && dir[todo[0].0] != todo[0].1 then [] else [todo[0].1]),
                  entry.body.run, w.db, WithFile(dir, todo[0]))
  {
    if todo[0].0 in dir && dir[todo[0].0] == todo[0].1 { assert dir[todo[0].0 := todo[0].1] == dir; }
  }

  /** The steps of one unit that is run to its post. */
  function UnitActions(host: Id, made: seq<(FileName, Record)>, ok: bool): seq<Action> {
    [RunUnit(host, Some(made))] + Writes(host, |made|) + [PostRecords(host, ok)]
  }

  /** The unit the agent is to run, and what its stage lets it make. */
  ghost predicate MayMake(w: World, entry: Entry<Job>, n: nat, key: Id, made: seq<(FileName, Record)>) {
    && entry.body.RunJob? && entry.body.run in w.db.runs && n < |UnitKeys(w.db.runs[entry.body.run].stage, entry.body.plan)|
    && key == UnitKeys(w.db.runs[entry.body.run].stage, entry.body.plan)[n]
    && Producible(w.db.runs[entry.body.run].stage, entry.body.plan.cells, key, made)
  }

  /** Whether the checks pass at the commit of this batch. */
  predicate Passes(checks: Db -> bool, db: Db, run: Id, batch: seq<Record>) { IngestAll(db, run, batch).Ok? && checks(IngestAll(db, run, batch).value) }

  /** One unit, from its run to the answer to its post: the same files, the same rows and the same keys done as the
      loop's `RunUnit` ends with, whatever is on disk already and whether or not the hub takes the records. */
  lemma UnitStepsAre(w: World, host: Id, entry: Entry<Job>, done: set<Id>, n: nat, key: Id, made: seq<(FileName, Record)>, checks: Db -> bool, s: Spot)
    requires AgentOf(w, host) == Working(entry, done, n) && MayMake(w, entry, n, key, made)
    requires s.db == w.db && s.dir == DiskOf(w, entry.body.run) && !s.trouble.dead && s.life > |made|
    ensures var (t, after) := UnitEnds(s, checks, entry.body.run, key, Some(made), done);
            HasAt(RunAll(w, UnitActions(host, made, Passes(checks, w.db, entry.body.run, Written(s.dir, made)))), host,
                  AtUnit(entry, after, n + 1), entry.body.run, t.db, t.dir)
  {
    var batch := Written(s.dir, made);
    UnitRunAll(w, host, made, Passes(checks, w.db, entry.body.run, batch));
    UnitPosted(w, host, entry, done, n, key, made, checks, s.dir);
    UnitEndsAre(s, checks, entry.body.run, key, made, done);
  }

  lemma UnitRunAll(w: World, host: Id, made: seq<(FileName, Record)>, ok: bool)
    ensures RunAll(w, UnitActions(host, made, ok)) == PostsRecords(WritesMany(RunsUnit(w, host, Some(made)), host, |made|), host, ok)
  {
    Joined(w, RunUnit(host, Some(made)), Writes(host, |made|), PostRecords(host, ok));
    WritesAreMany(RunsUnit(w, host, Some(made)), host, |made|);
  }

  lemma UnitPosted(w: World, host: Id, entry: Entry<Job>, done: set<Id>, n: nat, key: Id, made: seq<(FileName, Record)>, checks: Db -> bool, dir: Directory)
    requires AgentOf(w, host) == Working(entry, done, n) && MayMake(w, entry, n, key, made) && dir == DiskOf(w, entry.body.run)
    ensures var batch := Written(dir, made);
            HasAt(PostsRecords(WritesMany(RunsUnit(w, host, Some(made)), host, |made|), host, Passes(checks, w.db, entry.body.run, batch)), host,
                  AtUnit(entry, if Took(checks, w.db, entry.body.run, batch) then done + {key} else done, n + 1), entry.body.run,
                  AfterPost(checks, w.db, entry.body.run, batch), WithFiles(dir, made))
  {
    UnitWritten(w, host, entry, done, n, key, made, dir);
    PostStepIs(WritesMany(RunsUnit(w, host, Some(made)), host, |made|), host, entry, done, n, key, Written(dir, made), checks);
  }

  lemma UnitWritten(w: World, host: Id, entry: Entry<Job>, done: set<Id>, n: nat, key: Id, made: seq<(FileName, Record)>, dir: Directory)
    requires AgentOf(w, host) == Working(entry, done, n) && MayMake(w, entry, n, key, made) && dir == DiskOf(w, entry.body.run)
    ensures HasAt(WritesMany(RunsUnit(w, host, Some(made)), host, |made|), host, Writing(entry, done, n, [], Written(dir, made)), entry.body.run,
                  w.db, WithFiles(dir, made))
  {
    UnitStarts(w, host, entry, done, n, key, made, dir);
    WritesAll(RunsUnit(w, host, Some(made)), host, entry, done, n, w.db, dir, made, 0);
    NoneLeft(WritesMany(RunsUnit(w, host, Some(made)), host, |made|), host, entry, done, n, w.db, dir, made);
  }

  lemma NoneLeft(w: World, host: Id, entry: Entry<Job>, done: set<Id>, n: nat, db: Db, was: Directory, made: seq<(FileName, Record)>)
    requires WritingAt(w, host, entry, done, n, db, was, made, |made|)
    ensures HasAt(w, host, Writing(entry, done, n, [], Written(was, made)), entry.body.run, db, WithFiles(was, made))
  {
    assert made[|made|..] == [] && made[..|made|] == made;
  }

  lemma UnitStarts(w: World, host: Id, entry: Entry<Job>, done: set<Id>, n: nat, key: Id, made: seq<(FileName, Record)>, dir: Directory)
    requires AgentOf(w, host) == Working(entry, done, n) && MayMake(w, entry, n, key, made) && dir == DiskOf(w, entry.body.run)
    ensures WritingAt(RunsUnit(w, host, Some(made)), host, entry, done, n, w.db, dir, made, 0)
  {
    assert made[0..] == made && made[..0] == [];
  }

  lemma UnitEndsAre(s: Spot, checks: Db -> bool, run: Id, key: Id, made: seq<(FileName, Record)>, done: set<Id>)
    requires !s.trouble.dead && s.life > |made|
    ensures var e, batch := UnitEnds(s, checks, run, key, Some(made), done), Written(s.dir, made);
            && e.0.dir == WithFiles(s.dir, made) && e.0.db == AfterPost(checks, s.db, run, batch)
            && e.1 == if Took(checks, s.db, run, batch) then done + {key} else done
  {
    ThroughEnds(s, s.(dir := WithFiles(s.dir, made), life := s.life - |made|, cellsRun := s.cellsRun + 1), checks, run, key, made, done);
  }

  lemma Joined(w: World, a: Action, middle: seq<Action>, b: Action)
    ensures RunAll(w, [a] + middle + [b]) == Step(RunAll(Step(w, a), middle), b)
  {
    assert [a] + middle + [b] == [a] + (middle + [b]);
    Crossing.Prepend(w, a, middle + [b]);
    Crossing.Joined(Step(w, a), middle, [b]);
    assert RunAll(RunAll(Step(w, a), middle), [b]) == Step(RunAll(Step(w, a), middle), b);
  }

  lemma PostStepIs(w: World, host: Id, entry: Entry<Job>, done: set<Id>, n: nat, key: Id, batch: seq<Record>, checks: Db -> bool)
    requires AgentOf(w, host) == Writing(entry, done, n, [], batch) && entry.body.RunJob? && entry.body.run in w.db.runs
    requires n < |UnitKeys(w.db.runs[entry.body.run].stage, entry.body.plan)| && key == UnitKeys(w.db.runs[entry.body.run].stage, entry.body.plan)[n]
    ensures HasAt(PostsRecords(w, host, Passes(checks, w.db, entry.body.run, batch)), host,
                  AtUnit(entry, if Took(checks, w.db, entry.body.run, batch) then done + {key} else done, n + 1), entry.body.run,
                  AfterPost(checks, w.db, entry.body.run, batch), DiskOf(w, entry.body.run))
  {
  }

  /** A unit that ends in an error leaves nothing but the next one. */
  lemma FailedUnitIs(w: World, host: Id, entry: Entry<Job>, done: set<Id>, n: nat, checks: Db -> bool, s: Spot)
    requires AgentOf(w, host) == Working(entry, done, n) && entry.body.RunJob? && entry.body.run in w.db.runs
    requires n < |UnitKeys(w.db.runs[entry.body.run].stage, entry.body.plan)| && s.db == w.db && s.dir == DiskOf(w, entry.body.run)
    ensures var run, key := entry.body.run, UnitKeys(w.db.runs[entry.body.run].stage, entry.body.plan)[n];
            var e := UnitEnds(s, checks, run, key, None, done);
            HasAt(RunsUnit(w, host, None), host, AtUnit(entry, e.1, n + 1), run, e.0.db, e.0.dir)
  {
  }

  /** Past the last unit comes the ack. */
  lemma PastTheLast(w: World, host: Id, entry: Entry<Job>, done: set<Id>, n: nat)
    requires AgentOf(w, host) == AtUnit(entry, done, n) && entry.body.RunJob? && entry.body.run in w.db.runs
    requires n >= |UnitKeys(w.db.runs[entry.body.run].stage, entry.body.plan)|
    ensures LooksAtUnit(w, host) == w.(agents := w.agents[host := Acking(entry)])
  {
  }
}
