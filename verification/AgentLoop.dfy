/** The agent as an object (sweep/node/agent.py, sweep/node/records.py): claim, repost what an earlier life left
    on disk, run what has no record yet, write each record before posting it, ack. Its process may die between
    any two of its steps: `life` is how many it has left. */
module AgentLoop {
  import opened Names
  import opened Wrappers
  import opened Tables
  import opened Ingest
  import opened Verify
  import opened Runs
  import opened Queue
  import opened Protocol
  import Stranding
  import History
  import Hub
  import opened Recovery

  /** The host's work root: each run's records directory. It survives a crash. */
  class WorkRoot {
    var disks: map<Id, Directory>

    function Dir(run: Id): Directory
      reads this
    {
      if run in disks then disks[run] else map[]
    }

    /** Written once: the same record again is nothing, a differing one an error. */
    method WriteRecord(run: Id, name: FileName, record: Record) returns (ok: bool)
      modifies this
      ensures ok <==> name !in old(Dir(run)) || old(Dir(run))[name] == record
      ensures Dir(run) == if ok then old(Dir(run))[name := record] else old(Dir(run))
      ensures forall r | r != run :: Dir(r) == old(Dir(r))
    {
      var dir := Dir(run);
      disks := disks[run := dir];
      if name in dir { return dir[name] == record; }
      disks := disks[run := dir[name := record]];
      ok := true;
    }

    /** The records in the directory whose key is not done. */
    method ReadHeld(run: Id, done: set<Id>) returns (held: seq<Record>)
      ensures ListsHeld(Dir(run), done, held)
    {
      var left := Dir(run).Keys;
      held := [];
      while left != {}
        invariant left <= Dir(run).Keys
        invariant forall r :: r in held <==> exists f :: f in Dir(run).Keys - left && Dir(run)[f] == r && IsHeld(r, done)
        decreases |left|
      {
        var f :| f in left;
        ghost var seen := Dir(run).Keys - left;
        ghost var before := held;
        if IsHeld(Dir(run)[f], done) { held := held + [Dir(run)[f]]; }
        left := left - {f};
        assert Dir(run).Keys - left == seen + {f};
        forall r ensures r in held <==> exists g :: g in seen + {f} && Dir(run)[g] == r && IsHeld(r, done) {
          if r in before {
            var g :| g in seen && Dir(run)[g] == r && IsHeld(r, done);
            assert g in seen + {f};
          }
        }
      }
      forall r ensures r in held <==> r in Dir(run).Values && IsHeld(r, done) {
        if r in Dir(run).Values && IsHeld(r, done) {
          var f :| f in Dir(run) && Dir(run)[f] == r;
          assert f in Dir(run).Keys - left;
        }
      }
    }
  }

  /** What an agent may meet: its death, a post refused, a unit that ends in an error, a run abandoned. */
  datatype Trouble = Trouble(dead: bool, refused: bool, failed: bool, stopped: bool) {
    predicate None() { !dead && !refused && !failed && !stopped }

    predicate Within(after: Trouble) {
      (dead ==> after.dead) && (refused ==> after.refused) && (failed ==> after.failed) && (stopped ==> after.stopped)
    }
  }

  /** No trouble but death, and not that either with so many steps left. */
  predicate Fine(was: Trouble, life: nat, after: Trouble, left: nat, steps: nat) {
    (after == was || after == was.(dead := true)) && (life >= steps ==> after == was && left >= life - steps)
  }

  /** The units not yet done, in the plan's order. */
  function Without(units: seq<Id>, done: set<Id>): seq<Id> {
    if units == [] then []
    else
      var k := units[|units| - 1];
      Without(units[..|units| - 1], done) + if k in done then [] else [k]
  }

  /** The keys of the records on disk. */
  function Filed(dir: Directory): set<Id> { set f | f in dir && KeyOf(dir[f]).Some? :: KeyOf(dir[f]).value }

  /** A run whose cells end in encodes, failures and timings, its store and its directory in step. */
  ghost predicate InStep(db: Db, dir: Directory, run: Id) {
    run in db.runs && IsEncoding(db.runs[run].stage) && Recoverable(db, dir, run)
  }

  /** A cell is accounted for: its timing, if one is on disk, is on the hub; a cell that is not timed has its product. */
  predicate Settled(s: Stage, db: Db, dir: Directory, k: Id) {
    if IsQuiet(s) then TimingPart(k) in dir && dir[TimingPart(k)].TimingRecord? ==> RowsAt(db.measured.timings, k) == SampleSet(dir[TimingPart(k)].samples)
    else HasProduct(db, k)
  }

  ghost predicate AllSettled(db: Db, dir: Directory, run: Id, keys: set<Id>) {
    run in db.runs && forall k | k in keys && k in CellsOf(db, run) :: Settled(db.runs[run].stage, db, dir, k)
  }

  /** What an agent that met no trouble knows: what it takes as done is accounted for, what is on disk is done. */
  ghost predicate DoneSound(db: Db, dir: Directory, run: Id, done: set<Id>) { AllSettled(db, dir, run, done) && Filed(dir) <= done }

  /** What a claim lists as done: accounted for and on disk, and of a run that does not time all the hub has. */
  ghost predicate ClaimSound(db: Db, dir: Directory, run: Id, claimed: set<Id>) {
    && AllSettled(db, dir, run, claimed) && claimed <= Filed(dir)
    && (!IsQuiet(db.runs[run].stage) ==> forall k | k in CellsOf(db, run) && HasProduct(db, k) :: k in claimed)
  }

  ghost predicate KeepsFiles(was: Directory, dir: Directory) { forall f | f in was :: f in dir && dir[f] == was[f] }

  /** A file written if its name is free. */
  function WithFile(dir: Directory, file: (FileName, Record)): Directory { if file.0 in dir then dir else dir[file.0 := file.1] }

  function WithFiles(dir: Directory, made: seq<(FileName, Record)>): Directory {
    if made == [] then dir else WithFile(WithFiles(dir, made[..|made| - 1]), made[|made| - 1])
  }

  /** The records of the files that were written, or were there as they are. */
  function Written(dir: Directory, made: seq<(FileName, Record)>): seq<Record> {
    if made == [] then []
    else
      var before, (name, record) := WithFiles(dir, made[..|made| - 1]), made[|made| - 1];
      Written(dir, made[..|made| - 1]) + if name in before && before[name] != record then [] else [record]
  }

  function FilesOf(tool: Tool, key: Id): seq<(FileName, Record)> { if tool(key).Some? then tool(key).value else [] }

  /** A directory with all the files of the units that were run. */
  function AllFiles(dir: Directory, tool: Tool, ran: seq<Id>): Directory {
    if ran == [] then dir else WithFiles(AllFiles(dir, tool, ran[..|ran| - 1]), FilesOf(tool, ran[|ran| - 1]))
  }

  /** What running a unit ends in: its files and records, or an error. */
  type Tool = Id -> Option<seq<(FileName, Record)>>

  /** The tool makes what the stage's units may end in. */
  ghost predicate Suits(tool: Tool, s: Stage, cells: seq<CellSpec>) {
    forall k | k in KeysOf(cells) && tool(k).Some? :: Producible(s, cells, k, tool(k).value)
  }

  /** No unit ends in an error. */
  ghost predicate AllMade(tool: Tool, units: seq<Id>) { forall k | k in units :: tool(k).Some? }

  /** Distinct planned cells, each of which the tool ends in what its stage may, or in an error. */
  ghost predicate Runnable(db: Db, run: Id, units: seq<Id>, cells: seq<CellSpec>, tool: Tool) {
    && run in db.runs && units == KeysOf(cells) && Suits(tool, db.runs[run].stage, cells)
    && (forall i, j | 0 <= i < j < |units| :: units[i] != units[j])
    && (forall k | k in units :: k in CellsOf(db, run))
  }

  /** A planned cell, and what its unit may end in. */
  ghost predicate Makes(db: Db, run: Id, cells: seq<CellSpec>, key: Id, made: Option<seq<(FileName, Record)>>) {
    run in db.runs && key in CellsOf(db, run) && (made.Some? ==> Producible(db.runs[run].stage, cells, key, made.value))
  }

  /** Where a process stands with a run. */
  datatype Spot = Spot(db: Db, dir: Directory, trouble: Trouble, life: nat, cellsRun: nat)

  /** Where the loop over a run's units sets out. */
  datatype Outset = Outset(at: Spot, run: Id, units: seq<Id>, cells: seq<CellSpec>, tool: Tool, before: set<Id>) {
    /** Store and directory are in step and the units runnable. */
    ghost predicate Good() { InStep(at.db, at.dir, run) && Runnable(at.db, run, units, cells, tool) }

    /** And what is taken as done is accounted for: exactly what is on disk. */
    ghost predicate Sound() { Good() && DoneSound(at.db, at.dir, run, before) && before == Filed(at.dir) }

    /** And nothing is in the way: no trouble so far, no abandon, no error to come. */
    ghost predicate Smooth() { Sound() && at.trouble.None() && at.db.runs[run].state != Abandoned && AllMade(tool, units) }
  }

  /** None of these units ended in an error. */
  ghost predicate AllRan(o: Outset, ran: seq<Id>) { forall r | r in ran :: o.tool(r).Some? }

  /** Past the first `n` units with no trouble: they are done, the ones that were not have been run, and the directory
      holds what they made besides what it held. */
  ghost predicate Reached(o: Outset, db: Db, dir: Directory, n: nat, done: set<Id>, ran: seq<Id>) {
    && n <= |o.units| && done == o.before + (set k | k in o.units[..n]) && ran == Without(o.units[..n], o.before)
    && DoneSound(db, dir, o.run, done) && dir == AllFiles(o.at.dir, o.tool, ran) && AllRan(o, ran)
  }

  /** Before unit `n`, seen from where the loop set out; `accepting`: no check fires at any commit. */
  ghost predicate Along(o: Outset, s: Spot, accepting: bool, n: nat, done: set<Id>, ran: seq<Id>) {
    && n <= |o.units| && o.at.trouble.Within(s.trouble) && PlanUntouched(o.at.db, s.db) && KeepsFiles(o.at.dir, s.dir)
    && (o.Good() ==> InStep(s.db, s.dir, o.run))
    && (o.Sound() && s.trouble.None() ==> Reached(o, s.db, s.dir, n, done, ran))
    && (s.trouble.None() ==> s.cellsRun == o.at.cellsRun + |ran|)
    && (accepting && o.Smooth() ==> s.trouble.None() && (o.at.life >= 4 * n ==> s.life >= o.at.life - 4 * n))
  }

  /** Where the loop ended before its last unit: the process died, or the run was abandoned. */
  ghost predicate Aside(o: Outset, s: Spot, accepting: bool) {
    && o.at.trouble.Within(s.trouble) && !s.trouble.None() && PlanUntouched(o.at.db, s.db) && KeepsFiles(o.at.dir, s.dir)
    && (o.Good() ==> InStep(s.db, s.dir, o.run))
    && (accepting && o.Smooth() ==> Fine(o.at.trouble, o.at.life, s.trouble, s.life, 4 * |o.units|))
  }

  /** What running one unit has done. */
  ghost predicate UnitRun(s: Spot, t: Spot, accepting: bool, run: Id, cells: seq<CellSpec>, key: Id, made: Option<seq<(FileName, Record)>>,
                          before: set<Id>, done: set<Id>)
  {
    && s.trouble.Within(t.trouble) && PlanUntouched(s.db, t.db) && KeepsFiles(s.dir, t.dir)
    && (if made.Some? then t.cellsRun == s.cellsRun + 1 else t.cellsRun == s.cellsRun && t.trouble.failed)
    && (InStep(s.db, s.dir, run) && Makes(s.db, run, cells, key, made) ==>
          && InStep(t.db, t.dir, run)
          && (t.trouble.None() && DoneSound(s.db, s.dir, run, before) && key !in before ==>
                done == before + {key} && DoneSound(t.db, t.dir, run, done) && t.dir == WithFiles(s.dir, made.value))
          && (accepting && made.Some? && key !in Filed(s.dir) ==> Fine(s.trouble, s.life, t.trouble, t.life, 3)))
  }

  /** What posting a unit's records has done, once its files are written. */
  ghost predicate UnitPost(s: Spot, t: Spot, accepting: bool, run: Id, cells: seq<CellSpec>, key: Id, was: Directory, made: seq<(FileName, Record)>,
                           before: set<Id>, done: set<Id>)
  {
    && s.trouble.Within(t.trouble) && PlanUntouched(s.db, t.db) && t.dir == s.dir && t.cellsRun == s.cellsRun
    && (InStep(s.db, was, run) && Makes(s.db, run, cells, key, Some(made)) ==>
          && InStep(t.db, t.dir, run)
          && (t.trouble.None() && DoneSound(s.db, was, run, before) && key !in before ==>
                done == before + {key} && DoneSound(t.db, t.dir, run, done))
          && (accepting && key !in Filed(was) ==> Fine(s.trouble, s.life, t.trouble, t.life, 1)))
  }

  /** What the way to the first unit has done: everything on disk is reposted and done, and the run said to be running. */
  ghost predicate Begun(s: Spot, t: Spot, accepting: bool, run: Id, claimed: set<Id>, done: set<Id>) {
    && s.trouble.Within(t.trouble) && SamePlan(s.db, t.db, run) && t.dir == s.dir && t.cellsRun == s.cellsRun
    && t.db.runs[run].state in {s.db.runs[run].state, Running} && (t.trouble.None() ==> t.db.runs[run].state == Running)
    && (InStep(s.db, s.dir, run) ==>
          && InStep(t.db, t.dir, run)
          && (ClaimSound(s.db, s.dir, run, claimed) && t.trouble.None() ==> done == Filed(t.dir) && DoneSound(t.db, t.dir, run, done))
          && (accepting && ClaimSound(s.db, s.dir, run, claimed) && TimesAlone(s.db, run) ==> Fine(s.trouble, s.life, t.trouble, t.life, 2)))
  }

  /** A run that times is no score run's parent. */
  ghost predicate TimesAlone(db: Db, run: Id)
    requires run in db.runs
  {
    IsQuiet(db.runs[run].stage) ==> Unscored(db, run)
  }

  /** What the ack has done: at most one event of the run's, and without trouble the verdict. */
  ghost predicate AckSent(s: Spot, t: Spot, accepting: bool, was: QueueState<Job>, q: QueueState<Job>, entry: Entry<Job>)
    requires entry.body.RunJob?
  {
    var run := entry.body.run;
    && s.trouble.Within(t.trouble) && EventOnly(s.db, t.db, run) && t.dir == s.dir && t.cellsRun == s.cellsRun
    && (t.trouble.dead && !s.trouble.dead ==> t.db == s.db && q == was)
    && (HeldAtHost(s.db, was, entry) ==>
          && (t.trouble.None() && s.db.runs[run].state != Abandoned ==> t.db.runs[run].state == Verdict(s.db, run, entry.body.plan))
          && (accepting ==> Fine(s.trouble, s.life, t.trouble, t.life, 1)))
  }

  /** A batch is in: there was nothing to post, or the post was accepted. */
  predicate Took(checks: Db -> bool, db: Db, run: Id, batch: seq<Record>) { batch == [] || PostBatch(checks, db, run, batch).Ok? }

  function AfterPost(checks: Db -> bool, db: Db, run: Id, batch: seq<Record>): Db {
    var posted := PostBatch(checks, db, run, batch);
    if batch != [] && posted.Ok? then posted.value else db
  }

  /** What one unit comes to, wherever the process dies: every file before any post; a unit is taken as done once its
      records are in, and not otherwise. */
  function UnitEnds(s: Spot, checks: Db -> bool, run: Id, key: Id, made: Option<seq<(FileName, Record)>>, before: set<Id>): (Spot, set<Id>) {
    match made
    case None => (s.(trouble := s.trouble.(failed := true)), before)
    case Some(files) =>
      if |files| > s.life then (CutOff(s, files), before)
      else FilesEnd(s, WithFiles(s.dir, files), s.life - |files|, checks, run, key, Written(s.dir, files), before)
  }

  function CutOff(s: Spot, files: seq<(FileName, Record)>): Spot
    requires |files| > s.life
  {
    s.(dir := WithFiles(s.dir, files[..s.life]), trouble := s.trouble.(dead := true), life := 0, cellsRun := s.cellsRun + 1)
  }

  function FilesEnd(s: Spot, dir: Directory, left: nat, checks: Db -> bool, run: Id, key: Id, batch: seq<Record>, before: set<Id>): (Spot, set<Id>) {
    var all := s.(dir := dir, life := left, cellsRun := s.cellsRun + 1);
    if s.trouble.dead then (all, before) else PostEnds(all, checks, run, key, batch, before)
  }

  function PostEnds(s: Spot, checks: Db -> bool, run: Id, key: Id, batch: seq<Record>, before: set<Id>): (Spot, set<Id>) {
    if s.life == 0 then (s.(trouble := s.trouble.(dead := true)), before)
    else
      var spent := s.(life := s.life - 1);
      if Took(checks, s.db, run, batch) then (spent.(db := AfterPost(checks, s.db, run, batch)), before + {key})
      else (spent.(trouble := s.trouble.(refused := true)), before)
  }

  lemma CutEnds(s: Spot, w: Spot, checks: Db -> bool, run: Id, key: Id, made: seq<(FileName, Record)>, before: set<Id>)
    requires |made| > s.life || s.trouble.dead
    requires |made| > s.life ==> w == Spot(s.db, WithFiles(s.dir, made[..s.life]), s.trouble.(dead := true), 0, s.cellsRun + 1)
    requires |made| <= s.life ==> w == Spot(s.db, WithFiles(s.dir, made[..|made|]), s.trouble, s.life - |made|, s.cellsRun + 1)
    ensures UnitEnds(s, checks, run, key, Some(made), before) == (w, before)
  {
    assert made[..|made|] == made;
  }

  lemma ThroughEnds(s: Spot, w: Spot, checks: Db -> bool, run: Id, key: Id, made: seq<(FileName, Record)>, before: set<Id>)
    requires |made| <= s.life && !s.trouble.dead && w == Spot(s.db, WithFiles(s.dir, made), s.trouble, s.life - |made|, s.cellsRun + 1)
    ensures UnitEnds(s, checks, run, key, Some(made), before) == PostEnds(w, checks, run, key, Written(s.dir, made), before)
  {
    UnitIsFiles(s, checks, run, key, made, before);
    FilesEndIs(s, w, w.dir, s.life - |made|, checks, run, key, Written(s.dir, made), before);
  }

  lemma UnitIsFiles(s: Spot, checks: Db -> bool, run: Id, key: Id, made: seq<(FileName, Record)>, before: set<Id>)
    requires |made| <= s.life
    ensures UnitEnds(s, checks, run, key, Some(made), before) ==
            FilesEnd(s, WithFiles(s.dir, made), s.life - |made|, checks, run, key, Written(s.dir, made), before)
  {
    match Some(made) case Some(files) => assert files == made;
  }

  lemma FilesEndIs(s: Spot, w: Spot, dir: Directory, left: nat, checks: Db -> bool, run: Id, key: Id, batch: seq<Record>, before: set<Id>)
    requires !s.trouble.dead && w == Spot(s.db, dir, s.trouble, left, s.cellsRun + 1)
    ensures FilesEnd(s, dir, left, checks, run, key, batch, before) == PostEnds(w, checks, run, key, batch, before)
  {
  }

  lemma UnitMoves(s: Spot, checks: Db -> bool, run: Id, key: Id, made: Option<seq<(FileName, Record)>>, before: set<Id>)
    ensures var e := UnitEnds(s, checks, run, key, made, before);
            e.0.trouble.stopped == s.trouble.stopped && before <= e.1 <= before + {key}
  {
  }

  /** What a look at unit `n` comes to. One that is done is passed over. Before any other but the first the run's
      state is asked for, and an abandoned run is left at that: nothing is run, written, posted or taken as done. */
  ghost predicate Looked(s: Spot, t: Spot, run: Id, key: Id, n: nat, was: set<Id>, wasRan: seq<Id>, go: bool, done: set<Id>, ran: seq<Id>) {
    run in s.db.runs &&
    if key in was then go && t == s && done == was && ran == wasRan
    else if s.life == 0 then !go && t == s.(trouble := s.trouble.(dead := true)) && done == was && ran == wasRan
    else if n > 0 && s.db.runs[run].state == Abandoned then
      !go && t == s.(life := s.life - 1, trouble := s.trouble.(stopped := true)) && done == was && ran == wasRan
    else (go || t.trouble.dead) && t.trouble.stopped == s.trouble.stopped && was <= done <= was + {key} && ran == wasRan + [key]
  }

  predicate IsOneOf(units: seq<Id>, i: nat, keys: set<Id>) { i < |units| && units[i] in keys }

  /** No unit but the first of an abandoned run is run, and nothing else stops the loop between units. */
  ghost predicate SoFar(state: RunState, was: Trouble, now: Trouble, units: seq<Id>, n: nat, before: set<Id>, done: set<Id>, ran: seq<Id>) {
    && now.stopped == was.stopped
    && (state == Abandoned ==>
          if n == 0 || |units| == 0 then ran == [] && done == before
          else && (ran == [] || ran == [units[0]]) && done <= before + {units[0]}
               && forall i | 0 < i < n :: IsOneOf(units, i, before + {units[0]}))
  }

  /** What an abandon does to the loop: of an abandoned run no unit but the first is run, the loop does not pass a later
      one that is not done, and only an abandoned run is stopped. */
  ghost predicate StopsBetween(state: RunState, was: Trouble, now: Trouble, units: seq<Id>, before: set<Id>, ran: seq<Id>) {
    && (now.stopped && !was.stopped ==> state == Abandoned)
    && (state == Abandoned ==>
          && (ran == [] || (units != [] && ran == [units[0]]))
          && (now.stopped || now.dead || forall i | 0 < i < |units| :: IsOneOf(units, i, before + {units[0]})))
  }

  /** Along, and so far no abandon has been passed over. */
  ghost predicate Going(o: Outset, s: Spot, accepting: bool, n: nat, done: set<Id>, ran: seq<Id>) {
    && Along(o, s, accepting, n, done, ran) && o.run in o.at.db.runs
    && SoFar(o.at.db.runs[o.run].state, o.at.trouble, s.trouble, o.units, n, o.before, done, ran)
  }

  /** Aside, as an abandon or a death asks for. */
  ghost predicate Halted(o: Outset, s: Spot, accepting: bool, ran: seq<Id>) {
    && Aside(o, s, accepting) && o.run in o.at.db.runs
    && StopsBetween(o.at.db.runs[o.run].state, o.at.trouble, s.trouble, o.units, o.before, ran)
  }

  /** Where a run's units and its ack have led: no file is lost, a death leaves the entry and the run's state as they
      were, and without trouble the units are done and the run has its verdict. */
  ghost predicate Concluded(o: Outset, t: Spot, accepting: bool, was: QueueState<Job>, q: QueueState<Job>, entry: Entry<Job>,
                        done: set<Id>, ran: seq<Id>)
    requires entry.body.RunJob? && o.run == entry.body.run
  {
    && o.at.trouble.Within(t.trouble) && KeepsFiles(o.at.dir, t.dir) && SamePlan(o.at.db, t.db, o.run)
    && (t.trouble.dead && !o.at.trouble.dead ==> q == was && t.db.runs == o.at.db.runs)
    && (o.Good() ==> InStep(t.db, t.dir, o.run))
    && (o.Sound() && t.trouble.None() && Due(o.at.db, was, entry, o.cells) ==>
          && Reached(o, t.db, t.dir, |o.units|, done, ran) && t.cellsRun == o.at.cellsRun + |ran|
          && t.db.runs[o.run].state == if WillComplete(t.db.runs[o.run].stage, o.cells, o.at.dir, o.tool) then Complete else Failed)
    && (accepting && o.Smooth() && HeldAtHost(o.at.db, was, entry) ==> Fine(o.at.trouble, o.at.life, t.trouble, t.life, 4 * |o.units| + 1))
  }

  /** What a claimed run, from its repost to its ack, has done. */
  ghost predicate JobRun(s: Spot, t: Spot, accepting: bool, was: QueueState<Job>, q: QueueState<Job>, entry: Entry<Job>,
                         claimed: set<Id>, tool: Tool, ran: seq<Id>)
    requires entry.body.RunJob?
  {
    var run := entry.body.run;
    && s.trouble.Within(t.trouble) && KeepsFiles(s.dir, t.dir)
    && (t.trouble.dead && !s.trouble.dead ==>
          q == was && SamePlan(s.db, t.db, run) && t.db.runs[run].state in {s.db.runs[run].state, Running})
    && (Resumable(s.db, s.dir, entry) && Suits(tool, s.db.runs[run].stage, entry.body.plan.cells) && ClaimSound(s.db, s.dir, run, claimed) ==>
          && InStep(t.db, t.dir, run)
          && (t.trouble.None() && HeldAtHost(s.db, was, entry) ==> Ended(t.db, s.dir, t.dir, entry, tool, ran) && t.cellsRun == s.cellsRun + |ran|)
          && (accepting && AllMade(tool, KeysOf(entry.body.plan.cells)) && s.trouble.None() && HeldAtHost(s.db, was, entry) && TimesAlone(s.db, run) ==>
                Fine(s.trouble, s.life, t.trouble, t.life, Steps(entry.body.plan))))
  }

  /** What serving one claim has done, if the host's oldest entry is a run that is ready and that the tool suits. */
  ghost predicate Served(s: Spot, t: Spot, accepting: bool, checks: Db -> bool, was: QueueState<Job>, q: QueueState<Job>, host: Id, tool: Tool,
                         served: Option<Entry<Job>>, ran: seq<Id>)
  {
    var e := Next(was, host);
    Ready(s.db, was, host, s.dir) && Suits(tool, s.db.runs[e.body.run].stage, e.body.plan.cells) ==>
      && (checks(Hub.Launching(s.db, e.body.run)) ==> served == Some(e))
      && (accepting && AllMade(tool, KeysOf(e.body.plan.cells)) && s.trouble.None() ==> served == Some(e))
      && (if served.Some? then JobDone(s, t, accepting, q, host, e, tool, ran)
          else t == s && ReadyStill(s.db, t.db, q, host, t.dir, e))
  }

  /** A run that was ready has been served: no file is lost, a death leaves it as ready as it was, and without trouble
      it has ended as its directory called for. */
  ghost predicate JobDone(s: Spot, t: Spot, accepting: bool, q: QueueState<Job>, host: Id, e: Entry<Job>, tool: Tool, ran: seq<Id>)
    requires e.body.RunJob?
  {
    && KeepsFiles(s.dir, t.dir) && InStep(t.db, t.dir, e.body.run)
    && (t.trouble.dead && !s.trouble.dead ==> ReadyStill(s.db, t.db, q, host, t.dir, e))
    && (t.trouble.None() ==> Ended(t.db, s.dir, t.dir, e, tool, ran) && t.cellsRun == s.cellsRun + |ran|)
    && (accepting && AllMade(tool, KeysOf(e.body.plan.cells)) && s.trouble.None() ==> Fine(s.trouble, s.life, t.trouble, t.life, Steps(e.body.plan)))
  }

  class Process {
    const host: Id
    const hub: Hub.Service
    const root: WorkRoot
    var cellsRun: nat
    var reposted: nat
    var life: nat
    var trouble: Trouble

    ghost predicate Valid()
      reads this, hub, hub.store, hub.queue
    {
      hub.Valid()
    }

    /** No check fires at any commit. */
    ghost predicate Accepting() { forall db :: hub.store.checks(db) }

    ghost function At(run: Id): Spot
      reads this, hub, hub.store, root
    {
      Spot(hub.store.conn, root.Dir(run), trouble, life, cellsRun)
    }

    constructor (host: Id, hub: Hub.Service, root: WorkRoot, life: nat)
      requires hub.Valid()
      ensures Valid() && this.host == host && this.hub == hub && this.root == root && this.life == life
      ensures cellsRun == reposted == 0 && trouble.None()
    {
      this.host, this.hub, this.root, this.life := host, hub, root, life;
      cellsRun, reposted, trouble := 0, 0, Trouble(false, false, false, false);
    }

    /** One more step, or death before it. */
    method Lives() returns (alive: bool)
      modifies `life, `trouble
      ensures alive <==> old(life) > 0
      ensures life == if alive then old(life) - 1 else 0
      ensures trouble == if alive then old(trouble) else old(trouble).(dead := true)
    {
      alive := life > 0;
      if alive { life := life - 1; } else { trouble := trouble.(dead := true); }
    }

    /** Nothing to post is posted. */
    method PostRecords(run: Id, batch: seq<Record>) returns (ok: bool)
      requires Valid() && run in hub.store.conn.runs
      modifies `trouble, hub.store
      ensures Valid()
      ensures ok <==> batch == [] || PostBatch(hub.store.checks, old(hub.store.conn), run, batch).Ok?
      ensures ok ==> IngestAll(old(hub.store.conn), run, batch) == Ok(hub.store.conn) && trouble == old(trouble)
      ensures !ok ==> hub.store.conn == old(hub.store.conn) && trouble == old(trouble).(refused := true)
    {
      if batch == [] { return true; }
      ok := hub.Records(run, batch);
      if !ok { trouble := trouble.(refused := true); }
    }

    /** Records on disk the hub does not hold yet: once they are in, exactly the keys on disk are done. */
    method Repost(run: Id, claimed: set<Id>) returns (done: set<Id>)
      requires Valid() && run in hub.store.conn.runs
      modifies `trouble, `reposted, hub.store
      ensures Valid() && old(trouble).Within(trouble) && PlanUntouched(old(hub.store.conn), hub.store.conn)
      ensures InStep(old(hub.store.conn), root.Dir(run), run) ==> InStep(hub.store.conn, root.Dir(run), run)
      ensures InStep(old(hub.store.conn), root.Dir(run), run) && ClaimSound(old(hub.store.conn), root.Dir(run), run, claimed) ==>
                && (trouble.None() ==> done == Filed(root.Dir(run)) && DoneSound(hub.store.conn, root.Dir(run), run, done))
                && (Accepting() && TimesAlone(old(hub.store.conn), run) ==> trouble == old(trouble))
      ensures exists held :: ListsHeld(root.Dir(run), claimed, held)
                             && hub.store.conn == AfterPost(hub.store.checks, old(hub.store.conn), run, held)
                             && done == if Took(hub.store.checks, old(hub.store.conn), run, held) then claimed + KeysIn(held) else claimed
    {
      done := claimed;
      var held := root.ReadHeld(run, done);
      ghost var db, dir := hub.store.conn, root.Dir(run);
      HeldAccepted(db, dir, run, claimed, held);
      var ok := true;
      if held != [] {
        ok := PostRecords(run, held);
        if ok {
          reposted := reposted + |held|;
          done := done + KeysIn(held);
        }
      }
      if ok { WhatRepostingDoes(db, hub.store.conn, dir, run, claimed, held); }
    }

    /** The unit's records, each written before any is posted; one that differs from its file is not posted. */
    method WriteProduced(run: Id, made: seq<(FileName, Record)>) returns (batch: seq<Record>)
      modifies `life, `trouble, root
      ensures trouble == if |made| <= old(life) then old(trouble) else old(trouble).(dead := true)
      ensures var n := if |made| <= old(life) then |made| else old(life);
              life == old(life) - n && root.Dir(run) == WithFiles(old(root.Dir(run)), made[..n]) && batch == Written(old(root.Dir(run)), made[..n])
      ensures forall r | r != run :: root.Dir(r) == old(root.Dir(r))
    {
      batch := [];
      var i := 0;
      while i < |made|
        invariant 0 <= i <= |made|
        invariant old(trouble) == trouble && life == old(life) - i
        invariant forall r | r != run :: root.Dir(r) == old(root.Dir(r))
        invariant root.Dir(run) == WithFiles(old(root.Dir(run)), made[..i]) && batch == Written(old(root.Dir(run)), made[..i])
      {
        assert made[..i + 1][..i] == made[..i];
        var alive := Lives();
        if !alive { return; }
        var ok := root.WriteRecord(run, made[i].0, made[i].1);
        if ok { batch := batch + [made[i].1]; }
        i := i + 1;
      }
    }

    /** One unit of work, from its run to the post of its records. */
    method RunUnit(run: Id, key: Id, made: Option<seq<(FileName, Record)>>, before: set<Id>, ghost cells: seq<CellSpec>) returns (done: set<Id>)
      requires Valid() && run in hub.store.conn.runs
      modifies `life, `trouble, `cellsRun, root, hub.store
      ensures Valid() && UnitRun(old(At(run)), At(run), Accepting(), run, cells, key, made, before, done)
      ensures (At(run), done) == UnitEnds(old(At(run)), hub.store.checks, run, key, made, before)
    {
      done := before;
      if made.None? {
        trouble := trouble.(failed := true);
        return;
      }
      ghost var s := At(run);
      cellsRun := cellsRun + 1;
      var batch := WriteProduced(run, made.value);
      ghost var w := At(run);
      assert made.value[..|made.value|] == made.value;
      if trouble.dead {
        UnitCut(s, w, Accepting(), run, cells, key, made.value, before);
        CutEnds(s, w, hub.store.checks, run, key, made.value, before);
        return;
      }
      done := PostUnit(run, key, batch, before, s.dir, made.value, cells);
      UnitThrough(s, w, At(run), Accepting(), run, cells, key, made.value, before, done);
      ThroughEnds(s, w, hub.store.checks, run, key, made.value, before);
    }

    method PostUnit(run: Id, key: Id, batch: seq<Record>, before: set<Id>, ghost was: Directory, ghost made: seq<(FileName, Record)>,
                    ghost cells: seq<CellSpec>)
      returns (done: set<Id>)
      requires Valid() && run in hub.store.conn.runs && root.Dir(run) == WithFiles(was, made) && batch == Written(was, made)
      modifies `life, `trouble, hub.store
      ensures Valid() && UnitPost(old(At(run)), At(run), Accepting(), run, cells, key, was, made, before, done)
      ensures (At(run), done) == PostEnds(old(At(run)), hub.store.checks, run, key, batch, before)
    {
      done := before;
      ghost var s := At(run);
      var alive := Lives();
      if !alive {
        PostCut(s, At(run), Accepting(), run, cells, key, was, made, before);
        return;
      }
      var ok := PostRecords(run, batch);
      if ok { done := done + {key}; }
      PostAnswered(s, At(run), Accepting(), hub.store.checks, run, cells, key, was, made, before, done, ok);
    }

    /** At one unit: skip it, die, find the run abandoned, or run it. */
    method AtUnit(ghost o: Outset, run: Id, units: seq<Id>, n: nat, tool: Tool, was: set<Id>, wasRan: seq<Id>)
      returns (go: bool, done: set<Id>, ran: seq<Id>)
      requires Valid() && run == o.run && units == o.units && tool == o.tool && run in o.at.db.runs && n < |units|
      requires Along(o, At(run), Accepting(), n, was, wasRan)
      modifies `life, `trouble, `cellsRun, root, hub.store
      ensures Valid() && if go then Along(o, At(run), Accepting(), n + 1, done, ran) else Aside(o, At(run), Accepting())
      ensures Looked(old(At(run)), At(run), run, units[n], n, was, wasRan, go, done, ran)
    {
      go, done, ran := true, was, wasRan;
      ghost var s := At(run);
      if units[n] in was {
        Skipped(o, s, Accepting(), n, was, ran);
        return;
      }
      go := Lives();
      if !go {
        DiedAt(o, s, At(run), Accepting(), n, was, ran);
        return;
      }
      if n > 0 {
        var stopped := Stops(o, s, run, n, was, ran);
        if stopped {
          go := false;
          return;
        }
      }
      go, done := NextUnit(o, s, run, units[n], n, tool, was, wasRan);
      ran := ran + [units[n]];
    }

    /** Whether the operator has abandoned the run, asked before every unit but the first. */
    method Stops(ghost o: Outset, ghost s: Spot, run: Id, ghost n: nat, ghost was: set<Id>, ghost ran: seq<Id>) returns (stopped: bool)
      requires Valid() && run == o.run && run in hub.store.conn.runs && n < |o.units|
      requires Along(o, s, Accepting(), n, was, ran) && s.life > 0 && At(run) == s.(life := s.life - 1)
      modifies `trouble
      ensures stopped <==> hub.store.conn.runs[run].state == Abandoned
      ensures trouble == if stopped then old(trouble).(stopped := true) else old(trouble)
      ensures stopped ==> Aside(o, At(run), Accepting())
    {
      stopped := hub.AbandonFlag(run);
      if stopped {
        trouble := trouble.(stopped := true);
        StoppedAt(o, s, At(run), Accepting(), n, was, ran);
      }
    }

    method NextUnit(ghost o: Outset, ghost s: Spot, run: Id, key: Id, ghost n: nat, tool: Tool, was: set<Id>, ghost wasRan: seq<Id>)
      returns (go: bool, done: set<Id>)
      requires Valid() && run == o.run && tool == o.tool && run in hub.store.conn.runs && n < |o.units| && key == o.units[n] && key !in was
      requires Along(o, s, Accepting(), n, was, wasRan) && s.life > 0 && At(run) == s.(life := s.life - 1)
      modifies `life, `trouble, `cellsRun, root, hub.store
      ensures Valid() && if go then Along(o, At(run), Accepting(), n + 1, done, wasRan + [key]) else Aside(o, At(run), Accepting())
      ensures (go || trouble.dead) && trouble.stopped == old(trouble).stopped && was <= done <= was + {key}
    {
      ghost var t := At(run);
      done := RunUnit(run, key, tool(key), was, o.cells);
      go := !trouble.dead;
      UnitMoves(t, hub.store.checks, run, key, tool(key), was);
      RanOne(o, s, t, At(run), Accepting(), n, was, wasRan, done);
    }

    method OneMore(ghost o: Outset, run: Id, units: seq<Id>, n: nat, tool: Tool, was: set<Id>, wasRan: seq<Id>)
      returns (go: bool, done: set<Id>, ran: seq<Id>)
      requires Valid() && run == o.run && units == o.units && tool == o.tool && run in o.at.db.runs && n < |units|
      requires Going(o, At(run), Accepting(), n, was, wasRan)
      modifies `life, `trouble, `cellsRun, root, hub.store
      ensures Valid() && if go then Going(o, At(run), Accepting(), n + 1, done, ran) else Halted(o, At(run), Accepting(), ran)
    {
      ghost var s := At(run);
      go, done, ran := AtUnit(o, run, units, n, tool, was, wasRan);
      LookedOnce(o, s, At(run), n, was, wasRan, go, done, ran);
    }

    /** The units in order, each skipped if done, until the operator abandons the run. */
    method RunUnits(run: Id, units: seq<Id>, before: set<Id>, tool: Tool, ghost cells: seq<CellSpec>) returns (done: set<Id>, ran: seq<Id>)
      requires Valid() && run in hub.store.conn.runs
      modifies `life, `trouble, `cellsRun, root, hub.store
      ensures var o := Outset(old(At(run)), run, units, cells, tool, before);
              Valid() && (Along(o, At(run), Accepting(), |units|, done, ran) || Aside(o, At(run), Accepting()))
      ensures StopsBetween(old(hub.store.conn).runs[run].state, old(trouble), trouble, units, before, ran)
    {
      ghost var o := Outset(At(run), run, units, cells, tool, before);
      SetOut(o, Accepting());
      done, ran := LoopUnits(o, run, units, before, tool);
      LoopEnded(o, At(run), Accepting(), done, ran);
    }

    method LoopUnits(ghost o: Outset, run: Id, units: seq<Id>, before: set<Id>, tool: Tool) returns (done: set<Id>, ran: seq<Id>)
      requires Valid() && run == o.run && units == o.units && before == o.before && tool == o.tool && run in o.at.db.runs
      requires Going(o, At(run), Accepting(), 0, before, [])
      modifies `life, `trouble, `cellsRun, root, hub.store
      ensures Valid() && (Going(o, At(run), Accepting(), |units|, done, ran) || Halted(o, At(run), Accepting(), ran))
    {
      done, ran := before, [];
      var n := 0;
      while n < |units|
        invariant n <= |units| && Valid() && Going(o, At(run), Accepting(), n, done, ran)
      {
        var go;
        go, done, ran := OneMore(o, run, units, n, tool, done, ran);
        if !go { return; }
        n := n + 1;
      }
    }

    /** `running`; a refusal is only logged. */
    method SayRunning(run: Id)
      requires Valid() && run in hub.store.conn.runs
      modifies `trouble, hub.store
      ensures Valid() && old(trouble).Within(trouble) && EventOnly(old(hub.store.conn), hub.store.conn, run)
      ensures trouble.None() ==> hub.store.conn.runs[run].state == Running
      ensures hub.store.conn.runs[run].state in {old(hub.store.conn).runs[run].state, Running}
      ensures Accepting() ==> trouble == old(trouble)
    {
      ghost var db := hub.store.conn;
      var ok := hub.Events(run, Running);
      if !ok { trouble := trouble.(refused := true); }
      if ok { PostedSamePlan(db, run, Running, ByAgent); } else { UntouchedSamePlan(db, db, run); }
    }

    /** Up to the first unit: what is on disk is reposted, and the run said to be running. */
    method Begin(run: Id, claimed: set<Id>) returns (done: set<Id>)
      requires Valid() && run in hub.store.conn.runs
      modifies `life, `trouble, `reposted, hub.store
      ensures Valid() && Begun(old(At(run)), At(run), Accepting(), run, claimed, done)
    {
      done := claimed;
      ghost var s := At(run);
      UntouchedSamePlan(s.db, s.db, run);
      var alive := Lives();
      if !alive { return; }
      done := Repost(run, claimed);
      ghost var t := At(run);
      UntouchedSamePlan(s.db, t.db, run);
      alive := Lives();
      if !alive { return; }
      SayRunning(run);
      ThroughEvent(s.db, t.db, hub.store.conn, t.dir, run, done);
    }

    /** The ack: the hub's verdict, or a refusal. */
    method SendAck(entry: Entry<Job>)
      requires Valid() && entry.body.RunJob? && entry.body.run in hub.store.conn.runs
      modifies `life, `trouble, hub.store, hub.queue
      ensures Valid() && AckSent(old(At(entry.body.run)), At(entry.body.run), Accepting(), old(hub.queue.State()), hub.queue.State(), entry)
    {
      ghost var s, q := At(entry.body.run), hub.queue.State();
      var alive := Lives();
      if !alive {
        AckUnsent(s, At(entry.body.run), Accepting(), q, entry);
        return;
      }
      var state := hub.Ack(entry.body.run, entry.id);
      if state.None? { trouble := trouble.(refused := true); }
      AckAnswered(s, At(entry.body.run), Accepting(), hub.store.checks, q, hub.queue.State(), entry, state.Some?);
    }

    /** From the first unit through the ack. */
    method UnitsThenAck(entry: Entry<Job>, units: seq<Id>, before: set<Id>, tool: Tool) returns (done: set<Id>, ran: seq<Id>)
      requires Valid() && entry.body.RunJob? && entry.body.run in hub.store.conn.runs && !trouble.dead
      modifies `life, `trouble, `cellsRun, root, hub.store, hub.queue
      ensures Valid()
      ensures var o := Outset(old(At(entry.body.run)), entry.body.run, units, entry.body.plan.cells, tool, before);
              Concluded(o, At(entry.body.run), Accepting(), old(hub.queue.State()), hub.queue.State(), entry, done, ran)
    {
      ghost var o := Outset(At(entry.body.run), entry.body.run, units, entry.body.plan.cells, tool, before);
      ghost var q := hub.queue.State();
      done, ran := RunUnits(entry.body.run, units, before, tool, entry.body.plan.cells);
      ghost var s := At(entry.body.run);
      UntouchedSamePlan(o.at.db, s.db, o.run);
      if trouble.dead { return; }
      SendAck(entry);
      WhatTheAckDid(o, s, At(entry.body.run), Accepting(), q, hub.queue.State(), entry, done, ran);
    }

    /** A claimed run, from the repost to the ack. */
    method RunJob(entry: Entry<Job>, claimed: set<Id>, tool: Tool) returns (ran: seq<Id>)
      requires Valid() && entry.body.RunJob? && entry.body.run in hub.store.conn.runs
      modifies this, root, hub.store, hub.queue
      ensures Valid()
      ensures JobRun(old(At(entry.body.run)), At(entry.body.run), Accepting(), old(hub.queue.State()), hub.queue.State(), entry, claimed, tool, ran)
    {
      ran := [];
      ghost var run, q := entry.body.run, hub.queue.State();
      ghost var s := At(run);
      var units := UnitKeys(hub.store.conn.runs[entry.body.run].stage, entry.body.plan);
      var done := Begin(entry.body.run, claimed);
      ghost var t := At(run);
      if trouble.dead { return; }
      ghost var o := Outset(t, run, units, entry.body.plan.cells, tool, done);
      done, ran := UnitsThenAck(entry, units, done, tool);
      WhatTheJobDid(s, o, At(run), Accepting(), q, hub.queue.State(), entry, claimed, done, ran);
    }

    /** One claim, run to its ack; nothing when nothing was waiting or the claim was refused. */
    method ServeOnce(tool: Tool) returns (served: Option<Entry<Job>>, ran: seq<Id>)
      requires Valid()
      modifies this, root, hub.store, hub.queue
      ensures Valid() && old(trouble).Within(trouble)
      ensures var e := Next(old(hub.queue.State()), host);
              e.body.RunJob? ==> Served(old(At(e.body.run)), At(e.body.run), Accepting(), hub.store.checks, old(hub.queue.State()), hub.queue.State(), host, tool, served, ran)
    {
      served, ran := None, [];
      ghost var q := hub.queue.State();
      ghost var e := Next(q, host);
      ghost var s := if e.body.RunJob? then At(e.body.run) else Spot(hub.store.conn, map[], trouble, life, cellsRun);
      var answer := hub.Claim(host);
      ghost var q1, db1 := hub.queue.State(), hub.store.conn;
      ClaimedReady(s.db, q, host, s.dir, hub.store.checks, db1, q1, answer);
      match answer
      case Nothing =>
      case PublishWork(entry) => served := Some(entry);
      case RunWork(entry, claimed) =>
        served := Some(entry);
        ran := RunJob(entry, claimed, tool);
        if Ready(s.db, q, host, s.dir) && Suits(tool, s.db.runs[e.body.run].stage, e.body.plan.cells) {
          JobServed(s, s.(db := db1), At(e.body.run), Accepting(), q1, hub.queue.State(), host, e, claimed, tool, ran);
        }
    }

    /** A new process at the host: nothing of the old one is left but its directories. */
    method Restart(life: nat)
      modifies this
      ensures this.life == life && trouble.None() && cellsRun == reposted == 0
    {
      this.life, cellsRun, reposted, trouble := life, 0, 0, Trouble(false, false, false, false);
    }

    /** One process, from its start to its end. */
    method ServeLife(life: nat, tool: Tool) returns (served: Option<Entry<Job>>, ran: seq<Id>)
      requires Valid()
      modifies this, root, hub.store, hub.queue
      ensures Valid()
      ensures var e, db, q := Next(old(hub.queue.State()), host), old(hub.store.conn), old(hub.queue.State());
              e.body.RunJob? && Ready(db, q, host, old(root.Dir(e.body.run))) && Suits(tool, db.runs[e.body.run].stage, e.body.plan.cells) ==>
                var run, dir := e.body.run, old(root.Dir(e.body.run));
                && KeepsFiles(dir, root.Dir(run)) && InStep(hub.store.conn, root.Dir(run), run)
                && (trouble.dead ==> ReadyStill(db, hub.store.conn, hub.queue.State(), host, root.Dir(run), e))
                && (served.Some? && trouble.None() ==> Ended(hub.store.conn, dir, root.Dir(run), e, tool, ran))
                && (Accepting() && AllMade(tool, KeysOf(e.body.plan.cells)) ==>
                      served == Some(e) && (trouble.dead || trouble.None()) && (life >= Steps(e.body.plan) ==> !trouble.dead))
    {
      Restart(life);
      served, ran := ServeOnce(tool);
    }

    /** Any number of processes that die, each after so many steps and each with tools of its own, until one does not;
        `found` is the directory the last one starts from. */
    method ServeThrough(lives: seq<(nat, Tool)>) returns (served: Option<Entry<Job>>, ran: seq<Id>, ghost found: Directory)
      requires Valid() && lives != []
      modifies this, root, hub.store, hub.queue
      ensures Valid()
      ensures var e, db, q := Next(old(hub.queue.State()), host), old(hub.store.conn), old(hub.queue.State());
              e.body.RunJob? && Ready(db, q, host, old(root.Dir(e.body.run))) && AllSuit(lives, db, e) ==>
                var run, last := e.body.run, lives[|lives| - 1];
                && KeepsFiles(old(root.Dir(run)), found) && KeepsFiles(found, root.Dir(run)) && InStep(hub.store.conn, root.Dir(run), run)
                && (served.Some? && trouble.None() ==> EndedFrom(hub.store.conn, found, root.Dir(run), e, lives, ran))
                && (Accepting() && AllMakeAll(lives, e) && last.0 >= Steps(e.body.plan) ==> served == Some(e) && trouble.None())
    {
      served, ran := None, [];
      ghost var e := Next(hub.queue.State(), host);
      ghost var db, dir := hub.store.conn, if e.body.RunJob? then root.Dir(e.body.run) else map[];
      ghost var ready := e.body.RunJob? && Ready(db, hub.queue.State(), host, dir) && AllSuit(lives, db, e);
      ghost var sure := ready && Accepting() && AllMakeAll(lives, e);
      found := dir;
      var i := 0;
      while i < |lives|
        invariant 0 <= i <= |lives|
        invariant Valid()
        invariant i > 0 ==> trouble.dead
        invariant sure && i > 0 ==> lives[i - 1].0 < Steps(e.body.plan)
        invariant ready ==>
                    && KeepsFiles(dir, found) && KeepsFiles(found, root.Dir(e.body.run)) && InStep(hub.store.conn, root.Dir(e.body.run), e.body.run)
                    && ReadyStill(db, hub.store.conn, hub.queue.State(), host, root.Dir(e.body.run), e)
      {
        if e.body.RunJob? { found := root.Dir(e.body.run); }
        served, ran := ServeLife(lives[i].0, lives[i].1);
        if !trouble.dead { return; }
        i := i + 1;
      }
    }
  }

  ghost predicate AllSuit(lives: seq<(nat, Tool)>, db: Db, e: Entry<Job>) {
    e.body.RunJob? && e.body.run in db.runs && forall l | l in lives :: Suits(l.1, db.runs[e.body.run].stage, e.body.plan.cells)
  }

  ghost predicate AllMakeAll(lives: seq<(nat, Tool)>, e: Entry<Job>) {
    e.body.RunJob? && forall l | l in lives :: AllMade(l.1, KeysOf(e.body.plan.cells))
  }

  /** Ended by one of these processes. */
  ghost predicate EndedFrom(db: Db, was: Directory, dir: Directory, e: Entry<Job>, lives: seq<(nat, Tool)>, ran: seq<Id>) {
    e.body.RunJob? && exists l | l in lives :: Ended(db, was, dir, e, l.1, ran)
  }

  // ---- plans, entries and readiness

  /** At most the run's own state has moved. */
  ghost predicate SamePlan(a: Db, b: Db, run: Id) {
    && run in a.runs && run in b.runs && b.cells == a.cells && b.catalogue == a.catalogue
    && b.runs == a.runs[run := b.runs[run]] && b.runs[run].(state := a.runs[run].state) == a.runs[run]
  }

  /** At most the run's own event and state have moved. */
  ghost predicate EventOnly(a: Db, b: Db, run: Id) { SamePlan(a, b, run) && b.measured == a.measured }

  lemma UntouchedSamePlan(a: Db, b: Db, run: Id)
    requires run in a.runs && PlanUntouched(a, b)
    ensures SamePlan(a, b, run) && (b.measured == a.measured ==> EventOnly(a, b, run))
  {
    assert a.runs[run := a.runs[run]] == a.runs;
  }

  lemma PostedSamePlan(db: Db, run: Id, state: RunState, writer: Writer)
    requires run in db.runs
    ensures EventOnly(db, Posted(db, run, state, writer), run)
  {
  }

  lemma RuledSamePlan(db: Db, run: Id, e: Entry<Job>)
    requires run in db.runs
    ensures EventOnly(db, Hub.Ruled(db, run, e), run)
  {
    UntouchedSamePlan(db, db, run);
    PostedSamePlan(db, run, Verdict(db, run, PlanOf(e.body)), ByHub);
  }

  lemma ThroughEvent(was: Db, a: Db, b: Db, dir: Directory, run: Id, done: set<Id>)
    requires SamePlan(was, a, run) && EventOnly(a, b, run)
    ensures SamePlan(was, b, run)
    ensures InStep(a, dir, run) ==> InStep(b, dir, run)
    ensures DoneSound(a, dir, run, done) ==> DoneSound(b, dir, run, done)
  {
    assert was.runs[run := a.runs[run]][run := b.runs[run]] == was.runs[run := b.runs[run]];
    assert CellsOf(b, run) == CellsOf(a, run);
    if InStep(a, dir, run) {
      EventUnscored(a, b, run);
      StoreMoved(a, b, dir, run);
    }
  }

  lemma EventUnscored(a: Db, b: Db, run: Id)
    requires SamePlan(a, b, run)
    ensures Unscored(b, run) <==> Unscored(a, run)
  {
    forall s | s in a.runs ensures SameKind(b.runs[s], a.runs[s]) {}
  }

  /** The run's host holds the entry. */
  ghost predicate HeldAtHost(db: Db, q: QueueState<Job>, entry: Entry<Job>) {
    entry.body.RunJob? && entry.body.run in db.runs && Held(q, db.runs[entry.body.run].host) == Some(entry)
  }

  lemma HeldIsFound(q: QueueState<Job>, host: Id, entry: Entry<Job>)
    requires Held(q, host) == Some(entry)
    ensures FindPending(Pending(q, host), entry.id) == Some(entry) && MayAck(q, host, entry.id)
  {
  }

  /** The run goes on to its ack: its entry is held, it runs, and the cells are its plan's. */
  ghost predicate Due(db: Db, q: QueueState<Job>, entry: Entry<Job>, cells: seq<CellSpec>) {
    && HeldAtHost(db, q, entry) && db.runs[entry.body.run].state == Running && cells == entry.body.plan.cells
    && Fits(db, entry.body.run, db.runs[entry.body.run].stage, entry.body.plan)
  }

  /** A run whose cells end in encodes, failures and timings, its store and its directory in step, its plan its cells. */
  ghost predicate Resumable(db: Db, dir: Directory, entry: Entry<Job>) {
    entry.body.RunJob? && InStep(db, dir, entry.body.run) && Fits(db, entry.body.run, db.runs[entry.body.run].stage, entry.body.plan)
  }

  /** The host's oldest entry. */
  function Next(q: QueueState<Job>, host: Id): Entry<Job> {
    if Pending(q, host) == [] then Entry(0, host, PublishJob([])) else Pending(q, host)[0]
  }

  /** The host's oldest entry is such a run, and one the host may be handed. */
  ghost predicate Ready(db: Db, q: QueueState<Job>, host: Id, dir: Directory) {
    var entry := Next(q, host);
    && Pending(q, host) != [] && Resumable(db, dir, entry) && TimesAlone(db, entry.body.run)
    && !Stale(db, entry.body.run, host) && MayHandOut(db, entry.body.run, host)
  }

  ghost predicate ReadyStill(was: Db, db: Db, q: QueueState<Job>, host: Id, dir: Directory, e: Entry<Job>) {
    && Next(q, host) == e && Ready(db, q, host, dir)
    && e.body.run in was.runs && db.runs[e.body.run].stage == was.runs[e.body.run].stage
  }

  /** More than a process takes from its claim to its ack: two before the units, four at most for each, one for the ack. */
  function Steps(plan: Plan): nat { 4 * |plan.cells| + 3 }

  lemma KeysPlanned(db: Db, run: Id, s: Stage, plan: Plan)
    requires IsEncoding(s) && Fits(db, run, s, plan)
    ensures forall k | k in KeysOf(plan.cells) :: k in CellsOf(db, run)
    ensures forall k | k in CellsOf(db, run) :: k in KeysOf(plan.cells)
    ensures forall i, j | 0 <= i < j < |plan.cells| :: KeysOf(plan.cells)[i] != KeysOf(plan.cells)[j]
  {
    var keys := KeysOf(plan.cells);
    forall k | k in keys ensures k in CellsOf(db, run) {
      var i :| 0 <= i < |keys| && keys[i] == k;
      assert plan.cells[i] in plan.cells;
    }
    forall k | k in CellsOf(db, run) ensures k in keys {
      var c :| c in plan.cells && c.key == k;
      UnitInKeys(plan.cells, c);
    }
  }

  // ---- the claim

  lemma ClaimIsSound(db: Db, dir: Directory, run: Id, plan: Plan)
    requires InStep(db, dir, run)
    ensures ClaimSound(db, dir, run, Done(db, run, db.runs[run].stage, plan))
  {
    var s := db.runs[run].stage;
    var claimed := Done(db, run, s, plan);
    forall k | k in claimed ensures k in Filed(dir) && Settled(s, db, dir, k) {
      assert CellOnDisk(s, db, dir, k);
      if IsQuiet(s) {
        NoRowsNoRepeats(db, k);
        FiledUnder(s, dir, CellsOf(db, run), TimingPart(k));
      } else {
        FiledUnder(s, dir, CellsOf(db, run), Whole(k));
      }
    }
  }

  lemma NoRowsNoRepeats(db: Db, k: Id)
    ensures RowsAt(db.measured.timings, k) == {} ==> RepeatsTimed(db, k) == 0
  {
    if RowsAt(db.measured.timings, k) == {} { assert (set x | x in RowsAt(db.measured.timings, k) :: x.repeatIndex) == {}; }
  }

  /** A file's name says whose it is. */
  lemma FiledUnder(s: Stage, dir: Directory, cells: set<Id>, f: FileName)
    requires FilesSound(s, dir, cells) && f in dir
    ensures f.Whole? || f.EncodePart? || f.TimingPart?
    ensures var k := if f.Whole? then f.unit else f.cell; KeyOf(dir[f]) == Some(k) && k in Filed(dir) && k in cells
  {
    assert FileSound(s, dir, cells, f);
  }

  /** A claim of a ready entry: refused whole, or the entry with what the hub holds of its plan. */
  lemma WhatClaimGives(db: Db, q: QueueState<Job>, host: Id, dir: Directory)
    requires Ready(db, q, host, dir)
    ensures forall ok ::
              var e, v := Next(q, host), Hub.Claims(Hub.AtRest(db, q), host, ok);
              && v.queue == AfterClaim(q, host)
              && v.db == (if ok then Hub.Launching(db, e.body.run) else db)
              && Hub.AnswerOf(AgentOf(v, host)) ==
                   (if ok then Hub.RunWork(e, Done(db, e.body.run, db.runs[e.body.run].stage, e.body.plan)) else Hub.Nothing)
    ensures var e, v := Next(q, host), Hub.Launching(db, Next(q, host).body.run);
            && ReadyStill(db, v, AfterClaim(q, host), host, dir, e) && HeldAtHost(v, AfterClaim(q, host), e)
            && ClaimSound(v, dir, e.body.run, Done(db, e.body.run, db.runs[e.body.run].stage, e.body.plan))
    ensures ReadyStill(db, db, AfterClaim(q, host), host, dir, Next(q, host))
  {
    var e := Next(q, host);
    forall ok ensures
        var v := Hub.Claims(Hub.AtRest(db, q), host, ok);
        && v.queue == AfterClaim(q, host)
        && v.db == (if ok then Hub.Launching(db, e.body.run) else db)
        && Hub.AnswerOf(AgentOf(v, host)) ==
             (if ok then Hub.RunWork(e, Done(db, e.body.run, db.runs[e.body.run].stage, e.body.plan)) else Hub.Nothing)
    {
      Hub.ClaimsAre(db, q, host, ok);
    }
    LaunchedReady(db, q, host, dir);
    assert Pending(AfterClaim(q, host), host) == Pending(q, host);
  }

  /** What the hub answered a claim of a ready entry, and what it left behind. */
  lemma ClaimedReady(db: Db, q: QueueState<Job>, host: Id, dir: Directory, checks: Db -> bool, now: Db, q1: QueueState<Job>, answer: Hub.Answer)
    requires var v := Hub.Claims(Hub.AtRest(db, q), host, checks(Hub.Claims(Hub.AtRest(db, q), host, true).db));
             now == v.db && q1 == v.queue && answer == Hub.AnswerOf(AgentOf(v, host))
    ensures Ready(db, q, host, dir) ==>
              var e := Next(q, host);
              if checks(Hub.Launching(db, e.body.run)) then
                var claimed := Done(db, e.body.run, db.runs[e.body.run].stage, e.body.plan);
                && answer == Hub.RunWork(e, claimed) && ReadyStill(db, now, q1, host, dir, e) && HeldAtHost(now, q1, e)
                && ClaimSound(now, dir, e.body.run, claimed)
              else
                answer == Hub.Nothing && now == db && ReadyStill(db, db, q1, host, dir, e)
  {
    if Ready(db, q, host, dir) { WhatClaimGives(db, q, host, dir); }
  }

  lemma LaunchedReady(db: Db, q: QueueState<Job>, host: Id, dir: Directory)
    requires Ready(db, q, host, dir)
    ensures var e, v := Next(q, host), Hub.Launching(db, Next(q, host).body.run);
            && ReadyStill(db, v, AfterClaim(q, host), host, dir, e) && HeldAtHost(v, AfterClaim(q, host), e)
            && ClaimSound(v, dir, e.body.run, Done(db, e.body.run, db.runs[e.body.run].stage, e.body.plan))
  {
    var e := Next(q, host);
    var run := e.body.run;
    var v := Hub.Launching(db, run);
    UntouchedSamePlan(db, db, run);
    PostedSamePlan(db, run, Launched, ByHub);
    ThroughEvent(db, db, v, dir, run, {});
    assert Pending(AfterClaim(q, host), host) == Pending(q, host);
    ReadyMoved(db, v, q, AfterClaim(q, host), host, dir, dir);
    Hub.PostedDone(db, run, Launched, ByHub, e.body.plan);
    ClaimIsSound(v, dir, run, e.body.plan);
  }

  /** What makes an entry ready is not touched by the run's own events. */
  lemma ReadyMoved(a: Db, b: Db, p: QueueState<Job>, q: QueueState<Job>, host: Id, was: Directory, dir: Directory)
    requires Ready(a, p, host, was) && Pending(q, host) == Pending(p, host)
    requires SamePlan(a, b, Next(p, host).body.run) && InStep(b, dir, Next(p, host).body.run)
    requires b.runs[Next(p, host).body.run].state !in {Complete, Abandoned}
    ensures ReadyStill(a, b, q, host, dir, Next(p, host))
  {
    var run := Next(p, host).body.run;
    assert CellsOf(b, run) == CellsOf(a, run);
    EventUnscored(a, b, run);
    assert Busy(b, host, run) ==> Busy(a, host, run);
  }

  /** A death before the ack leaves the entry as ready as it was. */
  lemma ReadyAgain(a: Db, b: Db, q: QueueState<Job>, host: Id, was: Directory, dir: Directory)
    requires Ready(a, q, host, was) && SamePlan(a, b, Next(q, host).body.run) && InStep(b, dir, Next(q, host).body.run)
    requires b.runs[Next(q, host).body.run].state in {a.runs[Next(q, host).body.run].state, Running}
    ensures ReadyStill(a, b, q, host, dir, Next(q, host))
  {
    ReadyMoved(a, b, q, q, host, was, dir);
  }

  /** Whatever happened before, crashes included: when the host's oldest entry is a run that encodes, views or times and
      that the host may be handed, that entry is ready, and what `ServeOnce` and `ServeThrough` promise of one applies. */
  lemma ReachableIsReady(start: World, actions: seq<Action>, host: Id)
    requires Initial(start) && ProductsPlanned(start.db)
    requires var w := RunAll(start, actions);
             var job := Next(w.queue, host).body;
             && job.RunJob? && !Stale(w.db, job.run, host) && MayHandOut(w.db, job.run, host)
             && EncodingRun(w, job.run) && TimesAlone(w.db, job.run)
    ensures var w := RunAll(start, actions);
            var job := Next(w.queue, host).body;
            job.RunJob? && Ready(w.db, w.queue, host, DiskOf(w, job.run))
  {
    var w := RunAll(start, actions);
    var entry := Next(w.queue, host);
    AlwaysRecoverable(start, actions, entry.body.run);
    Stranding.InitialBase(start);
    Stranding.RunBase(start, actions);
    History.RunSound(start, actions);
    assert Stranding.LineSound(w, host) && Pending(w.queue, host)[0] == entry;
    assert w.plans[entry.body.run] == entry.body.plan;
  }

  // ---- the repost

  lemma {:induction false} NumberedCount(samples: seq<TimingRow>)
    requires forall i | 0 <= i < |samples| :: samples[i].repeatIndex == i
    ensures |set s | s in SampleSet(samples) :: s.repeatIndex| == |samples|
  {
    if samples == [] {
      assert (set s | s in SampleSet(samples) :: s.repeatIndex) == {};
    } else {
      var n := |samples| - 1;
      NumberedCount(samples[..n]);
      var before := set s | s in SampleSet(samples[..n]) :: s.repeatIndex;
      assert samples == samples[..n] + [samples[n]];
      forall x | x in before ensures x != n {
        var s :| s in samples[..n] && s.repeatIndex == x;
        var i :| 0 <= i < n && samples[..n][i] == s;
      }
      assert (set s | s in SampleSet(samples) :: s.repeatIndex) == before + {n} by {
        forall s | s in samples ensures s.repeatIndex in before + {n} {
          if s != samples[n] { assert s in SampleSet(samples[..n]); }
        }
        forall s | s in samples[..n] ensures s in SampleSet(samples) {}
        assert samples[n] in SampleSet(samples);
      }
    }
  }

  lemma NumberedDistinct(samples: seq<TimingRow>)
    requires Numbered(samples)
    ensures TimingKeysDistinct(SampleSet(samples)) && samples[0] in SampleSet(samples)
  {
  }

  /** The record names a planned cell, and no other record of its kind is there. */
  ghost predicate Welcome(db: Db, run: Id, r: Record) {
    && run in db.runs && IsCellRecord(db.runs[run].stage, r) && r.cell in CellsOf(db, run)
    && (r.EncodeRecord? && r.cell in db.measured.encodes ==> db.measured.encodes[r.cell] == r.encode)
    && (r.FailureRecord? && r.cell in db.measured.failures ==> db.measured.failures[r.cell] == r.failure)
    && (r.TimingRecord? ==> RowsAt(db.measured.timings, r.cell) in {{}, SampleSet(r.samples)})
  }

  lemma WelcomeAccepted(db: Db, run: Id, r: Record)
    requires Welcome(db, run, r) && IsEncoding(db.runs[run].stage)
    ensures IngestRecord(db, run, r).Ok? && PlanUntouched(db, IngestRecord(db, run, r).value)
    ensures var b := IngestRecord(db, run, r).value;
            && b.measured.encodes == (if r.EncodeRecord? then db.measured.encodes[r.cell := r.encode] else db.measured.encodes)
            && b.measured.failures == (if r.FailureRecord? then db.measured.failures[r.cell := r.failure] else db.measured.failures)
            && forall k :: RowsAt(b.measured.timings, k) == if r.TimingRecord? && k == r.cell then SampleSet(r.samples) else RowsAt(db.measured.timings, k)
  {
    assert PlannedIn(db, run, db.runs[run], r.cell);
    match r
    case TimingRecord(_, samples) => NumberedDistinct(samples);
    case EncodeRecord(k, row) => assert k in db.measured.encodes ==> db.measured.encodes[k := row] == db.measured.encodes;
    case FailureRecord(k, row) => assert k in db.measured.failures ==> db.measured.failures[k := row] == db.measured.failures;
  }

  lemma WelcomeStill(db: Db, run: Id, dir: Directory, r: Record, next: Record)
    requires Welcome(db, run, r) && Welcome(db, run, next) && IsEncoding(db.runs[run].stage)
    requires FromDisk(db.runs[run].stage, [r, next], dir)
    ensures IngestRecord(db, run, r).Ok? && Welcome(IngestRecord(db, run, r).value, run, next)
  {
    WelcomeAccepted(db, run, r);
    var b, s := IngestRecord(db, run, r).value, db.runs[run].stage;
    assert CellsOf(b, run) == CellsOf(db, run);
    assert r in [r, next] && next in [r, next];
    if FileOf(s, r) == FileOf(s, next) { assert r == next; }
  }

  lemma {:induction false} AllAccepted(db: Db, run: Id, dir: Directory, batch: seq<Record>)
    requires run in db.runs && IsEncoding(db.runs[run].stage) && FromDisk(db.runs[run].stage, batch, dir)
    requires forall r | r in batch :: Welcome(db, run, r)
    ensures IngestAll(db, run, batch).Ok?
    decreases |batch|
  {
    if batch != [] {
      assert batch[0] in batch;
      WelcomeAccepted(db, run, batch[0]);
      var next := IngestRecord(db, run, batch[0]).value;
      forall r | r in batch[1..] ensures Welcome(next, run, r) {
        assert r in batch;
        WelcomeStill(db, run, dir, batch[0], r);
      }
      AllAccepted(next, run, dir, batch[1..]);
    }
  }

  /** A repost is refused for nothing that is in it: what it lists is not on the hub, or the same. */
  lemma HeldAccepted(db: Db, dir: Directory, run: Id, claimed: set<Id>, held: seq<Record>)
    ensures InStep(db, dir, run) && ClaimSound(db, dir, run, claimed) && TimesAlone(db, run) && ListsHeld(dir, claimed, held) ==>
              IngestAll(db, run, held).Ok?
  {
    if InStep(db, dir, run) && ClaimSound(db, dir, run, claimed) && TimesAlone(db, run) && ListsHeld(dir, claimed, held) {
      HeldIsFromDisk(db, dir, run, claimed, held);
      forall r | r in held ensures Welcome(db, run, r) { HeldWelcome(db, dir, run, claimed, held, r); }
      AllAccepted(db, run, dir, held);
    }
  }

  lemma HeldWelcome(db: Db, dir: Directory, run: Id, claimed: set<Id>, held: seq<Record>, r: Record)
    requires InStep(db, dir, run) && ClaimSound(db, dir, run, claimed) && TimesAlone(db, run) && ListsHeld(dir, claimed, held)
    requires FromDisk(db.runs[run].stage, held, dir) && r in held
    ensures Welcome(db, run, r)
  {
    var s := db.runs[run].stage;
    FiledUnder(s, dir, CellsOf(db, run), FileOf(s, r));
    assert FileSound(s, dir, CellsOf(db, run), FileOf(s, r)) && CellOnDisk(s, db, dir, r.cell);
    assert IsHeld(r, claimed);
    if IsQuiet(s) && r.EncodeRecord? && r.cell in db.measured.encodes {
      assert FileHas(dir, EncodeFile(s, r.cell), EncodeRecord(r.cell, db.measured.encodes[r.cell]));
    }
  }

  /** What reposting does for a run in step: afterwards exactly what is on disk is done, and accounted for. */
  lemma WhatRepostingDoes(a: Db, b: Db, dir: Directory, run: Id, claimed: set<Id>, held: seq<Record>)
    requires run in a.runs && ListsHeld(dir, claimed, held) && IngestAll(a, run, held) == Ok(b)
    ensures PlanUntouched(a, b)
    ensures InStep(a, dir, run) ==> InStep(b, dir, run)
    ensures InStep(a, dir, run) && ClaimSound(a, dir, run, claimed) ==>
              claimed + KeysIn(held) == Filed(dir) && DoneSound(b, dir, run, claimed + KeysIn(held))
  {
    BatchKeeps(a, run, held);
    BatchAdds(a, run, held);
    if InStep(a, dir, run) {
      HeldIsFromDisk(a, dir, run, claimed, held);
      OwnBatchKeeps(a, b, dir, run, held);
      if ClaimSound(a, dir, run, claimed) {
        HeldFiled(dir, claimed, held);
        assert CellsOf(b, run) == CellsOf(a, run);
        forall k | k in Filed(dir) && k in CellsOf(b, run) ensures Settled(b.runs[run].stage, b, dir, k) {
          RepostSettles(a, b, dir, run, claimed, held, k);
        }
      }
    }
  }

  lemma HeldFiled(dir: Directory, claimed: set<Id>, held: seq<Record>)
    requires ListsHeld(dir, claimed, held) && claimed <= Filed(dir)
    ensures claimed + KeysIn(held) == Filed(dir)
  {
    forall k | k in Filed(dir) ensures k in claimed + KeysIn(held) {
      var f :| f in dir && KeyOf(dir[f]) == Some(k);
      if k !in claimed { assert dir[f] in held; }
    }
    forall r | r in held && KeyOf(r).Some? ensures KeyOf(r).value in Filed(dir) {
      assert r in dir.Values;
      var f :| f in dir && dir[f] == r;
    }
  }

  lemma RepostSettles(a: Db, b: Db, dir: Directory, run: Id, claimed: set<Id>, held: seq<Record>, k: Id)
    requires InStep(a, dir, run) && InStep(b, dir, run) && ClaimSound(a, dir, run, claimed) && ListsHeld(dir, claimed, held)
    requires Adds(a, b, run, held) && Keeps(a, b) && PlanUntouched(a, b) && k in Filed(dir) && k in CellsOf(b, run)
    ensures Settled(b.runs[run].stage, b, dir, k)
  {
    var s := a.runs[run].stage;
    assert CellsOf(b, run) == CellsOf(a, run);
    if k in claimed {
      SettledStays(a, b, dir, dir, run, k);
    } else {
      var f :| f in dir && KeyOf(dir[f]) == Some(k);
      assert FileSound(s, dir, CellsOf(a, run), f) && dir[f] in held;
      assert OnHub(b, dir[f]);
      if TimingPart(k) in dir {
        assert FileSound(s, dir, CellsOf(a, run), TimingPart(k)) && dir[TimingPart(k)] in held;
        TimedSettles(b, dir, run, k);
      }
    }
  }

  /** A timing on disk of which the hub has any row is on the hub whole. */
  lemma TimedSettles(db: Db, dir: Directory, run: Id, k: Id)
    requires InStep(db, dir, run) && k in CellsOf(db, run) && TimingPart(k) in dir && dir[TimingPart(k)].TimingRecord? && OnHub(db, dir[TimingPart(k)])
    requires dir[TimingPart(k)].cell == k
    ensures RowsAt(db.measured.timings, k) == SampleSet(dir[TimingPart(k)].samples)
  {
    assert FileSound(db.runs[run].stage, dir, CellsOf(db, run), TimingPart(k));
    NumberedDistinct(dir[TimingPart(k)].samples);
    assert CellOnDisk(db.runs[run].stage, db, dir, k);
  }

  lemma SettledStays(a: Db, b: Db, was: Directory, dir: Directory, run: Id, k: Id)
    requires InStep(a, was, run) && Settled(a.runs[run].stage, a, was, k) && Keeps(a, b) && PlanUntouched(a, b)
    requires TimingPart(k) in dir ==> TimingPart(k) in was && dir[TimingPart(k)] == was[TimingPart(k)]
    ensures Settled(b.runs[run].stage, b, dir, k)
  {
    var s := a.runs[run].stage;
    if IsQuiet(s) && TimingPart(k) in dir && dir[TimingPart(k)].TimingRecord? {
      assert FileSound(s, was, CellsOf(a, run), TimingPart(k));
      NumberedDistinct(was[TimingPart(k)].samples);
      TimesStay(a, b, k);
    }
  }

  // ---- one unit

  lemma TakeLast(made: seq<(FileName, Record)>, n: nat)
    requires 0 < n <= |made|
    ensures made[..n][..n - 1] == made[..n - 1] && made[..n][n - 1] == made[n - 1]
  {
  }

  /** Files written one by one, wherever the writing stops: none is lost, and store and directory stay in step. */
  lemma {:induction false} WritingKeeps(db: Db, was: Directory, run: Id, cells: seq<CellSpec>, key: Id, made: seq<(FileName, Record)>, n: nat)
    requires n <= |made|
    ensures KeepsFiles(was, WithFiles(was, made[..n]))
    ensures InStep(db, was, run) && Makes(db, run, cells, key, Some(made)) ==>
              && InStep(db, WithFiles(was, made[..n]), run)
              && FromDisk(db.runs[run].stage, Written(was, made[..n]), WithFiles(was, made[..n]))
              && forall r | r in Written(was, made[..n]) :: r.cell == key
  {
    if n > 0 {
      WritingKeeps(db, was, run, cells, key, made, n - 1);
      TakeLast(made, n);
      if InStep(db, was, run) && Makes(db, run, cells, key, Some(made)) {
        if n == 2 { TakeLast(made, 1); assert EncodePart(key) in WithFiles(was, made[..1]); }
        FileAdded(db, WithFiles(was, made[..n - 1]), run, made[n - 1], Written(was, made[..n - 1]));
      }
    }
  }

  lemma FileAdded(db: Db, dir: Directory, run: Id, file: (FileName, Record), batch: seq<Record>)
    requires InStep(db, dir, run) && FromDisk(db.runs[run].stage, batch, dir)
    requires IsCellRecord(db.runs[run].stage, file.1) && file.0 == FileOf(db.runs[run].stage, file.1) && file.1.cell in CellsOf(db, run)
    requires file.1.TimingRecord? ==> EncodePart(file.1.cell) in dir
    ensures InStep(db, WithFile(dir, file), run) && FromDisk(db.runs[run].stage, batch, WithFile(dir, file))
  {
    if file.0 !in dir { FileKeeps(db, dir, run, file.1); }
  }

  /** Of a cell with no file there is nothing on the hub, and its names are free. */
  lemma NothingOf(db: Db, dir: Directory, run: Id, key: Id)
    requires InStep(db, dir, run) && key in CellsOf(db, run) && key !in Filed(dir)
    ensures !HasProduct(db, key) && RowsAt(db.measured.timings, key) == {}
    ensures Whole(key) !in dir && EncodePart(key) !in dir && TimingPart(key) !in dir
  {
    var s := db.runs[run].stage;
    assert CellOnDisk(s, db, dir, key);
    forall f | f in {Whole(key), EncodePart(key), TimingPart(key)} ensures f !in dir {
      if f in dir { FiledUnder(s, dir, CellsOf(db, run), f); }
    }
  }

  /** Free names: every file is written, and every record posted. */
  lemma AllWritten(was: Directory, made: seq<(FileName, Record)>)
    requires 1 <= |made| <= 2 && (forall f | f in made :: f.0 !in was) && (|made| == 2 ==> made[0].0 != made[1].0)
    ensures WithFiles(was, made) == if |made| == 1 then was[made[0].0 := made[0].1] else was[made[0].0 := made[0].1][made[1].0 := made[1].1]
    ensures Written(was, made) == if |made| == 1 then [made[0].1] else [made[0].1, made[1].1]
  {
    assert made[0] in made && made[|made| - 1] in made;
    var one := made[..1];
    assert one[..0] == [] && WithFiles(was, one) == was[made[0].0 := made[0].1] && Written(was, one) == [made[0].1];
    if |made| == 1 { assert made == one; }
  }

  lemma UnitWritten(db: Db, was: Directory, run: Id, cells: seq<CellSpec>, key: Id, made: seq<(FileName, Record)>)
    requires InStep(db, was, run) && Makes(db, run, cells, key, Some(made)) && key !in Filed(was)
    ensures 1 <= |made| <= 2
    ensures WithFiles(was, made) == if |made| == 1 then was[made[0].0 := made[0].1] else was[made[0].0 := made[0].1][made[1].0 := made[1].1]
    ensures Written(was, made) == if |made| == 1 then [made[0].1] else [made[0].1, made[1].1]
  {
    NothingOf(db, was, run, key);
    forall f | f in made ensures f.0 !in was {
      var i :| 0 <= i < |made| && made[i] == f;
    }
    AllWritten(was, made);
  }

  /** Which timings the directory has then: those it had, and the unit's if it made one. */
  lemma UnitTimings(db: Db, was: Directory, run: Id, cells: seq<CellSpec>, key: Id, made: seq<(FileName, Record)>, k: Id)
    requires InStep(db, was, run) && Makes(db, run, cells, key, Some(made)) && key !in Filed(was)
    ensures var dir := WithFiles(was, made);
            && (TimingPart(k) in dir <==> TimingPart(k) in was || (k == key && |made| == 2))
            && (TimingPart(k) in was ==> k != key && dir[TimingPart(k)] == was[TimingPart(k)])
            && (k == key && |made| == 2 ==> dir[TimingPart(k)] == made[1].1)
  {
    UnitWritten(db, was, run, cells, key, made);
    NothingOf(db, was, run, key);
  }

  lemma UnitFiled(db: Db, was: Directory, run: Id, cells: seq<CellSpec>, key: Id, made: seq<(FileName, Record)>)
    requires InStep(db, was, run) && Makes(db, run, cells, key, Some(made)) && key !in Filed(was)
    ensures Filed(WithFiles(was, made)) == Filed(was) + {key}
  {
    UnitWritten(db, was, run, cells, key, made);
    NothingOf(db, was, run, key);
    FiledAdded(was, made[0].0, made[0].1, key);
    if |made| == 2 { FiledAdded(was[made[0].0 := made[0].1], made[1].0, made[1].1, key); }
  }

  lemma FiledAdded(dir: Directory, f: FileName, r: Record, key: Id)
    requires f !in dir && KeyOf(r) == Some(key)
    ensures Filed(dir[f := r]) == Filed(dir) + {key}
  {
    var next := dir[f := r];
    assert next[f] == r;
    forall k | k in Filed(dir) ensures k in Filed(next) {
      var g :| g in dir && KeyOf(dir[g]) == Some(k);
      assert next[g] == dir[g];
    }
  }

  /** The records of a cell that had no file are accepted. */
  lemma UnitAccepted(db: Db, was: Directory, run: Id, cells: seq<CellSpec>, key: Id, made: seq<(FileName, Record)>)
    ensures InStep(db, was, run) && Makes(db, run, cells, key, Some(made)) && key !in Filed(was) ==>
              IngestAll(db, run, Written(was, made)).Ok?
  {
    if InStep(db, was, run) && Makes(db, run, cells, key, Some(made)) && key !in Filed(was) {
      WritingKeeps(db, was, run, cells, key, made, |made|);
      assert made[..|made|] == made;
      NothingOf(db, was, run, key);
      AllAccepted(db, run, WithFiles(was, made), Written(was, made));
    }
  }

  lemma UnitPosted(a: Db, b: Db, was: Directory, run: Id, cells: seq<CellSpec>, key: Id, made: seq<(FileName, Record)>, before: set<Id>)
    requires run in a.runs && IngestAll(a, run, Written(was, made)) == Ok(b)
    ensures InStep(a, was, run) && Makes(a, run, cells, key, Some(made)) ==>
              && InStep(b, WithFiles(was, made), run)
              && (DoneSound(a, was, run, before) && key !in before ==> DoneSound(b, WithFiles(was, made), run, before + {key}))
  {
    if InStep(a, was, run) && Makes(a, run, cells, key, Some(made)) {
      var batch, dir := Written(was, made), WithFiles(was, made);
      WritingKeeps(a, was, run, cells, key, made, |made|);
      assert made[..|made|] == made;
      BatchKeeps(a, run, batch);
      BatchAdds(a, run, batch);
      OwnBatchKeeps(a, b, dir, run, batch);
      if DoneSound(a, was, run, before) && key !in before {
        UnitFiled(a, was, run, cells, key, made);
        assert CellsOf(b, run) == CellsOf(a, run);
        forall k | k in before + {key} && k in CellsOf(b, run) ensures Settled(b.runs[run].stage, b, dir, k) {
          UnitTimings(a, was, run, cells, key, made, k);
          if k != key { SettledStays(a, b, was, dir, run, k); } else { UnitSettles(a, b, was, run, cells, key, made); }
        }
      }
    }
  }

  ghost predicate AllOnHub(db: Db, batch: seq<Record>) { forall r | r in batch && (IsProduct(r) || r.TimingRecord?) :: OnHub(db, r) }

  lemma UnitSettles(a: Db, b: Db, was: Directory, run: Id, cells: seq<CellSpec>, key: Id, made: seq<(FileName, Record)>)
    requires InStep(a, was, run) && Makes(a, run, cells, key, Some(made)) && key !in Filed(was)
    requires AllOnHub(b, Written(was, made)) && PlanUntouched(a, b) && InStep(b, WithFiles(was, made), run)
    ensures Settled(b.runs[run].stage, b, WithFiles(was, made), key)
  {
    UnitWritten(a, was, run, cells, key, made);
    UnitTimings(a, was, run, cells, key, made, key);
    assert CellsOf(b, run) == CellsOf(a, run);
    if |made| == 2 {
      assert made[1].1 in Written(was, made);
      TimingSettles(b, WithFiles(was, made), run, key, made[1].1);
    } else if !IsQuiet(a.runs[run].stage) {
      assert made[0].1 in Written(was, made);
      ProductSettles(b, made[0].1);
    }
  }

  lemma ProductSettles(db: Db, r: Record)
    requires IsProduct(r) && OnHub(db, r)
    ensures HasProduct(db, r.cell)
  {
  }

  lemma TimingSettles(db: Db, dir: Directory, run: Id, k: Id, r: Record)
    requires InStep(db, dir, run) && IsQuiet(db.runs[run].stage) && k in CellsOf(db, run)
    requires TimingPart(k) in dir && dir[TimingPart(k)] == r && r.TimingRecord? && r.cell == k && OnHub(db, r)
    ensures Settled(db.runs[run].stage, db, dir, k)
  {
    TimedSettles(db, dir, run, k);
  }

  lemma PostCut(s: Spot, t: Spot, accepting: bool, run: Id, cells: seq<CellSpec>, key: Id, was: Directory, made: seq<(FileName, Record)>, before: set<Id>)
    requires s.life == 0 && t == s.(trouble := s.trouble.(dead := true)) && s.dir == WithFiles(was, made)
    ensures UnitPost(s, t, accepting, run, cells, key, was, made, before, before)
  {
    WritingKeeps(s.db, was, run, cells, key, made, |made|);
    assert made[..|made|] == made;
  }

  lemma PostAnswered(s: Spot, t: Spot, accepting: bool, checks: Db -> bool, run: Id, cells: seq<CellSpec>, key: Id, was: Directory,
                     made: seq<(FileName, Record)>, before: set<Id>, done: set<Id>, ok: bool)
    requires s.life > 0 && run in s.db.runs && s.dir == WithFiles(was, made) && (accepting ==> forall db :: checks(db))
    requires ok <==> Written(was, made) == [] || PostBatch(checks, s.db, run, Written(was, made)).Ok?
    requires if ok then IngestAll(s.db, run, Written(was, made)) == Ok(t.db) else t.db == s.db
    requires t == s.(db := t.db, life := s.life - 1, trouble := if ok then s.trouble else s.trouble.(refused := true))
    requires done == if ok then before + {key} else before
    ensures UnitPost(s, t, accepting, run, cells, key, was, made, before, done)
  {
    UnitAccepted(s.db, was, run, cells, key, made);
    if ok {
      BatchKeeps(s.db, run, Written(was, made));
      UnitPosted(s.db, t.db, was, run, cells, key, made, before);
    } else {
      WritingKeeps(s.db, was, run, cells, key, made, |made|);
      assert made[..|made|] == made;
    }
  }

  /** The process died before its last file was written. */
  lemma UnitCut(s: Spot, t: Spot, accepting: bool, run: Id, cells: seq<CellSpec>, key: Id, made: seq<(FileName, Record)>, before: set<Id>)
    requires !s.trouble.dead ==> |made| > s.life
    requires |made| > s.life ==> t == Spot(s.db, WithFiles(s.dir, made[..s.life]), s.trouble.(dead := true), 0, s.cellsRun + 1)
    requires |made| <= s.life ==> t == Spot(s.db, WithFiles(s.dir, made[..|made|]), s.trouble, s.life - |made|, s.cellsRun + 1)
    ensures UnitRun(s, t, accepting, run, cells, key, Some(made), before, before)
  {
    var n := if |made| <= s.life then |made| else s.life;
    WritingKeeps(s.db, s.dir, run, cells, key, made, n);
    CutAt(s, t, accepting, run, cells, key, made, before, WithFiles(s.dir, made[..n]));
  }

  lemma CutAt(s: Spot, t: Spot, accepting: bool, run: Id, cells: seq<CellSpec>, key: Id, made: seq<(FileName, Record)>, before: set<Id>, dir: Directory)
    requires t == s.(dir := dir, trouble := s.trouble.(dead := true), life := t.life, cellsRun := s.cellsRun + 1)
    requires |made| > s.life || (t.trouble == s.trouble && t.life == s.life - |made|)
    requires KeepsFiles(s.dir, dir) && (InStep(s.db, s.dir, run) && Makes(s.db, run, cells, key, Some(made)) ==> InStep(s.db, dir, run))
    ensures UnitRun(s, t, accepting, run, cells, key, Some(made), before, before)
  {
  }

  lemma UnitThrough(s: Spot, w: Spot, t: Spot, accepting: bool, run: Id, cells: seq<CellSpec>, key: Id, made: seq<(FileName, Record)>,
                    before: set<Id>, done: set<Id>)
    requires |made| <= s.life && w == Spot(s.db, WithFiles(s.dir, made), s.trouble, s.life - |made|, s.cellsRun + 1)
    requires UnitPost(w, t, accepting, run, cells, key, s.dir, made, before, done)
    ensures UnitRun(s, t, accepting, run, cells, key, Some(made), before, done)
  {
    WritingKeeps(s.db, s.dir, run, cells, key, made, |made|);
    assert made[..|made|] == made;
  }

  // ---- the loop

  lemma SetOut(o: Outset, accepting: bool)
    requires o.run in o.at.db.runs
    ensures Going(o, o.at, accepting, 0, o.before, [])
  {
    assert o.units[..0] == [] && (set k | k in o.units[..0]) == {};
  }

  lemma LoopEnded(o: Outset, s: Spot, accepting: bool, done: set<Id>, ran: seq<Id>)
    requires o.run in o.at.db.runs && (Going(o, s, accepting, |o.units|, done, ran) || Halted(o, s, accepting, ran))
    ensures StopsBetween(o.at.db.runs[o.run].state, o.at.trouble, s.trouble, o.units, o.before, ran)
  {
  }

  /** One look more, and what it leaves of an abandon. */
  lemma LookedOnce(o: Outset, s: Spot, t: Spot, n: nat, was: set<Id>, wasRan: seq<Id>, go: bool, done: set<Id>, ran: seq<Id>)
    requires n < |o.units| && o.run in o.at.db.runs && s.db.runs == o.at.db.runs
    requires Looked(s, t, o.run, o.units[n], n, was, wasRan, go, done, ran)
    requires SoFar(o.at.db.runs[o.run].state, o.at.trouble, s.trouble, o.units, n, o.before, was, wasRan)
    ensures if go then SoFar(o.at.db.runs[o.run].state, o.at.trouble, t.trouble, o.units, n + 1, o.before, done, ran)
            else StopsBetween(o.at.db.runs[o.run].state, o.at.trouble, t.trouble, o.units, o.before, ran)
  {
  }

  lemma Skipped(o: Outset, s: Spot, accepting: bool, n: nat, done: set<Id>, ran: seq<Id>)
    requires Along(o, s, accepting, n, done, ran) && n < |o.units| && o.units[n] in done
    ensures Along(o, s, accepting, n + 1, done, ran)
  {
    if o.Sound() && s.trouble.None() { SkippedReached(o, s.db, s.dir, n, done, ran); }
  }

  lemma SkippedReached(o: Outset, db: Db, dir: Directory, n: nat, done: set<Id>, ran: seq<Id>)
    requires o.Good() && Reached(o, db, dir, n, done, ran) && n < |o.units| && o.units[n] in done
    ensures Reached(o, db, dir, n + 1, done, ran)
  {
    var units := o.units;
    assert units[..n + 1] == units[..n] + [units[n]] && units[..n + 1][..n] == units[..n];
    assert units[n] !in units[..n];
    assert units[n] in o.before;
  }

  lemma DiedAt(o: Outset, s: Spot, t: Spot, accepting: bool, n: nat, done: set<Id>, ran: seq<Id>)
    requires Along(o, s, accepting, n, done, ran) && n < |o.units| && s.life == 0 && t == s.(trouble := s.trouble.(dead := true))
    ensures Aside(o, t, accepting)
  {
  }

  lemma StoppedAt(o: Outset, s: Spot, t: Spot, accepting: bool, n: nat, done: set<Id>, ran: seq<Id>)
    requires Along(o, s, accepting, n, done, ran) && o.run in s.db.runs && s.db.runs[o.run].state == Abandoned
    requires s.life > 0 && t == s.(life := s.life - 1, trouble := s.trouble.(stopped := true))
    ensures Aside(o, t, accepting)
  {
  }

  lemma RanOne(o: Outset, s: Spot, t: Spot, u: Spot, accepting: bool, n: nat, was: set<Id>, wasRan: seq<Id>, done: set<Id>)
    requires Along(o, s, accepting, n, was, wasRan) && n < |o.units| && o.units[n] !in was && s.life > 0 && t == s.(life := s.life - 1)
    requires UnitRun(t, u, accepting, o.run, o.cells, o.units[n], o.tool(o.units[n]), was, done)
    ensures if u.trouble.dead then Aside(o, u, accepting) else Along(o, u, accepting, n + 1, done, wasRan + [o.units[n]])
  {
    var key := o.units[n];
    assert key in o.units;
    assert CellsOf(s.db, o.run) == CellsOf(o.at.db, o.run);
    if o.Good() { assert Makes(s.db, o.run, o.cells, key, o.tool(key)); }
    if o.Sound() && s.trouble.None() { assert key !in Filed(s.dir); }
    if o.Sound() && u.trouble.None() { ReachedNext(o, s, u, n, was, wasRan, done); }
  }

  lemma ReachedNext(o: Outset, s: Spot, u: Spot, n: nat, was: set<Id>, wasRan: seq<Id>, done: set<Id>)
    requires n < |o.units| && o.units[n] !in was && Reached(o, s.db, s.dir, n, was, wasRan) && o.tool(o.units[n]).Some?
    requires done == was + {o.units[n]} && DoneSound(u.db, u.dir, o.run, done) && u.dir == WithFiles(s.dir, o.tool(o.units[n]).value)
    ensures Reached(o, u.db, u.dir, n + 1, done, wasRan + [o.units[n]])
  {
    var units, ran := o.units, wasRan + [o.units[n]];
    assert units[..n + 1] == units[..n] + [units[n]] && units[..n + 1][..n] == units[..n];
    assert ran[..|ran| - 1] == wasRan;
  }

  // ---- the verdict

  /** A timing cell ends with its repeats: its timing is on disk, or nothing of it is and the tool times it. */
  predicate WillBeTimed(dir: Directory, tool: Tool, c: CellSpec) {
    if c.key in Filed(dir) then TimingPart(c.key) in dir && dir[TimingPart(c.key)].TimingRecord? && |dir[TimingPart(c.key)].samples| >= c.repeats
    else |FilesOf(tool, c.key)| == 2
  }

  /** Whether a process that starts from this directory, with this tool, and meets no trouble completes the run: of a
      run that does not time always; else exactly when every cell asked for any repeat ends with its repeats. */
  predicate WillComplete(s: Stage, cells: seq<CellSpec>, dir: Directory, tool: Tool) {
    IsQuiet(s) ==> forall c | c in cells && c.repeats >= 1 :: WillBeTimed(dir, tool, c)
  }

  lemma {:induction false} WithoutIs(units: seq<Id>, done: set<Id>)
    requires NoRepeats(units)
    ensures forall k :: k in Without(units, done) <==> k in units && k !in done
    ensures NoRepeats(Without(units, done))
  {
    if units != [] {
      var n := |units| - 1;
      var before, last := Without(units[..n], done), units[n];
      WithoutIs(units[..n], done);
      assert units == units[..n] + [last] && last !in units[..n];
      if last !in done { LastIsNew(before, last); }
    }
  }

  lemma LastIsNew(ids: seq<Id>, last: Id)
    requires NoRepeats(ids) && last !in ids
    ensures NoRepeats(ids + [last])
  {
  }

  /** Distinct units that had no file, none of which ended in an error. */
  ghost predicate FreshUnits(o: Outset, ran: seq<Id>) {
    NoRepeats(ran) && forall r | r in ran :: r in o.units && r !in Filed(o.at.dir) && o.tool(r).Some?
  }

  lemma RanAreFresh(o: Outset, db: Db, dir: Directory, done: set<Id>, ran: seq<Id>)
    requires o.Sound() && Reached(o, db, dir, |o.units|, done, ran)
    ensures FreshUnits(o, ran) && forall k | k in o.units && k !in Filed(o.at.dir) :: k in ran
  {
    assert o.units[..|o.units|] == o.units;
    assert ran == Without(o.units, o.before);
    WithoutIs(o.units, o.before);
    forall r | r in ran ensures r in o.units && r !in Filed(o.at.dir) && o.tool(r).Some? {}
  }

  lemma OneMoreRan(o: Outset, ran: seq<Id>)
    requires FreshUnits(o, ran) && ran != []
    ensures var n := |ran| - 1; FreshUnits(o, ran[..n]) && ran[n] in ran && ran[n] !in ran[..n] && ran == ran[..n] + [ran[n]]
  {
    forall r | r in ran[..|ran| - 1] ensures r in ran {}
  }

  /** The directory after units that had no file were run: in step, and with their keys. */
  lemma {:induction false} FilesAfter(o: Outset, ran: seq<Id>)
    requires o.Good() && FreshUnits(o, ran)
    ensures var dir := AllFiles(o.at.dir, o.tool, ran);
            InStep(o.at.db, dir, o.run) && Filed(dir) == Filed(o.at.dir) + (set r | r in ran)
  {
    if ran != [] {
      var n := |ran| - 1;
      var was, r, made := AllFiles(o.at.dir, o.tool, ran[..n]), ran[n], FilesOf(o.tool, ran[n]);
      OneMoreRan(o, ran);
      FilesAfter(o, ran[..n]);
      assert Makes(o.at.db, o.run, o.cells, r, Some(made));
      UnitFiled(o.at.db, was, o.run, o.cells, r, made);
      WritingKeeps(o.at.db, was, o.run, o.cells, r, made, |made|);
      assert made[..|made|] == made;
    }
  }

  /** And which timings it holds: those it held, and those that were made. */
  lemma {:induction false} TimingsAfter(o: Outset, ran: seq<Id>, k: Id)
    requires o.Good() && FreshUnits(o, ran)
    ensures var dir, was := AllFiles(o.at.dir, o.tool, ran), o.at.dir;
            && (TimingPart(k) in dir <==> TimingPart(k) in was || (k in ran && |FilesOf(o.tool, k)| == 2))
            && (TimingPart(k) in was ==> dir[TimingPart(k)] == was[TimingPart(k)])
            && (TimingPart(k) !in was && TimingPart(k) in dir ==> dir[TimingPart(k)] == FilesOf(o.tool, k)[1].1)
  {
    if ran != [] {
      var n := |ran| - 1;
      var was, r, made := AllFiles(o.at.dir, o.tool, ran[..n]), ran[n], FilesOf(o.tool, ran[n]);
      OneMoreRan(o, ran);
      TimingsAfter(o, ran[..n], k);
      FilesAfter(o, ran[..n]);
      assert Makes(o.at.db, o.run, o.cells, r, Some(made));
      UnitTimings(o.at.db, was, o.run, o.cells, r, made, k);
    }
  }

  /** A cell's repeats on the hub, once its unit is done: those of its timing file. */
  lemma RepeatsOnDisk(db: Db, dir: Directory, run: Id, k: Id)
    requires InStep(db, dir, run) && IsQuiet(db.runs[run].stage) && k in CellsOf(db, run) && Settled(db.runs[run].stage, db, dir, k)
    ensures TimingPart(k) in dir ==> dir[TimingPart(k)].TimingRecord?
    ensures RepeatsTimed(db, k) == if TimingPart(k) in dir then |dir[TimingPart(k)].samples| else 0
    ensures RowsAt(db.measured.timings, k) == if TimingPart(k) in dir then SampleSet(dir[TimingPart(k)].samples) else {}
  {
    var s := db.runs[run].stage;
    assert CellOnDisk(s, db, dir, k);
    if TimingPart(k) in dir {
      assert FileSound(s, dir, CellsOf(db, run), TimingPart(k));
      NumberedCount(dir[TimingPart(k)].samples);
    } else {
      NoRowsNoRepeats(db, k);
    }
  }

  lemma CellIsTimed(o: Outset, db: Db, dir: Directory, plan: Plan, done: set<Id>, ran: seq<Id>, i: nat)
    requires o.Sound() && IsQuiet(o.at.db.runs[o.run].stage) && PlanUntouched(o.at.db, db) && InStep(db, dir, o.run)
    requires Reached(o, db, dir, |o.units|, done, ran) && o.cells == plan.cells && i < |plan.cells|
    requires Fits(db, o.run, db.runs[o.run].stage, plan)
    ensures var c := plan.cells[i];
            RepeatsTimed(db, c.key) >= c.repeats <==> (c.repeats >= 1 ==> WillBeTimed(o.at.dir, o.tool, c))
  {
    var c, k := plan.cells[i], plan.cells[i].key;
    assert o.units[i] == k && o.units[..|o.units|] == o.units && k in o.units;
    assert CellsOf(db, o.run) == CellsOf(o.at.db, o.run);
    RanAreFresh(o, db, dir, done, ran);
    TimingsAfter(o, ran, k);
    RepeatsOnDisk(db, dir, o.run, k);
    WantedOfCell(plan.cells, i);
    if k !in Filed(o.at.dir) {
      assert k in ran && Makes(o.at.db, o.run, o.cells, k, o.tool(k));
      NothingOf(o.at.db, o.at.dir, o.run, k);
    }
  }

  /** With its units done, the verdict on the run is the one its directory and its tool called for. */
  lemma VerdictIs(o: Outset, db: Db, dir: Directory, plan: Plan, done: set<Id>, ran: seq<Id>)
    requires o.Sound() && PlanUntouched(o.at.db, db) && InStep(db, dir, o.run)
    requires Reached(o, db, dir, |o.units|, done, ran) && o.cells == plan.cells && Fits(db, o.run, db.runs[o.run].stage, plan)
    ensures AllRecorded(db, o.run, db.runs[o.run], plan) <==> WillComplete(db.runs[o.run].stage, o.cells, o.at.dir, o.tool)
  {
    var s := db.runs[o.run].stage;
    assert o.units[..|o.units|] == o.units;
    if IsQuiet(s) {
      forall c | c in plan.cells
        ensures RepeatsTimed(db, c.key) >= c.repeats <==> (c.repeats >= 1 ==> WillBeTimed(o.at.dir, o.tool, c))
      {
        var i :| 0 <= i < |plan.cells| && plan.cells[i] == c;
        CellIsTimed(o, db, dir, plan, done, ran, i);
      }
    } else {
      KeysPlanned(db, o.run, s, plan);
    }
  }

  /** The hub and the disk say the same of the cell: its product, or the samples of its timing and none without one. */
  predicate OnRecord(s: Stage, db: Db, dir: Directory, k: Id) {
    if IsQuiet(s) then
      && k in Filed(dir) && (TimingPart(k) in dir ==> dir[TimingPart(k)].TimingRecord?)
      && RowsAt(db.measured.timings, k) == if TimingPart(k) in dir then SampleSet(dir[TimingPart(k)].samples) else {}
    else
      && Whole(k) in dir && IsProduct(dir[Whole(k)]) && OnHub(db, dir[Whole(k)])
      && (k in db.measured.encodes <==> k !in db.measured.failures)
  }

  /** How a run ends that was served to its ack without trouble from this directory: run again is exactly what had no
      file, the directory has gained exactly what was made, hub and disk agree on every cell, and the run is complete
      or failed as that directory called for. */
  ghost predicate Ended(db: Db, was: Directory, dir: Directory, entry: Entry<Job>, tool: Tool, ran: seq<Id>) {
    && entry.body.RunJob? && entry.body.run in db.runs
    && var run, cells := entry.body.run, entry.body.plan.cells;
       && ran == Without(KeysOf(cells), Filed(was)) && dir == AllFiles(was, tool, ran)
       && db.runs[run].state == (if WillComplete(db.runs[run].stage, cells, was, tool) then Complete else Failed)
       && forall k | k in KeysOf(cells) :: OnRecord(db.runs[run].stage, db, dir, k)
  }

  lemma DoneOnRecord(db: Db, dir: Directory, run: Id, done: set<Id>, k: Id)
    requires InStep(db, dir, run) && DoneSound(db, dir, run, done) && k in done && k in CellsOf(db, run) && k in Filed(dir)
    ensures OnRecord(db.runs[run].stage, db, dir, k)
  {
    var s := db.runs[run].stage;
    assert CellOnDisk(s, db, dir, k);
    if IsQuiet(s) {
      RepeatsOnDisk(db, dir, run, k);
    } else {
      assert Whole(k) in dir && FileSound(s, dir, CellsOf(db, run), Whole(k));
    }
  }

  // ---- the ack

  lemma AckUnsent(s: Spot, t: Spot, accepting: bool, q: QueueState<Job>, entry: Entry<Job>)
    requires entry.body.RunJob? && entry.body.run in s.db.runs && s.life == 0 && t == s.(trouble := s.trouble.(dead := true))
    ensures AckSent(s, t, accepting, q, q, entry)
  {
    UntouchedSamePlan(s.db, s.db, entry.body.run);
  }

  lemma AckAnswered(s: Spot, t: Spot, accepting: bool, checks: Db -> bool, was: QueueState<Job>, q: QueueState<Job>, entry: Entry<Job>, ok: bool)
    requires entry.body.RunJob? && entry.body.run in s.db.runs && s.life > 0 && (accepting ==> forall db :: checks(db))
    requires t == s.(db := t.db, life := s.life - 1, trouble := if ok then s.trouble else s.trouble.(refused := true))
    requires var run, host := entry.body.run, s.db.runs[entry.body.run].host;
             var found := FindPending(Pending(was, host), entry.id);
             var due := found.Some? && checks(Hub.Ruled(s.db, run, found.value));
             t.db == (if due then Hub.Ruled(s.db, run, found.value) else s.db) && (ok <==> due && MayAck(was, host, entry.id))
    ensures AckSent(s, t, accepting, was, q, entry)
  {
    var run, host := entry.body.run, s.db.runs[entry.body.run].host;
    var found := FindPending(Pending(was, host), entry.id);
    UntouchedSamePlan(s.db, s.db, run);
    if found.Some? { RuledSamePlan(s.db, run, found.value); }
    if HeldAtHost(s.db, was, entry) { HeldIsFound(was, host, entry); }
  }

  lemma WhatTheAckDid(o: Outset, s: Spot, t: Spot, accepting: bool, was: QueueState<Job>, q: QueueState<Job>, entry: Entry<Job>,
                      done: set<Id>, ran: seq<Id>)
    requires entry.body.RunJob? && o.run == entry.body.run && o.run in o.at.db.runs && o.cells == entry.body.plan.cells && !s.trouble.dead
    requires Along(o, s, accepting, |o.units|, done, ran) || Aside(o, s, accepting)
    requires AckSent(s, t, accepting, was, q, entry)
    ensures Concluded(o, t, accepting, was, q, entry, done, ran)
  {
    UntouchedSamePlan(o.at.db, s.db, o.run);
    ThroughEvent(o.at.db, s.db, t.db, t.dir, o.run, done);
    if o.Sound() && t.trouble.None() && Due(o.at.db, was, entry, o.cells) {
      assert CellsOf(s.db, o.run) == CellsOf(o.at.db, o.run);
      VerdictIs(o, s.db, s.dir, entry.body.plan, done, ran);
    }
  }

  lemma SetsOut(s: Spot, o: Outset, entry: Entry<Job>, claimed: set<Id>, q: QueueState<Job>)
    requires entry.body.RunJob? && Begun(s, o.at, false, entry.body.run, claimed, o.before) && o.run == entry.body.run && o.cells == entry.body.plan.cells
    requires o.units == UnitKeys(s.db.runs[o.run].stage, entry.body.plan)
    requires Resumable(s.db, s.dir, entry) && Suits(o.tool, s.db.runs[o.run].stage, o.cells) && ClaimSound(s.db, s.dir, o.run, claimed)
    ensures o.Good() && |o.units| == |entry.body.plan.cells|
    ensures o.at.trouble.None() ==> o.Sound()
    ensures HeldAtHost(s.db, q, entry) ==> HeldAtHost(o.at.db, q, entry)
    ensures HeldAtHost(s.db, q, entry) && o.at.trouble.None() ==> Due(o.at.db, q, entry, o.cells)
  {
    assert CellsOf(o.at.db, o.run) == CellsOf(s.db, o.run);
    KeysPlanned(s.db, o.run, s.db.runs[o.run].stage, entry.body.plan);
  }

  lemma WhatTheJobDid(s: Spot, o: Outset, u: Spot, accepting: bool, was: QueueState<Job>, q: QueueState<Job>, entry: Entry<Job>,
                      claimed: set<Id>, done: set<Id>, ran: seq<Id>)
    requires entry.body.RunJob? && o.run == entry.body.run && o.cells == entry.body.plan.cells && !o.at.trouble.dead
    requires Begun(s, o.at, accepting, o.run, claimed, o.before) && o.units == UnitKeys(s.db.runs[o.run].stage, entry.body.plan)
    requires Concluded(o, u, accepting, was, q, entry, done, ran)
    ensures JobRun(s, u, accepting, was, q, entry, claimed, o.tool, ran)
  {
    if Resumable(s.db, s.dir, entry) && Suits(o.tool, s.db.runs[o.run].stage, o.cells) && ClaimSound(s.db, s.dir, o.run, claimed) {
      WhatTheJobEndedIn(s, o, u, accepting, was, q, entry, claimed, done, ran);
    }
  }

  lemma WhatTheJobEndedIn(s: Spot, o: Outset, u: Spot, accepting: bool, was: QueueState<Job>, q: QueueState<Job>, entry: Entry<Job>,
                          claimed: set<Id>, done: set<Id>, ran: seq<Id>)
    requires entry.body.RunJob? && o.run == entry.body.run && o.cells == entry.body.plan.cells && !o.at.trouble.dead
    requires Begun(s, o.at, accepting, o.run, claimed, o.before) && o.units == UnitKeys(s.db.runs[o.run].stage, entry.body.plan)
    requires Concluded(o, u, accepting, was, q, entry, done, ran)
    requires Resumable(s.db, s.dir, entry) && Suits(o.tool, s.db.runs[o.run].stage, o.cells) && ClaimSound(s.db, s.dir, o.run, claimed)
    ensures InStep(u.db, u.dir, o.run)
    ensures u.trouble.None() && HeldAtHost(s.db, was, entry) ==> Ended(u.db, s.dir, u.dir, entry, o.tool, ran) && u.cellsRun == s.cellsRun + |ran|
    ensures accepting && AllMade(o.tool, KeysOf(o.cells)) && s.trouble.None() && HeldAtHost(s.db, was, entry) && TimesAlone(s.db, o.run) ==>
              Fine(s.trouble, s.life, u.trouble, u.life, Steps(entry.body.plan))
  {
    SetsOut(s, o, entry, claimed, was);
    if u.trouble.None() && HeldAtHost(s.db, was, entry) { Finished(o, u, entry, done, ran); }
  }

  lemma JobServed(s: Spot, c: Spot, t: Spot, accepting: bool, was: QueueState<Job>, q: QueueState<Job>, host: Id, e: Entry<Job>,
                  claimed: set<Id>, tool: Tool, ran: seq<Id>)
    requires ReadyStill(s.db, c.db, was, host, s.dir, e) && c == s.(db := c.db) && HeldAtHost(c.db, was, e)
    requires ClaimSound(c.db, c.dir, e.body.run, claimed) && Suits(tool, c.db.runs[e.body.run].stage, e.body.plan.cells)
    requires JobRun(c, t, accepting, was, q, e, claimed, tool, ran)
    ensures JobDone(s, t, accepting, q, host, e, tool, ran)
  {
    if t.trouble.dead && !s.trouble.dead { ReadyAgain(c.db, t.db, was, host, s.dir, t.dir); }
  }

  lemma Finished(o: Outset, u: Spot, entry: Entry<Job>, done: set<Id>, ran: seq<Id>)
    requires entry.body.RunJob? && o.run == entry.body.run && o.cells == entry.body.plan.cells && o.Sound()
    requires SamePlan(o.at.db, u.db, o.run) && InStep(u.db, u.dir, o.run) && Reached(o, u.db, u.dir, |o.units|, done, ran)
    requires u.db.runs[o.run].state == if WillComplete(u.db.runs[o.run].stage, o.cells, o.at.dir, o.tool) then Complete else Failed
    ensures Ended(u.db, o.at.dir, u.dir, entry, o.tool, ran)
  {
    assert o.units[..|o.units|] == o.units;
    assert CellsOf(u.db, o.run) == CellsOf(o.at.db, o.run);
    RanAreFresh(o, u.db, u.dir, done, ran);
    FilesAfter(o, ran);
    forall k | k in o.units ensures OnRecord(u.db.runs[o.run].stage, u.db, u.dir, k) {
      DoneOnRecord(u.db, u.dir, o.run, done, k);
    }
  }
}
