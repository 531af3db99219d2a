# Verification of the encoding sweep

A hub plans encoding runs on a fleet of hosts. An agent on each host claims its host's queue entry, runs the
cells, posts what it measured record by record and acks; the hub then holds what it received against what it
planned. Agents crash and come back, operators abandon runs, a sweep fails the runs of silent hosts. This
project models that protocol and the parts of the repository around it, and proves what they are meant to keep.

- **The run protocol.** `Queue` is the per-host queue (`FakeQueue`, and what it means); `Tables`, `Runs` and
  `Ingest` are the tables and the rules of a write; `Verify` holds the two readings of "what is already
  recorded". `Protocol` is the whole as one state machine: hub, queues, agents, records directories, heartbeats,
  operator and sweep, each step interleaved with any other and with crashes on both sides, any number of a host's
  requests in flight at once. On it are proved that no run is stranded but by two requests that cross (`Stranding`), and
  exactly when they do (`Crossing`); that a `complete` is worth what it says for good (`History`); exactly when an abandon is
  final (`Abandon`); that what the hub holds of an encoding or timing run is also on its host's disk (`Recovery`); and
  exactly when a timing run recovers from a crash (`TimingRuns`); and what an abandon stops (`Stopping`). `Store`, `Hub` and
  `AgentLoop` are the same code as objects with state: the transaction and the row-by-row ingest, the request
  handlers, the agent's loop with its records directory. The handlers are proved to take exactly `Protocol`'s
  steps, and so are the parts of the loop (`AgentSteps`). `Landing` says what an accepted record is in the tables.
- **The fleet catalogue.** `Fleet` reads the document; `Reconcile` compares it with the store and says in one step
  what the rows should become (`Target`) and when nothing refuses (`Permitted`); `Catalogue` is `apply` row by row,
  proved to reach `Target` exactly when `Permitted`; `FleetLaws` says what that means, and `FleetRows` says it column
  by column.
- **Planning and its checkers.** `Planner` generates, deduplicates and skips cells; `Checkers` judges the result
  with code of its own, and the two are proved to meet.
- **Canonical forms.** `CellKey` (K1), `Build` (flag order, argv, timing legs), `Recipes` (nearest rank and
  pooling), `Regions` (the doc-region rewriter and its staleness check).
- **The exchange.** `Exchange`: a stream is proven, moved into place, and only then recorded.

`Names`, `Wrappers` and `Sorting` are shared. A function such as `Ingest.IngestRecord` or `Protocol.Step` is the
specification a method is proved against; what it promises is in the lemmas about it, so the table names those. Where a
definition serves both a method and its specification, a lemma says what it comes to in the rows themselves: `Landing`,
`FleetRows`, and the members whose names end in `Exactly` or `InRows`.

## Where the code does not do what one might expect

Each is proved, with the exact condition under which the expectation holds.

- A run can be stranded: an ack releases the entry of a run that a claim, or a `running`, makes active again. Finishing what is under way
  can strand a run if and only if a request or an agent that makes it active is under way together with an ack of its entry
  (`Crossing.StrandedExactlyByCrossing`); with one request of a host in flight at a time that never happens (`Crossing.OneAtATime`).
- An abandoned run can come back: `events` and the launch of a claim do not look at the state they overwrite, and the sweep reads
  before it writes. An abandon is final in every continuation if and only if no such step is under way (`Abandon.AbandonIsFinal`).
- A timing cell writes two files under one key, and a process that dies between them leaves the encode alone: the next one reposts it,
  takes the cell as done and is failed at the ack. A process whose tool times every cell and which meets no trouble completes a timing
  run if and only if every cell that has a file on disk has its timing file (`TimingRuns.RecoversExactly`); a run of the protocol that ends
  in the other case is given step by step (`TimingRuns.DeathBetweenTwoFiles`).
- `POST /runs/{id}/ack` looks at neither the kind of the entry it is given nor its run: it releases the entry the run's host holds under that
  id and no other (`Hub.WhatAckReleases`). So a publish job leaves its line with its files unpublished if and only if some run's ack names it
  (`Exchange.LeavesExactly`), and a run loses its entry to another run's ack (`Hub.ForeignAckStrands`). An agent acks only the entry of its
  own claim, whose run is the one it acks (`History.JudgedOnItsPlan`).
- A timing plan that asks for fewer than one repeat of a cell: the ack passes it with no sample, the resumed agent never takes it as done. The
  two readings agree on every store if and only if each cell asks for at least one repeat (`Verify.AgreementNeedsARepeat`).
- The quiet machine is asked for when a timing run is planned and when it is handed out (`Hub.EnqueuedExactly`, `Hub.HandedOutExactly`),
  and not when a run of another stage is: that one may be handed out beside a timing run that is running (`Hub.TimingRunDisturbed`).
- A score run's resume and its ack read different things. With every kept encode in the plan, nothing is left to run if and only if the ack finds
  nothing missing and no planned cell was discarded by another scoring before this run scored it (`Verify.ScoreResumeAgrees`).
- A score record with an empty score list sets `kept` and leaves no score behind (`Ingest.EmptyScoresFlipKept`); one that also brings steps
  cannot be posted twice, and every other record can (`Ingest.PostedTwice`).
- A region whose two markers are there once each is rewritten whatever their order; a second pass is clean if and only if the end marker neither
  begins before the begin marker nor ends inside it (`Regions.CleanExactlyInOrder`).
- A placement shares its name with another if and only if its unit's or its host's name holds an `@` (`FleetLaws.NamesCollide`); a removal
  by name takes what was meant if and only if no row after the one meant has its name (`FleetLaws.RemovedAsMeant`).
- An arm's own cells can be a surplus: they are one arm's if and only if one swept arm answers to the arm's settings, or none does and one
  incumbent (`Checkers.OneArmExactly`).

## Model

| member | source | states |
|---|---|---|
| Stranding.NoRunIsStranded | sweep/hub/api/agents.py:91-212 | From an empty start, after any interleaving of enqueues, claims, events, records, acks, abandons, sweeps, refusals and crashes of agents and hub, with any number of a host's requests in flight: a run in state planned, launched or running has exactly one entry, on its own host's line, and none on any other, as long as in no earlier state something that makes it active was under way together with the release of its entry |
| Stranding.StepSafe | sweep/hub/api/agents.py:195-212 | The invariant behind it survives every single step, from any state that has it and in which the two do not overlap: an active run is queued, what makes a run active holds its entry, and an entry about to be released is not an active run's |
| Crossing.StrandedExactlyByCrossing | sweep/hub/api/agents.py:118-122 | In every state reached with no such overlap before: some order of serving the requests under way and of letting agents say `running` strands the run if and only if a claim that read it as planned or failed, a `running`, or an agent between its claim and its `running` is under way together with an ack of its entry, judged already or not |
| Crossing.OneAtATime | sweep/hub/api/agents.py:210 | If a host's request goes out only when none of its is in flight, nothing ever crosses and no run is ever stranded |
| Crossing.OverlapStrands | sweep/hub/api/agents.py:195-212 | From every state with such an overlap, the steps that strand the run: what makes it active is served first, and then the release |
| History.CompleteIsForGood | sweep/hub/wait.py:16-44 | In every reachable state a run's state is its newest event's; and if its log holds a `complete`, the store holds its plan: an encode or a failure of every cell of a run that encodes, at least the repeats asked for of every cell of a timing run, every title of an inventory, every cut of a materialise run |
| History.CompleteNeverLeaves | sweep/hub/store.py:214-222 | A `complete` once in a run's log is in it in every later state, whatever the run's state becomes |
| History.StepSound | sweep/hub/api/agents.py:131-141 | Every step keeps state, log and plan consistent and only appends to logs; no guard on the posted states is needed for it |
| History.JudgedOnItsPlan | sweep/hub/api/agents.py:201-208 | In the protocol an ack under way is of the entry its run was enqueued as, and what it finds pending under that id is that entry: a verdict is reached on the run's own plan |
| Abandon.AbandonIsFinal | sweep/hub/api/runs.py:155-165 | In every sound state, an abandoned run stays abandoned in every continuation if and only if no sweep has read it as active, no claim of it that read it as planned or failed and no `running` of it is in flight, and no agent waits for its claim or is between that and its `running` |
| Abandon.AbandonWhileAtWork | sweep/node/agent.py:162-204 | In every reachable state: an abandon committed after the agent posted `running` and before its ack, with no request of the host left over from an agent that died, is final whatever comes after: the agent stops between cells, finishes, or crashes and claims again |
| Abandon.LostToRequest | sweep/hub/api/agents.py:118-122 | From every state where a claim that read the run as planned or failed, or its `running`, is in flight, a continuation is built in which the run is abandoned no more |
| Abandon.LostToAgent | sweep/hub/api/agents.py:132-141 | The same where an agent waits for its claim of the run or has not yet posted `running` for it |
| Abandon.LostToSweep | sweep/hub/wait.py:54-69 | The same for a sweep that read the run as active before the abandon |
| Abandon.InTurnNoneInFlight | sweep/node/agent.py:162-204 | With one request of a host in flight at a time, a host whose agent is at work has none: what the finality above asks for then holds by itself |
| Stopping.AbandonStopsWork | sweep/node/agent.py:171-173 | In every reachable state and whatever comes after: an abandon committed while the agent is past the run's first unit, or in a unit, is final, and nothing but the files of the unit in hand is ever added to the run's directory, by this process or a later one; with no unit in hand nothing is, and no unit of the run is run again |
| Stopping.LooksToAck | sweep/node/agent.py:167-173 | Past the first unit of an abandoned run, looking on takes the agent to its ack with no unit run, no file written and no record posted |
| Recovery.AlwaysRecoverable | sweep/node/agent.py:153-204 | In every reachable state, of every run that encodes, views or times: each file of its directory holds an encode, failure or timing record of a planned cell under that record's own name, a timing only beside its encode; every encode, failure and timing the hub holds of the run is the one in its file; and while no score run scores it, `kept` too |
| TimingRuns.RecoversExactly | sweep/node/jobs.py:146-165 | In every reachable state of a timing run, for a tool that times every cell: the condition on which `ServeOnce` completes the run holds if and only if every planned cell with any file in the run's directory has its timing file there; so a process that meets no trouble completes the run in exactly these states |
| TimingRuns.DeathBetweenTwoFiles | sweep/node/agent.py:229-233 | A run of the protocol from an empty hub, for every host, run, cell, encode and samples, in which the agent dies with the encode written and the timing not: the entry is still held and ready to be handed out, and no process that meets no trouble completes the run, whatever its tool |
| Recovery.BatchAdds | sweep/hub/api/agents.py:148-158 | A batch adds encodes, failures and timings only of cells its run planned and that one of its records names, every record in it is then on the hub as it stands, and only a score run changes an encode, of its parent's cells |
| AgentLoop.Process.ServeOnce | sweep/node/agent.py:92-104 | At a host whose oldest entry is ready: if no check fires, no unit ends in an error and the process lives through 4 steps a cell and 3 more, it meets no trouble; and without trouble the cells run are exactly the planned ones with no file in the directory, in plan order, the directory has gained exactly their files, hub and disk say the same of every cell, and the run is complete, or, for a timing run in which some cell that asks for a repeat has a file but no full timing or is made into a failure, failed; a death leaves the same entry ready again |
| AgentLoop.Process.ServeThrough | sweep/node/agent.py:106-115 | Any number of processes that die, each after any number of steps and each with its own tools, then one that lives long enough: if no check fires and no unit ends in an error, the run ends as the directory that one finds calls for, so a run that does not time is complete; in any case no file is lost or changed |
| AgentLoop.Process.ServeLife | sweep/node/agent.py:92-104 | One process from its start to its end: it brings the run to its end, or it dies and leaves the entry ready for the next |
| AgentLoop.ReachableIsReady | sweep/node/agent.py:92-97 | In every reachable state of the protocol a run that encodes, views or times, that is its host's oldest entry and may be handed out, is ready, so the promises above hold of it; of a timing run as long as no score run scores it, which a check of the schema sees to |
| AgentSteps.UnitStepsAre | sweep/node/agent.py:174-194 | The protocol's steps of one unit, its run, each file, its post, leave the same files, the same rows and the same keys done as the loop's `RunUnit`, whatever is on disk already and whether or not the hub takes the batch |
| AgentSteps.LookStepIs | sweep/node/agent.py:166-173 | The protocol's look at a unit is the loop's: passed over when done, left alone when the run is abandoned and the unit not the first, else run |
| AgentSteps.RepostStepIs | sweep/node/agent.py:135-145 | And so is the repost: the same batch, and the same keys done |
| AgentSteps.HeldByKey | sweep/node/agent.py:254-255 | A record on disk is reposted exactly when the claim does not list its cell, its title, its cut or its reference set |
| AgentLoop.VerdictIs | sweep/hub/wait.py:24-44 | Once the loop has reached its end, the ack finds everything recorded if and only if the directory the process started from and its tool called for it: for a timing run, every cell that asks for a repeat had its full timing on disk, or no file and a tool that times it; for any other run always |
| AgentLoop.TimingsAfter | sweep/node/agent.py:214-234 | The timings a directory holds after units with no file were run are exactly those it held and those that were made |
| AgentLoop.Process.RunJob | sweep/node/agent.py:153-204 | From the repost to the ack, with death possible between any two steps: no file is lost, a death before the ack moves neither the queue nor anything but events and records, no trouble means ended as above, and only a death, a refusal, a failing unit or an abandon is trouble |
| AgentLoop.HeldAccepted | sweep/node/agent.py:137-140 | A repost of a run in step is refused for nothing that is in it: no check aside, the hub takes the batch |
| AgentLoop.Process.Repost | sweep/node/agent.py:135-145 | After an accepted repost what is done is exactly the keys on disk, and what is on disk of them is on the hub; a refused one changes nothing |
| AgentLoop.WhatRepostingDoes | sweep/node/agent.py:137-145 | Posting every record whose key is not done keeps hub and disk in step and makes exactly the filed cells done |
| AgentLoop.Process.RunUnits | sweep/node/agent.py:166-200 | The loop over the units ends past the last one, with what was done before and all of the units done and exactly the units that were not done run, in order; or aside, by a death or an abandon, with no file lost and store and directory in step. Of an abandoned run no unit but the first is run and no later one that is not done is passed; only an abandoned run is stopped |
| AgentLoop.Process.UnitsThenAck | sweep/node/agent.py:165-204 | The loop and then the ack: a run that is due, whose units met no trouble, gets the verdict its directory called for; a death leaves its state and its entry as they were |
| AgentLoop.Process.RunUnit | sweep/node/agent.py:174-200 | One unit, of one file or two, wherever the process dies: its files are on disk before any record is posted, what is posted is what was written, and the unit is taken as done exactly when the hub has taken the batch |
| AgentLoop.Process.WriteProduced | sweep/node/agent.py:180-188 | The files are written in order until the process dies, and exactly those with a free name, or the same content, are in the batch |
| AgentLoop.Process.AtUnit | sweep/node/agent.py:166-173 | A unit that is done is passed over; before any other but the first an abandoned run is left at that, with store, directory, what is done and the count of cells run as they were; any other unit is run. The loop goes on past the unit with all up to there accounted for, unless the process died or the run was found abandoned |
| AgentLoop.Process.PostRecords | sweep/node/agent.py:78-85 | An empty batch is accepted unposted; any other exactly when every record is accepted and no check fires, and is then ingested whole; a refused one leaves the hub as it was |
| AgentLoop.Process.SayRunning | sweep/node/agent.py:73-76 | `running` is posted or refused, and a refusal does not stop the run; no cell, record or file moves |
| AgentLoop.Process.SendAck | sweep/node/agent.py:201-204 | The ack of the held entry gives the run the verdict on its plan unless it was abandoned; a death before it leaves hub and queue alone; nothing but a failing check refuses it |
| AgentLoop.WhatClaimGives | sweep/hub/api/agents.py:91-123 | A claim of a ready entry holds it and answers with what the hub has of its plan, all of which is on disk and accounted for, or is refused whole; either way the entry stays ready |
| AgentLoop.ReadyAgain | sweep/node/agent.py:135-145 | A death before the ack leaves the entry as ready as it was |
| AgentLoop.WorkRoot.WriteRecord | sweep/node/records.py:12-24 | A record is written once: the same again is nothing, a differing one is refused and the file stays; other runs' directories do not move |
| AgentLoop.WorkRoot.ReadHeld | sweep/node/records.py:27-31 | Exactly the records on disk whose key is not done |
| Hub.Service.Claim | sweep/hub/api/agents.py:91-123 | The handler moves store and queue exactly as the two protocol steps of a claim do, and answers what the agent then has |
| Hub.Service.Offer | sweep/hub/api/agents.py:100-123 | What becomes of the entry just held: a publish job goes out, a stale entry is acked away, a run that may not start or whose launch a check refuses stays held, any other is launched and goes out with what is done |
| Hub.Service.Launch | sweep/hub/api/agents.py:118-122 | One transaction: only a planned or failed run is posted `launched`, and what is done is read from the same store; a failing check undoes it |
| Hub.Service.Events | sweep/hub/api/agents.py:132-141 | An agent may post `running` or `failed` of a known run and nothing else; the event and the state are written together or not at all |
| Hub.Service.Records | sweep/hub/api/agents.py:149-158 | A batch lands whole or not at all |
| Hub.Service.Ack | sweep/hub/api/agents.py:196-212 | The handler moves store and queue exactly as the protocol steps of an ack do; an entry that is not pending or a verdict a check refuses moves neither, and an entry that is queued but not held is refused only after the verdict is in |
| Hub.WhatAckReleases | sweep/hub/api/agents.py:196-212 | An ack of a run releases exactly the entry its host holds under the given id, provided the run is abandoned or its verdict commits: whatever the entry's kind, whosever its run, and of a publish job whatever is published |
| Hub.ForeignAckStrands | sweep/hub/api/agents.py:201-210 | So an accepted ack of one run that names another's only entry leaves the other active with no entry pending anywhere |
| Hub.EnqueuedExactly | sweep/hub/planner.py:408-413 | A plan the store takes is refused if and only if its stage is time, split or concurrency and some other run whose host is on the same machine is launched or running; otherwise the run is planned, or abandoned when the queue fails |
| Hub.HandedOutExactly | sweep/hub/api/agents.py:110-123 | A host is handed its oldest run if and only if the run is neither complete nor abandoned and is this host's, the host reports the artifact it was planned for, and, for a time, split or concurrency run, no other run on the machine is launched or running; the run's own state does not count |
| Hub.TimingRunDisturbed | sweep/hub/api/agents.py:115-117 | A planned run of another stage is handed out on a machine where a timing run is running: from then on both are active there |
| Hub.SweepReadsAlike | sweep/hub/wait.py:54-62 | The protocol's sweep and the hub's read the same heartbeats alike: what the one is to fail is what the other fails |
| Hub.BeatsAlike | sweep/hub/queue.py:93-94 | A heartbeat is kept until its time to live is over, by the protocol as by the queue |
| Hub.EventsAre | sweep/hub/api/agents.py:132-141 | An agent's `running` and the hub's answer to it are the two protocol steps |
| Hub.RecordsAre | sweep/hub/api/agents.py:149-158 | The post of a unit's batch is the protocol's step |
| Hub.SweepIs | sweep/hub/wait.py:54-69 | Looking at every run a sweep has read, in whatever order and with nothing in between, fails exactly the silent ones, by one event each: the protocol's steps end where `SweepOnce` does |
| Hub.Service.Judge | sweep/hub/api/agents.py:204-209 | Complete if and only if everything planned is recorded, failed otherwise, abandoned left as it is |
| Hub.Service.JobAck | sweep/hub/api/agents.py:216-227 | A publish job is acked if and only if the host holds it and every file it names is a published row |
| Hub.Service.AbandonFlag | sweep/hub/api/agents.py:231-237 | In a store whose states are their logs' last words, true exactly when the newest event of the run is `abandoned`; never true of a run that is not |
| Hub.Service.Abandon | sweep/hub/api/runs.py:156-165 | A known run not in a terminal state becomes abandoned unless a check refuses it; otherwise it is refused and unchanged |
| Hub.Service.Enqueue | sweep/hub/planner.py:404-419 | Rows first, then the entry: a plan that may not be written or whose machine is not quiet leaves nothing; a queue that fails leaves the run abandoned, never planned with no entry |
| Hub.Service.SweepOnce | sweep/hub/wait.py:54-69 | Exactly the launched and running runs whose host's heartbeat has expired are posted `failed`, or those before the first whose event a check refuses; no entry moves |
| Hub.Service.FailIfSilent | sweep/hub/wait.py:59-68 | A host is silent when it never beat or its beat has expired; then, and only then, its run is failed |
| Queue.FirstInFirstOut | sweep/hub/queue.py:68-91 | Over any calls, on every host: what was acked, then what is held, then what is queued is what was enqueued, in order; nothing is lost, repeated or overtaken |
| Queue.HeldUntilAcked | sweep/hub/queue.py:74-87 | Until the host acks it, a held entry is what every further claim answers, whatever else is called |
| Queue.OtherHostsUnaffected | sweep/hub/queue.py:68-91 | A call on one host's line leaves every other line as it was |
| Queue.IdsIncrease | sweep/hub/queue.py:68-72 | Ids are positive, never above the count of enqueues, and increase along every line |
| Queue.FakeQueue.Enqueue | sweep/hub/queue.py:68-72 | Appends to the host's line under the next id |
| Queue.FakeQueue.Claim | sweep/hub/queue.py:74-81 | The held entry, or else the oldest queued one, now held; nothing only when nothing is pending |
| Queue.FakeQueue.Ack | sweep/hub/queue.py:83-87 | Only the entry the host holds; anything else is refused and changes nothing |
| Queue.FakeQueue.PendingEntries | sweep/hub/queue.py:89-91 | The held entry, then the queued ones in order |
| Queue.FakeQueue.Beat | sweep/hub/queue.py:93-94 | A pulse taken at any instant hears this payload for as long as its time to live and nothing after; what is heard of any other host does not change |
| Queue.FakeQueue.Pulse | sweep/hub/queue.py:96-100 | The last payload if and only if it has not expired |
| Verify.ResumeAgreesWithAck | sweep/hub/planner.py:422-442 | For every stage but score: a resumed agent has nothing left to run if and only if the ack finds nothing missing |
| Verify.AgreementNeedsARepeat | sweep/hub/wait.py:24-32 | A timing plan with distinct cells is read alike by the two on every store if and only if every cell asks for at least one repeat |
| Verify.WithoutARepeat | sweep/hub/planner.py:427-434 | The store on which they differ: every other cell timed, the one without a repeat not; passed by the ack and never done |
| Verify.VerifyAtAck | sweep/hub/wait.py:16-44 | No reason if and only if everything planned is recorded, stage by stage; a reason counts at least one missing and no more than there are |
| Verify.VerifyPublish | sweep/hub/wait.py:47-51 | No reason if and only if every file named is a published row |
| Verify.DoneCells | sweep/hub/planner.py:422-442 | Exactly what the store holds of the plan |
| Verify.RecordedInRows | sweep/hub/wait.py:19-44 | What the ack asks of each stage, in the rows: of a score run a score under it of every encode of its parent whose `kept` is set, of a timing run the repeats of each cell, of an inventory its titles, of a materialise run its cuts, of any other an encode or a failure of each of its cells |
| Verify.DiscardedIsNotAsked | sweep/hub/wait.py:20-21 | An encode that is not kept, or is of a run other than the parent, never changes what the ack finds of a score run |
| Verify.DoneInRows | sweep/hub/planner.py:427-446 | What a resumed agent skips of each stage, in the rows |
| Verify.ScoreResumeAgrees | sweep/hub/wait.py:19-23 | With every kept encode of the parent in the plan: nothing is left to run if and only if the ack finds nothing missing and every planned cell is kept or has its score |
| Ingest.WrittenOnce | sweep/hub/ingest.py:172-338 | Over any sequence of batches, accepted or refused, every encode, failure, score, timing, verdict, cut, check and reference-set row stays exactly as it was written, `encode.kept` alone excepted, and no step row is lost or changed |
| Ingest.PostedTwice | sweep/hub/ingest.py:196-236 | A record accepted once is accepted again and changes nothing, unless it is a score record with steps and no score, which is then refused |
| Ingest.KeptOnlyWithScores | sweep/hub/ingest.py:219-236 | With score lists not empty, a batch changes `kept` of an encode already there only if it also writes that cell's score rows |
| Ingest.EmptyScoresFlipKept | sweep/hub/ingest.py:223-236 | Why they must not be empty: for every kept, unscored cell a record with none is accepted, flips `kept` and leaves no score |
| Ingest.BatchKeeps | sweep/hub/api/agents.py:149-158 | A batch moves no measured row, step rows included, and no run, event, cell or published row |
| Ingest.RecordKeeps | sweep/hub/ingest.py:172-181 | The same of one record of any kind |
| Landing.StandsForGood | sweep/hub/api/agents.py:148-158 | Once a batch is accepted each of its records stands in the tables as it was posted, in its own row or rows, whatever is posted afterwards by whichever run; `kept`, and what a rescan says of a title besides its path, may change |
| Landing.ScoreLands | sweep/hub/ingest.py:219-236 | Of a cell with no score under the run: accepted if and only if a score run of its parent names a scorer build and has one height, with one value a metric and statistic and no step twice; then its values are the cell's scores, each under its metric and statistic, at that height, by the record's recipe and the run's build, its steps stand with their own seconds and loads, the encode's `kept` is the record's, and nothing else moves |
| Landing.ScoreStands | sweep/hub/ingest.py:227-230 | Of a cell that has scores under the run: the very same are taken and change nothing, any others are refused |
| Landing.EncodeLands | sweep/hub/ingest.py:206-210 | Accepted if and only if the run is of an encoding stage, the cell its own, and the cell has no encode or this one; then this is its encode and nothing else moves |
| Landing.FailureLands | sweep/hub/ingest.py:213-216 | The same of a failure |
| Landing.TimingLands | sweep/hub/ingest.py:254-264 | Accepted if and only if the run is a time, split or concurrency run, the cell its own, and the cell has no sample, no two of these sharing workers, repeat and leg, or exactly these; then it has exactly these and no other cell's move |
| Landing.VerdictLands | sweep/hub/ingest.py:280-295 | Over cells of a screen run's own on one window: filed under the test, the run's unit, the setting, that window and what it was held against, with exactly these cells; written once, no cell listed twice |
| Landing.VerdictNeedsOneWindow | sweep/hub/ingest.py:267-277 | No verdict is accepted over no cells, another run's cells or cells on two windows |
| Landing.TitleLands | sweep/hub/ingest.py:306-316 | Accepted of an inventory run if and only if its path is no other title's and the title has no other path; then the title is as the record says |
| Landing.ReferenceSetLands | sweep/hub/ingest.py:319-322 | Of a materialise run, once: built on the run's host, with the record's geometry, pixel format, build and stamp |
| Landing.CutLands | sweep/hub/ingest.py:325-329 | Of a materialise run, once |
| Landing.CutCheckLands | sweep/hub/ingest.py:332-338 | Of a verify run and a cut that is there, once for its name and stamp; one classified says why |
| Store.Connection.End | sweep/hub/store.py:53-70 | The write is kept if and only if the body succeeded, every check passes and it is not a trial; otherwise the tables are exactly those at BEGIN |
| Store.Connection.PlanRun | sweep/hub/store.py:181-211 | Run, windows, cells and the planned event, row by row; refused exactly when the host, the parent, or the unit, class, search or a window it names or inherits is missing, a window is named twice, or a key is taken |
| Store.Connection.PostEvent | sweep/hub/store.py:214-222 | Event and state move together; an unknown run is refused and nothing moves |
| Runs.PlannedLogs | sweep/hub/store.py:198-211 | Planning keeps every run's state equal to its newest event's |
| Runs.NewRunIs | sweep/hub/store.py:181-211 | A new run in the rows: what its plan says; unit, class, search and windows its parent's where it names none of its own; planned, by one event of the hub's; each cell on its window and of its kind; no other run, log or cell moves |
| Runs.PostedLogs | sweep/hub/store.py:214-222 | So does an event, and it extends every log |
| Runs.PlannedCells | sweep/hub/store.py:207-210 | A new run's cells are its plan's; every other run keeps exactly the cells it had |
| Store.Connection.StoreRecord | sweep/hub/ingest.py:172-181 | The row-by-row handlers accept exactly the records the rules accept, and leave exactly the tables they say |
| Store.Connection.StoreScore | sweep/hub/ingest.py:219-236 | Rows inserted one by one under their primary key, then steps, then `kept`: as the rule says, a clash of keys refusing |
| Store.Connection.StoreTiming | sweep/hub/ingest.py:254-264 | The same for a timing record's samples |
| Store.Connection.StoreVerdict | sweep/hub/ingest.py:280-295 | The same for a verdict and its cells, written once per its unique key |
| Store.Connection.CommonWindow | sweep/hub/ingest.py:267-277 | A window if and only if there are cells, all are the run's, and all lie on that one window |
| FleetLaws.Converges | sweep/hub/fleet.py:265-322 | After an apply that nothing refuses, `diff` of the result creates, updates and removes nothing and counts as unchanged exactly the entries of the managed groups; and applying again is permitted and changes nothing |
| FleetLaws.NothingLeftToDo | sweep/hub/fleet.py:181-216 | The first half, for the document as rows: every group empty, every wanted row agreeing |
| FleetLaws.TwiceIsOnce | sweep/hub/fleet.py:265-322 | The second half: the target of the target is the target |
| FleetLaws.NothingDangles | sweep/hub/fleet.py:46-81 | The result has whole rows, one id per unit identity and no dangling reference |
| FleetLaws.MeasuredHostsStand | sweep/hub/fleet.py:221-233 | `blocked` of a surviving host never changes; a host a non-exempt measurement names survives with every column but notes and ssh_host as it was |
| FleetLaws.IdentitiesStand | sweep/hub/fleet.py:243-253 | A unit's identity never changes under its id |
| FleetLaws.UsedPlacementsStand | sweep/hub/fleet.py:94-98 | A surviving placement that a run used keeps its device |
| FleetLaws.UsedScorersStand | sweep/hub/fleet.py:99-103 | A surviving scorer whose host scored keeps every field |
| FleetLaws.UnmanagedGroupsStand | sweep/hub/fleet.py:170-187 | A group the document leaves out is untouched; nothing else goes but a removed host's own reports |
| FleetRows.PermittedExactly | sweep/hub/fleet.py:220-240 | A document is applied if and only if no host that a measurement other than an agent's own report names changes in a column other than `notes` and `ssh_host`, no placement a run used changes its device, no scorer changes on a host with a scoring run, every unit stays what it is and none is there twice, each new placement and scorer has its host, and nothing that goes is named by any row but a host's own reports |
| FleetRows.NotesAreFree | sweep/hub/fleet.py:28-31 | A document that differs from the store in nothing but `notes` and `ssh_host` is applied, whatever refers to what |
| FleetRows.RowsAsGiven | sweep/hub/fleet.py:117-119 | After `apply` each host, placement, unit and scorer holds column by column what its entry gives, nothing where it gives nothing; the rows of a managed group are its entries', one each |
| FleetRows.WhatElseGoes | sweep/hub/fleet.py:255-262 | A unit goes if and only if a placement of it went and none is left, a host's report if and only if the host goes; `blocked` stays, and a new host is unblocked |
| FleetRows.WellFormedExactly | sweep/hub/fleet.py:20-26 | Refused for what it says of itself if and only if a group names a key twice, gives a unit two identities, or leaves out a column other than a host's `ffmpeg`, `local_view` and `notes` |
| FleetRows.GroupSays | sweep/hub/fleet.py:155-167 | What `diff` reports of hosts or scorers, row by row: each that differs, with exactly the columns it differs in |
| FleetRows.UnitsSay | sweep/hub/fleet.py:192-208 | And of placements: the device and the unit's five columns |
| FleetLaws.NamesTellApart | sweep/hub/fleet.py:133-134 | Names of placements on hosts without an `@` are equal exactly when the placements are |
| FleetLaws.NamesCollide | sweep/hub/fleet.py:133-134 | A placement shares its name with some other if and only if its unit's or its host's name holds an `@` |
| FleetLaws.RemoveByName | sweep/hub/fleet.py:309-317 | Removing by name takes, for every row that is to go, the last stored row of its name |
| FleetLaws.RemovedAsMeant | sweep/hub/fleet.py:309-317 | That is what was meant if and only if no row after one of those shares its name; otherwise the row meant stays and the other is gone |
| Fleet.ByKey | sweep/hub/fleet.py:122-130 | Refused exactly when a thing is named twice or a required column is missing; otherwise one row an entry, optional columns filled in |
| Fleet.ReadUnits | sweep/hub/fleet.py:137-152 | Refused exactly when one id has two identities, a placement is named twice or a column is missing; otherwise each unit's identity and each placement's row |
| Fleet.Normalise | sweep/hub/fleet.py:170-178 | A document is refused exactly when it is not well formed; an omitted group stays unmanaged |
| Reconcile.Compare | sweep/hub/fleet.py:155-167 | Created, updated with the columns that differ, removed, and the count of those that agree |
| Reconcile.CompareUnits | sweep/hub/fleet.py:192-208 | The same for placements, whose unit's identity counts among their columns |
| Reconcile.Diff | sweep/hub/fleet.py:181-216 | The whole plan; refused only for what the document says about itself |
| Catalogue.Tables.Apply | sweep/hub/fleet.py:265-322 | Succeeds exactly when the document is well formed and nothing in it is frozen, blocked or missing; then the tables are the target and the answer is the plan |
| Catalogue.Tables.Put | sweep/hub/store.py:53-79 | In a transaction or a trial: refused or on trial, every table is as before; committed, the tables are the target and pass every check |
| Catalogue.CommitsAsApplied | sweep/hub/store.py:57-70 | Committing needs exactly what applying needs and that the checks pass on the target |
| Catalogue.Tables.Grow | sweep/hub/fleet.py:275-304 | Creations and updates, hosts first: succeeds exactly when nothing is frozen, every host named exists and every identity agrees; then every row created or updated is the document's |
| Catalogue.Tables.Shrink | sweep/hub/fleet.py:306-321 | Removals in reverse: succeeds exactly when nothing still points at what goes; then exactly those rows, units left with no placement and removed hosts' reports are gone |
| Catalogue.Tables.CreateHosts | sweep/hub/fleet.py:275-277 | Every new host is the document's row, unblocked; no other moves |
| Catalogue.Tables.UpdateHosts | sweep/hub/fleet.py:278-280 | Refused exactly when a measured host would change in a column that is not free; `blocked` stays |
| Catalogue.Tables.CreatePlacements | sweep/hub/fleet.py:284-289 | Refused exactly when a host is missing or an identity disagrees; a unit is inserted once, with its first placement |
| Catalogue.Tables.EnsureUnit | sweep/hub/fleet.py:243-253 | The unit is there with this identity, or is inserted; a different one under the id, or the identity under another id, refuses |
| Catalogue.Tables.UpdatePlacements | sweep/hub/fleet.py:290-296 | Refused exactly when a run used the placement or the unit's identity differs; otherwise the document's row |
| Catalogue.Tables.CreateScorers | sweep/hub/fleet.py:298-301 | Refused exactly when a host is missing |
| Catalogue.Tables.UpdateScorers | sweep/hub/fleet.py:302-304 | Refused exactly when the host scored |
| Catalogue.Tables.RemoveScorers | sweep/hub/fleet.py:306-308 | Exactly those rows go; nothing ever points at one |
| Catalogue.Tables.RemovePlacements | sweep/hub/fleet.py:309-317 | Refused exactly when something still names the placement, or names a unit left with none; a unit goes with its last placement |
| Catalogue.Tables.RemoveHosts | sweep/hub/fleet.py:318-321 | Refused exactly when a row other than the host's own reports, a placement or a scorer names one; the reports go with it |
| CellKey.BlobCanonical | sweep/recipes.py:22-24 | Two blobs are equal if and only if unit, content sha, cut kind, window, ffmpeg version and the multiset of settings are |
| CellKey.BlobIsSortedJson | sweep/recipes.py:22-24 | The blob is the JSON text, without spaces, of an object with each of the six members under its own name and the settings as a list of [id, value] lists in ascending order |
| CellKey.KeysAscend | sweep/recipes.py:24 | Those are the members the code names, with their keys in ascending order |
| CellKey.EscapeShape | sweep/recipes.py:24 | Printable ASCII but for the quote and the backslash stands for itself; those two and five control characters behind a backslash; anything else is one unit of four lower-case hexadecimal digits, or two |
| CellKey.KeyTellsApart | sweep/recipes.py:10-25 | With a digest that tells texts apart, so are the keys |
| CellKey.StringRoundTrip | sweep/recipes.py:24 | Reading a JSON string as section 7 of RFC 8259 escapes it gives the string back, and exactly what follows it: quotes, backslashes, control and non-ASCII characters, surrogate pairs |
| CellKey.Key | sweep/recipes.py:17-25 | A list with anything but pairs in it is refused; otherwise the digest of the blob of exactly those pairs |
| Recipes.NearestRankIsTheQuantile | sweep/recipes.py:28-36 | For every non-empty list and p in (0, 1]: a value has at least p*n of the list at or below it and fewer than p*n below it if and only if it is the answer |
| Recipes.PoolForgetsOrder | sweep/recipes.py:39-45 | The order of the frames does not matter |
| Recipes.PooledMeans | sweep/recipes.py:39-45 | min and max are the least and greatest element, p5 is the 5% quantile, and p5 and the mean lie between them |
| Recipes.MeanIs | sweep/recipes.py:45 | The mean times the count is the sum, and it lies within any bounds of the values |
| Recipes.RefusedExactly | sweep/recipes.py:31-34 | No values, or a p outside (0, 1], is refused, and nothing else is |
| Build.OrderedFlags | sweep/hub/build.py:18-31 | Refused exactly when a setting that is passed is unknown; otherwise the flags in order |
| Build.FlagsForgetOrder | sweep/hub/build.py:18-31 | Settings that differ only in order, or in the resolved defaults between them, give the same flags and are refused alike |
| Build.FlagsAreInOrder | sweep/hub/build.py:18-31 | The flags are those of the passed settings, each once, mode selectors first, then the anchor, then the rest by setting id |
| Build.FlagsByKind | sweep/hub/build.py:23-31 | Each passed setting stands as the flag of its row and its own value; a mode selector before anything else, the quality anchor before the rest, and by id among those of one kind and among the rest |
| Build.PassedAre | sweep/hub/build.py:24-26 | Every setting is passed as often as it is listed, but for the recorded defaults |
| Build.KeyDeterminesFlags | sweep/hub/planner.py:161-174 | Cells with one key get the same flags whatever defaults their units resolve |
| Build.EncodeArgv | sweep/hub/build.py:45-72 | An unknown frontend is refused; otherwise plumbing, device, input and filters, then the encoder, its flags and the output, frontend by frontend |
| Build.LosslessArgv | sweep/hub/build.py:56-72 | The whole argv of each frontend for a lossless cut, token by token |
| Build.HardwareArgv | sweep/hub/build.py:34-42 | The whole argv of each frontend for a production input decoded in hardware |
| Build.SoftwareArgv | sweep/hub/build.py:52-54 | And decoded in software |
| Build.SpreadIs | sweep/hub/build.py:66-67 | Each flag is followed by its value |
| Build.Leg | sweep/hub/build.py:112-124 | The full argv, or the part before the encoder or before the filters with a null output; refused for another name or an argv without an encoder |
| Build.LegsNest | sweep/hub/build.py:112-124 | Of an `encode_argv` result the decode stem is a prefix of the decode_filters stem and that a proper prefix of the whole: each leg cuts exactly where the filters and the encoder begin |
| Regions.RenderThenCheck | sweep/model_check.py:1117-1130 | For regions apart from one another, in any order, with markers of one line and bodies free of markers and outer newlines: rendering misses none, and a second pass returns the same text with nothing missing or stale |
| Regions.RenderedRegions | sweep/model_check.py:1129 | Rendering leaves every region once, and between its markers its body on lines of its own |
| Regions.StripIs | sweep/model_check.py:1126 | What is compared with the body is the text without the newlines at its ends |
| Regions.CountOneExactly | sweep/model_check.py:1122 | A marker is counted once if and only if every occurrence overlaps the first; that first one is found |
| Regions.StaleExactly | sweep/model_check.py:1126-1128 | Nothing is stale if and only if every region holds its body, newlines at its ends aside |
| Regions.OutsideUnchanged | sweep/model_check.py:1129 | In whatever order the regions are listed: every stretch of text between two neighbouring ones, before the first and after the last is as it was |
| Regions.GapAfter | sweep/model_check.py:1129 | Those stretches are all the rest: one begins at the beginning of the text and one after every region |
| Regions.CleanExactlyInOrder | sweep/model_check.py:1122-1129 | A region whose markers are there once each, in whatever order, is rewritten and not missed; the second pass changes nothing and finds nothing stale if and only if the end marker neither begins before the begin marker nor ends inside it, and otherwise finds the region missing |
| Regions.GeneratedMarkersApart | sweep/model_check.py:32-33 | Of the document's own markers that means: the begin marker ends before the end marker starts |
| Regions.UniqueFound | sweep/model_check.py:1122-1125 | A marker that occurs once is counted once and found there |
| Regions.MarkersOneLine | sweep/model_check.py:32-33 | The generated markers are of one line exactly when the region's name is |
| Regions.ApplyRegions | sweep/model_check.py:1117-1130 | The loop is the fold of one region's step, later regions seeing the text the earlier ones left |
| Planner.EncodeCells | sweep/hub/planner.py:152-179 | Refused exactly when the unit is not the host's, a setting is unknown or a cut is missing; otherwise new and skipped keys have no duplicates, are disjoint, are together exactly the wanted keys, skipped exactly when some run has them, and every new cell has its input |
| Planner.PlanEncode | sweep/hub/planner.py:208-254 | Succeeds if and only if the host has reported its build and holds the search's unit, windows, rungs and arms named are the search's own, every wanted cell can be encoded and one of them is in no run; then it plans exactly the base arm on every chosen rung and window, the incumbent at its pinned anchor and each candidate on its derived ladder, partitioned into new and skipped |
| Planner.PlanEncodeExactly | sweep/hub/planner.py:211-251 | The same in the rows: the search's unit, anchor and reference set and the host's build are there, the unit is on the host; windows named are of the class, rungs on the codec's ladder with no lower bound above and no upper bound below them, arms of the search; every cell called for sets known settings and has its reference cut; and the key of one of them, made of its own unit, cut, window, kind, settings and the host's build, is in no run |
| Planner.EncodePlanInRows | sweep/hub/planner.py:229-254 | And it plans exactly the cells called for that are in no run, each under that key |
| Planner.BaseArmRungs | sweep/hub/planner.py:222-239 | Unfiltered, the base arm is encoded at a rung on each window of the class if and only if the rung is on the codec's ladder within the anchor's bounds |
| Planner.PlanTime | sweep/hub/planner.py:257-290 | Succeeds if and only if the source encodes for a class, there is one lane to time whose chain is built on its host and unit, the host has reported its build, every configuration it encoded has its window's source cut, and one of these cells is in no run; then it plans exactly them |
| Planner.PlanTimeExactly | sweep/hub/planner.py:259-281 | The same in the rows, the lane the one that is named or the only one the class serves |
| Planner.TimePlanInRows | sweep/hub/planner.py:272-290 | And it plans exactly the configurations of the source run on the source cuts of its windows that are in no run, each under its key |
| Planner.ReplanRefused | sweep/hub/planner.py:250-254 | The same plan after its commit, with the same identity and cuts, finds nothing new, so it is refused |
| Checkers.CheckCellsMatchArms | sweep/model_check.py:620-636 | Exactly the cells of search runs that are no arm's or several swept arms' |
| Checkers.EncodePlanMatchesArms | sweep/model_check.py:620-636 | Committing an encode plan leaves the surplus as it was if and only if each of its new cells is one arm's, which arms that omit the anchor and differ pairwise among swept arms and among incumbents see to |
| Checkers.TimePlanMatchesArms | sweep/hub/planner.py:271-281 | Nor does committing a timing plan of a run whose own cells are each one arm's |
| Checkers.OneArmExactly | sweep/model_check.py:620-636 | For every arm and anchor value, the arm's cell is one arm's if and only if exactly one swept arm answers to its settings, or no swept arm does and exactly one incumbent: which fails for two swept arms alike, for two incumbents alike that no swept arm equals, and for an arm that sets the anchor itself while no arm has the rest of its settings |
| Checkers.OneArmOfAny | sweep/model_check.py:630-635 | A cell of any identity is one arm's if and only if exactly one swept arm has its settings without the anchor, or none has and exactly one arm |
| Checkers.KeysStayOwn | sweep/hub/planner.py:161-172 | Committing an encode plan keeps every stored cell's key made of its own run's unit and its own window, kind and settings |
| Checkers.AlikeArmsAreSurplus | sweep/model_check.py:632-635 | For an arm that omits the anchor: its cells are a surplus if and only if two swept arms are like it, or none is and another arm is |
| Checkers.CheckShippingArmLadders | sweep/model_check.py:654-674 | Exactly the searches whose shipping arm lacks a rung of a member, each with exactly what it lacks |
| Checkers.CheckShippingArmLadder | sweep/model_check.py:662-672 | Exactly the pairs of a window of the class and a rung of the codec's ladder, no lower bound above it and no upper bound below it, at which no cell of the search's own encode runs has the shipping arm's settings: with a reading of ladder and bounds of its own |
| Checkers.EncodePlanFillsLadder | sweep/model_check.py:654-674 | If no wanted cell lives outside this search's encode runs, committing an unfiltered plan leaves a shipping base arm with none missing |
| Exchange.RowMeansFile | sweep/hub/exchange.py:75-121 | In every reachable state, with one upload a path at a time and crashes anywhere: every published row's target holds bytes of its size and sha |
| Exchange.JobLeavesPublished | sweep/hub/api/agents.py:215-227 | A publish job is still pending, or every file it names has such a row, or some run's ack named it |
| Exchange.LeavesExactly | sweep/hub/api/agents.py:195-227 | A publish job leaves its line if and only if it is held and either its own ack comes with every file published or a run's ack names it |
| Exchange.StepSound | sweep/hub/exchange.py:103-121 | Every step keeps it, and no published row ever changes |
| Exchange.TwoPutsOfOnePath | sweep/hub/api/agents.py:256-275 | Why one upload a path at a time: a second, differing one proven before the first was recorded replaces the file under its row |
| Exchange.PutStepsAre | sweep/hub/api/agents.py:247-275 | One PUT left to itself is these steps: unproven it changes nothing, proven the target is the stream and the row is recorded unless it stands or a check fires |
| Exchange.Desk.PutFile | sweep/hub/api/agents.py:247-275 | Recorded if and only if the stream is whole and proven, the hub lives through it, and the path is new and passes the checks or has this very row; the target changes only to proven bytes and before any row says so; only a death leaves a temporary file |
| Exchange.Desk.RecordPublish | sweep/hub/exchange.py:112-121 | An identical row is nothing, a differing one refused |
| Exchange.Receiver.constructor | sweep/hub/exchange.py:80-84 | A temporary file no other receiver has |
| Exchange.Receiver.Write | sweep/hub/exchange.py:86-89 | File and hash see the same bytes |
| Exchange.Receiver.Finish | sweep/hub/exchange.py:91-101 | Accepted if and only if size and sha are as declared; otherwise no temporary file is left |
| Exchange.Receiver.Commit | sweep/hub/exchange.py:103-104 | The target holds exactly what was hashed, and the temporary name is gone |
| Exchange.Receiver.Discard | sweep/hub/exchange.py:106-109 | The temporary file is gone and no target moved |

## Left out

What is taken as given:

- One agent process a host; any number of its requests may be in flight, those of a process that died among them. The post of a batch and the ack of a publish job are one step each. A hub that restarts drops the requests it was serving, and an agent that waits for one is taken to die of it.
- `enqueue` is one step, and the abandon event it posts after a failed queue write is taken to commit. `sweep_once` is not one step: it reads, then looks at each run.
- The records directory and the hub's store and queue survive crashes, `os.replace` is atomic, and a temporary file is never read.
- Events are appended under one monotone clock, so the newest event is the last; their stamps and details are left out.
- The views and row checks of the schema are one predicate on the tables, evaluated at every commit; what is used of one of them, that a score run's parent is no timing run (sweep/schema.sql:1185-1190), is said where it is used (`AgentLoop.TimesAlone`). Primary keys, the foreign keys the fleet rests on and the uniqueness of a unit's identity are modelled.
- The digest tells texts apart; floats are reals.
- Ids are only compared, except where the code looks inside a text: keys, flags, markers and placement names. Columns that no rule reads are left out.
- What a tool makes of a unit is an arbitrary function: records, or an error.

What the repository does and the model does not:

- HTTP, request bodies, tokens, routing, the command line and the configuration file.
- `RedisQueue` and publish/subscribe: `FakeQueue` is the stated contract.
- Refusal texts, the prose of a reason, tables and diagrams rendered into the documents.
- ffmpeg, ffprobe and the scorers, their argv apart from `encode_argv`, and reading their output.
- The agent's heartbeats, its frames upload, and the transfer of a publish job: `AgentLoop.Process.ServeOnce` hands such an entry back.
- `plan_inventory`, `plan_adopt`, `plan_viewing`, `plan_score` and `plan_publish`; of `plan_encode` and `plan_time`, paths and each cell's argv.
- `share_path`, `check_path` and `geometry`: small beside the rest.
- Recovery of inventory, materialise and score runs.
- A timing unit that asks for fewer than one repeat raises in the agent; here its tool ends in an error.
- The order in which `diff` lists its names, and the order of a plan's inputs.
- A lone surrogate in an identity: a `char` here is a Unicode scalar value.

Stated for less than one might look for:

- FleetLaws.UsedPlacementsStand: of a placement that stays. The code lets a used placement be removed, since no table points at one.
- FleetLaws.UsedScorersStand: of a scorer that stays, for the same reason.
- Catalogue.Tables.Apply: placements are keyed by (unit, host) pairs where the code goes through their names; FleetLaws.NamesTellApart says when the two are one, and FleetLaws.RemovedAsMeant when a removal by name is the one by pair.
- Verify.AgreementNeedsARepeat: plans whose cells are distinct, as every stored plan's are.
- AgentLoop.Process.ServeOnce: tied to the protocol by its states (AgentLoop.ReachableIsReady) and part by part (AgentSteps), not as one sequence of steps.
- Ingest.WrittenOnce: a cell whose record brought step times and no score may be given more step rows later.
- Crossing.StrandedExactlyByCrossing: continuations that finish what is under way; a new claim and a new ack may of course cross later.
