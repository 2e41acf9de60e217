# Cyclone: the life cycle of a distributed task

A Dafny model of Cyclone's task life cycle, from the generator that decides which file to migrate
between which OSTs, over the master, the wire and the controllers, to the worker that runs the task
and back. `dafny verify dfyconfig.toml` checks the whole project.

## What is modelled

**The migration scheduler.** `Generator.dfy` holds the Lustre OST migration generator as an object
whose methods follow the program's loops over its dictionaries, its source key list and its two
cursors. Each method is proved to compute a function of `Scheduler.dfy` (one round, one pass, one
returned tid, one refresh, one input, one clean-up). `InputLines.dfy` says which lines of an input
file are accepted. `SchedulerLaws.dfy`, `FileLaws.dfy` and `LoadLaws.dfy` prove what those functions do and keep,
`Counter.dfy` and `Progress.dfy` what a pass does and when; `GeneratorRuns.dfy` closes them over all
runs, and `PassRuns.dfy` has the runs that lead to the limits of a pass. Python dictionaries keep
their insertion order (`Collections.Dict`); `Raised` is any exception.

**The wire.** `Fields.dfy`, `Decimal.dfy` and `Wire.dfy` are `split`, `str`/`int`, the message
classes, the message factory and the task factory. `TaskWire.dfy` and `Tids.dfy` prove the round
trips, `TaskFate.dfy` what becomes of any task and any request, `WireLaws.dfy` which texts are printed
and exactly which are read as what, and `TaskObjects.dfy` has the
step-by-step parts: converting setters, the signature check of a task definition, the loop that
prints a message body.

**The protocol.** `Master.dfy` and `Controller.dfy` give one iteration of each process as a function
on its state; `MasterLoop.dfy` and the module `ControllerLoop` have the loops, proved to compute
them. `MasterLaws.dfy` and `ControllerLaws.dfy` say field by field what each event and each reply
does. `WorkerShutdown.dfy` is the controller's shutdown of its workers. `Cluster.dfy` composes one
master, any number of controllers with any number of workers, and a network that delivers every
request and every reply at most once, in any order, and may lose either. Popping an item and
showing EXECUTING are separate worker steps, so a controller may ask for more tasks than it has idle
workers. `Marks.dfy`, `ClusterLaws.dfy`, `Carriage.dfy` and `ClusterRuns.dfy` account for every copy
of a task. In `TextCluster.dfy` texts travel instead of message values, and what a text is read as
takes effect; `SafeRuns.dfy` shows when that makes no difference. `Simulation.dfy` ties the loops to
the steps of these runs.

**The systems.** `MigrationCluster.dfy` puts the migration generator into the cluster of texts and
proves the cluster-wide 1-to-1 mapping and the absence of every inconsistency branch; `Payload.dfy`
follows the contents of the tasks. `Benchmark.dfy` proves completeness of the benchmark.
`SharedQueue.dfy` and `Monitoring.dfy` are the shared queue, its lock protocol and the monitoring
batches.

## Where the program differs from what one would expect

- A pass may look at more targets than there are, because the inner loop does not test the counter
  (`task/generator/lustre_ost_migration_task_generator.py:193`). `Counter.LooksOnceIff` says of each
  state whether its pass does, and `PassRuns.CounterOvershoots` is a run that leads to such a state.
- No fill level reading undoes PENDING_LOCK; `GeneratorRuns.PendingLockIsSticky`.
- The program never compares source and target. `GeneratorRuns.NoSelfMigration` and
  `GeneratorRuns.SelfMigration` give the exact condition on the two thresholds under which no run
  migrates from an OST to itself. The documentation asks for a target threshold of at least 1, the
  program accepts 0; the model takes any integers.
- Two passes are not always enough to push a task that could be pushed, three are:
  `Progress.TwoQuietPassesIff` says of each state whether two are, `PassRuns.CandidatesBehindCursors`
  is a run that leads to one where they are not.
- A task without a body on the wire lends its tid's second field to its arguments: with tid `x|y` and
  one empty argument it is read as a task `x` with argument `y`. `TaskFate.TaskFate` says of every
  task how it is read. Such a mangled task, and no other, breaks the bound on live copies:
  `TextCluster.CopyBoundIff`. None of the program's generators queues one.
- While shutting down, the master's loop over its heartbeat dictionary removes one controller and
  then raises, because the dictionary changed its size (`cyclone-master.py:329-335`).
  `MasterShutdown.LoopEnds` bounds the shutdown all the same.
- `README.md:96-98` of the program calls redispatching after a timeout unavailable. The master does
  reassign a task after `task_resend_timeout`, if the generator queues its tid again; the model
  follows the code.

## Model

| member | source | states |
|---|---|---|
| `Generator.MigrationGenerator.Begin` | task/generator/lustre_ost_migration_task_generator.py:155-168 | the start fails exactly when a configured target or a new source of the input files that are there has no reading, and otherwise reaches the first state of every run with those files processed, in which all look-ups hit |
| `Generator.MigrationGenerator.MatchingPass` | task/generator/lustre_ost_migration_task_generator.py:174-225 | one iteration's matching pass changes the dictionaries and cursors and queues the tasks exactly as `Scheduler.Pass` and `Scheduler.PassPushes` say, which `SchedulerLaws.PassIsMatching` characterises, and keeps the look-up invariant |
| `Generator.MigrationGenerator.Rounds` | task/generator/lustre_ost_migration_task_generator.py:174-225 | the outer loop refines the recursive account of its rounds, and ends with its counter at `Counter.Looked` |
| `Generator.MigrationGenerator.VisitNext` | task/generator/lustre_ost_migration_task_generator.py:184-225 | one source looked at: at most one push, and the counter grows by the number of targets looked at |
| `Generator.MigrationGenerator.SearchTarget` | task/generator/lustre_ost_migration_task_generator.py:193-225 | the source gets the first READY target from the cursor on and gives its last file; without one nothing but the cursor changes; the cursor wraps |
| `Generator.MigrationGenerator.FindTarget` | task/generator/lustre_ost_migration_task_generator.py:193-222 | the inner loop: the targets before the first READY one are looked at and left alone, that one gets the source's last file, and the counter grows by the number looked at |
| `Generator.MigrationGenerator.PushTask` | task/generator/lustre_ost_migration_task_generator.py:203-220 | the newest file of the cache leaves it inside a task for exactly this pair, and both OSTs are blocked |
| `Generator.FilledMeans` | task/generator/lustre_ost_migration_task_generator.py:205-214 | the tid of a queued task parses to its pair; outside local mode the worker's constructor makes of its arguments the file name, the pair and the skeleton's flags; in local mode class and arguments are the skeleton's |
| `Generator.MigrationGenerator.DrainResults` | task/generator/lustre_ost_migration_task_generator.py:227-237 | the whole result queue is returned, oldest first, and the generator fails exactly when some tid does not parse or names an OST that is not busy |
| `Generator.MigrationGenerator.UpdateState` | task/generator/lustre_ost_migration_task_generator.py:438-480 | a known OST turns, and a new one is READY or LOCKED, by the strict threshold of its role on the current reading; the other role's dictionary is untouched; a missing reading fails |
| `Generator.MigrationGenerator.UpdateStates` | task/generator/lustre_ost_migration_task_generator.py:259-263 | judging a list of OSTs one after the other, up to the first without a reading |
| `Generator.MigrationGenerator.RefreshLevels` | task/generator/lustre_ost_migration_task_generator.py:249-263 | a refresh replaces the readings and judges sources and targets by them |
| `Generator.MigrationGenerator.LoadInputFile` | task/generator/lustre_ost_migration_task_generator.py:343-380 | the cache of every OST grows at its end by exactly the names that the lines of the file give it, in their order; undecodable lines, lines with a separator and lines off the pattern give none |
| `Generator.MigrationGenerator.LoadLine` | task/generator/lustre_ost_migration_task_generator.py:345-380 | one line does what `InputLines.Classify` makes of it, which `InputLines.WrittenLine` and `InputLines.AcceptedArePlain` characterise |
| `Generator.MigrationGenerator.AllocateCaches` | task/generator/lustre_ost_migration_task_generator.py:387-395 | every new OST with files gets a first state and the key list is rebuilt, unless a new OST has no reading |
| `Generator.MigrationGenerator.ProcessInput` | task/generator/lustre_ost_migration_task_generator.py:306-330 | without a file nothing happens; otherwise loading all files in order and allocating once together compute `Scheduler.Process`, which `FileLaws.ProcessSound` characterises |
| `Generator.MigrationGenerator.LoadFiles` | task/generator/lustre_ost_migration_task_generator.py:312-322 | the cache of every OST grows at its end by exactly the names that the lines of all files give it, file after file |
| `Generator.MigrationGenerator.FindEmptyCaches` | task/generator/lustre_ost_migration_task_generator.py:399-408 | the caches to free, in their order, which `FileLaws.FreeOstsAre` says are the empty ones of READY and of LOCKED OSTs |
| `Generator.MigrationGenerator.DropCaches` | task/generator/lustre_ost_migration_task_generator.py:410-415 | both dictionaries lose the same keys |
| `Generator.MigrationGenerator.DeallocateEmptyCaches` | task/generator/lustre_ost_migration_task_generator.py:397-417 | the clean-up computes `Scheduler.Deallocate`, of which `FileLaws.DeallocateSound` says exactly what it removes and leaves |
| `InputLines.WrittenLine` | task/generator/lustre_ost_migration_task_generator.py:352-363 | a line of an OST index, a space and a name is accepted, as just that, if and only if the name begins with the path of the file system and has no separator |
| `InputLines.AcceptedIff` | task/generator/lustre_ost_migration_task_generator.py:345-363 | a line, whatever is on it, is accepted as an entry if and only if it is decodable, has no separator, and is digits that read as that OST, one space, that name beginning with the path, and perhaps a newline |
| `InputLines.AcceptedArePlain` | task/generator/lustre_ost_migration_task_generator.py:352-358 | no accepted file name holds the separator, whatever is in the files |
| `Scheduler.Scan` | task/generator/lustre_ost_migration_task_generator.py:193-201 | the search stops at the first READY target at or behind the cursor and passes none |
| `SchedulerLaws.DispatchSound` | task/generator/lustre_ost_migration_task_generator.py:201-220 | dispatching from a READY source with files to a READY target keeps the whole generator invariant with one more pair in flight, a new one, and the file is one of that source |
| `SchedulerLaws.VisitSound` | task/generator/lustre_ost_migration_task_generator.py:184-225 | a round keeps the invariant, with the pair it pushed, if any, new in flight |
| `SchedulerLaws.RoundsMatch` | task/generator/lustre_ost_migration_task_generator.py:179-225 | from any state and counter, legal or not, the pushes of the remaining rounds are pairwise disjoint matches of OSTs READY at their start |
| `SchedulerLaws.PassIsMatching` | task/generator/lustre_ost_migration_task_generator.py:174-225 | the pushes of a pass are a matching between sources READY with files and READY targets; exactly the matched OSTs become BLOCKED, exactly the matched caches lose their last file, which is the pushed one, and the target cursor stays in range |
| `SchedulerLaws.ReturnSound` | task/generator/lustre_ost_migration_task_generator.py:236-237 | a task in flight can always be returned: BLOCKED turns READY and PENDING_LOCK turns LOCKED for its two OSTs, nothing else changes, and the invariant holds with that pair gone from flight |
| `SchedulerLaws.ReturnRaises` | task/generator/lustre_ost_migration_task_generator.py:482-489 | a return succeeds exactly when both OSTs are known and each is BLOCKED or PENDING_LOCK |
| `SchedulerLaws.RefreshSound` | task/generator/lustre_ost_migration_task_generator.py:241-263 | a refresh fails exactly when a listed OST has no reading; otherwise, by the strict threshold of its role, an OST without a task is READY or LOCKED, a BLOCKED one stays so or turns PENDING_LOCK, a PENDING_LOCK one stays so, and nothing but states and readings changes |
| `FileLaws.DispatchConserves` | task/generator/lustre_ost_migration_task_generator.py:203-203 | a dispatch takes exactly the pushed entry out of the multiset of cached entries |
| `FileLaws.LoadConserves` | task/generator/lustre_ost_migration_task_generator.py:343-370 | loading adds exactly the accepted entries to the cached ones |
| `FileLaws.LoadExtends` | task/generator/lustre_ost_migration_task_generator.py:365-368 | loading keeps every cache as a prefix of what it was, puts each entry into its own OST's cache and creates no empty cache |
| `LoadLaws.LoadGives` | task/generator/lustre_ost_migration_task_generator.py:312-370 | loading files appends to each cache exactly the names that their lines give the OST, in order of files and lines, and opens a cache exactly for an OST that is given one |
| `FileLaws.AllocateSound` | task/generator/lustre_ost_migration_task_generator.py:387-395 | allocation fails exactly when a new OST has no reading; otherwise the state map lists the caches' OSTs in their order, old states are unchanged, and a new OST is READY if it is above the source threshold and LOCKED if not |
| `FileLaws.ProcessSound` | task/generator/lustre_ost_migration_task_generator.py:306-330 | processing input keeps the generator invariant, conserves entries, only appends to caches, changes no known state, judges new sources by their reading and changes nothing else, unless a new source has no reading |
| `FileLaws.FreeOstsAre` | task/generator/lustre_ost_migration_task_generator.py:399-408 | each OST with an empty cache that is READY or LOCKED is found once, and no other |
| `FileLaws.DropAllConserves` | task/generator/lustre_ost_migration_task_generator.py:410-415 | deleting empty caches loses no entry |
| `FileLaws.DeallocateSound` | task/generator/lustre_ost_migration_task_generator.py:397-417 | an OST is freed if and only if it has no file and no task in flight; every other keeps its state, its cache and its place in the order, no entry is lost and nothing else changes |
| `Progress.PushesFromStart` | task/generator/lustre_ost_migration_task_generator.py:184-225 | with the target cursor at the start the next source that is READY with files gives its last file to the first READY target |
| `Progress.QuietPass` | task/generator/lustre_ost_migration_task_generator.py:179-225 | rounds without a push run to the end of the source list, and bring the target cursor back to the start if they met a waiting source |
| `Progress.QuietIff` | task/generator/lustre_ost_migration_task_generator.py:179-225 | rounds push nothing although a target is READY if and only if no source ahead waits, or just one does and no target from the cursor on is READY |
| `Progress.ThreePassesPush` | task/generator/lustre_ost_migration_task_generator.py:174-225 | if a listed source is READY with files and a target is READY, then three passes with nothing in between push a task, from any legal cursors |
| `Progress.TwoQuietPassesIff` | task/generator/lustre_ost_migration_task_generator.py:174-225 | two passes push nothing, although a source and a target wait, if and only if the source cursor is inside the list and behind the only waiting source and the target cursor is behind all READY targets |
| `PassRuns.CandidatesBehindCursors` | task/generator/lustre_ost_migration_task_generator.py:174-225 | for all thresholds a run of the generator leads to such a state, so three is the least bound |
| `Counter.FollowsCursor` | task/generator/lustre_ost_migration_task_generator.py:181-225 | while the counter equals the target cursor, a pass ends with at most as many targets looked at as there are |
| `Counter.LookedIsWalk` | task/generator/lustre_ost_migration_task_generator.py:181-225 | the counter of a pass depends only on which targets are READY, how many sources wait, and the target cursor |
| `Counter.FirstLap` | task/generator/lustre_ost_migration_task_generator.py:181-225 | from the cursor the pass began with to the end of the list and on: the counter meets the number of targets, or the sources run out first, exactly if the target before that cursor is READY or few enough sources wait |
| `Counter.Searches` | task/generator/lustre_ost_migration_task_generator.py:181-225 | with no READY target and the cursor behind the start, every waiting source searches the whole list, but for the first, which searches the rest of it |
| `Counter.LooksOnceIff` | task/generator/lustre_ost_migration_task_generator.py:174-225 | the pass from a state looks at no more targets than there are if and only if it begins with the target cursor at the start of the list, or right behind a READY target, or no more sources wait than targets are READY, with one more allowed if the last target is not READY |
| `GeneratorRuns.StartReads` | task/generator/lustre_ost_migration_task_generator.py:155-168 | the generator starts if and only if every configured target has a reading; a target is then READY if it is below the target threshold and LOCKED if not, in the configured order, with nothing cached |
| `PassRuns.CounterOvershoots` | task/generator/lustre_ost_migration_task_generator.py:174-225 | for all thresholds a run of the generator leads to a pass that looks at three targets although there are two |
| `GeneratorRuns.StartInv` | task/generator/lustre_ost_migration_task_generator.py:155-168 | the first state satisfies the generator invariant, duplicates among the configured targets included |
| `GeneratorRuns.PushIsEligible` | task/generator/lustre_ost_migration_task_generator.py:187-220 | a pushed pair passes both strict thresholds on the current readings |
| `GeneratorRuns.TakeKeeps` | task/generator/lustre_ost_migration_task_generator.py:170-293 | every step of the main loop, in any order, keeps dictionaries in agreement, states coherent with flight and readings, entries conserved and pushes good; the generator ends if and only if a listed OST has no reading on a refresh, or a new source has none on input |
| `GeneratorRuns.EveryStepIsOpen` | task/generator/lustre_ost_migration_task_generator.py:170-293 | no state of a run rules out a step of the main loop, but for a round behind the last source |
| `GeneratorRuns.PendingLockIsSticky` | task/generator/lustre_ost_migration_task_generator.py:444-489 | in both roles, of all steps of the main loop only the return of the task that names the OST ends PENDING_LOCK, into LOCKED |
| `GeneratorRuns.RunKeeps` | task/generator/lustre_ost_migration_task_generator.py:170-293 | all of this in every state of every run |
| `GeneratorRuns.NoSelfMigration` | task/generator/lustre_ost_migration_task_generator.py:187-220 | with target threshold at most source threshold + 1 no run pushes a task from an OST to itself |
| `GeneratorRuns.SelfMigration` | task/generator/lustre_ost_migration_task_generator.py:187-220 | with any higher target threshold, and for every OST, a run of two steps does |
| `Simulation.PassIsTurns` | task/generator/lustre_ost_migration_task_generator.py:174-225 | the matching pass of an iteration is a segment of a run: its start and then rounds, with the pushes of the pass |
| `Simulation.DrainIsTurns` | task/generator/lustre_ost_migration_task_generator.py:227-237 | draining a result queue of tids in flight, each once, never fails and is a segment of a run, one return for each tid |
| `Tids.TidRoundTrip` | task/generator/lustre_ost_migration_task_generator.py:206-234 | the generator's parser undoes its tid printer for all naturals, and a tid is non-empty and separator-free |
| `Wire.RequestRoundTrip` | msg/message_factory.py:34-66 | the master reads a request as it was sent if and only if its sender and its tid are non-empty and separator-free |
| `WireLaws.RequestReadIff` | msg/message_factory.py:28-66 | for every text: the master reads it as a given request if and only if it is that request's text, letter by letter, with names that are non-empty and separator-free |
| `TaskFate.RequestFate` | msg/message_factory.py:34-66 | any request is read as it was sent or not at all |
| `Wire.PlainReplyRoundTrip` | msg/message_factory.py:51-61 | acknowledgements, exit commands and wait commands of any duration are read as sent |
| `WireLaws.PlainReplyReadIff` | msg/message_factory.py:51-61 | for every text: a controller reads it as the exit command if and only if it is EXIT_CMD, and as an acknowledgement if and only if it is ACK |
| `WireLaws.WaitReadIff` | msg/wait_command.py:17-30 | for every text: it is read as a wait if and only if it is WAIT_CMD and one field that int() takes for that natural number |
| `Wire.DecodedTidGiven` | msg/task_finished.py:17-40 | whatever text the master reads as a finished message names a non-empty tid |
| `TaskWire.SafeTaskArrives` | msg/task_assign.py:90-129 | up to 15 separator-free arguments, not exactly one empty one, and a non-empty separator-free tid come back as the same task |
| `TaskWire.OneEmptyArgumentIsLost` | task/task_factory.py:82-98 | a task whose only argument is empty cannot be rebuilt |
| `TaskWire.DecodedTaskIsPlain` | task/task_factory.py:67-98 | no text yields a task with a separator in its tid or arguments or with more than 15 arguments |
| `TaskWire.TaskRoundTrip` | msg/task_assign.py:36-129 | for a registered class, printing, the message factory and the task factory return the same class, tid and arguments if and only if the task is of the kind above |
| `TaskWire.AssignTextReprints` | msg/task_assign.py:36-59 | a parsed assign text prints to itself if and only if it is not four header fields with a bare trailing separator |
| `TaskFate.TaskFate` | msg/task_assign.py:36-129 | how any task of a class is read, to the letter: unchanged, or as the task that a mangled one is misread as, or not at all |
| `TaskFate.ReadAsAnother` | msg/task_assign.py:36-59 | an input on which printing and parsing give a different task without an error |
| `TaskFate.AssignRead` | task/task_factory.py:67-98 | any assign text is read field by field: class, tid, and the fields behind them as arguments, but for a single empty one |
| `WireLaws.AssignPrints` | msg/task_assign.py:89-126 | what an assignment is printed as, letter by letter, and that a class outside the task package or a missing tid fails |
| `WireLaws.AssignReadIff` | task/task_factory.py:67-155 | for every text: it is read as a given task if and only if its fields are TASK_ASS, module, class, tid and the arguments, a single empty one for none, and the class can be imported and takes as many, at most 15 |
| `WireLaws.FifteenArguments` | task/task_factory.py:100-155 | fifteen arguments arrive, sixteen do not |
| `WireLaws.ContainsIff` | msg/task_assign.py:92-92 | the package test finds its part anywhere in the module name |
| `TaskWire.MigrationRebuilt` | task/lustre_ost_migrate_task.py:20-136 | the constructor's string conversions undo the printing of file name, OST pair and flags |
| `TaskWire.MigrationArrives` | task/lustre_ost_migrate_task.py:20-136 | a migration task with a separator-free file name crosses the wire, and the worker's object has the same typed fields |
| `Decimal.IntOfStrInt` | task/lustre_ost_migrate_task.py:111-121 | int undoes str on all integers |
| `WireLaws.IntReads` | task/lustre_ost_migrate_task.py:111-121 | between blanks int() reads a number with or without a sign |
| `WireLaws.DigitsIff` | task/lustre_ost_migrate_task.py:111-121 | digits are a number if and only if underscores stand only singly and between them |
| `WireLaws.FlagWords` | task/lustre_ost_migrate_task.py:66-105 | a flag is set by y, yes, t, true, on and 1, cleared by n, no, f, false, off and 0, in letters of any case, and refused otherwise |
| `TaskObjects.LustreOstMigrateTask.Init` | task/lustre_ost_migrate_task.py:20-46 | the object is built exactly when the two OST fields are empty or integers as int() reads them and the flags are words strtobool knows, with empty fields left empty |
| `TaskObjects.LustreOstMigrateTask.SetFilename` | task/lustre_ost_migrate_task.py:127-136 | an empty name is refused and changes nothing, any other becomes the file name |
| `TaskObjects.LustreOstMigrateTask.SetSourceOst` | task/lustre_ost_migrate_task.py:111-113 | the source is the integer that int() reads, with blanks, sign and underscores; anything else is refused and changes nothing |
| `TaskObjects.LustreOstMigrateTask.SetTargetOst` | task/lustre_ost_migrate_task.py:119-121 | the same for the target, and only the target |
| `TaskObjects.LustreOstMigrateTask.SetDirectIo` | task/lustre_ost_migrate_task.py:66-75 | the flag is the truth value of the word; unknown words are refused and change nothing |
| `TaskObjects.LustreOstMigrateTask.SetBlock` | task/lustre_ost_migrate_task.py:81-90 | the same for block, and only block |
| `TaskObjects.LustreOstMigrateTask.SetSkip` | task/lustre_ost_migrate_task.py:96-105 | the same for skip, and only skip |
| `TaskObjects.CreateBody` | msg/task_assign.py:106-126 | the body loop joins the printed arguments in order, so that splitting the body gives separator-free arguments back |
| `TaskObjects.CreateFromXmlInfo` | task/task_factory.py:21-65 | a task is built from a definition if and only if the constructor takes self and then exactly the named properties in their order, at most 15 |
| `SharedQueues.SharedQueue.Fill` | ctrl/shared_queue.py:66-82 | filling succeeds exactly on a non-empty list and an empty queue, and then the queue is the list |
| `SharedQueues.SharedQueue.Clear` | ctrl/shared_queue.py:84-94 | the queue is empty afterwards |
| `SharedQueues.SharedQueue.Push` | ctrl/shared_queue.py:96-104 | a set item comes last; an unset one is refused and changes nothing |
| `SharedQueues.SharedQueue.PopNowait` | ctrl/shared_queue.py:106-119 | the oldest item leaves the queue, or nothing if there is none |
| `SharedQueues.SharedQueue.Pop` | ctrl/shared_queue.py:121-123 | once there is an item, the oldest leaves the queue |
| `SharedQueues.CriticalSection.Enter` | ctrl/critical_section.py:20-23 | entering takes the lock if it is free or freed in time, and knows whether it did |
| `SharedQueues.CriticalSection.Exit` | ctrl/critical_section.py:25-30 | leaving frees the lock only if entering took it |
| `MasterLoop.Loop.OnMessage` | cyclone-master.py:186-320 | an iteration with a message, text in and text out, with its exceptions, computes `Master.ServeText` |
| `MasterLoop.Loop.OnTaskRequest` | cyclone-master.py:202-266 | a task request computes `Master.ServeRequest`, of which `MasterLaws.Answers`, `MasterLaws.Records` and `MasterLaws.DistributionEnds` say what is answered, recorded and turned off |
| `MasterLoop.Loop.OnTaskFinished` | cyclone-master.py:268-294 | only the recorded owner's finish is recorded, once, in status and result queue; an unknown tid is an exception |
| `MasterLoop.Loop.OnPollTimeout` | cyclone-master.py:322-338 | while shutting down, the first expired controller is removed and the loop over the dictionary then fails; without one the loop ends if none is registered |
| `MasterLoop.Loop.HandleException` | cyclone-master.py:340-348 | an exception counts, ends distribution, and at the hundredth ends the loop |
| `MasterLaws.Answers` | cyclone-master.py:200-320 | the answer to each request: the head of the queue exactly if the master has the lock and its tid is new, finished or overdue, otherwise a wait, of no duration if the queue is empty and the generator dead; acknowledgements; no answer to a finish of an unknown tid; exit commands while shutting down |
| `MasterLaws.Records` | cyclone-master.py:202-287 | the queue loses its head whenever the master has the lock, the status map changes exactly by a hand-out or a finish from the recorded owner, and the results exactly by the latter |
| `MasterLaws.TextAnswers` | cyclone-master.py:186-320 | what comes in as a text goes out as the text of that answer; an unreadable text and an assignment that cannot be written are exceptions |
| `MasterLaws.DistributionEnds` | cyclone-master.py:211-220 | task distribution goes off exactly by a stop signal, an exception, or a request when the queue is empty and the generator dead, which also ends all waiting |
| `MasterLaws.SomethingTurnedItOff` | cyclone-master.py:182-348 | every run in which distribution is off has met such an event |
| `MasterLaws.Registers` | cyclone-master.py:194-198 | a sender's heartbeat is noted while distributing; while shutting down it is unregistered, and a poll timeout removes exactly one controller past its deadline, if there is one |
| `MasterLaws.Counts` | cyclone-master.py:340-342 | exactly the exceptions are counted |
| `MasterLaws.LoopGoesOn` | cyclone-master.py:317-348 | the loop ends exactly with the hundredth exception, or, while shutting down, when no controller is left |
| `Simulation.HandleIsIteration` | cyclone-master.py:186-320 | the iteration of the master on the text of a request in transit is the step that handles it, reply included |
| `MasterShutdown.ExpiredFinds` | cyclone-master.py:329-333 | no controller is removed exactly when all are within their deadline |
| `MasterShutdown.OffStaysOff` | cyclone-master.py:308-348 | with distribution off no event turns it on, assigns, records or adds a controller, and a poll timeout past all deadlines removes one or ends the loop |
| `MasterShutdown.LoopEnds` | cyclone-master.py:322-348 | whatever happens after distribution is off, the loop sees at most registered controllers + 1 poll timeouts past all deadlines |
| `MasterShutdown.RegisteredOnce` | cyclone-master.py:194-198 | in every state of every run each controller is registered once |
| `MasterShutdown.ShutdownEnds` | cyclone-master.py:322-348 | that bound, from any state of any run of a master in which distribution is off |
| `MasterShutdown.OffForGood` | cyclone-master.py:200-348 | between any two states of a run of a master, once distribution is off the status map is frozen and the registered controllers never grow |
| `Reassignment.ReassignmentSeparated` | cyclone-master.py:227-278 | in every run with a monotone clock, between two successive hand-outs of a tid lies an accepted finish of the first one's owner, or at least the resend timeout |
| `ControllerLoop.Loop.ChooseMessage` | cyclone-controller.py:251-310 | a finished tid goes out before a request, a request before a heartbeat, and the loop ends when no worker lives |
| `ControllerLoop.Loop.HandleReply` | cyclone-controller.py:325-356 | a reply computes `Controller.ReceiveText`, of which `ControllerLaws.Reads` says what it does |
| `ControllerLoop.Loop.Iterate` | cyclone-controller.py:247-415 | one iteration with its two receives computes `Controller.Iteration` |
| `Simulation.IterationWithoutMessage` | cyclone-controller.py:247-318 | an iteration of a controller that sends nothing is the step Send |
| `Simulation.IterationUnanswered` | cyclone-controller.py:354-410 | an iteration without an answer is Send and then the step that counts the silence |
| `Simulation.IterationAnswered` | cyclone-controller.py:318-404 | an iteration with an answer, at the first or the second look, is Send and then the delivery of that reply |
| `ControllerLaws.Sends` | cyclone-controller.py:251-310 | a finished tid goes out if one waits; otherwise a task request exactly if some worker shows READY; otherwise the loop ends exactly if none is alive, and a heartbeat goes out exactly if the wait was not cut short |
| `ControllerLaws.Delivers` | cyclone-controller.py:325-356 | after a delivered reply the loop goes on exactly if it can be read and is no exit command; a readable one resets the retries, an assigned task comes last in the queue, and nothing else changes |
| `ControllerLaws.Reads` | cyclone-controller.py:325-356 | the same for any text that comes in |
| `ControllerLaws.SilentAfterExit` | cyclone-controller.py:349-352 | in any run, a controller that was delivered the exit command or an unreadable text sends nothing more |
| `Controller.GivesUp` | cyclone-controller.py:354-410 | a controller stops with the (maximum + 1)-th consecutive unanswered send, not before, whatever its workers do meanwhile |
| `ControllerLoop.Worker.RunOne` | worker.py:123-145 | the oldest item is executed once and its tid reported once; an unreportable one ends the worker |
| `ControllerLoop.Worker.Run` | worker.py:107-149 | over a whole run, items taken, executions and reports agree in number and order, and the signal stops the worker before its next item |
| `Simulation.TurnIsSteps` | worker.py:121-145 | the worker's turn is its four steps, from pop to READY |
| `WorkerShutdown.OneMoreItem` | worker.py:121-157 | in every interleaving each worker takes at most one item after its first signal |
| `WorkerShutdown.RoundSignalsAll` | cyclone-controller.py:429-440 | a round over the worker table leaves every worker ended or signalled |
| `WorkerShutdown.ShutdownRound` | cyclone-controller.py:427-444 | one round, with workers going on in between, signals every worker and finds no active one only if all have ended; once all are signalled, a round that finds one gains an item on the waiting workers |
| `WorkerShutdown.ShutDown` | cyclone-controller.py:425-448 | the loop over the rounds ends only when all workers have ended, and after more rounds than there are workers the queue has an item for every waiting one |
| `WorkerShutdown.StepExcess` | cyclone-controller.py:429-440 | once all are signalled, waiting workers never gain on the queued items, each visit of a live worker gains one on them, and each worker event leaves less to do |
| `WorkerShutdown.PillsSuffice` | cyclone-controller.py:425-448 | after as many visits of live workers as there are workers the queue has an item for every waiting worker, and the workers make at most three more events each |
| `WorkerShutdown.NobodyBlocked` | cyclone-controller.py:435-435 | with an item for every waiting worker each live worker can go on |
| `WorkerShutdown.AllComeToTheirEnd` | cyclone-controller.py:425-448 | once all are signalled and as many live workers were visited as there are workers, all have ended as soon as none of them can go on |
| `ClusterLaws.SendMoves` | cyclone-controller.py:251-318 | sending moves a finished copy from the result queue to the network |
| `ClusterLaws.DeliverMoves` | cyclone-controller.py:332-337 | a delivered assignment moves its copy from the network to the controller's queue |
| `ClusterLaws.PopMoves` | worker.py:123-123 | popping moves a copy from the queue to the worker |
| `ClusterLaws.FinishMoves` | worker.py:131-139 | an execution turns a waiting copy into a completed one, and without a tid loses it |
| `ClusterLaws.DieMoves` | worker.py:151-153 | a worker that ends loses exactly the copy it has |
| `ClusterLaws.HandleMoves` | cyclone-master.py:202-320 | a request handled by the master creates at most the copy it assigns and settles exactly the copy it brought |
| `ClusterLaws.StepMoves` | cyclone-master.py:182-348 | every step of the cluster changes live, settled and created copies by the same amounts |
| `ClusterLaws.NothingIsRuledOut` | cyclone-controller.py:323-410 | any message may be lost at any time, any controller may stop or join, any worker end, and the running master read, time out, fail or be stopped |
| `Carriage.NextIn` | cyclone-controller.py:332-336 | no step of the cluster brings a task that was not in the queue to a message, controller or worker |
| `ClusterRuns.ServeStatus` | cyclone-master.py:202-294 | which status entry, queue head and result each branch of the master touches, and that it touches no other |
| `ClusterRuns.CopyBoundHandle` | cyclone-master.py:227-284 | a handled request keeps the bound on live copies |
| `ClusterRuns.RunKeeps` | cyclone-master.py:182-348 | while message values travel, in every state of every run, with any generator, losses, stale finishes and dying workers: per tid, copies assigned = live + lost + accepted + refused + dismissed, and live copies are at most one if assigned, plus the reassignments by timeout |
| `TextCluster.TextIsSteps` | cyclone-controller.py:318-410 | unless a mangled task is in transit, any step of the cluster of texts, with what is misread, unreadable or cannot be written, is one or several steps of the cluster of values |
| `TextCluster.TextRunKeeps` | cyclone-master.py:182-348 | the same conservation and copy bound, and the origin of every result, in every run of the cluster of texts whose generator queues no mangled task |
| `TextCluster.CopyBoundIff` | cyclone-master.py:227-260 | for a task that controllers can import, the copy bound holds in every run that queues it if and only if it is not mangled |
| `SafeRuns.SafeRunSurvives` | msg/message_factory.py:28-66 | if the generator queues safe tasks of importable classes and host names hold no separator, every message in transit in any run is read as it was sent, and the run of values is one of texts |
| `ClusterRuns.ResultsComeFromRuns` | cyclone-master.py:272-281 | every recorded result is matched to its own completed execution at the controller recorded as owner at acceptance |
| `ClusterRuns.OneLiveCopy` | cyclone-master.py:227-260 | a tid never reassigned by timeout has at most one live copy, and none unless it is assigned |
| `MigrationCluster.FinishedIsExpected` | cyclone-master.py:272-287 | any finished message in transit comes from the recorded owner of an assigned task |
| `MigrationCluster.NoInconsistentBranch` | cyclone-master.py:237-287 | handling any request in transit takes none of the branches "still assigned", "different controller" and "unknown tid", and no assignment by timeout |
| `MigrationCluster.ResultsAreReturnable` | task/generator/lustre_ost_migration_task_generator.py:229-237 | every finished tid parses and names two busy OSTs, so the generator does not fail on it |
| `MigrationCluster.BalancedServe` | cyclone-master.py:202-281 | the master moves each pushed tid from the queue over its status map to the result queue without ever having it twice |
| `MigrationCluster.RunInv` | cyclone-master.py:182-348 | the invariant that ties generator, master, network and controllers, in every state of every run |
| `MigrationCluster.OneToOneMapping` | Documentation/lustre_ost_migration.md:7 | in every state of every run, any two tasks that are queued, in transit, with a controller or awaiting acceptance differ in source and in target, and none is there twice |
| `MigrationCluster.NeverInconsistent` | cyclone-master.py:227-287 | no run reaches an inconsistency branch of the master or of the generator |
| `MigrationCluster.SourcesCohere` | task/generator/lustre_ost_migration_task_generator.py:444-489 | a source is BLOCKED or PENDING_LOCK exactly when one tid naming it is queued, assigned or recorded, and only one can be; READY and BLOCKED ones are above the source threshold |
| `MigrationCluster.TargetsCohere` | task/generator/lustre_ost_migration_task_generator.py:444-489 | the same for targets, below the target threshold |
| `Payload.RunCarries` | cyclone-controller.py:332-336 | no run brings a task to a controller, worker or message that the generator did not push |
| `Payload.PayloadArrives` | task/generator/lustre_ost_migration_task_generator.py:203-217 | whatever a worker has taken stems from an accepted input entry of its source OST, with its pair, and outside local mode with file name and flags, unchanged, and in a form the wire gives back |
| `Payload.MessagesSurvive` | msg/message_factory.py:28-66 | in every state of every run, printing and parsing any message in transit gives the same message, and the next step does what it would do with values |
| `Benchmark.Generator.CreateTaskList` | task/generator/benchmark_task_generator.py:107-127 | one task for each tid 0..n-1, in order |
| `Benchmark.Generator.FillQueue` | task/generator/benchmark_task_generator.py:54-64 | whatever was queued is replaced by the task list |
| `Benchmark.Generator.Poll` | task/generator/benchmark_task_generator.py:68-88 | an iteration counts exactly the result it pops, and ends the loop only when as many came back as there are tasks |
| `Benchmark.RunInv` | task/generator/benchmark_task_generator.py:48-105 | in every run each planned tid was queued or assigned once in all, and every recorded result was popped or waits |
| `Benchmark.Complete` | task/generator/benchmark_task_generator.py:48-105 | if the generator ended by itself, every tid 0..n-1 was assigned exactly once and its finish accepted exactly once, for all n and all schedules of the cluster of texts |
| `Monitoring.BuildIndexSet` | task/generator/lustre_ost_monitoring_task_generator.py:131-157 | succeeds if and only if something is available and everything selected is; gives the selection, or all if nothing is selected |
| `Monitoring.CreateTaskList` | task/generator/lustre_ost_monitoring_task_generator.py:115-128 | one task for each OST of the set, each OST once |
| `Monitoring.OneTaskPerOst` | task/generator/lustre_ost_monitoring_task_generator.py:115-128 | every task of a batch is for an OST of the set, with its printed index as tid, and different tasks have different tids |
| `Monitoring.TaskOfOst` | task/generator/lustre_ost_monitoring_task_generator.py:117-126 | a task of a batch carries the index of its OST as the argument ost_idx, if its class has one; class and other arguments are the skeleton's |
| `Monitoring.BatchFaithful` | task/generator/lustre_ost_monitoring_task_generator.py:117-126 | a task of a batch is read by a controller as it was sent, or not at all |
| `Monitoring.RefreshQueue` | task/generator/lustre_ost_monitoring_task_generator.py:75-81 | after the critical section the queue is the new batch and the lock is free |
| `Monitoring.TakeTask` | cyclone-master.py:204-211 | with the lock the master takes the head of the queue, without it nothing; it leaves the lock as the holder needs it |
| `Monitoring.NeverMixesRounds` | ctrl/shared_queue.py:27-53 | whenever the master holds the lock the queue is the rest of the latest batch behind what it took from it, although clearing and filling are many operations; of each earlier batch it took a prefix |

## Left out

- ZeroMQ sockets, pollers and reconnecting: replaced by the lossy network, on which a reply may reach its controller at any later time. Strict request/reply alternation would only remove runs.
- Processes, PID files, arguments, configuration and logging: parameters of the model. An OST index is a natural number without the range that `validate_config` enforces.
- Delays and the unreliable `empty()` of `multiprocessing.Queue`: queues are atomic FIFOs.
- Signals and `InterruptedError` inside a statement: stop signals arrive between loop iterations, a worker interrupted in `pop` is a worker that ends.
- The order of the migration generator's steps: runs allow any order and any timing, more than the main loop does.
- Generator.MigrationGenerator.LoadInputFile: opening, reading and decoding a file, and an error in the middle of it, are not part of this model; a line is undecodable or a text. The path of the file system stands in the pattern letter by letter, and digits are ASCII digits.
- Generator.MigrationGenerator.NewTask: the setter's refusal of an empty file name is not reached, because outside local mode an accepted name begins with the path of an existing directory.
- Generator.MigrationGenerator.ProcessInput: listing and renaming the input files are not part of this model.
- InputLines.AcceptedIff: the path of the file system is taken to hold no newline.
- Decimal.IntOfStrInt: int() is modelled on ASCII strings, without the limit on the number of digits.
- Wire.PlainReplyRoundTrip: the wait duration is a natural number, as the configuration requires.
- TaskWire.TaskRoundTrip: importing and inspecting classes is a registry of class names with their number of arguments; a missing and an empty body are one value, because the program treats them alike.
- TaskObjects.CreateFromXmlInfo: reading the XML file is not part of this model, and neither is what the class makes of its arguments, except for the migration task.
- WorkerShutdown.PillsSuffice: counts pills and left-over tasks as items and has no network; in `Cluster` a stopped controller sends and receives nothing.
- Progress of the cluster: lost messages and crashed controllers leave OSTs blocked for ever, and the program says so; only safety is proved there.
- More than one master, a master that restarts, and controllers left over from an earlier master.
- The undefined task state of the master: a status entry is assigned or finished by its type, and no code writes another state.
- `LfsUtils`, `RangeSet`, e-mail and MySQL tasks, the I/O task's timing, database proxy, push gateway: foreign calls and simple appends.
