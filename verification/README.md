# A verified model of the orchestrator

The orchestrator keeps projects with requirements, plans, contracts and tasks, runs agents on
tasks, takes snapshots of projects and rolls them back, lets people override tasks and lock code,
merges finished work into a shared sandbox, and stores all of it in SQL tables. This project
models that core and proves what it promises over all inputs, all interleavings of executors and
all reachable states.

`dafny verify dfyconfig.toml` checks everything.

## How it is built

**The protocol.** `Projects` holds the operations on one project, `Machine` the orchestrator as a
state machine: each section under the service mutex is one event, an executor is a goroutine
between its locked sections, and whatever the environment decides (inputs, clock, whether a
sandbox could be made, how an agent ends, the answer of the budget gate) is part of the event.
`ProjectProofs` and `MachineProofs` prove one invariant over all 22 events; `Theorems`, `History`,
`Isolation`, `Leases` and `Clock` draw the conclusions.

**What every event does.** `Outcomes`, `PlanningOutcomes`, `ExecutorOutcomes`, `MergeOutcomes` and
`LeaseTerms` say of every event when it is accepted and what the records are afterwards: which
change, to what, and that no others do. They speak of the records before and after, not of the
functions that make them.

**The service.** `Service` is the class with the flat maps, orders and nine secondary indexes of
the Go struct (grouped in two records) and its loops. Each method is proved to do on the maps what
the machine does on projects and to keep every index equal to the rebuild of its lists;
`States`, `ServiceSteps` and `ServiceProofs` hold the proofs. Since the constructor gives the
initial state, this covers every state that calls can reach.

**Objects.** `SnapshotHeap` models pointers and slices: objects changed in place, `append` into a
shared backing array, deep copies at capture and restore.

**Storage.** `Tables` gives the rows of a state, `Database` the store with its full rewrite and
its incremental transactions, `Commits` shows that both write the same rows, `Loading` that
loading undoes saving.

**Leases and overlay.** `Overlay` models how code locks are applied to a bundle, `Imports` the
removal of unused imports.

**Git.** `Git` is a repository of commits, branches and worktrees; `Workspaces` and the class in
`GitProvider` are the provider's rebase, merge and cleanup, with every way a command can fail;
`GitRuns` runs them together with sandboxes and snapshots.

**Apart from these** `ContractValidation`, `RateLimiter`, and `Text` and `Records` for strings and
for maps with their orders and indexes.

## What turned out different from what one might expect

- Rate limiter (`internal/httpapi/server.go:1399-1425`): the bound is max(1, rate); the first
  request of a window is admitted even with rate zero (`RateLimiter.FirstAdmitted`).
- Code locks (`internal/service/service.go:5199-5208`): scopes are made of the path as written, so
  locks on "a//b" and "a/b" do not exclude each other, and the older owner's content can be the
  one that stays (`Overlay.AliasExample`). `Overlay.FileLockHoldsExactly` says exactly when a lock holds;
  clean paths are enough (`Overlay.CleanFileLockHolds`).
- The conflict log of the overlay overwrites a lock on `metadata/lock-conflicts.log`.
- The overlay's note about two owners (`internal/service/service.go:4609-4665`) is reachable only
  with a clock read before the locks (`Leases.TwoOwnersMeanStaleClock`, `Leases.StaleClockExample`).
- "exit status 1" is looked for as a text (`internal/service/workspace_provider.go:764-777`), which
  status 128 contains: a broken repository reads as "no such branch", and a branch can be reported
  deleted that is there. `Workspaces.DeletionReported` says exactly when.
- A rebase whose new head cannot be read leaves the old head on record
  (`Workspaces.HeadLostExample`), and so does a failed one whose abort fails too: its error is
  dropped and the result says "aborted" (`Workspaces.AbortFailedExample`).
  `Workspaces.RebaseAgrees` says exactly when record and git agree.
- A branch can be gone that the cleanup reports as kept, when git is cut off after deleting it
  (`Workspaces.DeletionUnseen`, an if and only if); its head is contained in a retained one even so.
- File locks on "a" and "a/b", of whatever owners, end the overlay with an error
  (`Overlay.FailsExactly`).
- With git workspaces the snapshot a rollback makes cannot itself be rolled back to, because its
  branch name lacks "/shared/" (`GitRuns.RollbackAccepted`, an if and only if). With directory
  workspaces it can (`Theorems.RollbackAgain`), up to `updatedAt`.
- A parallel batch that stops in the middle keeps RUNNING runs without executors, and is not
  written to the store before the next save.
- Import removal relies on ranges that do not end in white space (`Imports.TrailingBlankMatters`).

## Assumptions

- Ids are handed out by a counter, and those of a rejected commit may be handed out again; the
  original draws random ones and takes them to be unique.
- The clock does not go back between sections in `Clock`; elsewhere no order of times is assumed.
- Integers are unbounded; lengths count characters.
- The protocol and the service use the memory store's rules and directory workspaces; the git
  provider is modelled in its own modules, on the same steps of sandboxes and snapshots.
- Commits are numbers with their parents, contents are not modelled; the base ref only moves
  forward; shared branches are moved by the provider alone, task branches also by agents, who only
  add commits.
- Every git command may do its work, refuse, or do its work and report an error, as it is killed
  after ten seconds (`internal/service/workspace_provider.go:913-933`).
- Files are written unless their path is a directory or runs through a file; a full disk is not
  modelled.
- The database executes a transaction completely or not at all.

## Model

| member | source | states |
|---|---|---|
| Domain.TerminalOnce | internal/domain/model.go:293-322 | along any trail of allowed transitions DONE and FAILED occur only as the last entry: a task is completed or failed at most once in its life |
| MachineProofs.StepOk | internal/service/service.go:1324-3985 | every one of the 22 locked sections keeps the whole invariant (tasks, runs, sandboxes and artifacts in step, live and in every snapshot; executors fit their runs; leases exclude each other; ids unique), whatever the environment decides |
| MachineProofs.RunOk | internal/service/service.go:1324-3985 | the invariant holds after any sequence of sections, in any interleaving of executors, rollbacks and merges |
| Theorems.ProtocolEverywhere | internal/service/service.go:3582-3719 | in every reachable state, live or stored in a snapshot, every task has at most one run and the statuses of task, run and private sandbox agree |
| ProjectProofs.BusyMeaning | internal/service/service.go:5560-5601 | a task is IN_PROGRESS or HUMAN_OVERRIDE exactly when its only run is RUNNING with an ACTIVE private sandbox |
| ProjectProofs.DoneMeaning | internal/service/service.go:3641-3716 | a task is DONE exactly when its only run SUCCEEDED with a RELEASED sandbox and exactly one artifact, which is stored |
| ProjectProofs.FailedAndCreatedMeaning | internal/service/service.go:3913-3985 | the runs of a FAILED task are all FAILED, and a CREATED task has none |
| ProjectProofs.DoneHasArtifact | internal/service/service.go:5717-5730 | for a DONE task the newest-artifact lookup of the merge always finds one, with its run and sandbox |
| ProjectProofs.StartedDepsDone | internal/service/service.go:5544-5558 | a task past CREATED has all its dependencies DONE; dependencies come strictly earlier in the order and are never SPRINT1 |
| ProjectProofs.NothingReadyMeansActiveOrFailed | internal/service/service.go:5496-5542 | no deadlock: if a CREATED task waits and nothing is ready, some task of the project is being worked on or has failed |
| Theorems.ScheduledEverywhere | internal/service/service.go:5496-5558 | in every reachable state, live or stored: dependencies come earlier in the order and are no SPRINT1 tasks, started tasks have DONE dependencies, and where a task waits and none is ready some task is active or has failed |
| Theorems.LateExecutor | internal/service/service.go:3641-3719 | an executor that ends after its run was rolled away changes nothing; one whose run is there is the first to end a RUNNING run, and settles run, task and sandbox together |
| Theorems.ExecutorsApart | internal/service/service.go:3137-3220 | two executors whose runs are both in the project never work on the same task |
| Theorems.PrepareFailsOnlyAfterRollback | internal/service/service.go:3881-3911 | an executor fails to prepare exactly when its run has been rolled away; task, plan and project are never missing |
| Theorems.ContractNeedsPlanOnly | internal/service/service.go:1912-1987 | GenerateContract is refused exactly for a missing project or one without plans: the requirement of the plan is always found |
| Theorems.ContextNeedsContractOnly | internal/service/service.go:2069-2112 | GenerateTaskContext for a known task is refused exactly when the project has no contract |
| Theorems.AutoSelection | internal/service/service.go:5496-5542 | automatic selection takes exactly the ready tasks outside SPRINT1, each once, and reports exactly the other waiting ones as blocked |
| Theorems.GivenSelection | internal/service/service.go:5496-5542 | an explicit selection is accepted exactly when every task asked for is there; the tasks selected and blocked are then exactly those asked for by id (or the newest, where an entry names none), each once, selected exactly if ready |
| Theorems.StartKeepsReady | internal/service/service.go:5560-5601 | starting one task leaves every other ready task ready and unchanged |
| Theorems.BatchWhole | internal/service/service.go:3222-3332 | a batch of distinct ready tasks starts as a whole exactly unless a sandbox cannot be made; all other tasks stay, and stay ready |
| MachineProofs.AskedFound | internal/service/service.go:4418-4434 | the lookup gives exactly the task that is named, or the newest when none is; a named task that is missing is not found, and without tasks the request is invalid |
| Outcomes.StartRunDoes | internal/service/service.go:3137-3220 | a start puts exactly the task asked for from CREATED to IN_PROGRESS, with one new RUNNING run, one ACTIVE sandbox and one executor for it, and leaves every other record as it was; it is refused exactly when the task is not there, not CREATED, waits for a dependency or is over budget; without a sandbox just that task fails |
| Outcomes.StartParallelDoes | internal/service/service.go:3222-3332 | a batch starts exactly the tasks asked for that can start, or all such outside SPRINT1, in turn, each with a run, a sandbox and an executor of its own and nothing else changed; the first that gets no sandbox fails and ends it; refused, it changes nothing |
| Outcomes.RetryDoes | internal/service/service.go:3049-3135 | a retry is accepted exactly for a FAILED task asked for, and adds one CREATED task at the end with its plan, kind, assignee, dependencies, input and name; nothing else changes |
| PlanningOutcomes.CreateDoes | internal/service/service.go:1324-1374 | a project with a name is created empty on branch main, with the trimmed texts; any other request is invalid |
| PlanningOutcomes.RequirementDoes | internal/service/service.go:1686-1767 | a requirement that is not blank or too long is added at the end, trimmed; any other request is invalid |
| PlanningOutcomes.PlanDoes | internal/service/service.go:1809-1910 | the newest requirement gets the next version of a plan and a SPRINT1 task to carry it out; nothing else changes |
| PlanningOutcomes.ContractDoes | internal/service/service.go:1912-1987 | the newest plan gets the next version of a contract, for its requirement, which validates against itself |
| PlanningOutcomes.ContextDoes | internal/service/service.go:2069-2112 | the task asked for gets the next version of a context, from its plan, the plan's requirement and the contract it refers to, or else the newest |
| PlanningOutcomes.DispatchDoes | internal/service/service.go:2828-2959 | the newest plan and contract get a backend, a frontend and, depending on both, an integration task, unless a task was dispatched for them already |
| PlanningOutcomes.ValidateDoes | internal/service/service.go:2961-3047 | validating the contract asked for adds a task to resolve the conflicts exactly when something differs, and changes nothing otherwise |
| PlanningOutcomes.FaultDoes | internal/service/service.go:2513-2531 | a fault is noted for exactly the task asked for |
| ExecutorOutcomes.PrepareDoes | internal/service/service.go:3881-3911 | preparing moves the executor on, and nothing else, exactly while its run is there |
| ExecutorOutcomes.FaultStrikesOnce | internal/service/service.go:5653-5663 | a fault noted for a task makes its next executor fail with that text, and no other after it |
| ExecutorOutcomes.CheckpointDoes | internal/service/service.go:4573-4607 | a checkpoint takes the newest pending override of the task in force: it is marked as applied and the task, if handed over, is IN_PROGRESS again; without one nothing but the executor moves; without the run the executor fails |
| ExecutorOutcomes.CompleteDoes | internal/service/service.go:3641-3719 | a run that is through: the run SUCCEEDED with its usage, summary and one artifact, the task DONE with the artifact's address, the sandbox RELEASED, the executor gone and nothing else changed; rolled away before, only the executor goes |
| ExecutorOutcomes.FailDoes | internal/service/service.go:3913-3985 | a run that fails: run, task and sandbox FAILED, run and sandbox with the failure text, the executor gone and nothing else changed; rolled away before, only the executor goes |
| MergeOutcomes.MergeDoes | internal/service/service.go:2533-2666 | a merge is accepted exactly when it asks for tasks, all DONE, the contract it needs is there and the sandbox can be made; it adds one shared sandbox, RELEASED and recorded in one more stable snapshot, built from the last one, that stores exactly the project; blocked by a difference it is FAILED and a rework task is added; without manifest it is FAILED; after a simulated failure the project is back at its newest stable snapshot if it has one |
| MergeOutcomes.PreviewDoes | internal/service/service.go:2341-2384 | a preview shows the newest released shared sandbox at its last change, and is refused without one |
| MergeOutcomes.IntegratedPreviewed | internal/service/service.go:2341-2384 | after a merge went through, a preview of that very sandbox is accepted |
| Theorems.MergeSelection | internal/service/service.go:5682-5715 | a merge selection is accepted exactly when every task asked for by id is DONE; those tasks come out once each, with an artifact of their own |
| History.StepExtends | internal/service/service.go:1324-3985 | a section that is no rollback forgets nothing: trails, orders and lists of a project only grow, and ended runs and artifacts stay as they are |
| History.NothingForgotten | internal/service/service.go:1324-3985 | over any run without rollback a finished task keeps status and audit trail |
| Isolation.StepOnly | internal/service/service.go:1324-3985 | a section works on one project: the state, leases, queue, previews, timeline, executors and faults of every other project stay as they were, and no stored snapshot changes |
| Isolation.RunGrows | internal/service/service.go:6105-6147 | over any run timelines only grow, and what a snapshot has stored is the same for ever |
| Theorems.RollbackExact | internal/service/service.go:6149-6209 | a rollback succeeds exactly when the snapshot is one of the project's; then the project equals the stored state without contexts and with the new time, the new snapshot stores just that, overrides and faults are gone and no other project moves; refused, nothing moves |
| MergeOutcomes.RollbackDoes | internal/service/service.go:2793-2826 | record by record: the project is the stored one without contexts and with the new time; the timeline ends with one more snapshot of it, on branch <source branch>-rollback-<n>, naming its source and stable if that is; its overrides and the faults of its tasks are gone and nothing else has changed |
| Theorems.RollbackAgain | internal/service/service.go:6149-6209 | rolling back to the snapshot that a rollback made, after any events in between, gives the same project again up to updatedAt |
| Theorems.BranchNeverUsed | internal/service/service.go:6362-6369 | for every base name the rollback branch differs from the current branch and from the branch of every earlier snapshot |
| Theorems.RollbackOpensBranch | internal/service/service.go:6149-6209 | after any accepted rollback the project is on a branch that neither it nor any earlier snapshot was on, and the new snapshot names it |
| Theorems.LineageEnds | internal/service/service.go:6105-6147 | the source links lead to strictly earlier snapshots and end at one without a source |
| Theorems.StableIsNewest | internal/service/service.go:6105-6147 | the recorded stable snapshot is the newest one marked stable; none is recorded exactly when none is marked |
| Theorems.TimelineIntegrity | internal/service/service.go:6105-6147 | in every reachable state the snapshots of a timeline are the project's own and stored, source links lead back to a first one, and the stable one is the newest marked stable |
| SnapshotHeap.Cell.TransitionTo | internal/domain/model.go:293-309 | TransitionTo on an object whose audit slice may share a backing array: an allowed move appends one entry, another changes nothing |
| SnapshotHeap.Cell.Append | internal/domain/model.go:293-309 | append on a slice: in place while there is room, else into a new array; in both cases one entry longer |
| SnapshotHeap.Cell.Clone | internal/service/service.go:7459-7467 | a clone is a new object with an array of its own and the same value |
| SnapshotHeap.CloneAll | internal/service/service.go:7736-7759 | cloning a map of objects gives new objects and arrays with the same values |
| SnapshotHeap.Board.Change | internal/service/service.go:7389-7806 | changing a live task, run, sandbox, project or order slice changes no other object and no snapshot |
| SnapshotHeap.Board.Capture | internal/service/service.go:6371-6407 | a captured snapshot says what the live objects say and shares nothing with them |
| SnapshotHeap.Board.Restore | internal/service/service.go:6409-6455 | after a restore the live objects say what the snapshot says and share nothing with it |
| SnapshotHeap.ActMany | internal/service/service.go:6371-6455 | whatever is done to live objects, any number of times, no snapshot changes |
| SnapshotHeap.CaptureActRestore | internal/service/service.go:6371-6455 | capture, any actions on live objects, restore: the live objects say what they said at the capture |
| Records.AddToLedgerSlices | internal/service/service.go:5560-5601 | adding a fresh record to a map and its order extends the slice of its own project and no other |
| Records.RestoreLedgerSlices | internal/service/service.go:6409-6493 | clearing a project and restoring it from a slice gives exactly that slice and leaves every other project's |
| Records.IndexListFinds | internal/service/service.go:1205-1269 | in lists without repeated ids the index finds each record |
| Records.IndexUnique | internal/service/service.go:1205-1269 | the index of given lists is unique; with Service.RebuildIndex, which produces one, rebuilding gives back what was there |
| Service.RebuildIndex | internal/service/service.go:1205-1269 | one loop of the rebuild: starting from nothing it yields the index of the lists, whatever order the map is ranged in |
| States.IndexedUnique | internal/service/service.go:1205-1269 | all nine indexes of one state are determined by its lists |
| States.IndexLookup | internal/service/service.go:5665-5680 | an index answers as the search through the project's list does |
| States.RestoreInOk | internal/service/service.go:6409-6506 | restoring in the flat maps gives the project back as stored, without contexts, and changes no other project |
| ServiceSteps.StepSound | internal/service/service.go:1205-1269 | an update of one project's state and lists that keeps ids unique keeps every index equal to the rebuild of its lists |
| Service.Service.constructor | internal/service/service.go:1205-1269 | the empty service stands for the initial state, with its indexes |
| Service.Service.CreateProject | internal/service/service.go:1324-1374 | on the flat maps does what the state machine does, and keeps all nine indexes; with a repository whose tables hold the state the commit succeeds and the tables hold the new state, and a rejected commit leaves everything as it was |
| Service.Service.AddRequirement | internal/service/service.go:1686-1767 | the same for AddRequirement, with or without a repository |
| Service.Service.GeneratePlan | internal/service/service.go:1809-1910 | the same for GeneratePlan, with or without a repository |
| Service.Service.GenerateContract | internal/service/service.go:1912-1987 | the same for GenerateContract, with or without a repository |
| Service.Service.GenerateTaskContext | internal/service/service.go:2069-2112 | the same, with the history appended and indexed |
| Service.Service.DispatchTasks | internal/service/service.go:2828-2959 | the same, with or without a repository: tasks already dispatched are found in the global task map, else three are filed, the last depending on the others |
| Service.Service.ValidateContract | internal/service/service.go:2961-3047 | the same, with or without a repository: a remediation task is filed exactly when the definitions differ |
| Service.Service.RetryTask | internal/service/service.go:3049-3135 | the same for RetryTask, with or without a repository |
| Service.Service.MarkFault | internal/service/service.go:2513-2531 | the same for the recorded sandbox faults |
| Service.Service.ApplyHumanOverride | internal/service/service.go:2139-2236 | the same: a clash is queued, else the override is recorded and the task handed over |
| Service.Service.ApplyCodeLock | internal/service/service.go:2238-2339 | the same: a clash is queued, else the lock registered |
| Service.Service.StartPreview | internal/service/service.go:2341-2384 | the same: the newest released shared sandbox is found, and the preview filed and indexed |
| Service.Service.PickParallel | internal/service/service.go:5496-5542 | the loop over named or all tasks gives the selection of the specification |
| Service.Service.PickForMerge | internal/service/service.go:5682-5715 | the loop over tasks and artifacts gives the merge selection of the specification |
| Service.Service.StartRun | internal/service/service.go:3137-3220 | StartRun on the flat maps does what the state machine does and keeps all nine indexes |
| Service.Service.StartRunStored | internal/service/service.go:3137-3220 | with a repository: from tables that hold the state the commit succeeds and they hold the new one; a rejected commit leaves state, indexes and executors as they were |
| Service.Service.StartParallelRun | internal/service/service.go:3222-3332 | the batch without a repository, with every way it can stop in the middle, on the flat maps |
| Service.Service.StartParallelRunStored | internal/service/service.go:3222-3332 | with a repository: from tables that hold the state the commit of a whole batch succeeds and they hold the new one; a rejected commit puts everything back; a batch that stops in the middle is not written |
| Service.Service.Prepare | internal/service/service.go:3881-3911 | snapshotForExecution on the flat maps |
| Service.Service.CheckFault | internal/service/service.go:5653-5663 | a recorded fault is reported once to the executor of its task |
| Service.Service.Checkpoint | internal/service/service.go:4573-4607 | the newest pending override of the task is applied on the flat maps, or the executor goes on |
| Service.Service.CompleteRun | internal/service/service.go:3641-3719 | the last section of executeRun, with or without a repository: as StartRunStored says of its commit |
| Service.Service.FailRun | internal/service/service.go:3913-3985 | failRun, likewise |
| Service.Service.Merge | internal/service/service.go:2533-2666 | MergeToSharedSandbox in all its endings, with the rollback to the stable snapshot when the integration fails |
| Service.Service.CaptureProject | internal/service/service.go:6371-6407 | the loops collect exactly the project's state |
| Service.Service.RestoreProject | internal/service/service.go:6409-6506 | the loops of clear and restore give the specified state and indexes |
| Service.Service.Rollback | internal/service/service.go:2793-2826 | RollbackToSnapshot on the flat maps, all indexes kept |
| Service.Service.Restore | internal/service/service.go:1175-1203 | any consistent captured state is taken over, and every index is rebuilt from its lists |
| Service.Service.Recapture | internal/service/service.go:1143-1203 | in every reachable state capture and restore change nothing, the nine indexes included |
| Service.Service.Persist | internal/service/service.go:1126-1135 | after a save the tables hold exactly the state |
| Database.Store.SaveState | internal/service/postgres_state_store.go:142-215 | the full rewrite: it fails, changing nothing, exactly when an id of a list repeats; else the tables hold exactly the state |
| Database.Repeated | migrations/002_domain_projection_tables.up.sql:1-86 | a second row with the id of a first one means that the state lists the id twice |
| Database.Store.StartRuns | internal/service/postgres_run_artifact_repository.go:34-77 | all updates and inserts of a batch of starts, or none |
| Database.Store.CompleteRun | internal/service/postgres_run_artifact_repository.go:79-118 | task, run, artifact and order together, or nothing |
| Database.Store.FailRun | internal/service/postgres_run_artifact_repository.go:120-149 | run and task together, or nothing |
| Database.Store.GeneratePlan | internal/service/postgres_plan_contract_task_repository.go:33-72 | project, plan, task and order together, or nothing |
| Database.Store.GenerateContract | internal/service/postgres_plan_contract_task_repository.go:74-104 | project and contract together, or nothing |
| Database.Store.SaveTasks | internal/service/postgres_plan_contract_task_repository.go:106-145 | project, tasks and orders together, or nothing |
| Database.Store.CreateProject | internal/service/postgres_project_requirement_repository.go:30-55 | the project is inserted or nothing changes |
| Database.Store.AddRequirement | internal/service/postgres_project_requirement_repository.go:57-99 | project and requirement together, or nothing |
| Commits.StartRunCommits | internal/service/postgres_run_artifact_repository.go:34-77 | on the tables of a state the incremental commit of a start succeeds and gives the tables of the new state, as the full rewrite would |
| Commits.CreateProjectCommits | internal/service/postgres_project_requirement_repository.go:30-55 | on the tables of a state the commit of a new project succeeds and gives the tables of the new state |
| Commits.AddRequirementCommits | internal/service/postgres_project_requirement_repository.go:57-99 | the same for a requirement |
| Commits.GenerateContractCommits | internal/service/postgres_plan_contract_task_repository.go:74-104 | the same for a contract |
| Commits.SaveTasksCommits | internal/service/postgres_plan_contract_task_repository.go:106-145 | the same for new tasks with their places in the order |
| Commits.StartRunsCommits | internal/service/postgres_run_artifact_repository.go:34-77 | the same for any batch of starts, by induction over the batch |
| Commits.OneMoreFiled | internal/service/postgres_run_artifact_repository.go:34-77 | the starts made so far in a batch, read off the state after them, commit to exactly the tables of that state |
| Commits.StartInStep | internal/service/postgres_run_artifact_repository.go:34-77 | the same for every start from a service whose tables are in step |
| Commits.CompleteInStep | internal/service/postgres_run_artifact_repository.go:79-118 | the same for a completed run |
| Commits.FailInStep | internal/service/postgres_run_artifact_repository.go:120-149 | the same for a failed run |
| Commits.PlanInStep | internal/service/postgres_plan_contract_task_repository.go:33-72 | the same for a plan and its task |
| Commits.TasksInStep | internal/service/postgres_plan_contract_task_repository.go:106-145 | the same for new tasks with the next ids at the end of the order |
| Commits.TaskUpdated | internal/service/postgres_run_artifact_repository.go:280-287 | updating a task row gives the row of the full rewrite exactly when the columns that the update leaves alone did not change |
| Commits.StartsFailExactly | internal/service/postgres_run_artifact_repository.go:34-77 | a batch of starts commits exactly when each has one project that is there, a run id and a place not taken, and no two want the same |
| Commits.SaveTasksFails | internal/service/postgres_plan_contract_task_repository.go:106-145 | new tasks commit exactly when the project is there, each has a position, an id and a place not taken, and no two want the same |
| Commits.PlanningFails | internal/service/postgres_plan_contract_task_repository.go:33-104 | the other planning commits fail exactly for a missing project or an id or place that is taken |
| Commits.EndingFails | internal/service/postgres_run_artifact_repository.go:79-149 | the end of a run fails to commit exactly for a missing project, or an artifact id or place that is taken |
| Tables.ColumnsFit | migrations/002_domain_projection_tables.up.sql:1-86 | in the rows of any state every column repeats what its record says; requirements are ranked by place, plans and contracts by version |
| Tables.PlacesFit | migrations/002_domain_projection_tables.up.sql:1-86 | the order tables hold the id at every place of every order, and nothing else |
| Commits.SoundSaves | internal/service/postgres_state_store.go:142-215 | the state of a service that started empty can always be saved |
| Loading.LoadProjection | internal/service/postgres_state_store.go:217-240 | the loops over the query answers give the specified state |
| Loading.LoadSaved | internal/service/postgres_state_store.go:217-571 | saving a state and loading it, with rows of equal rank in any order, over the legacy payload gives the state and the same world |
| Leases.AdmitKeeps | internal/service/service.go:5236-5263 | a lease admitted because no clash was found keeps the leases exclusive |
| Leases.FileScope | internal/service/service.go:5199-5208 | a lock of a whole file shares its scope exactly with the locks of the same path |
| Leases.SymbolScope | internal/service/service.go:5199-5208 | a lock of a symbol shares its scope exactly with those of the same path, kind up to case, and name |
| LeaseTerms.LockDoes | internal/service/service.go:2238-2339 | a lock that may be asked for is filed as asked exactly when no lock in force on its scope is another owner's; otherwise the request is refused and one queue entry names both owners and the lock in the way; any other request changes nothing |
| LeaseTerms.LockLasts | internal/service/service.go:5177-5189 | a lock asked for s seconds at t, or 3600 for zero, is in force from t up to, not including, t + s * 1000000000; for so long, over any run, requests of other owners for its scope are refused and queued behind its owner, and from then on it bars nobody |
| LeaseTerms.LocksStay | internal/service/service.go:1324-3985 | no section ever drops or changes a code lock |
| LeaseTerms.OverrideDoes | internal/service/service.go:2139-2236 | the same for overrides of a task in progress or handed over; an accepted one puts an IN_PROGRESS task into HUMAN_OVERRIDE |
| LeaseTerms.OverrideLasts | internal/service/service.go:5177-5189 | the same term for overrides, as long as no checkpoint or rollback takes the override away |
| Leases.OneOwner | internal/service/service.go:5236-5263 | at any time no earlier than the leases were made those in force on one scope have one owner |
| Leases.TwoOwnersMeanStaleClock | internal/service/service.go:4609-4665 | two owners in force on one scope mean that the clock was read before the later lease was made |
| Leases.StaleClockExample | internal/service/service.go:4609-4665 | such a reading exists: a lease until 11 replaced at 12 clashes when read with a clock of 10 |
| Theorems.LeasesExclusive | internal/service/service.go:5236-5263 | in every reachable state locks and pending overrides in force on one scope have one owner |
| Clock.LeasesFromThePast | internal/service/service.go:2139-2339 | with a clock that never goes back no lease of a reachable state is from the future |
| Clock.LeasesExclusiveNow | internal/service/service.go:5236-5263 | so at any later time the leases in force on one scope have one owner, without further assumption |
| Clock.OwnersAgreeNow | internal/service/service.go:4609-4665 | so the overlay never finds two owners on one scope |
| Overlay.LastWins | internal/service/service.go:4609-4665 | per scope the last lock in force for the task wins, and only scopes with such a lock have a winner |
| Overlay.SortScopes | internal/service/service.go:4609-4665 | the scopes come out sorted, each once, from a map ranged in any order |
| Overlay.Bundle.ApplyLocks | internal/service/service.go:4609-4665 | the loop on the bundle's files applies the winners in sorted order; it stops at a path that is a directory or runs through a file, or at a symbol lock that cannot be applied, and the earlier ones stay applied |
| Overlay.GreatestScopePrevails | internal/service/service.go:4609-4665 | among file locks on one file the one with the greatest scope prevails, whatever was generated and whichever is newer |
| Overlay.FileLockHoldsExactly | internal/service/service.go:4609-4665 | where only file locks win on a file, it ends with the content of a winner exactly when that is the content of the winner with the greatest scope (or the conflict log, if the file is the log) |
| Overlay.CleanPathsOneScope | internal/service/service.go:5199-5208 | for clean paths (no empty and no "." segment) two file locks on one file are on one scope, and so exclude each other |
| Overlay.CleanFileLockHolds | internal/service/service.go:4609-4665 | so with clean paths a winning file lock on a file without symbol locks always holds |
| Overlay.AliasExample | internal/service/service.go:5199-5208 | "a//b" and "a/b" are two scopes for one file: both owners get their lock and the older one's content is what the file ends with |
| Overlay.OthersUntouched | internal/service/service.go:4609-4665 | a file no winner touches, other than the conflict log, stays as it was |
| Overlay.FailsExactly | internal/service/service.go:4609-4665 | with file locks only the overlay stops exactly when the path of one collides with a file of the bundle or with the path of another, as "a" and "a/b" do |
| Overlay.FilesFirst | internal/service/service.go:4609-4665 | file locks are applied before symbol locks |
| Overlay.TargetJoin | internal/service/service.go:4609-4665 | the file of a path is found by its segments: empty and "." segments drop out (with TargetOne, for a single segment) |
| Overlay.NotedOwners | internal/service/service.go:4667-4678 | a note about owners is written exactly when two applicable locks on one scope have different ones |
| Overlay.SymbolLockHolds | internal/service/service.go:4609-4665 | a winning symbol lock alone on its file leaves there what the symbol overlay makes of the generated file, and notes it |
| Overlay.NotesExactly | internal/service/service.go:4609-4665 | with file locks on different files there is one note for each that replaces other content, after those about owners, and the log holds them |
| Imports.Expand | internal/service/service.go:4915-4929 | the two loops find how far white space goes on either side |
| Imports.RightReaches | internal/service/service.go:4915-4929 | to the right a cut takes the blanks and then one line end of either kind, no more |
| Imports.RemoveRanges | internal/service/service.go:4880-4908 | whatever ranges are cut, in whatever order they are listed, the result has exactly the non-white bytes outside them, in order |
| Imports.TrailingBlankMatters | internal/service/service.go:4915-4929 | without the guarantee that ranges end in no white space a later cut loses a byte |
| ContractValidation.Validate | internal/service/service.go:6803-6923 | the loops report the specified findings |
| ContractValidation.ReportExact | internal/service/service.go:6803-6923 | a finding is reported exactly when it is due, said on the lists: an endpoint, schema or field that only one side has, an endpoint that counts without a name, a type or required flag that differs, with what is wanted and what was found; of entries with one key the last counts |
| ContractValidation.SameKey | internal/service/service.go:6925-6927 | endpoints with a verb of one word share a key exactly when their trimmed paths agree and their trimmed verbs up to case |
| ContractValidation.NoFindingsMeans | internal/service/service.go:6803-6923 | nothing is reported exactly when both sides have the same endpoint keys, named candidates, and the same schema names, fields, types and required flags |
| ContractValidation.OrderIrrelevant | internal/service/service.go:6803-6923 | reordering a candidate with unique keys does not change the verdict |
| ContractValidation.BuiltContractConforms | internal/service/service.go:6561-6630 | every generated contract validates against itself |
| Workspaces.SourcesMerged | internal/service/workspace_provider.go:218-232 | after a successful merge every source head is an ancestor of the shared head |
| Workspaces.MergeGoesThrough | internal/service/workspace_provider.go:218-232 | a merge fails only over a source without a usable head or when git fails |
| GitProvider.Provider.MergeShared | internal/service/workspace_provider.go:218-232 | the loop on the repository does what the specification says; heads merged before a failure stay merged, and the failing one may |
| GitProvider.Provider.HeadRetainedBy | internal/service/workspace_provider.go:779-792 | the loop finds the first retained ref that contains the head |
| GitProvider.Provider.Rebase | internal/service/workspace_provider.go:290-450 | the method on the repository and the sandbox does what the specification says in every exit, a failing abort included |
| GitProvider.Provider.Cleanup | internal/service/workspace_provider.go:452-568 | the same for the cleanup |
| Workspaces.RetentionMeans | internal/service/workspace_provider.go:779-792 | a head counts as retained exactly when a retained commit contains it, unless a command hangs before |
| Workspaces.StatusText | internal/service/workspace_provider.go:764-777 | the text test for exit status 1 accepts exactly the codes whose numeral starts with 1 |
| Workspaces.RebaseAgrees | internal/service/service.go:5888-5959 | record and git agree after a rebase exactly unless the new head could not be read, or a failed rebase could not be taken back |
| Workspaces.HeadLostExample | internal/service/workspace_provider.go:290-450 | a head can be lost: the rebase goes through, the sandbox keeps the old head |
| Workspaces.AbortFailedExample | internal/service/workspace_provider.go:402-412 | or in this way: the rebase stops, the abort fails, and the worktree stays off its branch while record and branch keep the old head |
| Workspaces.AbortReported | internal/service/workspace_provider.go:402-412 | a rebase reported as aborted has left the repository as it was exactly when the abort worked |
| Workspaces.RebaseMeans | internal/service/workspace_provider.go:290-450 | rebased or up to date, the recorded base is an ancestor of the head; otherwise, and in every dry run, the record stays, and git stays exactly unless the head is lost |
| Workspaces.RebaseDone | internal/service/workspace_provider.go:290-450 | a rebase whose conditions hold, said on repository, sandbox, options and answers, with a known target, is carried out and recorded: up to date if the target is an ancestor of the head; else the commits are put in a line on top of the target and the record says head and base; published exactly when asked for and done; any other changes nothing |
| GitRuns.RebasedHubDone | internal/service/service.go:5888-5959 | the same for a sandbox on record: the record becomes what the rebase comes to, and nothing else on record changes |
| Workspaces.RebaseElsewhere | internal/service/workspace_provider.go:290-450 | however the rebase ends, no other branch or worktree moves and no commit goes away |
| Workspaces.CleanupSafe | internal/service/workspace_provider.go:452-568 | a cleanup deletes at most the sandbox's own task branch, and only when its head is the recorded one and contained in a retained one; a dry run deletes nothing |
| Workspaces.CleanupTrees | internal/service/workspace_provider.go:452-568 | a cleanup takes away at most the sandbox's own worktree, and for a worktree on its branch says exactly when; no branch checked out in another worktree goes |
| Workspaces.CleanupDone | internal/service/workspace_provider.go:452-568 | a cleanup reports the worktree as removed exactly when that part can be done, and takes the branch away exactly when it is told to, the worktree part is done, git sees the branch at the recorded head, a retained head contains it and no other worktree has it |
| Workspaces.KeptExactly | internal/service/workspace_provider.go:779-792 | a keeper is found exactly when a retained commit contains the head and no command hangs before it |
| Workspaces.DryRunTells | internal/service/workspace_provider.go:452-568 | a dry run reports what the real run would, as far as git's own refusals go |
| Workspaces.DeletionReported | internal/service/workspace_provider.go:764-777 | a branch reported deleted is still there exactly when the command that looked for it died in a way that reads as "no such branch" |
| Workspaces.DeletionUnseen | internal/service/workspace_provider.go:541-568 | a branch not reported deleted is gone exactly when git was cut off after deleting it, and by then it had a keeper |
| Workspaces.DeletionMisreported | internal/service/workspace_provider.go:764-777 | such a repository: the branch is reported deleted and is there |
| GitRuns.StepOk | internal/service/workspace_provider.go:180-568 | every step on sandboxes, snapshots and the repository keeps this: private sandboxes have task branches, the head of a released shared sandbox is the commit of a snapshot, a shared or rollback branch contains every snapshot's commit, and the base or a snapshot contains every deleted head |
| GitRuns.AgreementKept | internal/service/workspace_provider.go:205-568 | a step other than a rollback keeps the recorded head of a private sandbox equal to the head of its worktree exactly unless it is a stray commit there, a rebase that loses the head, or a cleanup that takes the worktree away |
| GitRuns.HistoryNeverLost | internal/service/workspace_provider.go:452-568 | over all runs whatever a deleted task branch contained is contained in the base or a branch that is there |
| GitRuns.OnlyCleanupDeletes | internal/service/workspace_provider.go:452-568 | no other step deletes a branch, and its head is on record then |
| GitRuns.MergedSourcesRetained | internal/service/service.go:6046-6072 | after a recorded merge the retention check succeeds for every merged source |
| GitRuns.PrivateMakes | internal/service/workspace_provider.go:180-187 | a private sandbox that can be made is active on a new branch named after project, task and id, in a new worktree at the base; where path or branch is taken nothing changes |
| GitRuns.FinishedRecords | internal/service/workspace_provider.go:205-216 | a finished run's sandbox is released at the head of its worktree, where uncommitted work has become one commit on the old head |
| GitRuns.MergeLands | internal/service/service.go:2533-2666 | when git does all it is asked, a merge of usable heads makes a released shared sandbox at the new head, recorded in one more snapshot, whose commit contains every source; other branches and worktrees stay |
| GitRuns.MergedThenCleaned | internal/service/service.go:6046-6072 | a merged sandbox can then be cleaned up at once: its worktree and branch go, and the newest snapshot still contains its work |
| GitRuns.RestorableNames | internal/service/workspace_provider.go:945-972 | every shared branch name can be restored from; a rollback branch name exactly in a project called "shared" |
| GitRuns.RollbackAccepted | internal/service/service.go:6238-6318 | in git mode a rollback to a snapshot with a commit goes through exactly when a merge recorded it, or the project is called "shared", and its worktree can be made; refused for its branch, it changes nothing |
| GitRuns.RollbackLands | internal/service/service.go:6274-6318 | a git rollback that goes through puts the recorded commit on a new branch in a new worktree, takes back the stored sandboxes with one for it, and records both |
| GitRuns.RollbackOfRollbackRefused | internal/service/service.go:6238-6272 | so the snapshot that a rollback makes cannot be rolled back to |
| RateLimiter.Limiter.Allow | internal/httpapi/server.go:1399-1425 | the method with its eviction loop over the map answers and changes the map as specified |
| RateLimiter.EvictionUnseen | internal/httpapi/server.go:1399-1425 | every request is answered as by a limiter that never drops an entry |
| RateLimiter.WindowBound | internal/httpapi/server.go:1399-1425 | any window-long interval admits at most max(1, rate) requests of a key |
| RateLimiter.RefusedExactly | internal/httpapi/server.go:1399-1425 | over any timely trace a request is refused exactly when the last admission of its key is at most a window back and the key has had max(1, rate) admissions since its last admission after a longer pause (or its first) |
| RateLimiter.AdmittedWhen | internal/httpapi/server.go:1399-1425 | a key admitted fewer than max(1, rate) times so far is admitted, and so is one not admitted for more than a window |
| RateLimiter.FirstAdmitted | internal/httpapi/server.go:1399-1425 | with any rate, even zero, the first request is admitted |
| Text.NumeralSuffix | internal/service/service.go:6362-6369 | a name with a separator and a numeral appended determines both |
| Text.TrimSpaceIs | internal/service/service.go:1324-1374 | trimming leaves a part of the text with only white space around it and none at its edges |
| Text.DecimalValue | internal/service/service.go:6362-6369 | a numeral stands for its number, without leading zeros |

## Left out

- Workspaces.DryRunTells: supposes that worktree, manifest and branch can be removed, which a dry run cannot know.
- Imports.RemoveRanges: supposes what the Go parser guarantees of import specs: ranges apart, non-empty, not ending in white space.
- Overlay.Bundle.ApplyLocks: what a symbol lock does to a file is a parameter, since it depends on the Go parser.
- GitRuns.RestorableNames: of `gitBranchName` only what it does to slashes; case and other characters do not matter here.
- The struct's separate map fields: they are grouped in two records, so the order of single field updates inside a locked section is not modelled.
- Postgres locking, serialisation failures, the idempotency of repeated requests, and the refresh of tasks by ListTasks.
- The tables beyond projects, requirements, plans, contracts, tasks, runs and artifacts, and the JSON file store.
- HTTP routing, authentication, audit, alert and communication logs.
- Token costs and budgets: the gate's answer is an input of a start.
- Resolving queue entries by hand, which only marks an entry.
- Case folding beyond ASCII in endpoint keys and generated contracts.
- Paths with "..", which are refused at admission.
- File contents of generated bundles, manifests and reports.
