# Workplan control panel: a verified model

The workplan control panel schedules tasks listed in main's tracker, reserves them in a local state
file, prepares a branch for each, and dispatches their stages (refine, implement, audit) to agents.
This project models the parts of it that hold state, survive crashes, share state between threads or
reason about graphs, and proves what they are meant to guarantee.

| file | what it models |
|---|---|
| `Wrappers.dfy`, `Sequences.dfy` | optional values, answers that may be refused with an HTTP status, distinctness, and selections from a list that keep its order |
| `Moves.dfy` | what others do to the refs of a remote |
| `Records.dfy` | the state file's records, the newest-attempt scan, the overlay on the tracker, retirement |
| `Migration.dfy`, `MigratedStart.dfy` | the upgrade of version 1 state files, and when the dispatch machine may start on the result |
| `BranchNames.dfy` | printing and parsing stage branch names, and the choice of the next number |
| `Dispatch.dfy`, `DispatchProofs.dfy`, `DispatchHistory.dfy` | stage dispatch as a machine with disk, memory, origin and sessions, what every run of it keeps, and attempt lists between two points of a run |
| `StageDispatcher.dfy` | the panel's stage operations as methods; each step they take is a step of that machine |
| `SchedulingPass.dfy`, `SchedulingProofs.dfy` | one scheduling pass, every state it writes, and what passes guarantee |
| `PassOnDisk.dfy` | passes and dispatches sharing the state file |
| `SyncJobs.dfy` | background sync jobs: two critical sections, a job table and a flag |
| `Views.dfy` | the page's rows and their agreement with the scheduler |
| `Dependencies.dfy`, `Forest.dfy` | dependency graphs and their layout as trees |
| `Commits.dfy`, `Rebase.dfy`, `OpeningCommit.dfy`, `RebasedPreparation.dfy` | linear histories, the rebase of a branch with its pull requests, the opening commit, and the two together |

## How the pieces fit

**Dispatch.** A `World` keeps the state file on disk, the operation's copy in memory, origin's refs
and the started sessions apart. Every action of the panel, of an operator or of others is one step;
`Crash` may come at any point and loses only what is in memory. `Run` is any sequence of possible
steps, and the theorems speak of every run that starts from an orderly state file: an empty one, or a
migrated one whose records are sound (`MigratedFileStarts`). `Panel` is the imperative side: its
methods change the fields and record their steps in a ghost run, so `DiesAnywhere` covers a panel that
dies in the middle of one. The outcomes of external calls are parameters: what others do to origin and
when, whether a lookup answers, whether a push lands and whether that is reported, whether a save
works, how the agent replies.

**Scheduling.** `Pass` is the sequence of states a pass writes; `Scheduler.Sync` is the loop, proved
to write exactly that sequence. `PassExtendsRun` says that a pass stopped anywhere is again a run of
the dispatch machine, so dispatches stay at most once across passes.

**Jobs.** The critical sections of HTTP threads and the worker are atomic actions; the theorems are
about every interleaving. History fields say when a request was folded into a running job and when
each pass started.

**Layout.** `Layout.Trees` follows the page's layout step by step: memoised ranks, the chosen
parents, the shared set of placed tasks, the trailing pass. Depth is compared with the longest path
in the graph, defined on its own.

**Branches.** A commit is the chain of patches behind it. What becomes of a patch where a rebase puts
it (it takes, becomes empty and is dropped, or clashes) is a parameter.

## What turned out not to hold as described

- `nest_stages` is meant to leave one attempt per stage and revision. Two keys can read alike: one
  without a colon and the same one with a colon at its end. `MigrationDecides` shows that this is
  the only way to lose the property when records agree with their keys; `ColonlessKeysCollide` is
  an instance.
- A migrated list is ordered by the time of the last update, not by number. Its branch numbers increase
  exactly when the file's numbers rise with those times (`MigratedNumbers`); an older submission that
  was updated later breaks that (`LateUpdateSwaps`).
- Failed or killed passes followed by a successful one come to what a single pass would have done
  exactly when no task to be claimed already carries the mark of a finished preparation
  (`RecoveryConverges`). A retired record keeps that mark. If main reopens the task and its next
  preparation fails, it stays claimed and marked, and no later full pass works on it, however those
  passes go (`StrandedForGood`, and `ReopenedTaskIsStranded` for an instance).
- Expiring a task is documented to delete the numbered branches the task owns. It deletes by prefix, so
  it takes any ref under the two prefixes: only numbered branches exactly when each of those refs carries
  a number (`ExpiryTakesItsOwn`), which `implement/P0-001-4-old` does not (`ExpiryTakesUnnumbered`).
  Another task's numbered branch is taken only if that id goes on with a dash after this one's
  (`PrefixTakes`), which no id of the schema's shape does (`SchemaIdsAreApart`).
- Main can itself be the head of a pull request into the task branch, and a rebase then carries it along:
  it stays where it was only if the two branches had nothing for each other. A second rebase is idle
  exactly when main is no such head or all of its own patches became empty on the new task branch
  (`SecondRebaseIsIdle`). With one patch on each side it is idle, but main has moved to the task tip
  (`MainIsCarriedAlong`); with a patch and its revert on main it is not (`MainIsRepeated`).
- A task branch is documented to be created unless it exists, but the fetch that follows is not forced.
  A preparation fails while the branch does not descend from the clone's copy (`CalmPreparation`). Where
  the copy descends from the branch, commits can still bring it up; once the two have diverged, no
  commit and no preparation helps, until the branch is deleted and again descends from the copy, or the
  copy is replaced or gone (`CanCatchUp`, `DivergedIsStuck`; `RecreatedBranchDiverges` for an instance).
  A rebase fetches by force and replaces it (`RefetchCatchesUp`); expiring the task removes it
  (`ExpiryStartsAfresh`).
- A request folded into a pass under way is served exactly when that pass and the one after it both
  return (`FoldedDuringPass`). When a job fails, the folds it has not served by then are dropped for good
  (`FailureDropsFolds`, `DroppedFold` for an instance).
- The push loop is documented to end because each turn passes a branch origin has. It ends once others
  leave origin alone (`PushStageBranch`); while they keep creating the next name it takes any number of
  turns (`PushMayGoOn`).

## Model

| member | source | states |
|---|---|---|
| `Records.NewestAt` | workplan-control-panel/control_panel/state.py:40-40 | the reverse scan finds the last attempt at a revision, and finds one if there is any |
| `Records.LiveIsNewest` | workplan-control-panel/control_panel/state.py:34-41 | the answer is an attempt exactly when it is unexpired and no later one is at its revision, and none otherwise |
| `Records.ReverseScanIsExact` | workplan-control-panel/control_panel/state.py:34-41 | reading only the newest attempt loses no unexpired one exactly when every superseded attempt is expired |
| `Records.LiveAttemptDecides` | workplan-control-panel/control_panel/state.py:34-41 | under that invariant no live attempt means no unexpired one at the revision, and there are never two |
| `Records.EffectiveTracker` | workplan-control-panel/control_panel/state.py:78-87 | the loop gives an unfinished task its unexpired, unfinished local record's status, owner and blocked reason, and leaves every other task as the tracker has it |
| `Records.Find` | workplan-control-panel/control_panel/task_scheduler.py:289-289 | the first task of the tracker with that id, and none exactly when there is none |
| `Records.CompletionAuthority` | workplan-control-panel/control_panel/state.py:78-87 | a task is effectively completed if and only if the tracker says so |
| `Records.LocalState.RetireCompleted` | workplan-control-panel/control_panel/state.py:90-106 | the record of a completed task becomes completed and loses its owner and nothing else of it changes, no other record changes, and the answer says whether any did |
| `Records.RetiringIsInvisible` | workplan-control-panel/control_panel/state.py:90-106 | retiring changes no effective task, and retiring twice is retiring once |
| `Migration.KeyParts` | workplan-control-panel/control_panel/state.py:26-26 | a key is put together again from the two parts the partition at the first colon yields |
| `Migration.EntryMeans` | workplan-control-panel/control_panel/state.py:26-29 | an entry goes under the stage its record writes out, or else what stands before the first colon of its key, at the revision behind that colon, with its other fields as they were |
| `Migration.SortKeeps` | workplan-control-panel/control_panel/state.py:25-25 | sorting by update time keeps every submission once and orders them |
| `Migration.NestStages` | workplan-control-panel/control_panel/state.py:24-30 | the loop builds, for each stage that occurs and no other, its submissions in sorted order |
| `Migration.EveryEntryNested` | workplan-control-panel/control_panel/state.py:24-30 | no entry is lost: each has its place under its stage |
| `Migration.MigrationConserves` | workplan-control-panel/control_panel/state.py:14-31 | each submission is under its stage as often as it was in the flat map, and each stage is ordered by time |
| `Migration.MigrationDecides` | workplan-control-panel/control_panel/state.py:14-31 | when records agree with their keys, no stage repeats a revision if and only if no two keys read alike |
| `Migration.MigrationEstablishesInvariant` | workplan-control-panel/control_panel/state.py:14-31 | migrated attempts keep every field of their records, and a stage of them has at most one per revision, so it satisfies the newest-per-head invariant |
| `Migration.ColonlessKeysCollide` | workplan-control-panel/control_panel/state.py:26-29 | a key without a colon and the same key ending in one migrate to two attempts at one stage and revision |
| `MigratedStart.SortIsStable` | workplan-control-panel/control_panel/state.py:25-25 | submissions updated at the same time stay in the file's order |
| `MigratedStart.MigratedNumbers` | workplan-control-panel/control_panel/state.py:24-30 | a migrated stage lists its branch numbers in increasing order if and only if the file's numbers rise with the update times |
| `MigratedStart.LateUpdateSwaps` | workplan-control-panel/control_panel/state.py:25-25 | a first submission updated after the second comes behind it, and the migrated numbers fall |
| `MigratedStart.MigratedFileStarts` | workplan-control-panel/control_panel/state.py:44-54 | a version 1 file whose records agree with their keys, do not collide and have rising numbers migrates to a state file the dispatch machine may start on |
| `BranchNames.DecimalValue` | workplan-control-panel/control_panel/integrations/repository.py:73-85 | reading a printed number gives it back, for every natural number |
| `BranchNames.ParseMeaning` | workplan-control-panel/control_panel/integrations/repository.py:76-85 | a name parses to a number exactly when it is the prefix followed by digits denoting that number |
| `BranchNames.PrintParse` | workplan-control-panel/control_panel/integrations/repository.py:72-85 | a printed name parses back to its number under its own stage and id, and under no other |
| `BranchNames.NoLeadingZero` | workplan-control-panel/control_panel/integrations/repository.py:72-73 | no number is printed with a leading zero |
| `BranchNames.DistinctNames` | workplan-control-panel/control_panel/integrations/repository.py:72-73 | two names are equal exactly when stage, id and number are |
| `BranchNames.TaskBranchesDiffer` | workplan-control-panel/control_panel/integrations/repository.py:64-65 | two tasks have two branches, and a task branch is neither a stage branch nor main |
| `BranchNames.OneOwner` | workplan-control-panel/control_panel/integrations/repository.py:76-85 | whatever its digits, a name carries a number under one stage and one id only |
| `BranchNames.Highest` | workplan-control-panel/control_panel/integrations/repository.py:100-101 | the greatest number among this stage's names, attained by one of them unless there is none |
| `BranchNames.NextStageNumber` | workplan-control-panel/control_panel/integrations/repository.py:88-101 | above every number listed or recorded, and by one above some of them unless it is 1 |
| `BranchNames.NextIsFresh` | workplan-control-panel/control_panel/integrations/repository.py:88-101 | the name built from that number, or any later one, is neither listed nor recorded |
| `BranchNames.ParsingIsManyToOne` | workplan-control-panel/control_panel/integrations/repository.py:84-85 | leading zeros give two names one number, so freshness cannot rest on names alone |
| `BranchNames.PrefixTakes` | workplan-control-panel/control_panel/integrations/repository.py:112-119 | deleting by prefix takes another task's numbered branch exactly when its id goes on with a dash after this one's |
| `BranchNames.SchemaIdsAreApart` | docs/workplan/tasks.schema.json:34-34 | among ids of the schema's shape the prefix of one takes another's numbered branch only if they are the same |
| `DispatchProofs.AppendKeeps` | workplan-control-panel/control_panel/task_scheduler.py:413-423 | putting a fresh attempt in memory, numbered past the listing and the records, keeps the invariant |
| `DispatchProofs.WriteKeeps` | workplan-control-panel/control_panel/task_scheduler.py:423-462 | each write of a dispatch (begin, renumber, set aside under the old or the next number, promote, forget) keeps it on disk |
| `DispatchProofs.PushKeeps` | workplan-control-panel/control_panel/task_scheduler.py:368-375 | a push, landed or not and reported or not, keeps it; what lands is named by the record and was never pushed before |
| `DispatchProofs.SubmitKeeps` | workplan-control-panel/control_panel/task_scheduler.py:448-456 | a session started with or without a readable reply is paid for by the attempt on disk |
| `DispatchProofs.ExpireStageKeeps` | workplan-control-panel/control_panel/task_scheduler.py:350-356 | expiring the live attempt pays for its session |
| `DispatchProofs.ExpireTaskKeeps` | workplan-control-panel/control_panel/task_scheduler.py:318-327 | expiring a whole reservation pays for every session of it that was live |
| `DispatchProofs.TaskExpiryCounts` | workplan-control-panel/control_panel/task_scheduler.py:318-322 | an expiry of the task counts one for each of its submissions that is live, at that submission's revision, and none elsewhere |
| `DispatchProofs.StepKeeps` | workplan-control-panel/control_panel/task_scheduler.py:359-463 | every step, a crash among them, keeps the invariant of the machine |
| `DispatchProofs.RunKeeps` | workplan-control-panel/control_panel/task_scheduler.py:359-463 | so does every run |
| `DispatchProofs.FreshStart` | workplan-control-panel/control_panel/state.py:44-54 | a panel may start on any state file whose attempt lists are in order |
| `DispatchProofs.EmptyIsOrderly` | workplan-control-panel/control_panel/state.py:45-46 | a missing state file is such a start |
| `DispatchProofs.AtMostOnce` | workplan-control-panel/control_panel/task_scheduler.py:401-463 | over every run, the sessions for a task, stage and revision are at most the expiries of an attempt there, and one more only while one is live |
| `DispatchProofs.NewestDecides` | workplan-control-panel/control_panel/state.py:34-41 | over every run, an attempt followed by a later one at its revision is expired, so the scan misses no unexpired attempt |
| `DispatchProofs.BranchesNeverReused` | workplan-control-panel/control_panel/task_scheduler.py:411-445 | over every run, numbers increase along each attempt list, every pushed branch is on record, and none is pushed twice |
| `DispatchProofs.NoSharedBranch` | workplan-control-panel/control_panel/task_scheduler.py:359-375 | at the end of every run, no two attempts on disk, of any tasks and stages, name the same numbered branch |
| `DispatchHistory.NumbersOnlyRise` | workplan-control-panel/control_panel/task_scheduler.py:372-375 | between any two points of a run a recorded number never falls, and whatever comes to stand later in its list is numbered above it |
| `DispatchHistory.NeverNamedAgain` | workplan-control-panel/control_panel/task_scheduler.py:359-375 | a branch on record at one point of a run is named by no other attempt, then or at any later point |
| `DispatchHistory.PushMayGoOn` | workplan-control-panel/control_panel/task_scheduler.py:359-375 | for every n others can make the loop take n turns: from any run with an attempt recorded there is one with it recorded n numbers later |
| `StageDispatcher.Panel.constructor` | workplan-control-panel/control_panel/task_scheduler.py:28-36 | a panel starts on its state file with nothing in flight and no session, expiry or push in its history |
| `StageDispatcher.Panel.CreateStageBranch` | workplan-control-panel/control_panel/integrations/repository.py:104-109 | found, created, or failed, each as one step of the machine; left alone it creates exactly the absent branch at the revision |
| `StageDispatcher.Panel.PushBranch` | workplan-control-panel/control_panel/integrations/repository.py:109-109 | a push that lands and is reported leaves the branch at the revision; any other is a failure, landed or not |
| `StageDispatcher.Panel.TakeNextNumber` | workplan-control-panel/control_panel/task_scheduler.py:372-375 | the colliding attempt is saved under the next number before the next push, or, if saving fails, is as it was on disk |
| `StageDispatcher.CollisionNarrows` | workplan-control-panel/control_panel/task_scheduler.py:362-367 | each collision leaves fewer of origin's branches numbered at or above the attempt's |
| `StageDispatcher.Panel.PushOnce` | workplan-control-panel/control_panel/task_scheduler.py:369-375 | one turn of the loop: created as recorded, moved on with the record saved, or failed |
| `StageDispatcher.Panel.PushStageBranch` | workplan-control-panel/control_panel/task_scheduler.py:359-375 | ends; the record names the branch it returns, which is at the revision; left alone it is the first number from the recorded one that origin did not have |
| `StageDispatcher.Panel.Begin` | workplan-control-panel/control_panel/task_scheduler.py:411-423 | exactly one attempt is added and saved before anything external, under a name neither origin nor the list has, numbered one past the highest of both |
| `StageDispatcher.Panel.SetAsidePush` | workplan-control-panel/control_panel/task_scheduler.py:431-437 | after a failed push, or a failed save of the next number, the attempt stays on record with the number it had in memory, expired |
| `StageDispatcher.Panel.Forget` | workplan-control-panel/control_panel/task_scheduler.py:449-453 | after the routine's refusal the attempt is gone and the rest is as before |
| `StageDispatcher.Panel.Promote` | workplan-control-panel/control_panel/task_scheduler.py:458-462 | an answered attempt is submitted with the address of its conversation |
| `StageDispatcher.Panel.Send` | workplan-control-panel/control_panel/task_scheduler.py:425-463 | one session at most, none on refusal; an unreadable reply leaves the attempt in the way |
| `StageDispatcher.Panel.SendFresh` | workplan-control-panel/control_panel/task_scheduler.py:408-463 | the reply and whether the push got through decide the result, the sessions and the one attempt that is added: set aside after a failed push, submitted when answered, waiting when nothing could be read, gone after a refusal of the routine; a faultless push gets through |
| `StageDispatcher.Panel.Stage` | workplan-control-panel/control_panel/task_scheduler.py:377-463 | 404 without the task, 409 unless it is uncompleted in main, claimed, unexpired and prepared here, both without any change; then the revision's refusals, reuse of a submitted attempt and refusal over an uncertain one, also without change; else a fresh dispatch |
| `StageDispatcher.ChoosableMeans` | workplan-control-panel/control_panel/task_scheduler.py:288-295 | a stage may be chosen exactly for a task that main lists as not completed and that is in progress, unexpired and prepared here |
| `StageDispatcher.RevisionMeans` | workplan-control-panel/control_panel/task_scheduler.py:387-400 | an audit is about the head of the only open pull request the request can mean and is refused with 409 if none or several could be; other stages are about the branch tip; 503 and 502 come before |
| `StageDispatcher.NothingLive` | workplan-control-panel/control_panel/task_scheduler.py:351-355 | with the live attempt expired nothing stands in the way at that revision |
| `StageDispatcher.Panel.ExpireStage` | workplan-control-panel/control_panel/task_scheduler.py:330-357 | 404 for an unknown stage or task, 409 without a submission or without a live one at the branch tip; an audit's newest is meant whatever its revision; else exactly the live attempt is expired and the stage can be sent again |
| `StageDispatcher.Panel.DeleteRefs` | workplan-control-panel/control_panel/integrations/repository.py:112-146 | exactly the named refs go, or some of them with a failure reported |
| `StageDispatcher.Panel.Expire` | workplan-control-panel/control_panel/task_scheduler.py:297-328 | 404 without the task, 409 without a reservation that is completed neither here nor in main, both without change; a failed deletion leaves the state file alone and on origin loses at most the task's own refs; else exactly the refs under its names are gone and only its record changes, to expired, unprepared and without owner, with every submission expired |
| `StageDispatcher.ReleasableMeans` | workplan-control-panel/control_panel/task_scheduler.py:306-312 | a reservation may be expired exactly when there is a record and neither it nor main has the task completed |
| `StageDispatcher.ExpiryTakesItsOwn` | workplan-control-panel/control_panel/integrations/repository.py:112-119 | every numbered Refine and Implement branch of the task is deleted, and only such refs are, if and only if every ref under the two prefixes carries a number |
| `StageDispatcher.ExpiryTakesUnnumbered` | workplan-control-panel/control_panel/integrations/repository.py:112-119 | a ref named after a stage branch with something behind its number is deleted although it is none |
| `StageDispatcher.ExpiredTaskIsClosed` | workplan-control-panel/control_panel/task_scheduler.py:318-326 | after that no attempt of the task is live, no stage of it may be chosen, and no other task's attempts changed |
| `StageDispatcher.DiesAnywhere` | workplan-control-panel/control_panel/task_scheduler.py:377-463 | wherever an operation dies, that point is on a run of the machine, its dispatches are paid for, and its state file is what remains |
| `SchedulingPass.Scheduler.PrepareEach` | workplan-control-panel/control_panel/task_scheduler.py:267-284 | the loop writes each claim before its branch work and each result after it, and stops at the first failure; branch work begins in the order of the list, with the task claimed on disk at that moment |
| `SchedulingPass.Scheduler.ClaimOnDisk` | workplan-control-panel/control_panel/task_scheduler.py:268-271 | when a task's branch work begins, the state file has it in progress, unexpired and owned by the panel |
| `SchedulingPass.WritesComeInPairs` | workplan-control-panel/control_panel/task_scheduler.py:267-284 | each task worked on has two writes that touch its record alone, its claim and then its result, each with the exact record; a failure's are the last |
| `SchedulingPass.PrepareMeans` | workplan-control-panel/control_panel/task_scheduler.py:267-284 | of a list of different tasks, the end state has for each the record of what became of it: prepared, failed with its mark kept, or untouched behind the failure or off the list |
| `SchedulingPass.Scheduler.Sync` | workplan-control-panel/control_panel/task_scheduler.py:235-286 | only a closed, merged pull request into main triggers a pass, a checkout conflict is 409 and changes nothing; every state a pass writes; the answer is the refusal, all chosen tasks in order, or exactly when the work on some chosen one fails, the first such and what was prepared before it |
| `SchedulingProofs.RequestedMeans` | workplan-control-panel/control_panel/task_scheduler.py:109-126 | a named task is admitted exactly when its dependencies are completed in main and it is in progress, or pending with a slot free; else 409 |
| `SchedulingProofs.UnknownIsRefused` | workplan-control-panel/control_panel/task_scheduler.py:115-117 | a named task the tracker lacks is refused with 404 |
| `SchedulingProofs.WorkListMeans` | workplan-control-panel/control_panel/task_scheduler.py:252-266 | a full pass retries the unfinished claims first and then takes available tasks from the top of the tracker, as many as slots are free, each list in the tracker's order |
| `SchedulingProofs.ClaimHead` | workplan-control-panel/control_panel/task_scheduler.py:252-266 | after the head of the work list is claimed the rest is the next pass's work list once it is prepared, and the same list until then; the capacity is kept |
| `SchedulingProofs.WorkListDistinct` | workplan-control-panel/control_panel/task_scheduler.py:258-266 | no task is worked on twice in a pass |
| `SchedulingProofs.SecondPassIsIdle` | workplan-control-panel/control_panel/task_scheduler.py:242-286 | after a full pass that returned, another against the same main prepares nothing and changes nothing |
| `SchedulingProofs.EveryWriteIsAdmissible` | workplan-control-panel/control_panel/task_scheduler.py:235-286 | in every state persisted by a pass or an admission, failed midway or not, the tasks in progress number at most the greater of the capacity and what was found, and no newly claimed task has an unmet dependency |
| `SchedulingProofs.InterruptionKeepsGoal` | workplan-control-panel/control_panel/task_scheduler.py:262-284 | a pass that fails or dies leaves the same goal for the next one, when no task to be worked on is marked prepared |
| `SchedulingProofs.MarkedTaskDiverges` | workplan-control-panel/control_panel/task_scheduler.py:262-284 | a marked task whose branch work fails stays claimed and marked in every state later full passes can reach, none of which works on it, and the outcome differs from an undisturbed pass |
| `SchedulingProofs.StrandedForGood` | workplan-control-panel/control_panel/task_scheduler.py:252-284 | a task claimed and marked but not completed in main stays so along every sequence of full passes, and is on none of their work lists |
| `SchedulingProofs.RecoveryConverges` | workplan-control-panel/control_panel/task_scheduler.py:252-286 | any number of failed or killed passes and then a successful one reach the state of one undisturbed pass, if and only if no task to be worked on is already marked prepared |
| `SchedulingProofs.ReopenedTaskIsStranded` | workplan-control-panel/control_panel/state.py:90-106 | a completed and retired task that main reopens still carries its mark; one failed preparation strands it for every later full pass |
| `PassOnDisk.PassTouchesNoAttempt` | workplan-control-panel/control_panel/task_scheduler.py:242-284 | no state a pass writes changes any attempt list |
| `PassOnDisk.PassExtendsRun` | workplan-control-panel/control_panel/task_scheduler.py:235-286 | a pass stopped after any number of writes goes on a run of the dispatch machine and starts no session |
| `SyncJobs.RunKeeps` | workplan-control-panel/control_panel/task_scheduler.py:39-82 | the table's invariant holds over every interleaving of requests and workers |
| `SyncJobs.JobTable` | workplan-control-panel/control_panel/task_scheduler.py:43-59 | at most one job runs, the flag implies one does, at most 32 are kept, and the running one is never evicted |
| `SyncJobs.NoFoldedRequestIsLost` | workplan-control-panel/control_panel/task_scheduler.py:61-82 | if a job succeeded, every request folded into it was followed by a full pass that started after it and returned |
| `SyncJobs.ServedExactlyWhen` | workplan-control-panel/control_panel/task_scheduler.py:61-82 | in every continuation of a run, a fold not yet served gets its later full pass if and only if the worker goes on with what it needs: the pass under way, then a full one, both returning |
| `SyncJobs.FoldedDuringPass` | workplan-control-panel/control_panel/task_scheduler.py:47-51 | a request folded while a pass is under way is served if and only if that pass and the next one both return |
| `SyncJobs.FailureDropsFolds` | workplan-control-panel/control_panel/task_scheduler.py:74-82 | when a pass raises, the flag is down, and the job's folds not served by then stay unserved in every continuation |
| `SyncJobs.DroppedFold` | workplan-control-panel/control_panel/task_scheduler.py:74-82 | a request folded into a first pass that raises gets no pass, in any continuation |
| `SyncJobs.JobMayGoOn` | workplan-control-panel/control_panel/task_scheduler.py:63-71 | for every n a job can go on for n more passes, as long as a request comes in during each |
| `SyncJobs.JobBoard.StartSync` | workplan-control-panel/control_panel/task_scheduler.py:39-59 | 404 for an unknown task; a running job takes in a full request and raises the flag, and is 409 for a named one; else the new job comes last, the newest 31 before it stay, and its first pass is full exactly without event and name |
| `SyncJobs.JobBoard.EndPass` | workplan-control-panel/control_panel/task_scheduler.py:66-73 | a pass that returned goes round again as a full one, with the flag lowered, exactly when it was up; else its entry is found and succeeds |
| `SyncJobs.JobBoard.FailPass` | workplan-control-panel/control_panel/task_scheduler.py:74-82 | a pass that raised drops the flag, and its entry is found and fails |
| `SyncJobs.JobBoard.RunSync` | workplan-control-panel/control_panel/task_scheduler.py:61-82 | the loop ends with the job's entry succeeded or failed, and on success each folded request has its later full pass |
| `Views.Rows` | workplan-control-panel/control_panel/ui.py:11-35 | each row has the status and owner the overlay gives, and is local exactly when the overlay applies |
| `Views.PageAgreesWithScheduler` | workplan-control-panel/control_panel/ui.py:38-44 | what the page calls completed and available is what the scheduler acts on |
| `Dependencies.LongestStep` | workplan-control-panel/control_panel/ui.py:64-66 | one more than the deepest dependency is the longest path, 0 without dependencies |
| `Dependencies.DependencyIsShallower` | workplan-control-panel/control_panel/ui.py:69-79 | a dependency is strictly shallower than what waits on it |
| `Forest.Layout.Rank` | workplan-control-panel/control_panel/ui.py:58-67 | ends on every graph; what is memoised stands, and a new rank is one above the highest of the dependencies, those on the way here counting 0; on an acyclic graph it is the longest path |
| `Forest.OrderDoesNotMatter` | workplan-control-panel/control_panel/ui.py:56-79 | two layouts of one acyclic graph that list its tasks in different orders give every task the same rank and the same parent |
| `Forest.Layout.DeepestOption` | workplan-control-panel/control_panel/ui.py:77-77 | on every graph the chosen parent is the first option of greatest memoised rank; without cycles no option is deeper and those before it are shallower |
| `Forest.Layout.Link` | workplan-control-panel/control_panel/ui.py:69-79 | every entry with a known dependency besides itself has the first of them of greatest rank as parent, and is filed under it in the tracker's order |
| `Forest.HangsUnderItsGate` | workplan-control-panel/control_panel/ui.py:70-92 | from the laid-out forest, on the list of dependencies itself: the parent is the first known dependency other than the task whose rank none of them exceeds, and missing if and only if there is no such dependency; the node's own list keeps the order of the rest |
| `Forest.Layout.BuildAll` | workplan-control-panel/control_panel/ui.py:85-94 | the children of one node do not place each other: one tree each, in order |
| `Forest.Layout.Build` | workplan-control-panel/control_panel/ui.py:83-94 | ends; places its entry and all that newly hangs under it, each once |
| `Forest.Layout.PlaceRest` | workplan-control-panel/control_panel/ui.py:97-97 | the trailing pass plants a tree for the first entry left, each time, until none is, and adds nothing when none was |
| `Forest.RootsReach` | workplan-control-panel/control_panel/ui.py:96-96 | in an acyclic graph the trees of the parentless entries reach every entry |
| `Forest.TreeShowsAll` | workplan-control-panel/control_panel/ui.py:88-92 | below a node, the parent displayed and the node's own list are together exactly what it depends on |
| `Forest.TopHidesParent` | workplan-control-panel/control_panel/ui.py:88-97 | a tree the trailing pass planted hides the dependency its top was filed under |
| `Forest.Layout.Trees` | workplan-control-panel/control_panel/ui.py:47-97 | for every graph each entry is placed exactly once; a tree shows every dependency if and only if its top has no parent; each further top is the first entry the trees before it left; in an acyclic graph there are none |
| `Commits.MergeBaseIsGreatest` | workplan-control-panel/control_panel/integrations/repository.py:250-250 | the merge base is a common ancestor, and every common ancestor is an ancestor of it |
| `Commits.ContainsMeansBase` | workplan-control-panel/control_panel/integrations/repository.py:250-251 | comparing the merge base with main decides whether the branch contains main |
| `Commits.GrowsBy` | workplan-control-panel/control_panel/integrations/repository.py:275-286 | what a replay adds is exactly the patches that take, in the branch's order |
| `Commits.LastPatch` | workplan-control-panel/control_panel/integrations/repository.py:275-286 | the last patch of a replay takes, becomes empty or clashes according to where those before it led |
| `Commits.AllTake` | workplan-control-panel/control_panel/integrations/repository.py:275-286 | a replay in which no patch becomes empty adds every one |
| `Commits.NothingTakes` | workplan-control-panel/control_panel/integrations/repository.py:275-286 | a replay leaves the tip where it starts if and only if every patch is empty there |
| `Rebase.Origin.ReplayAll` | workplan-control-panel/control_panel/integrations/repository.py:253-262 | the new tip of every head, or the first head that does not replay |
| `Rebase.ReplayFailsByClash` | workplan-control-panel/control_panel/integrations/repository.py:275-286 | a branch does not replay if and only if one of its own patches clashes where it comes to lie |
| `Rebase.Origin.RebaseTaskBranch` | workplan-control-panel/control_panel/integrations/repository.py:234-272 | nothing to do, conflict, failure or success, with origin's refs after each; if any head moved or went away since the fetch, the push changes no ref and the call does not succeed; if none did and the push lands, every head is at its new tip and every other ref where others left it, even when the reply is lost |
| `Rebase.RebaseIsCorrect` | workplan-control-panel/control_panel/integrations/repository.py:234-286 | on success main is an ancestor of the new task tip, that tip of every new pull request head, and each branch keeps those of its own patches that take, in order |
| `Rebase.AheadHasPatches` | workplan-control-panel/control_panel/integrations/repository.py:275-286 | a branch has no patches of its own exactly when the other contains it |
| `Rebase.MainAsHead` | workplan-control-panel/control_panel/integrations/repository.py:257-259 | where main goes when it heads a pull request: into the new task tip if and only if all its own patches became empty there |
| `Rebase.SecondRebaseIsIdle` | workplan-control-panel/control_panel/integrations/repository.py:234-272 | with main unmoved by others, a second call has nothing to do if and only if main heads none of the pull requests or its own patches all became empty; and exactly when main stays where it is |
| `Rebase.MainIsCarriedAlong` | workplan-control-panel/control_panel/integrations/repository.py:234-272 | one patch on main, one on the task branch, main as head: the second call is idle and main has moved to the task tip |
| `Rebase.MainIsRepeated` | workplan-control-panel/control_panel/integrations/repository.py:234-272 | a patch and its revert on main, main as head: both take again and the second call is not idle |
| `OpeningCommit.Clone.EnsureTaskBranch` | workplan-control-panel/control_panel/integrations/repository.py:125-135 | a branch that exists is left alone, one that does not is created from the base; success means the clone has what origin has and did not go back for it; a failure leaves the copy; no other branch changes |
| `OpeningCommit.Clone.PushOpeningCommit` | workplan-control-panel/control_panel/integrations/repository.py:149-184 | refused without a tracker entry, nothing when in progress, else one commit on the fetched tip; what others committed meanwhile is still on the branch, and one that no longer leads up to that commit is untouched and the call refused |
| `OpeningCommit.Clone.DeleteTaskBranch` | workplan-control-panel/control_panel/integrations/repository.py:138-146 | the branch goes from origin if it is there, then from the clone; a failure on origin leaves the clone's copy; no other branch changes |
| `OpeningCommit.Clone.Prepare` | workplan-control-panel/control_panel/task_scheduler.py:272-279 | the two in turn, the second only after the first |
| `OpeningCommit.PrepareKeeps` | workplan-control-panel/control_panel/integrations/repository.py:125-184 | any preparation keeps the branch clean: no opening commit past the base, or one if the base had another status |
| `OpeningCommit.OneOpeningCommit` | workplan-control-panel/control_panel/integrations/repository.py:125-184 | any sequence of failed, partial or landed-but-failed preparations and expiries leaves at most one opening commit, and a successful preparation leaves exactly one if the base had another status and none if it was in progress |
| `OpeningCommit.PreparationLosesNothing` | workplan-control-panel/control_panel/integrations/repository.py:125-184 | unless somebody deletes the branch, it goes on from where it was, whatever fails in a preparation and whatever others commit during it |
| `OpeningCommit.NoCommitIsLost` | workplan-control-panel/control_panel/integrations/repository.py:125-184 | so it does over any sequence of preparations, commits by others and forced fetches |
| `OpeningCommit.CalmPreparation` | workplan-control-panel/control_panel/integrations/repository.py:125-184 | undisturbed, a preparation succeeds exactly when the clone's copy can be brought forward and the tracker has the task, and the next one adds nothing |
| `OpeningCommit.CanCatchUp` | workplan-control-panel/control_panel/integrations/repository.py:134-135 | commits on origin can bring the branch up to the clone's copy if and only if one of the two descends from the other |
| `OpeningCommit.DivergedIsStuck` | workplan-control-panel/control_panel/integrations/repository.py:134-135 | once neither does, every preparation is refused and changes nothing, after any preparations with any faults and any commits by others |
| `OpeningCommit.RecreatedBranchDiverges` | workplan-control-panel/control_panel/integrations/repository.py:125-135 | a prepared branch that others delete and a preparation recreates from a main that moved on is such a case |
| `OpeningCommit.RefetchCatchesUp` | workplan-control-panel/control_panel/integrations/repository.py:245-247 | after a forced fetch an undisturbed preparation of a branch that has the task succeeds |
| `OpeningCommit.ExpiryStartsAfresh` | workplan-control-panel/control_panel/task_scheduler.py:297-302 | after an expiry the next undisturbed preparation from a base with the task succeeds and leaves the base and its opening commit, or the base alone where it was in progress |
| `RebasedPreparation.RebasedStatus` | workplan-control-panel/control_panel/integrations/repository.py:253-262 | a rebased branch says of a task what those of its own patches say that took, and where they are silent what main says; with patches that become empty only where they have nothing to say, what all its own patches say |
| `RebasedPreparation.RebaseKeepsPreparation` | workplan-control-panel/control_panel/integrations/repository.py:149-272 | a branch with its one opening commit keeps it in a rebase or has none; preparing it again adds none if it was kept or main says in progress, else the one that was dropped, and is refused where main lost the task |

## Left out

- PushStageBranch: what others do while its loop runs is a finite script, after which they leave origin alone; against others that create every next name for ever a method that ends cannot speak, and `DispatchHistory.PushMayGoOn` shows that the loop then takes any number of turns.
- RunSync: how its passes go is a finite script, after which they return and no request comes in; `SyncJobs.JobMayGoOn` shows that requests can keep a job going for any number of passes, and the theorems about runs have no such bound.
- Timestamps, the recorded pull requests, `base`, `branch` and `task_url` of a record, and prompt text: derived or display fields that no decision modelled here reads.
- HTTP routing, sessions, authentication, page rendering and the page's buttons: plumbing and templates.
- Git, `gh`, Codex, Claude and GitHub App calls themselves: each is an outcome passed to the method that makes the call.
- Locking and atomic file replacement: the lock is taken to exclude other operations, and a write of the state file is one step.
- Unique task ids are assumed where a proof says `UniqueIds`; the tracker file is not checked for them.
- A refusal by the audit routine is taken to mean that nothing started, as its error class says.
- Merge commits and the working of patches: histories are linear, and whether a patch takes, becomes empty or clashes is a parameter of the commit it meets.
- Glob characters in task ids, which `git ls-remote` would interpret, and Python's limit on the digits of a parsed integer.
- A worker thread that cannot be started after its job was entered in the table.
- The opening of pull requests and the lookups that keep their state: single-field bookkeeping.
- The Go sandbox, the status command, the fake harness and the React page: small handlers without shared state.
