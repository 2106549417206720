# A verified model of the job manager

The job manager keeps notebooks, fine-tuning jobs and batch jobs as rows of a database. Users change these rows
through a central server; a background rescheduler moves notebooks that do not start; and in every worker cluster
a dispatcher polls for queued work, changes Kubernetes objects and reports back. Every handler reads a row, checks
it, and later writes it with `UPDATE ... WHERE id = ? AND version = ?`, so the halves of different handlers
interleave freely.

This project models that logic in Dafny and proves what holds in every interleaving.

| file | what it models |
|---|---|
| `Common.dfy` | small shared vocabulary |
| `Occ.dfy`, `Tables.dfy` | versioned tables in general: every interleaving is serializable; the three tables are instances |
| `NotebookStore.dfy`, `NotebookServer.dfy` | the notebook table and its handlers, as classes proved against one decision function |
| `Rescheduler.dfy` | both loops of the rescheduler, with interference by others, scheduling against the cache |
| `NotebookLifecycle.dfy` | what holds of single notebook rows: state/action pairs, requests, deletion, timestamps, placement, image pulls |
| `NotebookProtocol.dfy`, `NotebookHandoff.dfy`, `NotebookHazards.dfy` | the whole notebook protocol with one dispatcher per cluster; handoff safety; exactly which hazards break it |
| `Effects.dfy` | what each handler of the three tables does to a row, field by field |
| `NotebookWork.dfy` | what the steps of the notebook protocol do, and that no report lands without the work behind it |
| `NotebookDispatcher.dfy` | one polling pass and the state decision of the notebook reconciler |
| `Jobs.dfy`, `JobProtocol.dfy` | fine-tuning rows and handlers; creation, training and publication of a model |
| `Batches.dfy` | batch rows and handlers |
| `Scheduler.dfy`, `Cache.dfy`, `CacheRuns.dfy` | the GPU scheduler, its reservations, and the cluster cache over the cluster table |
| `Summaries.dfy` | two-level aggregation of job statistics |
| `Paging.dfy` | keyset pagination and clients that follow the cursor |
| `Decoder.dfy` | the streaming newline-delimited JSON decoder of the TypeScript client |

`dafny verify dfyconfig.toml` checks the whole project.

## How it is built

Each table is a class whose methods are the SQL statements, and each handler a method of a server class. Their
postconditions equate answer and table with a decision function (`Decide`, `Answer`, `Served`). The same decision
function drives the interleaved model: `Occ.Table` splits a handler into its read and its write, and a property that
every handler keeps when it is alone is lifted to every interleaving (`Occ.Lift`). What the decision functions decide is
stated apart from them, as exact tables over states and fields (`Effects.dfy`). The notebook and job protocols add
dispatchers, reconcilers and Kubernetes objects as a state machine whose steps can be ordered, repeated and failed at
will; a step that is not enabled changes nothing.

Besides one sequential dispatcher per cluster, handoff safety of a notebook has two hypotheses, both about that notebook
and its requeueing only: a Delete for requeueing that is reported as successful took effect, and the server's handler of
a REQUEUED report does not outlive the dispatcher's call. Other swallowed Deletes and surviving handlers may happen.
`SafeExactlyWhen` shows that neither hypothesis can be dropped. That a deleted notebook is gone needs the same two about
its deletion as well, and `GoneExactlyWhen` shows that none of the four can be dropped.

## What the model shows about the code

- deleteNotebook returns nil after a failed Delete, because it tests `err == nil`. Then a notebook can be deployed
  in two clusters at once (`SwallowedDelete`), or be deleted and still deployed (`NotGone`).
- UpdateNotebookState compares the tenant but not the cluster of the reporter. A REQUEUED handler that outlives its
  dispatcher's call lets a stale item of the old cluster release the notebook from the new one (`SurvivingHandler`).
- JOB_CREATED does not look at the queued action, so it overwrites a pending cancel (`CancelLostExactly`,
  `LateCreatedWins`). FAILED and CANCELED have no guard: a finished job stays finished, but a late FAILED turns
  success into failure (`FinishedOverwritten`).
- The batch guards combine two tests with `&&`. In reachable states they accept every queued row, whatever its action,
  so a late RUNNING overwrites a pending cancel or delete (`GuardsAcceptExactlyQueued`, `LateRunningWins`,
  `CancelLostExactly`, `DeleteLostExactly`). FAILED has no guard, so it brings a deleted batch job back
  (`DeletedRevivedExactly`).
- The rescheduler spares notebooks whose reason names an image pull, but the reason of an initializing notebook never
  changes. The dispatcher's report carries none, so when it lands first a pulling notebook is not spared
  (`SparedExactly`, `LatePullingIsRequeued`).
- A negative GPU count is scheduled, and its reservation adds to the free count, so that more can be placed than was
  free (`NegativeRequestFrees`, `NegativeRequestOverbooks`).
- On a cache miss the caller gets the cached map itself and sees later reservations in it (`MissViewMoves`); on a hit
  it gets a copy.
- "Created within the time range" is decided by the start of a row's bucket. It means the rows created in the range
  exactly when both ends of the range are multiples of the interval, a start before every row aside
  (`CreatedExactlyWhenAligned`).
- A batch job that is deleted while it serves as page cursor makes the next page an InvalidArgument, so the walk misses
  rows (`DeletedCursorStops`); jobs and notebooks do not have this problem.

## Model

| member | source | states |
|---|---|---|
| Occ.Serializable | server/internal/store/notebook.go:312-392 | after any interleaving of read-then-update handlers the rows are those of the serial execution of the successful ones in commit order, and each success overwrote exactly the row it had read |
| Occ.VersionCountsSuccesses | server/internal/store/notebook.go:312-330 | between any two points the version of a row rises by exactly the number of successful updates to it |
| Occ.OneWinnerPerVersion | server/internal/store/notebook.go:312-330 | of two successful updates of a row the later one read a higher version, so at most one update per version wins |
| Occ.StepIsSerial | server/internal/store/notebook.go:312-392 | seen from one row, any interleaved step is nothing or one handler executed alone on the current row |
| Occ.HandlerExactly | server/internal/store/notebook.go:312-330 | whatever else is under way, a handler that passes its guards holds the row as it is, and its update lands if and only if the row still has the version it read |
| Occ.Lift | server/internal/store/notebook.go:312-392 | what holds of inserted rows and survives each handler alone holds of every row in every interleaving |
| Occ.AlwaysSerialized | server/internal/store/notebook.go:312-392 | all four guarantees together, for every versioned table |
| Tables.NotebooksSerialize | server/internal/store/notebook.go:312-392 | the notebook table is serializable in this sense, from any contents |
| Tables.JobsSerialize | server/internal/store/job.go:217-274 | the same for the fine-tuning table |
| Tables.BatchJobsSerialize | server/internal/store/batchjob.go:191-247 | the same for the batch table |
| NotebookStore.Table.SetNotebookQueuedAction | server/internal/store/notebook.go:312-330 | writes state queued, the action, an empty reason and the next version when the version matches; otherwise reports a concurrent update and changes nothing |
| NotebookStore.Table.SetState | server/internal/store/notebook.go:333-349 | writes state, empty reason and version; the queued action stays as it is |
| NotebookStore.Table.SetNonQueuedStateAndMessage | server/internal/store/notebook.go:352-370 | writes state, message and reason and clears the queued action |
| NotebookStore.Table.UpdateNotebookForRescheduling | server/internal/store/notebook.go:373-392 | writes cluster, state, action, message and reason of the given row under its version |
| NotebookServer.Server.StopNotebook | server/internal/server/notebooks.go:293-341 | answer and table are those of the decision for Stop on the row read, with the missing-ID and not-found cases |
| NotebookServer.Server.StartNotebook | server/internal/server/notebooks.go:344-392 | the same for Start |
| NotebookServer.Server.DeleteNotebook | server/internal/server/notebooks.go:395-419 | the same for Delete, which queues deletion again on a deleted row |
| NotebookServer.Server.UpdateNotebookState | server/internal/server/notebooks.go:446-561 | the same for every reported state, with its guards, timestamps and error codes |
| NotebookEffects.StrangersChangeNothing | server/internal/server/notebooks.go:452-465 | without an ID the argument is invalid, a row of another project or tenant is not found, and neither changes a row |
| NotebookEffects.CreatedExactly | server/internal/server/notebooks.go:90-142 | what a new notebook row is, field by field |
| NotebookEffects.StopExactly | server/internal/server/notebooks.go:316-334 | Stop queues stopping, with an empty reason, the next version and every other field as before, exactly on notebooks that are initializing, running or requeued, or queued for something other than stopping or deleting; on all others it changes nothing and gives the stated answer |
| NotebookEffects.StartExactly | server/internal/server/notebooks.go:367-385 | the same for Start, which queues starting exactly on stopped notebooks and in place of a queued stop or requeue |
| NotebookEffects.DeleteExactly | server/internal/server/notebooks.go:413-417 | the same for Delete, which queues deleting in every state unless that is queued |
| NotebookEffects.NoReport | server/internal/server/notebooks.go:467-474 | a report of the state the row has, or of no state, changes nothing |
| NotebookEffects.CompletionExactly | server/internal/server/notebooks.go:475-553 | INITIALIZING, STOPPED, DELETED and REQUEUED are taken exactly from a row queued for that action; the row after it, with both times, the GPU count, the place and the reason, is stated field by field |
| NotebookEffects.OtherReportsExactly | server/internal/server/notebooks.go:493-504 | RUNNING is taken exactly from an initializing row and ignored on one queued for requeueing; QUEUED and FAILED are never taken |
| NotebookEffects.RequeueExactly | server/internal/server/rescheduler.go:41-55 | the rescheduler takes back exactly rows that are initializing for too long and whose reason does not contain "Pulling"; place, message and reason stay |
| NotebookEffects.RescheduleExactly | server/internal/server/rescheduler.go:76-90 | it moves exactly requeued rows, to another cluster under the namespace assigned there; GPU count and times stay |
| NotebookEffects.QueuedOnlyOnRequest | server/internal/server/notebooks.go:293-419 | in every interleaving a notebook becomes queued for an action only when a request for that action lands on it |
| Rescheduler.Rescheduler.RequeueTimedOut | server/internal/server/rescheduler.go:36-55 | for every listing order and whatever others do to the table before each update: the listed rows are decided on as they were listed and written under the version they were listed with, and the first conflict ends the loop |
| Rescheduler.TimeoutsExactly | server/internal/server/rescheduler.go:41-55 | if nobody interferes, exactly the rows that have been initializing too long and whose reason does not name the pull become queued for requeueing; all others stay |
| Rescheduler.WrittenExactlyIfUnchanged | server/internal/server/rescheduler.go:41-92 | a listed row is written if and only if nobody has changed it since; otherwise it is left alone and the pass ends |
| Rescheduler.Rescheduler.PlaceRequeued | server/internal/server/rescheduler.go:57-92 | for every listing order and whatever others do to the table: the requeued notebooks are scheduled one after another, each answer a best candidate, or none, for the reservations the earlier ones of the pass made; the placed ones that got their secret are written in that order, up to the first conflict; the cache shows exactly the reservations made |
| Rescheduler.Rescheduler.RescheduleNotebooks | server/internal/server/rescheduler.go:34-94 | both loops, each with the list it gets from the table as it finds it; a conflict in the first loop ends the pass before anything is scheduled |
| Rescheduler.Rescheduler.PlaceNext | server/internal/server/rescheduler.go:61-92 | one turn of the second loop keeps this, also when the scheduler finds nothing, the secret cannot be created (the reservation stays) or the update conflicts |
| Rescheduler.PassWrites | server/internal/server/rescheduler.go:70-90 | whatever others do, a placed notebook is moved so if and only if nobody has changed it since it was listed; otherwise the pass ends and the row is left alone |
| Rescheduler.PassPlaces | server/internal/server/rescheduler.go:70-90 | if nobody interferes, a requeued notebook that is placed and gets its secret ends queued for starting at the chosen cluster, a different one assigned to its project, with the namespace assigned there; otherwise its row stays |
| Rescheduler.PassChooses | server/internal/server/rescheduler.go:66-75 | a notebook is placed on a cluster of its own tenant that is a candidate for its own GPU count as the placements before it left the clusters, with no fewer free GPUs than any other candidate; it is not placed exactly when there is no candidate |
| Rescheduler.PassMovesExactly | server/internal/server/rescheduler.go:61-92 | if nobody interferes, its row changes if and only if there is such a candidate and it got its secret, and then it moves to a candidate |
| Rescheduler.PassReserves | server/internal/server/notebooks.go:176-183 | from its placement to the end of the pass the cache holds a reservation of exactly its GPU count for it there, under its namespace and ID |
| Rescheduler.PassKeeps | server/internal/server/rescheduler.go:57-92 | if nobody interferes, rows that are not requeued stay as they are |
| Rescheduler.PassNeverOverbooks | server/internal/server/rescheduler.go:61-92 | whatever others do to the notebook table, a pass leaves the free count of every cluster with GPU nodes non-negative |
| NotebookLifecycle.EveryRowOk | server/internal/server/notebooks.go:467-558 | in every interleaving every row has a legal state/action pair, column, message and project agree on cluster and namespace, and started and stopped times are never both set, with initializing/running having only the first and stopped/deleted only the second |
| NotebookLifecycle.PairsExactly | server/internal/store/notebook.go:312-392 | a state/action pair occurs if and only if it is queued with an action, requeued with requeueing, or another state but failed without an action |
| NotebookLifecycle.NoLostRequest | server/internal/server/notebooks.go:316-334 | at every step of every interleaving a queued notebook leaves its action only by the report that completes that action or by a newer user request |
| NotebookLifecycle.DeleteIsForever | server/internal/server/notebooks.go:413-417 | once queued for deletion or deleted, a notebook stays so in every continuation |
| NotebookLifecycle.TimestampChanges | server/internal/server/notebooks.go:475-553 | StartedAt is set once at INITIALIZING and cleared at STOPPED or DELETED, StoppedAt the other way round, and nothing else changes them, so they survive requeueing and rescheduling |
| NotebookLifecycle.FrozenWhileInitializing | server/internal/server/notebooks.go:467-470 | in every run, as long as a notebook is initializing nothing in its row changes, since a report of the state it has is ignored with its reason |
| NotebookLifecycle.SparedExactly | server/internal/server/rescheduler.go:41-54 | in every run the rescheduler takes an initializing notebook back if and only if the INITIALIZING report that landed on the queued row did not name the pull and is too long ago, whatever is reported later |
| NotebookLifecycle.LatePullingIsRequeued | server/internal/server/rescheduler.go:42-46 | there is a run in which the dispatcher's report without a reason lands first and the notebook is requeued although its pull is reported |
| NotebookHandoff.StepKeepsInv | dispatcher/internal/dispatcher/dispatcher.go:202-251 | for every notebook, each step of users, reconcilers, rescheduler and dispatchers that is not a hazard on that notebook keeps the handoff invariant; swallowed Deletes and surviving handlers of other notebooks or on the way to another state are not hazards |
| NotebookHandoff.HandoffSafety | server/internal/server/rescheduler.go:41-92 | in every run a notebook of which no Delete for requeueing was swallowed and no REQUEUED report outlived its call has at most one Deployment, in the cluster its row names and in the namespace its project assigns there, whatever happened to other notebooks |
| NotebookHandoff.LeavesOnlyWhenRemoved | server/internal/server/rescheduler.go:61-92 | a row changes cluster only from requeued, when it has no Deployment anywhere and no dispatcher has it on its list, and it goes to a different cluster assigned to its project |
| NotebookHandoff.OnlyItsDispatcherReleases | server/internal/server/notebooks.go:539-553 | a row becomes requeued (or deleted) only when the dispatcher of its own cluster reports so, after the Deployment is gone |
| NotebookHandoff.NeverUnspecified | dispatcher/internal/dispatcher/dispatcher.go:216-237 | in every run, whatever fails, every row is in order and every item a dispatcher holds has an action, so the unspecified and unknown branches never fire |
| NotebookHandoff.LeftIsFree | server/internal/server/notebooks.go:539-553 | a notebook that is requeued (or deleted) has no Deployment and is on no dispatcher's list, as long as the invariant holds |
| NotebookHandoff.GoneIsFree | server/internal/server/notebooks.go:521-553 | in every run without a hazard on its requeueing or deletion a requeued or deleted notebook has no Deployment anywhere and is on no dispatcher's list |
| NotebookHazards.SwallowedDelete | dispatcher/internal/dispatcher/notebook.go:405-429 | if Deletes for requeueing may fail silently, some run deploys a notebook in two clusters |
| NotebookHazards.SurvivingHandler | server/internal/server/notebooks.go:456-465 | if REQUEUED handlers may outlive their call, some run deploys a notebook in two clusters |
| NotebookHazards.SafeExactlyWhen | dispatcher/internal/dispatcher/notebook.go:405-429 | for every choice of actions whose Deletes may be swallowed and whose reports may outlive their call: all runs are safe if and only if requeueing is in neither |
| NotebookHazards.HandoffHappens | server/internal/server/rescheduler.go:61-92 | under every policy there is a run that moves a notebook from one cluster to the other and leaves one Deployment |
| NotebookHazards.StopHappens | dispatcher/internal/dispatcher/notebook.go:389-403 | under every policy there is a run that stops a notebook and keeps its Deployment |
| NotebookHazards.NotGone | dispatcher/internal/dispatcher/notebook.go:405-429 | each of the four hazards alone leads to a deleted notebook that still has a Deployment or is still on a list |
| NotebookHazards.GoneExactlyWhen | dispatcher/internal/dispatcher/notebook.go:405-429 | for every such choice: in all runs deleted notebooks are gone if and only if neither requeueing nor deleting is in either |
| NotebookWork.WorkExactly | dispatcher/internal/dispatcher/notebook.go:389-429 | which Deployment a call is about, whether it is there afterwards and whether the dispatcher goes on to report, for every action and outcome: a start leaves it in place, a stop needs it and changes none, a removal takes it away unless it is swallowed, and an error is never a success |
| NotebookWork.AllowedExactly | server/internal/server/notebooks.go:293-419 | who may ask for what: users stop, start and delete in their project, reconcilers report initializing and running in their tenant, the rescheduler requeues and reschedules |
| NotebookWork.TableStepsExactly | server/internal/server/notebooks.go:293-561 | users, reconcilers and the rescheduler may read and write at any time, whatever else is under way |
| NotebookWork.PassStepsExactly | dispatcher/internal/dispatcher/dispatcher.go:202-251 | an idle dispatcher may list in any order, one about to work does so and goes on or ends its pass, and a busy one may give up at any time |
| NotebookWork.ReportStepsExactly | dispatcher/internal/dispatcher/dispatcher.go:243-248 | a report reads the row, goes on to write exactly if the guards let it, and ends the pass if it is refused, conflicts or its reply is lost |
| NotebookWork.OnlyAfterItsWork | dispatcher/internal/dispatcher/dispatcher.go:208-249 | in every run a row becomes stopped, deleted or requeued only after the work behind that report has succeeded in the run, and where the row is if no hazard hit the notebook |
| NotebookWork.StoppedOnlyAfterStop | dispatcher/internal/dispatcher/notebook.go:394-402 | in every run a row becomes stopped only after a stop call on a Deployment of that notebook that was there ended fine; on its own Deployment if no hazard hit the notebook |
| NotebookWork.GoneOnlyAfterRemoval | dispatcher/internal/dispatcher/notebook.go:405-429 | in every run a row becomes deleted or requeued only after the removal for that action ended fine or was swallowed |
| NotebookDispatcher.Reconcile | dispatcher/internal/dispatcher/notebook.go:98-158 | INITIALIZING with the pulling reason, RUNNING, an error, or nothing results exactly under the stated conditions on the Deployment, its pods and the Kubernetes calls |
| NotebookDispatcher.PullingExactly | dispatcher/internal/dispatcher/notebook.go:129-140 | an image is being pulled exactly if the first status of the notebook's container in the first pod waits with a reason that contains "Pulling" |
| NotebookDispatcher.ClusterDispatcher.ProcessNotebook | dispatcher/internal/dispatcher/dispatcher.go:208-249 | one item, however stale: the Deployments after the Kubernetes call, and after a successful call the table and answer of the server for the report |
| NotebookDispatcher.ClusterDispatcher.ProcessNotebooks | dispatcher/internal/dispatcher/dispatcher.go:202-251 | a pass over the listed notebooks in any order, with arbitrary changes to the table by others before each report, ends where working through the items one by one does, stopping at the first error |
| NotebookDispatcher.ItemSettlesExactly | dispatcher/internal/dispatcher/dispatcher.go:208-249 | whatever others do, the report on an item changes the table if and only if its call succeeded (fine, and for a stop the Deployment is there) and the row is still queued for that action, and then it settles that row only; a call that fails ends the pass |
| NotebookDispatcher.ErrorEndsPass | dispatcher/internal/dispatcher/dispatcher.go:238-240 | an error of the Kubernetes API ends the pass and leaves the table as others left it |
| NotebookDispatcher.ItemDeploysExactly | dispatcher/internal/dispatcher/notebook.go:389-429 | which Deployments are there after an item, for every action and outcome |
| NotebookDispatcher.ListingExactly | server/internal/store/notebook.go:293-300 | what is listed: exactly the notebooks of the tenant queued at the cluster |
| NotebookDispatcher.PassStaysHome | dispatcher/internal/dispatcher/dispatcher.go:202-251 | whatever others do, Deployments of other clusters and of notebooks that are not listed stay |
| NotebookDispatcher.PassReportsOnlyListed | dispatcher/internal/dispatcher/dispatcher.go:202-251 | rows of notebooks that are not listed stay, unless somebody else changes them |
| NotebookDispatcher.SettlesInOrder | dispatcher/internal/dispatcher/dispatcher.go:202-251 | if nobody interferes, the pass settles the rows in list order up to the first whose Kubernetes call fails, and stops for no other reason |
| NotebookDispatcher.PassSettles | dispatcher/internal/dispatcher/dispatcher.go:202-251 | if nobody interferes, a completed pass settles exactly the notebooks queued at its cluster and changes no other row |
| NotebookDispatcher.SettledIsDone | dispatcher/internal/dispatcher/dispatcher.go:216-247 | a settled notebook has left the queue for the state its action asked for and stays at its cluster |
| Jobs.Table.UpdateJobState | server/internal/store/job.go:217-235 | writes state, action and version under the version read |
| Jobs.Table.UpdateJobStateAndMessage | server/internal/store/job.go:238-255 | writes state and message and clears the action under the version read |
| Jobs.Table.UpdateOutputModelID | server/internal/store/job.go:258-274 | writes only the output model ID under the version read |
| Jobs.Server.CancelJob | server/internal/server/fine_tuning.go:330-384 | answer and table are those of the decision for Cancel |
| Jobs.Server.UpdateJobPhase | server/internal/server/fine_tuning.go:439-526 | answer and table are those of the decision for each phase, guards and missing guards included |
| JobEffects.StrangersChangeNothing | server/internal/server/fine_tuning.go:446-459 | without an ID the argument is invalid, a row of another project or tenant is not found, and neither changes a row |
| JobEffects.CreatedExactly | server/internal/server/fine_tuning.go:211-220 | what a new job row is, field by field |
| JobEffects.CancelExactly | server/internal/server/fine_tuning.go:355-375 | Cancel turns exactly running jobs, and queued ones not yet canceling, into queued for canceling; all else stays |
| JobEffects.GuardedPhasesExactly | server/internal/server/fine_tuning.go:463-521 | PREPROCESSED, JOB_CREATED, FINETUNED and RECREATE: from which rows they are taken, the row after them field by field, and the answer otherwise; RECREATE turns exactly running jobs into queued for creating and keeps message and model ID |
| JobEffects.FreePhasesExactly | server/internal/server/fine_tuning.go:496-514 | CANCELED and FAILED are taken from every row, and FAILED stores its message; other phases are refused |
| JobEffects.QueuedOnlyOnRequest | server/internal/server/fine_tuning.go:355-375 | in every interleaving a job becomes queued for canceling only when a user's cancel lands, and queued for creating again only when RECREATE does |
| JobLifecycle.EveryRowOk | server/internal/server/fine_tuning.go:460-521 | in every interleaving pairs are legal, FinishedAt is set exactly on succeeded, failed and canceled jobs, and a succeeded job names its model |
| JobLifecycle.PairsExactly | server/internal/store/job.go:217-255 | a pair occurs if and only if it is queued with an action or another state without |
| JobLifecycle.FinishedIsForever | server/internal/server/fine_tuning.go:355-375 | succeeded, failed and canceled together are absorbing, whatever handlers are under way |
| JobLifecycle.FinishedOverwritten | server/internal/server/fine_tuning.go:496-514 | a request writes to a finished row if and only if it reports FAILED or CANCELED, and a late FAILED turns success into failure |
| JobLifecycle.CancelLostExactly | server/internal/server/fine_tuning.go:473-479 | at every step of every interleaving a pending cancel is lost if and only if a JOB_CREATED report lands on it |
| JobLifecycle.LateCreatedWins | server/internal/server/fine_tuning.go:473-479 | there is a run in which a late JOB_CREATED overwrites a pending cancel |
| JobLifecycle.ListedIsKnown | dispatcher/internal/dispatcher/dispatcher.go:141-158 | in every interleaving a listed queued job is to be created or canceled, so the unknown-action branch never fires |
| JobProtocol.StepKeepsInv | dispatcher/internal/dispatcher/dispatcher.go:165-200 | every step of users, dispatchers and reconcilers keeps the naming invariant |
| JobProtocol.AlwaysNamed | dispatcher/internal/dispatcher/lifecycle_manager.go:116-198 | in every run a job that has a Kubernetes job or is running has an output model ID, and no reconciler hands an empty one to post-processing or FINETUNED |
| JobProtocol.TableStepsExactly | server/internal/server/fine_tuning.go:330-526 | users and workers may read and write at any time, whatever else is under way |
| JobProtocol.WorkerStepsExactly | dispatcher/internal/dispatcher/dispatcher.go:165-200 | any number of dispatchers may work on a job, each preprocessing it, making the Kubernetes job once that has landed and reporting it created, and giving up at any time |
| JobProtocol.ReconcilerStepsExactly | dispatcher/internal/dispatcher/lifecycle_manager.go:116-198 | any number of reconciliations may have seen a Kubernetes job, each reporting the model ID it fetched |
| JobProtocol.Publishes | dispatcher/internal/dispatcher/lifecycle_manager.go:182-199 | there is a run that publishes a model under its name |
| JobProtocol.Reconcile | dispatcher/internal/dispatcher/lifecycle_manager.go:76-201 | RECREATE, deletion, requeue, FAILED, FINETUNED and errors happen exactly under the stated conditions on the Kubernetes job, the row, the termination log and publishing; FAILED carries the log and FINETUNED the stored ID |
| JobProtocol.EndedExactly | dispatcher/internal/dispatcher/lifecycle_manager.go:121-163 | which found jobs are acted on: those running or queued for creation whose Kubernetes job has a success or a failure |
| JobProtocol.ExpiredExactly | dispatcher/internal/dispatcher/lifecycle_manager.go:134-149 | expiry is decided by the last suspension alone |
| Batches.Table.SetBatchJobQueuedAction | server/internal/store/batchjob.go:191-208 | writes state queued, the action and the version under the version read |
| Batches.Table.SetBatchJobState | server/internal/store/batchjob.go:211-227 | writes the state and clears the action under the version read |
| Batches.Table.SetNonQueuedBatchJobStateAndMessage | server/internal/store/batchjob.go:230-247 | writes state and message and clears the action under the version read |
| Batches.Server.DeleteBatchJob | server/internal/server/batch_server.go:218-254 | answer and table are those of the decision for Delete; deleted rows are not found |
| Batches.Server.CancelBatchJob | server/internal/server/batch_server.go:257-304 | the same for Cancel |
| Batches.Server.UpdateBatchJobState | server/internal/server/batch_server.go:360-449 | the same for every reported state, with the guards as written |
| BatchEffects.StrangersChangeNothing | server/internal/server/batch_server.go:366-386 | without an ID the argument is invalid, a row of another project or tenant is not found, and neither changes a row |
| BatchEffects.CreatedExactly | server/internal/server/batch_server.go:119-127 | what a new batch row is, field by field |
| BatchEffects.UserRequestsExactly | server/internal/server/batch_server.go:218-304 | Cancel turns exactly running jobs, and queued ones not yet canceling, into queued for canceling; Delete turns every job not yet deleting into queued for deleting; deleted jobs are not found |
| BatchEffects.ReportsExactly | server/internal/server/batch_server.go:383-447 | for each reported state: from which rows it is taken, the row after it field by field, and the answer otherwise |
| BatchEffects.QueuedOnlyOnRequest | server/internal/server/batch_server.go:218-304 | in every interleaving a job becomes queued for canceling or deleting only when that request of a user lands |
| BatchLifecycle.EveryRowOk | server/internal/server/batch_server.go:387-447 | in every interleaving pairs are legal and succeeded, failed, canceled and deleted rows have FinishedAt |
| BatchLifecycle.PairsExactly | server/internal/store/batchjob.go:191-247 | a pair occurs if and only if it is queued with an action or another state without |
| BatchLifecycle.GuardsAcceptExactlyQueued | server/internal/server/batch_server.go:391-420 | in every reachable state the guards of RUNNING, CANCELED and DELETED accept a row if and only if it is queued, whatever its action |
| BatchLifecycle.LateRunningWins | dispatcher/internal/dispatcher/dispatcher.go:259-295 | there are runs in which a late RUNNING report overwrites a pending cancel and a pending delete |
| BatchLifecycle.CancelLostExactly | server/internal/server/batch_server.go:387-447 | at every step of every interleaving a pending cancel is lost if and only if a user's delete or a RUNNING report lands on it |
| BatchLifecycle.DeleteLostExactly | server/internal/server/batch_server.go:387-447 | at every step of every interleaving a pending delete is lost if and only if a user's cancel or a report of running, canceled or failed lands on it |
| BatchLifecycle.DeletedRevivedExactly | server/internal/server/batch_server.go:387-447 | at every step of every interleaving a deleted job leaves that state if and only if a FAILED report lands on it |
| BatchLifecycle.LateFailureRevives | server/internal/server/batch_server.go:387-447 | there is a run in which a late FAILED brings a deleted job back |
| BatchLifecycle.ListedIsKnown | dispatcher/internal/dispatcher/dispatcher.go:267-284 | in every interleaving a listed queued job is to be created, canceled or deleted, so the unknown-action branch never fires |
| Scheduler.AvailableGPUs | server/internal/scheduler/scheduler.go:175-189 | for every map order: allocatable GPUs less those of reported pods and of reservations |
| Scheduler.CanProvisionGPUs | server/internal/scheduler/scheduler.go:160-173 | for every request: true exactly when it fits the free GPUs, or without GPU nodes when something can be provisioned |
| Scheduler.ScoreCluster | server/internal/scheduler/scheduler.go:129-155 | feasibility and score of a cluster |
| Scheduler.NamespacesByCluster | server/internal/scheduler/scheduler.go:62-65 | a cluster has the namespace of its last assignment, and none if it has no assignment |
| Scheduler.Schedule | server/internal/scheduler/scheduler.go:49-121 | for every map order the result is a fresh, assigned, feasible cluster other than the previous one with its namespace and a maximal score, also when scores are negative; it fails exactly when there is none, with the error that fits |
| Scheduler.CandidateExactly | server/internal/scheduler/scheduler.go:73-87 | a candidate is a cluster reported on within half an hour, other than the previous one, assigned to the project, and with room: no GPUs asked for, enough free on its nodes, or no nodes but something to provision |
| Scheduler.BestExactly | server/internal/scheduler/scheduler.go:101-108 | the chosen cluster has the most free GPUs of all candidates when GPUs are asked for |
| Scheduler.AvailableExactly | server/internal/scheduler/scheduler.go:175-189 | the free count from nothing: nodes add to it, reported pods and reservations take from it |
| Common.NamespaceIsLast | server/internal/scheduler/scheduler.go:62-65 | the namespace of a cluster is that of its last assignment |
| Scheduler.ReserveExactly | server/internal/cache/cluster.go:174-197 | a reservation changes the entry of its key and nothing else |
| Scheduler.ReserveMoves | server/internal/cache/cluster.go:174-197 | a reservation lowers the free count by the request and gives back what its key held before |
| Scheduler.NeverOverbooked | server/internal/scheduler/scheduler.go:160-189 | over every sequence of placements of non-negative counts with their reservations, under any keys, the free count of a cluster with GPU nodes stays non-negative |
| Scheduler.StaysSolvent | server/internal/cache/cluster.go:174-197 | the same for counts of any sign, as long as no booking takes over a key that held a negative count |
| Scheduler.BookingsAddUp | server/internal/cache/cluster.go:174-197 | with distinct keys, free now plus placed since equals free at the start |
| Scheduler.NoDoubleBooking | server/internal/server/notebooks.go:176-183 | with distinct keys, and counts of any sign, never more is placed on a cluster with GPU nodes than was free at the start, and its free count stays non-negative |
| Scheduler.NegativeRequestFrees | server/internal/server/notebooks.go:170-183 | a reservation under a new key raises the free count if and only if the request is negative |
| Scheduler.NegativeRequestOverbooks | server/internal/server/notebooks.go:170-183 | after a negative request six GPUs are placed where one was free |
| Cache.ClusterTable.CreateOrUpdateCluster | server/internal/store/cluster.go:23-44 | a new cluster is inserted; a known one gets the status and keeps name and tenant; the stored row is returned |
| Cache.ClusterTable.ListClustersByTenantID | server/internal/store/cluster.go:56-62 | exactly the tenant's rows, decoded, by ID |
| Cache.Clusters.Clone | server/internal/cache/cluster.go:31-40 | a new map with the same contents |
| Cache.Store.ListClustersByTenantID | server/internal/cache/cluster.go:100-125 | the tenant is loaded from the database on a miss; a hit returns a copy outside the cache, a miss the cached map |
| Cache.Store.GetCluster | server/internal/cache/cluster.go:199-214 | the cached cluster after loading the tenant if needed, none if it is unknown |
| Cache.Store.AddOrUpdateCluster | server/internal/cache/cluster.go:134-161 | for any cluster value: it replaces the cached one, with exactly the surviving reservations; nothing else changes |
| Cache.Store.AddAssumedPod | server/internal/cache/cluster.go:174-197 | the reservation is added or replaced under its key; fails exactly when GPUs are asked for and the cluster is unknown |
| Cache.UpdateClusterStatus | server/internal/server/clusters.go:73-107 | the database row is stored first and the cache refreshed from it |
| CacheRuns.CacheAgreesWithDb | server/internal/cache/cluster.go:65-125 | in every serial run of reports, lookups and reservations each cached tenant shows exactly its decoded rows apart from reservations |
| CacheRuns.CacheShows | server/internal/cache/cluster.go:216-230 | in every run a cached tenant shows exactly its clusters, and each field of them is that of the row |
| CacheRuns.ReportShows | server/internal/server/clusters.go:91-104 | after a report the row has its status and time under the name and tenant the cluster had, and the cache shows its nodes, provisionable resources and pods |
| CacheRuns.TableHoldsLastReport | server/internal/store/cluster.go:23-44 | in every run the table holds the status and time of the last report on each cluster |
| CacheRuns.ReportSettlesReservations | server/internal/cache/cluster.go:127-170 | after a report the reservations of its cluster are exactly the old ones younger than a minute with no reported pod under their key; other clusters keep theirs |
| CacheRuns.ReservationsExpire | server/internal/cache/cluster.go:127-161 | with a monotone clock no reservation outlives the first report made a minute or more after it was added |
| CacheRuns.ShownExactly | server/internal/cache/cluster.go:163-170 | a workload is shown exactly by pods whose name begins with its key |
| CacheRuns.PodIsShown | server/internal/cache/cluster.go:52-55 | a pod named after a namespace and a workload is shown under their key |
| CacheRuns.ReportEndsReservation | server/internal/cache/cluster.go:148-153 | the report that shows such a pod ends the reservation of its workload |
| CacheRuns.Perform | server/internal/server/clusters.go:91-104 | each operation on the heap objects does what the run model says |
| CacheRuns.Serve | server/internal/cache/cluster.go:98-214 | so does every sequence of operations, and it changes no map but the cache's own |
| CacheRuns.HitViewStays | server/internal/cache/cluster.go:100-106 | a view obtained on a hit is unchanged after any sequence of cache operations |
| CacheRuns.MissViewMoves | server/internal/cache/cluster.go:107-124 | a view obtained on a miss shows a reservation made afterwards |
| CacheRuns.ScheduleWorkload | server/internal/server/notebooks.go:176-183 | looking up, scheduling and reserving: the answer is a best candidate of the cached clusters or there is none, and the cache shows the reservation and nothing else |
| CacheRuns.ScheduleAll | server/internal/server/notebooks.go:170-183 | for every sequence of requests of any tenants, each answer is right for the reservations the earlier ones made, and the cache shows all of them |
| CacheRuns.AttemptsAreBookings | server/internal/server/notebooks.go:176-183 | such a sequence is, for each tenant, a sequence of valid bookings on its clusters, and its clusters are what the bookings make of them |
| CacheRuns.ScheduledNeverOverbooks | server/internal/server/notebooks.go:176-183 | so every cluster with GPU nodes that began with a non-negative free count keeps one, when counts are not negative |
| CacheRuns.ScheduledWithinFree | server/internal/server/notebooks.go:176-183 | with distinct keys the same holds of counts of any sign, and never more is placed there than was free |
| CacheRuns.KeysDiffer | server/internal/server/notebooks.go:180-181 | different workloads of a namespace have different keys, and so have workloads of different namespaces, whose names have no slash |
| CacheRuns.DifferentNamesWithinFree | server/internal/server/notebooks.go:176-183 | so workloads of different names for which a cluster holds no reservation yet never get more of it than was free |
| Summaries.GroupByCounts | server/internal/store/summary.go:20-101 | the lines of a group-by of a state and bucket sum to the direct count of its rows, each counted once |
| Summaries.SameGroup | server/internal/store/summary.go:20-45 | rows are in one group exactly if state, project, cluster and bucket agree |
| Summaries.Accumulate | server/internal/server/summaries.go:75-91 | the nested map holds exactly the sums per timestamp, type and state, and an entry exactly where a line occurs |
| Summaries.Totals | server/internal/server/summaries.go:115-140 | the value of a type does not depend on the order in which the states are visited |
| Summaries.Datapoints | server/internal/server/summaries.go:96-145 | one datapoint per timestamp, strictly increasing, one value per type |
| Summaries.GetSummariesByTimeRange | server/internal/server/summaries.go:48-148 | for any contents of the three tables and any answers of the three queries every value equals the direct count over the tables, and every matching row's type and bucket is shown |
| Summaries.AllReal | server/internal/server/summaries.go:115-139 | every state of every table has its label, and none is the extra key "created" |
| Summaries.NothingDropped | server/internal/server/summaries.go:115-140 | for any tables the totals of a type and bucket add up to its matching rows, whatever their states, and unfinished is queued plus running |
| Summaries.JobFields | server/internal/server/summaries.go:115-140 | each field of the value for fine-tuning jobs is the number of selected jobs of the bucket in that state |
| Summaries.BatchFields | server/internal/server/summaries.go:115-140 | the same for batch jobs |
| Summaries.NotebookFields | server/internal/server/summaries.go:115-140 | the same for notebooks, where initializing counts as running and requeued as queued |
| Summaries.CreatedField | server/internal/server/summaries.go:87-90 | the created field counts all records of the bucket if it starts within the range, and none otherwise |
| Summaries.ResponseConserves | server/internal/server/summaries.go:94-147 | over a whole response the totals of a type add up to the number of records of its table that the query selects |
| Summaries.CreatedExactlyWhenAligned | server/internal/server/summaries.go:87-90 | for every range: "created within the range" holds of exactly the rows created there if and only if the range is empty of rows, or its end is a multiple of the interval and so is its start unless that is before every row |
| Paging.MatchingSpec | server/internal/store/job.go:198-207 | the query yields exactly the eligible rows below the cursor, newest first |
| Paging.PageSpec | server/internal/store/job.go:198-214 | a page holds the newest eligible rows below the cursor, as many as fit, and has_more tells exactly whether one is left out |
| Paging.Paginate | server/internal/store/notebook.go:274-290 | asking for one row more and cutting it off gives the page and has_more of the specification |
| Paging.ListRows | server/internal/server/fine_tuning.go:242-296 | the reply of a listing: rejected exactly for a negative limit or a cursor that names no usable row; at most 100 items; the count of all eligible rows |
| Paging.ListSpec | server/internal/server/batch_server.go:136-189 | a request whose cursor names a row is rejected exactly when the limit is negative or that row is a deleted batch job |
| Paging.MatchingExactly | server/internal/store/notebook.go:274-280 | a listing is about exactly the rows of the project below the cursor, of notebooks and batch jobs those that are not deleted |
| Paging.RejectedExactly | server/internal/server/batch_server.go:142-163 | a request is rejected exactly for a negative limit or a cursor that names no row of the project, of batch jobs none that is not deleted |
| Paging.PageLengthExactly | server/internal/server/fine_tuning.go:248-257 | a reply holds as many rows as asked for, 20 if nothing is asked for and at most 100, or all if that is fewer, and has_more tells whether there are more |
| Paging.CountIsLength | server/internal/store/job.go:277-283 | the count query finds as many rows as the unlimited listing |
| Paging.WalkExact | server/internal/store/job.go:198-214 | following the cursor, for any limits and whatever changes in between: IDs strictly descend, every returned row was eligible when read, and a completed walk has every row that was eligible throughout |
| Paging.WalkEnds | server/internal/server/notebooks.go:211-264 | a walk ends, even while rows are inserted; jobs and notebooks always complete, and only the deletion of its cursor can stop a walk over batch jobs |
| Paging.StaticWalk | server/internal/store/batchjob.go:163-179 | on a table that does not change, the walk is the unlimited query |
| Paging.PagesAddUp | server/internal/server/fine_tuning.go:285-295 | on a static table the page sizes sum to the counted rows, which total_items shows as an int32 |
| Paging.DeletedCursorStops | server/internal/server/batch_server.go:153-163 | a walk over batch jobs whose cursor is deleted is stopped and misses a row that was eligible throughout |
| Decoder.LinesRebuild | ts/fetch.pb.ts:73-100 | lines and unterminated rest put together are the text again |
| Decoder.LinesAreLines | ts/fetch.pb.ts:73-100 | none of the lines nor the rest contains a newline |
| Decoder.LinesUnique | ts/fetch.pb.ts:73-100 | this is the only way to cut a text into lines and an unterminated rest |
| Decoder.RecordsSpec | ts/fetch.pb.ts:87-94 | the records are the parsed lines in order up to the first that does not parse |
| Decoder.RestIsEnd | ts/fetch.pb.ts:88-98 | from any point of the loop the end is that of the specification: the records of the lines up to the first that throws, and the unterminated rest |
| Decoder.Stream.Scan | ts/fetch.pb.ts:88-98 | the loop ends there, and terminates with measure buffer length minus position |
| Decoder.Stream.Transform | ts/fetch.pb.ts:80-99 | after each chunk the stream has emitted exactly the records of the lines fed so far and holds the unterminated rest |
| Decoder.Decode | ts/fetch.pb.ts:73-100 | for every split into chunks the records, the failure and the rest depend only on the concatenation |

## Left out

- Generated protobuf, gRPC and gateway code, and the rest of the TypeScript client.
- Kubernetes object construction. A Deployment is its notebook, cluster and namespace; its replicas are not modelled, and stopNotebook is reduced to whether it succeeds, which needs the Deployment.
- S3, KMS encryption, authentication, configuration and entry points. A caller is a tenant or a project.
- Request validation of the create handlers. CreateNotebook, CreateJob and CreateBatchJob are the rows they insert. The check that a notebook name is unused is not atomic in the code and is not claimed.
- PreProcessor.Process and post-processing are steps that succeed with a model ID or fail.
- The syncer and the experimental Slurm proxy.
- Database errors and failures to decode a stored message. The status field inside stored messages is left out because every read recomputes it from the columns.
- The rows that SetNotebookQueuedAction and similar updates return, and so the contents of those responses.
- The clock: a handler uses one value for the timestamps it writes and for updated_at. Times are positive.
- Liveness of the dispatcher loop. stopNotebook returns NotFound as an error, so progress is not guaranteed.
- Concurrent cache operations. AddAssumedPod and AddOrUpdateCluster read and write in separate lock sections, so the accounting is stated for serialized operations.
- Cluster entries of the cache are values; only the per-tenant map is an object. The code changes an entry in place only before anyone else can hold it.
- Scores are integers, not float64, and the reasons why clusters are infeasible are not collected. Sums of GPU counts do not overflow.
- processQueuedJobs and processBatchJobs as loops. Their steps are part of the job protocol or of the batch requests.
- The reconcilers of the notebook protocol may report INITIALIZING or RUNNING at any time, which is more than the code does.
- NotebookHandoff.HandoffSafety: assumes of the notebook that no Delete for requeueing is swallowed and no REQUEUED handler outlives its call, because it is false without either.
- NotebookHandoff.LeavesOnlyWhenRemoved: has the same two hypotheses.
- NotebookHandoff.OnlyItsDispatcherReleases: has the same two hypotheses, and for deletion the same two about it.
- NotebookHandoff.GoneIsFree: has these four hypotheses, because it is false without any of them.
- Scheduler.NeverOverbooked: needs counts that are not negative, because a key that held a negative count gives the free count away when it is reused; counts fit an int32.
- CacheRuns.ScheduledNeverOverbooks: needs counts that are not negative, for the same reason.
- Rescheduler.PassNeverOverbooks: needs counts that are not negative, for the same reason.
- Paging.ListRows: public IDs and project IDs are opaque tokens, zero for the empty string, because they are only compared.
