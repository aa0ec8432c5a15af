# Issue-to-pull-request agent: a verified model

The modelled system takes a GitHub issue to a reviewed pull request. A run moves through a state
machine, driven by workers that claim jobs under leases; a language model plans and edits a
checkout through tools; tests, a credential scan and a human decision stand between the edits and
a push; the code is indexed for retrieval; and a browser follows the run's timeline.

This project models the parts whose correctness spans many operations, and proves what they
promise for all inputs, all runs and all interleavings. `dafny verify dfyconfig.toml` checks it.

## Layout

- `RunStates`, `TestEvidence`, `Risk`: the transition table, the pass verdict, the credential scan.
- `Store`, `Transactions`, `RunSession`: the rows of one run, what each transaction may do to them,
  and the services that update them in place through a session with its own copy of the run row.
- `Jobs`: the job queue. `History`, `Protocol`: any number of workers and API requests as one
  transition system over committed versions (`Do` follows backend/app/worker/main.py:49-159).
  `ProtocolInvariant`, `ProtocolLiveness` prove its invariants, `ProtocolTheorems` reads off the
  results, `ProtocolWitnesses` holds two histories that show what they cannot promise.
  `ProtocolProgress` and `ProtocolCompletion` are the other half: what each request and step brings
  about, up to a history from the empty database to a published pull request.
- `Tools`, `AgentLoops`, `Orchestrator`: the tool executor, the bounded loops around the model, and
  the driver; `DriveRefinement` shows that a whole drive is a history of the protocol.
- `Texts`, `Editing`, `ChangeSet`, `Publishing`: the write tools, the review diff and the push.
- `Indexing`, `Chunking`, `SyntaxWalk`, `FileChunks`, `RankFusion`, `FusionLaws`, `Retriever`: the
  retrieval side.
- `Timeline`: the event stream and the client's merge.

## How the system is modelled

- Sessions. A run is the sequence of its committed versions. A session works from the row copy of
  any earlier version; its other reads are no older. Safety is proved from the unique constraint on
  (run, sequence) alone. The event service's own text speaks of a row lock
  (backend/app/services/event_service.py:8-10), but SQLite takes none (lines 40-42).
- A worker that loads a run sees it no older than the job row it claimed; both are read after the
  claim commits.
- The model is an arbitrary sequence of responses, the test runner an arbitrary sequence of exit
  statuses and output facts, the credential patterns an arbitrary matcher, the chunker and the
  embedding provider arbitrary functions. SHA-256 is an injective function.
- Branch pushes are recorded as effects no rollback takes back, before the transaction that
  records the pull request. The protocol records which diff text the gate compared for a push; what
  the branch then holds is a matter of the workspace, and module `Publishing` is about that.
- `_record_failure` reads the run in one step and writes in another, so that it can be overtaken.
- Paths are canonical, and a file's text is what `read_text` returns for it.

## What the proofs brought out

- A run can be lost: `_record_failure` reads the run and then writes its next event number; if
  another session commits in between, the job is marked failed while the run is active, and at its
  last attempt nothing brings a worker back. `ACollisionCanLoseARun` gives the history.
  `DrivenUnlessAbandoned` gives the exact condition, `NoCollisionNoLoss` the cause.
- As long as a due job of it is left, no run is stuck: from every reachable system a worker can bring an
  active run to its human gate (`EveryActiveRunCanReachTheGate`), and one that waits undecided with an
  unblocked diff can be approved and published (`WaitingRunsCanComplete`).
- A client of the timeline is never sent an event twice and never skips one: every new connection starts
  exactly where its list ends (`NothingIsSentTwice`).
- The text of `publish_changes` says that what lands on the branch is what was on disk when the diff
  was approved (backend/app/github/pr.py:151-152). It is what is on disk when the push comes to each
  file, and the gate compares stored texts only. `PushCarriesTheReviewIffUntouched` says when the two
  agree.
- No request and no step leaves WAITING_FOR_PLAN_REVIEW except by failing or cancelling, so a run
  that requires plan approval never completes (`PlanReviewIsADeadEnd`).
- After a revision request a run can never be published, because its one decision is spent
  (`RevisionNeverPublishes`).
- `mark_failed` does not look at the status, so a late failure requeues a job that has succeeded
  (`ALateFailureRequeues`); and a reclaimed lease lets `attempts` pass `max_attempts`.
- The parser's counts and runner errors never change its verdict: it is the exit status.
- Agreement between the two search strategies wins up to 51 candidates each; the code uses 30.
- The action a file is reported with is that of the last call on it: one created and then edited
  reads as modified.
- A client that sees a run finished opens no stream. It then never shows events beyond the first 500,
  nor any committed after the history it fetched side by side with the run.

## Model

| member | source | states |
|---|---|---|
| `RunStates.CompletedOnlyThroughApproval` | backend/app/agent/states.py:65-84 | every walk through the transition table from CREATED to COMPLETED, however it cycles, ends VERIFYING, WAITING_FOR_APPROVAL, PR_CREATED, COMPLETED |
| `RunStates.StepDescends` | backend/app/agent/orchestrator.py:193-205 | each orchestrator step takes a legal edge and strictly lowers a rank of at most ten |
| `RunStates.TableHasACycle` | backend/app/agent/states.py:65-84 | the table itself has a cycle, so termination is a fact about the steps |
| `RunStates.TerminalIsTheEnd` | backend/app/agent/states.py:94-112 | a state is terminal exactly when no edge leads on from it, and every other state may fail or be cancelled |
| `RunStates.LegalEdges` | backend/app/agent/states.py:65-103 | the table is exactly its six walks, from the happy path to the revision: an edge is legal if and only if it is a step of one of them or fails or cancels an unfinished run |
| `RunStates.StepOrParked` | backend/app/agent/orchestrator.py:193-205 | every state has a step, waits for a human, is finished, or is one of the three no commit rests in |
| `TestEvidence.ParseTestOutput` | backend/app/agent/testing.py:102-165 | the pass verdict is exactly exit code 0 without a timeout; a passed outcome never carries a runner error |
| `TestEvidence.WhatOutcomesSay` | backend/app/agent/testing.py:102-165 | for each framework, when a run counts as a runner error and which count is reported as failures |
| `TestEvidence.RunTests` | backend/app/agent/testing.py:194-230 | targeted tests first, the full suite only if they did not fail, nothing without a test command |
| `TestEvidence.SuiteVerdict` | backend/app/agent/testing.py:194-239 | the gate passes exactly when the full suite exists and succeeded and the targeted run, if any, did too; how many outcomes there are, and whose |
| `TestEvidence.AllPassedIsCleanEvidence` | backend/app/agent/testing.py:233-239 | on parsed outcomes, passing is the same as a non-empty list with exit code 0, no timeout and no runner error everywhere |
| `Risk.ScannedText` | backend/app/agent/risk.py:85-96 | the scanned text of any list of lines is what follows the marker on exactly the lines that start with one or two plus signs but not three, in order, joined by newlines |
| `Risk.BlockingIsAMatch` | backend/app/agent/risk.py:45-98 | a change is blocked exactly when one of the seven patterns matches the scanned text |
| `Risk.AddedCredentialBlocks` | backend/app/agent/risk.py:78-98 | a credential on one added line blocks the change, whatever else is in the diff |
| `Risk.NothingAddedScansEmpty` | backend/app/agent/risk.py:78-96 | context, headers and removed lines alone scan as the empty text |
| `Store.StateChangesFormAPath` | backend/app/services/event_service.py:94-138 | a log's state-changed events are a path from CREATED in the transition table, ending in the state the log defines |
| `Store.ApplyKeepsLog` | backend/app/services/event_service.py:66-138 | one write by an up-to-date session keeps the log numbered 1..last_event_sequence, its states a path, and the row in its last state |
| `Store.ExecKeepsEvents` | backend/app/services/event_service.py:66-91 | no transaction rewrites or drops an event |
| `Store.StaleWriterCannotCommit` | backend/app/models/core.py:164-168 | over a sound log, a session whose row copy is behind cannot commit any transaction that writes an event, with no lock assumed |
| `Store.TerminalIsNeverLeft` | backend/app/agent/states.py:54-56 | after a terminal state the log never reaches another state |
| `Store.NotesCarryNoData` | backend/app/services/event_service.py:50-91 | timeline notes interleaved with the data writes change neither whether a transaction goes through nor what it leaves, apart from the log |
| `Transactions.RequestKeeps` | backend/app/services/review_service.py:150-322 | whatever an up-to-date session asks for, the rows it commits keep every invariant about diffs, approvals, pull requests, evidence, states and plan versions |
| `Transactions.StepPrefix` | backend/app/agent/orchestrator.py:161-162 | any prefix of a step's writes, as an aborted step commits it, only adds plans, diffs and evidence |
| `Transactions.DecideKeeps` | backend/app/services/review_service.py:150-293 | a decision is bound to a stored diff; an approval only to one in which no credential pattern matches |
| `Transactions.PublicationKeeps` | backend/app/services/review_service.py:296-360 | recording a publication the gate allowed leaves one pull request, for the approved diff text |
| `RunSession.Session.constructor` | backend/app/db/session.py:43 | a session starts from its own copy of the run row, which may be older than the committed rows |
| `RunSession.Session.Create` | backend/app/services/run_manager.py:76-98 | a new run has one event, state CREATED, and a queued execute_run job |
| `RunSession.Session.AppendEvent` | backend/app/services/event_service.py:50-91 | the next number comes from the copy; a taken number raises and breaks the session |
| `RunSession.Session.Transition` | backend/app/services/event_service.py:94-138 | raises on an illegal edge with nothing touched; otherwise state and event change together or the session is broken |
| `RunSession.Session.StorePlan` | backend/app/services/review_service.py:58-79 | appends a plan whose version is one more than the number stored |
| `RunSession.Session.Decide` | backend/app/services/review_service.py:150-182 | refuses a second decision or a run without a diff, and otherwise binds the decision to the latest diff's hash |
| `RunSession.Session.Approve` | backend/app/services/review_service.py:185-224 | refused exactly when the run does not wait, is decided, has no diff or a blocking one; otherwise the approval of the latest diff, its event and the publishing job go into one transaction |
| `RunSession.Session.Reject` | backend/app/services/review_service.py:227-252 | refused exactly when the run does not wait, is decided or has no diff; otherwise the rejection and the transition to FAILED go into one transaction |
| `RunSession.Session.RequestRevision` | backend/app/services/review_service.py:255-293 | the decision, the transition back to PLANNING and the execute_run job go into one transaction; refused exactly for a blank comment or a run that does not wait undecided with a diff |
| `RunSession.Session.Stop` | backend/app/services/run_manager.py:128-140 | cancelling or failing is refused exactly for a finished run and otherwise writes one terminal transition |
| `RunSession.Session.AssertPushAllowed` | backend/app/services/review_service.py:296-322 | allows a push exactly when an approval exists, says approved, and its hash is that of the stored diff text |
| `RunSession.Session.RecordPullRequest` | backend/app/services/review_service.py:325-360 | the pull-request row and the transition to PR_CREATED go together, from WAITING_FOR_APPROVAL only |
| `RunSession.Session.CompletePublication` | backend/app/agent/orchestrator.py:974-990 | the recorded pull request and the completed run are one transaction |
| `History.OnlyFreshCommits` | backend/app/services/event_service.py:37-47 | an attempt commits only if its row copy, and all its other reads, were of the latest version |
| `History.AttemptKeepsHistory` | backend/app/services/event_service.py:94-138 | every commit, by any session with any earlier row copy, extends the history soundly |
| `History.DecisionIsFinal` | backend/app/models/review.py:94-98 | a decision, once committed, is in every later version unchanged |
| `History.OnlyRevisionUnparks` | backend/app/services/review_service.py:255-293 | a parked run becomes active again only through a revision request made in between |
| `ProtocolInvariant.EveryHistoryIsSafe` | backend/app/worker/main.py:49-159 | every step of workers, crashes, lease reclaims and API requests keeps all runs' histories, the queue, the workers and the pushes sound |
| `ProtocolLiveness.EveryHistoryIsLive` | backend/app/worker/main.py:49-159 | in every history, failure records that collide included, each approved run is published or its publish job out of attempts, and each worker reporting success has a version that needs no more of its job |
| `ProtocolLiveness.StepIsLive` | backend/app/worker/main.py:49-159 | every step keeps each driven run driven, except the one that marks its last driver failed for good while it is active |
| `ProtocolLiveness.OnlyCollisionsAbandon` | backend/app/worker/main.py:97-113 | a run is abandoned only after a failure record of its own met an event number another session had taken |
| `ProtocolTheorems.NoRunIsLost` | backend/app/worker/main.py:49-159 | in every reachable state a run neither terminal nor at a human gate has an execute_run job queued or running, unless some step marked its last driver failed for good while it was active |
| `ProtocolTheorems.DrivenUnlessAbandoned` | backend/app/worker/main.py:49-159 | the exact condition over a history: the run has a driving job at every moment if and only if no step abandons it |
| `ProtocolTheorems.GivingUpLosesTheRun` | backend/app/services/job_queue.py:121-145 | at the step: marking a job failed for good while its run is active loses the run exactly when no other execute_run job of it is pending |
| `ProtocolTheorems.NoCollisionNoLoss` | backend/app/worker/main.py:97-113 | a run whose failure records never collide is never lost, whatever happens to other runs |
| `ProtocolTheorems.ApprovedRunsArePublished` | backend/app/services/review_service.py:185-224 | an approved run still waiting has a create_pull_request job that is queued, running or out of attempts |
| `ProtocolTheorems.CommittedLogsAreSound` | backend/app/services/event_service.py:37-138 | every committed version has events numbered 1..last_event_sequence forming a path from CREATED, and later versions only append |
| `ProtocolTheorems.NothingCommittedIsTakenBack` | backend/app/models/core.py:157-168 | however a history goes on, every version of every run stays as it was, every job keeps its kind and run, and every push stays made |
| `ProtocolTheorems.PullRequestsAreGated` | backend/app/agent/orchestrator.py:910-994 | at most one pull request per run is ever recorded, gated on a diff text a human approved and no credential pattern matches |
| `ProtocolTheorems.PushesAreGated` | backend/app/agent/orchestrator.py:910-994 | every push, recorded or not, was made when the hash of the latest stored diff was the approval's; that approval stands and no other diff is stored afterwards. What the branch holds is not covered |
| `ProtocolTheorems.GatedLinesShowNoCredential` | backend/app/services/review_service.py:193-224 | no line that a recorded pull request or a push adds shows a credential to any of the seven patterns |
| `ProtocolTheorems.CompletedRunsAreEarned` | backend/app/agent/orchestrator.py:843-862 | a COMPLETED run was just before waiting for approval with a plan, a non-empty diff, its approval, and clean test evidence |
| `ProtocolTheorems.RevisionNeverPublishes` | backend/app/services/review_service.py:255-293 | after a revision request no later version is PR_CREATED or COMPLETED, and nothing is ever pushed for the run |
| `ProtocolTheorems.PlanReviewIsADeadEnd` | backend/app/agent/orchestrator.py:689-704 | a run that requires plan approval is never IMPLEMENTING, TESTING, VERIFYING, WAITING_FOR_APPROVAL or COMPLETED |
| `ProtocolTheorems.QueueAccountsForEveryJob` | backend/app/services/job_queue.py:43-160 | queue accounting holds of every job in every reachable state |
| `ProtocolTheorems.OnlyLateFailuresRevive` | backend/app/services/job_queue.py:121-145 | of all steps only a late report of failure touches a job that has succeeded, and it queues it again exactly while attempts remain |
| `ProtocolProgress.RequestsAreCarriedOut` | backend/app/services/review_service.py:185-293 | in every reachable system, a cancel, approve, reject or revision request that is acceptable and made from the latest version commits exactly one version, spelled out row by row, and queues exactly its job |
| `ProtocolProgress.OtherRequestsChangeNothing` | backend/app/services/review_service.py:185-293 | a request that is not acceptable (the run does not wait undecided, its diff blocks, the comment is blank) changes nothing, whatever versions were read and whatever is written |
| `ProtocolProgress.DriveGoesOn` | backend/app/agent/orchestrator.py:133-205 | from every reachable system, a worker at the latest version commits exactly the next state with what its step has produced |
| `ProtocolProgress.EveryActiveRunCanReachTheGate` | backend/app/worker/main.py:49-159 | no reachable run is stuck: a worker that takes a due job of an active run, and whose steps do their work, brings it to its human gate with a plan, the diff and the test outcomes to review, and changes nothing else |
| `ProtocolCompletion.ApprovedRunsCanBePublished` | backend/app/agent/orchestrator.py:908-990 | a worker that takes the due job of an approved run completes it with one pull-request row and one push, both of the approved diff text |
| `ProtocolCompletion.WaitingRunsCanComplete` | backend/app/services/review_service.py:185-224 | every reachable run that waits undecided with an unblocked diff can be approved and published by one worker; what that leaves is spelled out row by row |
| `ProtocolCompletion.ARunCanComplete` | backend/app/worker/main.py:49-159 | for any unblocked diff and passing tests there is a history from the empty database that ends with one completed run, one pull request, one push of that diff, and both jobs done |
| `ProtocolCompletion.CreatingCreates` | backend/app/services/run_manager.py:76-98 | creating a run stores its first version and a due execute_run job, and changes nothing when either exists |
| `ProtocolCompletion.FailuresAreRecorded` | backend/app/worker/main.py:97-159 | a drive that raises, with nobody committing in between, leaves its run failed and its job due again after the delay, or failed for good at its last attempt |
| `ProtocolCompletion.FailedPublicationsFailTheRun` | backend/app/agent/orchestrator.py:884-905 | a publication that cannot be made leaves its run failed and gives the job back |
| `ProtocolCompletion.AbortedStepsFailTheRun` | backend/app/agent/orchestrator.py:164-189 | a step aborted before it writes fails its run in one commit, and its job is done |
| `ProtocolCompletion.LeasesHold` | backend/app/services/job_queue.py:66-160 | while a lease lasts nobody else can claim or reclaim the job; after that reclaiming requeues it; a heartbeat starts the time anew |
| `ProtocolCompletion.ClaimedWhenDue` | backend/app/services/job_queue.py:66-101 | a job is taken exactly when it is queued and due and the worker is idle |
| `ProtocolWitnesses.ACollisionCanLoseARun` | backend/app/worker/main.py:97-113 | a history in which one failure record collides at the last attempt, after which an active run has no job and no worker |
| `ProtocolWitnesses.ALateFailureRequeues` | backend/app/services/job_queue.py:121-145 | a history in which a worker that lost its lease queues a job again that another one has finished, for a run that is over |
| `Jobs.QueueAccounting` | backend/app/services/job_queue.py:43-160 | in every history of a row, attempts equals claims and is at most max_attempts plus reclaimed leases; locked exactly while running; a running row has a lease |
| `Jobs.RunningJobRecovers` | backend/app/services/job_queue.py:148-160 | in every history of a row, on a clock that does not go back, once the lease of a running row is past it can be reclaimed and claimed again in the same moment |
| `Jobs.ReclaimExceedsTheLimit` | backend/app/services/job_queue.py:148-160 | a row limited to one attempt can be claimed twice, so the limit alone is no bound |
| `Jobs.JobQueue.Enqueue` | backend/app/services/job_queue.py:43-63 | adds one queued row under a new id and changes no other |
| `Jobs.JobQueue.ClaimNext` | backend/app/services/job_queue.py:66-101 | claims a runnable row with the earliest due time, or changes nothing when none is runnable |
| `Jobs.JobQueue.EarliestRunnable` | backend/app/services/job_queue.py:79-87 | finds a runnable row with the least due time, or reports that there is none |
| `Jobs.JobQueue.Heartbeat` | backend/app/services/job_queue.py:104-110 | extends one row's lease, whatever its status |
| `Jobs.JobQueue.MarkSucceeded` | backend/app/services/job_queue.py:113-118 | ends and unlocks one row, without asking who holds it |
| `Jobs.JobQueue.MarkFailed` | backend/app/services/job_queue.py:121-145 | requeues the row while attempts remain, otherwise fails it for good; unlocks it either way |
| `Jobs.JobQueue.ReclaimExpired` | backend/app/services/job_queue.py:148-160 | requeues exactly the running rows whose lease has expired, and counts them |
| `Orchestrator.Driver.Advance` | backend/app/agent/orchestrator.py:133-191 | at most ten committed steps; with n >= 1 iterations at most 15n + 23 model calls; every commit is one the protocol allows from the copy the last one left; a human is shown only outcomes of a test run of this execution, all passed; every stored diff is that of the files from the start to the end; begun in TESTING or VERIFYING without its checkout a run fails at once; and it is failed only if some turn ran out of time, its work or the model failed, nothing changed, or the tests did not pass |
| `Orchestrator.EditsNeedTesting` | backend/app/agent/orchestrator.py:66-76 | the states whose edits a lost checkout takes along are exactly those that every legal walk from CREATED reaches only after TESTING, up to the pull request |
| `Orchestrator.CallBudget` | backend/app/agent/orchestrator.py:133-191 | with n iterations the calls a drive may make, 15n + 23, are exactly the sum of its loops' limits |
| `Orchestrator.Driver.DriveOn` | backend/app/agent/orchestrator.py:146-162 | the loop over the stored state, with the rank as variant and the model calls still ahead as budget |
| `Orchestrator.Driver.Step` | backend/app/agent/orchestrator.py:193-205 | each state's step writes what the protocol allows it, or a prefix of that when it aborts, within its share of the model calls; it aborts only for a reason of that state, and a finished one leaves the next what it needs |
| `Orchestrator.Driver.Rehydrate` | backend/app/agent/orchestrator.py:288-343 | writes nothing but notes; aborts exactly for lost edits, a failing clone, or a map, sandbox or plan that cannot be had; otherwise checkout, map and stored plan are back |
| `Orchestrator.Driver.EnsureAnalysis` | backend/app/agent/orchestrator.py:345-364 | analyses at most once per execution, in at most three model calls |
| `Orchestrator.Driver.CurrentOutcomes` | backend/app/agent/orchestrator.py:746-766 | exactly the last attempt's outcomes if there was one, else a fresh test run, else nothing without a map of the repository |
| `Orchestrator.Driver.Plan` | backend/app/agent/orchestrator.py:653-687 | planning ends on a usable answer, changes no file and stores one plan after its transition |
| `Orchestrator.Driver.Implement` | backend/app/agent/orchestrator.py:706-744 | enters TESTING only with a plan, a map, a checkout, retrieval done and the result of a repair loop run in this step, within the calls of that loop |
| `Orchestrator.Driver.Assess` | backend/app/agent/orchestrator.py:768-841 | stores exactly the diff of the change from the starting workspace to the present one, and aborts for lack of changes exactly when no text differs; keeps the evidence at hand as the outcomes; calls the model only if it passed; changes no file |
| `Orchestrator.Driver.AwaitApproval` | backend/app/agent/orchestrator.py:843-862 | waits for a human on exactly the outcomes in memory, or the evidence at hand when there are none; aborts, having written nothing, exactly when they did not all pass |
| `Orchestrator.Driver.Fail` | backend/app/agent/orchestrator.py:216-234 | the aborted step's writes and the transition to FAILED are one commit the protocol allows |
| `DriveRefinement.CommitIsAttempt` | backend/app/agent/orchestrator.py:161-191 | each commit of the driver is an attempt the protocol lets through with the same rows |
| `DriveRefinement.CommitIsADriveStep` | backend/app/worker/main.py:49-64 | each commit of the driver is its worker's step in the transition system, appending exactly that version |
| `DriveRefinement.DriveLogIsAHistory` | backend/app/agent/orchestrator.py:133-191 | the log of a whole drive, with anything others do between its commits, is a history in which its commits are the worker's steps and append consecutive versions of the run |
| `DriveRefinement.FailedDriveIsAHistory` | backend/app/agent/orchestrator.py:163-191 | a drive that fails ends with one more such step, which leaves the run failed and the worker done |
| `DriveRefinement.EvidenceWasRun` | backend/app/agent/orchestrator.py:843-862 | the evidence a run waiting for approval carries in the protocol is what a test run of the committing drive showed, all passed |
| `Texts.ReadsBackItself` | backend/app/agent/tools/editing.py:107 | reading a written text back changes it exactly when it holds a carriage return |
| `Texts.LineEndingsRead` | backend/app/agent/tools/editing.py:107 | each of the three line endings reads as one newline, and what follows is read on its own |
| `Texts.SizeByBounds` | backend/app/agent/tools/editing.py:89-92 | the size of a text is one byte for each character and one more for each of the three UTF-8 bounds it passes |
| `Texts.CountedIffPresent` | backend/app/agent/tools/editing.py:147-156 | a text's count is zero exactly when it occurs nowhere |
| `Texts.CountedTwice` | backend/app/agent/tools/editing.py:147-162 | a text's count is above one exactly when two occurrences do not overlap |
| `Texts.Sorted` | backend/app/agent/diff.py:141 | lists exactly the given names, strictly ascending |
| `Texts.BeforeByFirstDifference` | backend/app/agent/diff.py:141 | the order of strings is that of their first difference, a prefix coming first |
| `Texts.LinesJoinBack` | backend/app/agent/risk.py:92-96 | splitting a text at its newlines and joining the lines gives it back, and no line holds a newline |
| `Editing.Workspace.WriteFile` | backend/app/agent/tools/editing.py:80-131 | refuses with the first matching error and no effect, or replaces the file by what was written and records its former content |
| `Editing.Workspace.ReplaceInFile` | backend/app/agent/tools/editing.py:134-189 | refuses a missing file or a snippet found not exactly once, or replaces its first occurrence and records the former content |
| `Editing.Workspace.DeleteFile` | backend/app/agent/tools/editing.py:192-225 | refuses a missing path or a directory, or removes one file and records its content |
| `Editing.ReplacementIsTargeted` | backend/app/agent/tools/editing.py:134-165 | a replacement splits the file around one occurrence; all text outside it and all other files are unchanged |
| `Editing.ReplacementNeedsTheText` | backend/app/agent/tools/editing.py:146-162 | TEXT_NOT_FOUND is reported exactly when the snippet occurs nowhere, TEXT_NOT_UNIQUE exactly when it occurs twice without overlap, and a replacement is carried out exactly otherwise |
| `Editing.WritingReplaces` | backend/app/agent/tools/editing.py:80-131 | after a write the file is what was written, as it reads back, whatever it held before; every other path is unchanged; the log gains the former text |
| `Editing.ReplacingChangesTheFirst` | backend/app/agent/tools/editing.py:134-189 | after a replacement the file is the former text with its first occurrence replaced, as it reads back, and the log gains the former text |
| `Editing.DeletingRemoves` | backend/app/agent/tools/editing.py:192-225 | a deletion removes its file and nothing else, and the log keeps the text |
| `Editing.WritesRefused` | backend/app/agent/tools/editing.py:86-103 | which writes are refused and as what: more than 100,000 bytes, a present file of more than 200,000 characters, a safety refusal |
| `Editing.DeletionsRefused` | backend/app/agent/tools/editing.py:192-210 | which deletions are refused and as what: a directory, a missing path, a safety refusal |
| `Editing.RefusedHasNoEffect` | backend/app/agent/tools/editing.py:80-225 | a refused call changes neither the files nor the log |
| `Editing.ExactLogIsKept` | backend/app/agent/tools/editing.py:70-131 | every call, refused or not, keeps the log exact for the starting workspace |
| `Editing.EveryExecutionIsLogged` | backend/app/agent/tools/editing.py:70-225 | after any sequence of calls the first entry of each path holds its starting text and the last one says whether it is there |
| `ChangeSet.Collapse` | backend/app/agent/diff.py:77-103 | one entry per path with the earliest original and the latest action |
| `ChangeSet.BuildChangeSet` | backend/app/agent/diff.py:137-173 | lists in path order exactly the logged paths whose text differs from the recorded original |
| `ChangeSet.LogMakesItExact` | backend/app/agent/diff.py:137-173 | an exact log makes the change set that of the two workspaces, with no reference to the log |
| `ChangeSet.Review` | backend/app/agent/diff.py:77-173 | after any sequence of tool calls the listed paths are exactly those whose text differs from the start, each with its starting and present text |
| `ChangeSet.ReportedActionIsTheLastCalls` | backend/app/agent/diff.py:77-103 | for every start and every sequence of calls, a listed file is reported created exactly when the last call carried out on it found no file there, and deleted exactly when that call was a deletion |
| `ChangeSet.CreatedThenEditedReadsAsModified` | backend/app/agent/diff.py:92-101 | a witness: a new file written twice is logged as modified |
| `Publishing.Branch.Publish` | backend/app/github/pr.py:137-184 | every listed path ends up as it is found in the workspace, every other one as the branch had it; refused exactly when nothing was committed |
| `Publishing.PushCarriesTheReviewIffUntouched` | backend/app/github/pr.py:149-184 | from a new branch, a push leaves the reviewed text at every path if and only if the workspace is untouched since the review at each listed one |
| `Publishing.PushIsRightWhere` | backend/app/github/pr.py:137-184 | at one listed path and for any branch, the exact condition under which the push leaves the reviewed text |
| `Publishing.RetriesCarryTheReview` | backend/app/github/pr.py:54-67 | on an untouched workspace a retry is right at the listed paths whatever an earlier attempt left on the branch |
| `Publishing.LateWriteIsPushed` | backend/app/github/pr.py:149-184 | a file written again after the review is pushed as it then is |
| `Tools.ToolRegistry.Register` | backend/app/agent/tools/base.py:114-118 | a second tool of the same name is refused and changes nothing |
| `Tools.ToolRegistry.Schemas` | backend/app/agent/tools/base.py:126-136 | the model is told of a tool exactly when the executor would permit it in this phase |
| `Tools.ToolRegistry.Execute` | backend/app/agent/tools/base.py:138-224 | refusals in order and without effect; anything else counts once; only a permitted write tool changes the workspace, by exactly its edit |
| `Tools.RefusedWhen` | backend/app/agent/tools/base.py:138-190 | a call is carried out exactly when the budget is not used up, the tool exists, the phase permits it and its arguments are valid; otherwise the first reason in that order is reported |
| `Tools.CallsAreEdits` | backend/app/agent/tools/base.py:138-224 | what any sequence of calls leaves of the workspace is what a sequence of edits leaves, and a read-only phase makes none |
| `AgentLoops.GenerateStructured` | backend/app/llm/base.py:145-247 | returns the first usable answer after at most two correctable ones, raises otherwise, in at most three calls |
| `AgentLoops.RunTurn` | backend/app/agent/loop.py:126-151 | executes the requested calls in order, stops at the first budget refusal, and leaves the workspace as those calls do |
| `AgentLoops.RunToolLoop` | backend/app/agent/loop.py:69-155 | at most max_steps calls; read-only loops change neither files nor log, and others exactly as their calls do; tokens are summed over all responses; each stop reason means what it says |
| `AgentLoops.EveryCallIsAnswered` | backend/app/agent/loop.py:107-151 | message by message: the messages given, then for each turn its request and one tool message for each executed call with its own id, name and result, and nothing else |
| `AgentLoops.ReportedCallsAreAnswered` | backend/app/agent/loop.py:126-151 | the calls a loop reports are those the conversation answers, in order |
| `AgentLoops.Investigate` | backend/app/agent/planner.py:158-176 | planning and verification leave the workspace and change log unchanged and make at most max_steps + 3 calls |
| `AgentLoops.RunAttempt` | backend/app/agent/repair.py:186-221 | an attempt may write; it makes twelve calls unless the model stops or a budget ends it, and is tested unless the tool budget is used up |
| `AgentLoops.ImplementAndRepair` | backend/app/agent/repair.py:148-320 | attempts continue exactly while tests fail and the failure is called recoverable; each stop reason fits the last attempt; at most 12n + 3(n - 1) calls |
| `AgentLoops.SuccessIsCleanEvidence` | backend/app/agent/repair.py:81-101 | the repair succeeded exactly when its last attempt passed, and then on clean evidence |
| `Indexing.ChangedFiles` | backend/app/rag/workspace.py:317-338 | partitions the scanned files by whether the previous snapshot has them with the same hash |
| `Indexing.Batched` | backend/app/rag/indexer.py:90-91 | slices of 400, the last one of at most that, which together are the list |
| `Indexing.UsableIffCovered` | backend/app/rag/indexer.py:143-180 | a path's joined rows are all usable exactly when every one of its chunks has vectors and none of another model |
| `Indexing.ReusedRows` | backend/app/rag/indexer.py:196-220 | the copies of a fully usable path have its fragments, each with the current model's right vector |
| `Indexing.CarryForward` | backend/app/rag/indexer.py:94-230 | every unchanged path is either carried forward with exactly what indexing it again would give or reported stale, and carried forward exactly when it can be |
| `Indexing.ServedWhen` | backend/app/rag/indexer.py:94-180 | the shortcut serves a path exactly when the snapshot has its text, chunks of it, and for every one of them only vectors of this model |
| `Indexing.FreshFilesProgress` | backend/app/rag/indexer.py:286-345 | writing a file indexed afresh completes its path and disturbs no other |
| `Indexing.SnapshotRecord.Index` | backend/app/rag/indexer.py:233-383 | into an empty snapshot, from any consistent predecessor, stores what a full index would; chunks and embeddings reused are those of the files the shortcut serves, those created are those of all other scanned files; nothing is created when the predecessor already holds the commit |
| `Indexing.NothingNewNothingMade` | backend/app/rag/indexer.py:94-230 | a complete snapshot of the same checkout with the same model serves every file that has chunks |
| `Indexing.LossKeepsConsistency` | backend/app/rag/indexer.py:94-120 | whatever files, chunks or vectors are lost of a complete snapshot, the rest is a consistent predecessor for any model |
| `Indexing.IndexHistory` | backend/app/rag/indexer.py:94-383 | over every sequence of commits, losses and embedding models, each snapshot equals the one built from scratch |
| `Texts.BlankByLines` | backend/app/rag/chunk.py:453-454 | a text is blank exactly when all its lines are |
| `Texts.AsciiSpaces` | backend/app/rag/chunk.py:453-454 | which ASCII characters count as white space: tab to carriage return, the four separators and the space |
| `Chunking.FallbackWindows` | backend/app/rag/chunk.py:406-443 | the offset loop, with blank windows skipped before the end-of-file check |
| `Chunking.FallbackWindowsCover` | backend/app/rag/chunk.py:406-443 | windows start every 70 lines and reach 80 or the end; each is exactly its stated lines, every non-blank line is in one or two, and there is one unless the file is blank |
| `Chunking.SplitOversized` | backend/app/rag/chunk.py:238-271 | a declaration of at most 220 lines stays whole; a longer one becomes its non-blank windows |
| `Chunking.SplittingLosesOnlyBlankLines` | backend/app/rag/chunk.py:238-271 | the parts start every 220 lines, are disjoint and exactly their text, and every non-blank line is in exactly one |
| `Chunking.ChunkFile` | backend/app/rag/chunk.py:446-495 | a file yields a chunk exactly unless it is blank; named parts are never dropped, unnamed fragments only when something else is kept |
| `SyntaxWalk.InnerFrom` | backend/app/rag/chunk.py:298-304 | the first child that is a declaration and not a wrapper |
| `SyntaxWalk.WalkTree` | backend/app/rag/chunk.py:307-403 | the loop over the children emits the pieces the recursive definition gives |
| `SyntaxWalk.WalkInOrder` | backend/app/rag/chunk.py:307-403 | on every well-nested tree the emitted spans lie inside the node, are pairwise disjoint and in source order |
| `SyntaxWalk.WalkFaithful` | backend/app/rag/chunk.py:307-403 | each piece has the span of its node, the name and kind of the declaration it stands for, and as parent the nearest named container on the path |
| `SyntaxWalk.NearestIsTheLastNamed` | backend/app/rag/chunk.py:307-403 | the parent is the name of the last container with a name on the way to the node, by depth, and the one handed in exactly when there is none |
| `SyntaxWalk.WalksNoWrapper` | backend/app/rag/chunk.py:298-349 | no piece is called after a decorator or an export |
| `SyntaxWalk.DepthLimit` | backend/app/rag/chunk.py:327-333 | a declaration below fifteen structural nodes is found, one level deeper it is not |
| `SyntaxWalk.VisitedIsAccounted` | backend/app/rag/chunk.py:307-403 | within the span of every declaration the walk visits, even an empty container, some piece is emitted |
| `SyntaxWalk.WalkFile` | backend/app/rag/chunk.py:473-483 | all of these together for a whole file |
| `FileChunks.SplitAllInOrder` | backend/app/rag/chunk.py:238-271 | splitting declarations that follow one another gives parts that follow one another, each on lines of its own declaration |
| `FileChunks.NamedLinesAreHeld` | backend/app/rag/chunk.py:487-495 | every line of a named declaration that is not blank is on a kept chunk that is part of it |
| `FileChunks.ChunkWithTree` | backend/app/rag/chunk.py:446-495 | from tree to chunks: each chunk has the text of the lines it names, cut out of one piece of the walk whose name, kind and parent it carries; chunks follow one another and share at most a line; no non-blank line of a named declaration is lost |
| `RankFusion.EntryScore` | backend/app/rag/retrieve.py:186-222 | an entry's score is the sum of weight / (60 + rank) over the hits of its id |
| `RankFusion.SortIsStable` | backend/app/rag/retrieve.py:222 | the descending sort keeps ties in the order they came in |
| `RankFusion.Fuse` | backend/app/rag/retrieve.py:186-222 | each id of the lists appears exactly once with exactly the formula's score, strategies and ranks, best first, ties in order of first appearance |
| `FusionLaws.HybridEntry` | backend/app/rag/retrieve.py:186-222 | the entry of a chunk lists the strategies that found it, and shows for each its own place in that strategy's list |
| `FusionLaws.UnweightedScore` | backend/app/rag/retrieve.py:186-222 | strategies without a weight of their own count with weight one |
| `FusionLaws.Dominance` | backend/app/rag/retrieve.py:186-222 | for any positive weights, a chunk that precedes another in every list holding the latter scores strictly higher |
| `FusionLaws.AgreementBound` | backend/app/rag/retrieve.py:253-258 | being found by both strategies always wins if and only if (ws + wl) / (60 + cap) exceeds the heavier weight / 61 |
| `FusionLaws.AgreementCap` | backend/app/rag/retrieve.py:33-38 | with weights 1.0 and 1.2 agreement wins exactly up to 51 candidates, so with 30 it does |
| `Retriever.Retrieve` | backend/app/agent/runtime.py:102-133 | no chunk twice, best first, at most limit, the same score sequence as ranking the full results of the first six queries, and each entry the first to reach its best score |
| `Retriever.EarlyTruncationLosesNothing` | backend/app/agent/runtime.py:102-133 | cutting every ranking to limit before merging gives the same top scores as cutting once at the end |
| `Retriever.MergeKeepsTheFirstBest` | backend/app/agent/runtime.py:102-133 | merging keeps for each id the entry that first reached its best score, in the order of the queries |
| `Timeline.PageIsASlice` | backend/app/services/event_service.py:141-154 | on a gap-free log a page is the contiguous slice after its cursor |
| `Timeline.EventGenerator.Tick` | backend/app/api/routes/runs.py:143-169 | from any cursor a client asks for, one turn sends the next page, moves the cursor to its end, and ends the stream exactly when the run is terminal and nothing is left |
| `Timeline.PollIsOneTurn` | backend/app/api/routes/runs.py:146-169 | a poll of the stream model puts in flight exactly what one turn of the loop sends at the connection's cursor; the turn ends the stream exactly when the run is terminal and nothing was sent |
| `Timeline.MergeOne` | frontend/src/stores/runStore.ts:39-54 | merging an event keeps the list ascending, ignores a held sequence and otherwise adds exactly that event |
| `Timeline.MergeIgnoresOrder` | frontend/src/stores/runStore.ts:56-58 | any two arrival orders, with repeats, of the same events give the same strictly ascending list |
| `Timeline.ClientHoldsAPrefix` | frontend/src/stores/runStore.ts:98-132 | for every history of the system and every interleaving of commits, polls, receipts and reconnects, the client's list is a prefix of the log and never shrinks |
| `Timeline.OnePageAtATime` | backend/app/api/routes/runs.py:146-157 | an idle connection that polls and delivers gains a whole page, so the page limit skips nothing |
| `Timeline.WatchOpensAtTheEnd` | frontend/src/stores/runStore.ts:98-132 | a watch holds the first page of the history it fetched and, unless the run was seen finished, opens a stream right after its last event |
| `Timeline.ReconnectingResumes` | backend/app/api/routes/runs.py:131-146 | a dropped connection loses only what is in flight, and the next one starts after the last event received |
| `Timeline.NothingIsSentTwice` | backend/app/api/routes/runs.py:131-157 | whatever a client has been through since its watch, a new connection starts exactly where its list ends, and so does what is in flight |
| `Timeline.EveryClientCanCatchUp` | frontend/src/stores/runStore.ts:98-132 | from whatever a client with a stream has been through, reconnecting and listening on can bring it the whole log |
| `Timeline.WaitingAndClosing` | frontend/src/stores/runStore.ts:98-132 | commits show the client nothing by themselves, and closing a stream takes nothing away |
| `Timeline.FinishedRunsShowWhatWasFetched` | frontend/src/stores/runStore.ts:98-115 | watching a run seen finished shows its whole log exactly when the log fits in one page of 500 and the history, fetched beside the run, was read no earlier than its last event |
| `Timeline.EarlyHistoryStaysIncomplete` | frontend/src/stores/runStore.ts:98-115 | if the history was read one version before the run was seen finished, the client never shows the end of the log |
| `Timeline.AFinishedRunCanStayIncomplete` | frontend/src/stores/runStore.ts:98-115 | a history of the system and a watch for which that happens |

## Left out

- HTTP, GitHub, the model provider's client, retries and pacing, OAuth, cookies, encryption, logging and redaction.
- SQL, the ORM, vector and trigram search: tables are maps and sequences with their declared unique constraints, and search results are arbitrary lists.
- `create_run`'s ownership checks and its one-active-run-per-issue check: they restrict which runs exist, and nothing proved depends on them.
- Liveness in time: `ProtocolProgress` and `ProtocolCompletion` show that a worker can always bring a run on, not that one gets to.
- A read inside one transaction that sees two different versions: each transaction's checks of the unique constraints happen at its commit.
- The exact position of timeline notes in a step: the protocol allows notes anywhere among a step's writes.
- `difflib` output and the added and removed line counts: the diff is its list of files with their before and after texts.
- `_publish` reading paths back out of the diff text: the path list is taken as given.
- PushesAreGated: does not say what the pushed branch holds, because the gate does not look at the files; `Publishing` gives the condition in terms of the workspace.
- The diff text keeps at most 400 lines of each file's diff (backend/app/agent/diff.py:128-134), so its hash says nothing of the lines beyond; what a text determines of the change behind it is not part of this model.
- GitHub refusing a file half-way through a push: the commits made until then stay on the branch, which a retry reuses.
- Edits recovered from `git status` on resume: the change set is proved for one uninterrupted execution.
- A write that the operating system interrupts half-way: a failing write leaves the file as it was.
- Uniqueness of the match in `replace_in_file` beyond Python's non-overlapping count.
- The test runner and the sandbox writing files; the retriever raising inside the repair loop.
- `read_bytes` failing on a file that the scan could read a moment before: both see the same checkout.
- Indexing into a snapshot that already has rows.
- A declaration whose text is blank and longer than 220 lines, which splitting would leave without a part.
- Decoding the bytes of a declaration: the source is one character for each byte the parser counts.
- `_node_name`, `_collect_imports` and the parser itself: a node comes with its declaration kind and its name.
- Floating point: fusion scores are exact reals.
- Malformed event frames, and completeness of the stream at `run_finished`, whose events and state come from two statements.
- Heartbeats: the queue has them, no worker sends them, and nothing proved depends on them.
- Path confinement, command allowlists, repository-map detection, React components and migrations.
