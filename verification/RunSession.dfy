/**
 One database session at work on one run: backend/app/services/event_service.py,
 review_service.py and run_manager.py as they update the rows in place. The ghost fields say
 which transaction of module Store the session has carried out so far.
 */
module RunSession {
  import opened Basics
  import opened RunStates
  import opened TestEvidence
  import opened Store
  import opened Risk
  import Texts
  import opened Transactions
  import opened Jobs

  /** Done; refused by a check of the service before any write; or raised by a write. */
  datatype Status = Done | Refused | Raised(failure: Failure)

  /** The queue has gained exactly one row, under a new id. */
  twostate predicate AddedAs(queue: JobQueue, id: JobId, job: Job)
    reads queue
  {
    id !in old(queue.rows) && queue.rows == old(queue.rows)[id := job]
  }

  twostate predicate Enqueued(queue: JobQueue, job: Job)
    reads queue
  {
    exists id: JobId :: AddedAs(queue, id, job)
  }

  class Session {
    /** The session's own copy of the run row, which survives its commits. */
    var run: RunRow
    /** The rows as the open transaction would leave them. */
    var db: Tables
    /** A refused insert leaves the session unusable until it is rolled back. */
    var broken: bool

    ghost var base: Tx
    ghost var ops: seq<Op>

    ghost predicate Valid()
      reads this
    {
      !broken ==> Exec(base, ops) == Store.Ok(Tx(run, db))
    }

    ghost function View(): Tx
      reads this
    {
      Tx(run, db)
    }

    constructor (copy: RunRow, committed: Tables)
      ensures Valid() && !broken && View() == base == Tx(copy, committed) && ops == []
    {
      run, db, broken := copy, committed, false;
      base, ops := Tx(copy, committed), [];
    }

    /** `create_run`: the row, its first event and the job that executes it. */
    constructor Create(requirePlanApproval: bool, queue: JobQueue, id: RunId, now: int)
      requires queue.Valid()
      modifies queue
      ensures Valid() && !broken && queue.Valid()
      ensures View() == Tx(NewRun(requirePlanApproval).row, NewRun(requirePlanApproval))
      ensures Enqueued(queue, NewJob(ExecuteRun, id, now, 3, 0))
    {
      run := RunRow(Created, 0, requirePlanApproval);
      db := Tables(RunRow(Created, 0, requirePlanApproval), map[], [], [], None, [], None);
      broken := false;
      base := Tx(RunRow(Created, 0, requirePlanApproval),
                 Tables(RunRow(Created, 0, requirePlanApproval), map[], [], [], None, [], None));
      ops := [];
      new;
      var status := AppendEvent(Info);
      var job := queue.Enqueue(ExecuteRun, id, now, 0, 3, 0);
      assert AddedAs(queue, job, NewJob(ExecuteRun, id, now, 3, 0));
    }

    /** The next transaction: the copy is kept, the committed rows are whatever they are by now. */
    method Begin(committed: Tables)
      modifies this
      ensures Valid() && !broken && run == old(run) && db == committed
      ensures base == Tx(old(run), committed) && ops == []
    {
      db, broken := committed, false;
      base, ops := Tx(run, committed), [];
    }

    /** What one write that took effect did to the session. */
    twostate predicate Wrote(op: Op)
      reads this
    {
      Valid() && !broken && base == old(base) && ops == old(ops) + [op]
    }

    /** What a chain of writes did: all of them, or the first refusal that Exec reports too. */
    twostate predicate Ran(writes: seq<Op>, status: Status)
      reads this
    {
      && base == old(base)
      && (status == Done <==> Exec(old(View()), writes).Ok?)
      && (status == Done ==>
            Valid() && !broken && ops == old(ops) + writes && Store.Ok(View()) == Exec(old(View()), writes))
      && (status.Raised? ==> Exec(old(View()), writes) == Store.Err(status.failure))
    }

    /** `_append_event_for`: bumps the copy's counter, then inserts under the unique constraint. */
    method AppendEventFor(kind: EventKind, state: RunState) returns (status: Status)
      modifies this
      ensures status.Done? || status == Raised(Conflict)
      ensures status.Done? <==> InsertEvent(old(View()), kind, state).Ok?
      ensures status.Done? ==> InsertEvent(old(View()), kind, state) == Store.Ok(View()) && broken == old(broken)
      ensures status.Raised? ==> broken && db == old(db)
      ensures base == old(base) && ops == old(ops)
    {
      run := run.(lastSequence := run.lastSequence + 1);
      if run.lastSequence in db.events {
        broken := true;
        return Raised(Conflict);
      }
      db := db.(row := db.row.(lastSequence := run.lastSequence),
                events := db.events[run.lastSequence := Event(kind, state)]);
      status := Done;
    }

    ghost method Log(op: Op, before: Tx)
      requires Exec(base, ops) == Store.Ok(before)
      requires Apply(before, op) == Store.Ok(View())
      modifies this`ops
      ensures Exec(base, ops) == Store.Ok(View()) && ops == old(ops) + [op]
    {
      ExecSnoc(base, ops, op);
      ops := ops + [op];
    }

    method AppendEvent(note: NoteKind) returns (status: Status)
      requires Valid() && !broken
      modifies this
      ensures base == old(base)
      ensures status.Done? ==> Wrote(Append(note)) && Apply(old(View()), Append(note)) == Store.Ok(View())
      ensures !status.Done? ==>
                status == Raised(Conflict) && broken && Apply(old(View()), Append(note)) == Store.Err(Conflict)
    {
      ghost var before := View();
      status := AppendEventFor(Note(note), run.state);
      if status.Done? {
        Log(Append(note), before);
      }
    }

    /** `transition`: an illegal edge raises before anything is touched. */
    method Transition(target: RunState) returns (status: Status)
      requires Valid() && !broken
      modifies this
      ensures base == old(base)
      ensures status.Done? ==>
                Wrote(Op.Transition(target)) && Apply(old(View()), Op.Transition(target)) == Store.Ok(View())
      ensures !status.Done? ==>
                && status.Raised? && Apply(old(View()), Op.Transition(target)) == Store.Err(status.failure)
                && (status.failure == IllegalTransition <==> !CanTransition(old(run).state, target))
                && (status.failure == IllegalTransition ==> View() == old(View()) && !broken && ops == old(ops))
                && (status.failure == Conflict ==> broken)
    {
      if !CanTransition(run.state, target) {
        return Raised(IllegalTransition);
      }
      ghost var before := View();
      run := run.(state := target);
      db := db.(row := db.row.(state := target));
      status := AppendEventFor(StateChanged, target);
      if status.Done? {
        Log(Op.Transition(target), before);
      }
    }

    /** `store_plan`: a new version each time, never an overwrite. */
    method StorePlan()
      requires Valid() && !broken
      modifies this
      ensures Wrote(Op.StorePlan) && run == old(run)
      ensures db == old(db).(plans := old(db).plans + [Plan(|old(db).plans| + 1)])
    {
      ghost var before := View();
      var row := Plan(|db.plans| + 1);
      db := db.(plans := db.plans + [row]);
      Log(Op.StorePlan, before);
    }

    method StoreDiff(diff: Diff)
      requires Valid() && !broken
      modifies this
      ensures Wrote(Op.StoreDiff(diff)) && run == old(run)
      ensures db == old(db).(diffs := old(db).diffs + [diff])
    {
      ghost var before := View();
      db := db.(diffs := db.diffs + [diff]);
      Log(Op.StoreDiff(diff), before);
    }

    /** The outcomes a step looked at: a history variable, not a row. */
    method WitnessOutcomes(outcomes: seq<TestOutcome>)
      requires Valid() && !broken
      modifies this
      ensures Wrote(Witness(outcomes)) && run == old(run)
      ensures db == old(db).(evidence := Some(outcomes))
    {
      ghost var before := View();
      db := db.(evidence := Some(outcomes));
      Log(Witness(outcomes), before);
    }

    /** `_decide`: refuses a second decision and a run without a diff; binds to the diff's hash. */
    method Decide(decision: Decision) returns (status: Status)
      requires Valid() && !broken
      modifies this
      ensures base == old(base) && run == old(run) && !broken
      ensures status.Refused? <==> DecideWrites(old(db), decision).None?
      ensures status.Refused? ==> View() == old(View()) && ops == old(ops)
      ensures !status.Refused? ==>
                && status.Done?
                && Ran(DecideWrites(old(db), decision).value, status)
                && old(db).approval.None? && old(db).diffs != []
                && db == old(db).(approval := Some(Store.Approval(decision, old(db).diffs[|old(db).diffs| - 1].hash)))
      ensures status.Refused? <==> old(db).approval.Some? || old(db).diffs == []
    {
      if db.approval.Some? {
        return Refused;
      }
      var diff := LatestDiff(db);
      if diff.None? {
        return Refused;
      }
      ghost var before := View();
      var approval := Store.Approval(decision, diff.value.hash);
      db := db.(approval := Some(approval));
      Log(Op.Decide(approval), before);
      ExecOne(before, Op.Decide(approval));
      status := Done;
    }

    /** `approve`: the decision, its event, and the publishing job, in one transaction. */
    method Approve(search: Matcher, queue: JobQueue, id: RunId, now: int, since: nat) returns (status: Status)
      requires Valid() && !broken && queue.Valid()
      modifies this, queue
      ensures queue.Valid()
      ensures status.Refused? <==> Writes(search, Request.Approve, old(run), old(db), old(db)).None?
      ensures status.Refused? ==> View() == old(View())
      ensures !status.Refused? ==>
                Ran(Writes(search, Request.Approve, old(run), old(db), old(db)).value + [Append(ApprovalGiven)], status)
      ensures status.Refused? <==>
                || old(run).state != WaitingForApproval || old(db).approval.Some? || old(db).diffs == []
                || old(db).diffs[|old(db).diffs| - 1].blocking
      ensures status.Done? ==>
                && run.state == WaitingForApproval
                && db.approval == Some(Store.Approval(Approved, old(db).diffs[|old(db).diffs| - 1].hash))
      ensures status.Done? ==> Enqueued(queue, NewJob(CreatePullRequest, id, now, 3, since))
      ensures !status.Done? ==> queue.rows == old(queue.rows)
    {
      ghost var before := View();
      if run.state != WaitingForApproval {
        return Refused;
      }
      var diff := LatestDiff(db);
      if diff.Some? && diff.value.blocking {
        return Refused;
      }
      status := Decide(Approved);
      if status.Refused? {
        return;
      }
      ghost var decided := DecideWrites(before.db, Approved).value;
      ExecSnoc(before, decided, Append(ApprovalGiven));
      status := AppendEvent(ApprovalGiven);
      if !status.Done? {
        return;
      }
      var job := queue.Enqueue(CreatePullRequest, id, now, 0, 3, since);
      assert AddedAs(queue, job, NewJob(CreatePullRequest, id, now, 3, since));
    }

    /** `reject`: terminal. */
    method Reject(search: Matcher) returns (status: Status)
      requires Valid() && !broken
      modifies this
      ensures status.Refused? <==> Writes(search, Request.Reject, old(run), old(db), old(db)).None?
      ensures status.Refused? ==> View() == old(View())
      ensures !status.Refused? ==> Ran(Writes(search, Request.Reject, old(run), old(db), old(db)).value, status)
      ensures status.Refused? <==>
                old(run).state != WaitingForApproval || old(db).approval.Some? || old(db).diffs == []
      ensures status.Done? ==>
                && run.state == db.row.state == Failed
                && db.approval == Some(Store.Approval(Rejected, old(db).diffs[|old(db).diffs| - 1].hash))
    {
      ghost var before := View();
      if run.state != WaitingForApproval {
        return Refused;
      }
      status := Decide(Rejected);
      if status.Refused? {
        return;
      }
      ExecSnoc(before, DecideWrites(before.db, Rejected).value, Op.Transition(Failed));
      status := Transition(Failed);
    }

    /** `request_revision`: the run goes back to planning and a job is queued to pick it up. */
    method RequestRevision(search: Matcher, comment: string, queue: JobQueue, id: RunId, now: int, since: nat)
      returns (status: Status)
      requires Valid() && !broken && queue.Valid()
      modifies this, queue
      ensures queue.Valid()
      ensures status.Refused? <==> Writes(search, Request.RequestRevision(comment), old(run), old(db), old(db)).None?
      ensures status.Refused? ==> View() == old(View())
      ensures !status.Refused? ==>
                Ran(Writes(search, Request.RequestRevision(comment), old(run), old(db), old(db)).value, status)
      ensures status.Refused? <==>
                || old(run).state != WaitingForApproval || old(db).approval.Some? || old(db).diffs == []
                || Texts.Blank(comment)
      ensures status.Done? ==>
                && run.state == db.row.state == Planning
                && db.approval == Some(Store.Approval(Decision.RevisionRequested,
                                                      old(db).diffs[|old(db).diffs| - 1].hash))
      ensures status.Done? ==> Enqueued(queue, NewJob(ExecuteRun, id, now, 3, since))
      ensures !status.Done? ==> queue.rows == old(queue.rows)
    {
      ghost var before := View();
      if run.state != WaitingForApproval || Texts.Blank(comment) {
        return Refused;
      }
      status := Decide(Decision.RevisionRequested);
      if status.Refused? {
        return;
      }
      ExecSnoc(before, DecideWrites(before.db, Decision.RevisionRequested).value, Op.Transition(Planning));
      status := Transition(Planning);
      if !status.Done? {
        return;
      }
      var job := queue.Enqueue(ExecuteRun, id, now, 0, 3, since);
      assert AddedAs(queue, job, NewJob(ExecuteRun, id, now, 3, since));
    }

    /** Failing (`_fail`, `_fail_run`, `_record_failure`) and cancelling: refused once the run is finished. */
    method Stop(search: Matcher, request: Request) returns (status: Status)
      requires Valid() && !broken && (request.RecordFailure? || request.Cancel?)
      modifies this
      ensures status.Refused? <==> IsTerminal(old(run).state)
      ensures status.Refused? <==> Writes(search, request, old(run), old(db), old(db)).None?
      ensures status.Refused? ==> View() == old(View()) && !broken && base == old(base) && ops == old(ops)
      ensures !status.Refused? ==> Ran(Writes(search, request, old(run), old(db), old(db)).value, status)
      ensures status.Raised? ==> status.failure == Conflict
      ensures status.Done? ==> run.state == db.row.state == (if request.Cancel? then Cancelled else Failed)
    {
      if IsTerminal(run.state) {
        return Refused;
      }
      var target := if request.Cancel? then Cancelled else Failed;
      ExecOne(View(), Op.Transition(target));
      status := Transition(target);
    }

    /** `assert_push_allowed`, with the reads of `_publish` before it: the stored diff against the stored approval. */
    method AssertPushAllowed() returns (publication: Option<Publication>)
      ensures publication == PushAllowed(db)
      ensures publication.Some? ==>
                && db.approval == Some(publication.value.approval) && publication.value.approval.decision == Approved
                && LatestDiff(db) == Some(publication.value.diff)
                && publication.value.approval.diffHash == Sha256(publication.value.diff.text)
    {
      var diff := LatestDiff(db);
      if diff.None? || db.plans == [] {
        return None;
      }
      if db.approval.None? || db.approval.value.decision != Approved {
        return None;
      }
      if db.approval.value.diffHash != Sha256(diff.value.text) {
        return None;
      }
      publication := Some(Publication(diff.value, db.approval.value));
    }

    /** `record_pull_request`: the row, and the transition to PR_CREATED. */
    method RecordPullRequest(p: Publication) returns (status: Status)
      requires Valid() && !broken
      modifies this
      ensures Ran([Op.RecordPull(PullRequest(p.approval.diffHash, p.diff.text)), Op.Transition(PrCreated)], status)
      ensures status.Done? ==> old(run).state == WaitingForApproval && run.state == PrCreated
    {
      ghost var before := View();
      var row := PullRequest(p.approval.diffHash, p.diff.text);
      ExecTwo(before, Op.RecordPull(row), Op.Transition(PrCreated));
      db := db.(pulls := db.pulls + [row]);
      Log(Op.RecordPull(row), before);
      status := Transition(PrCreated);
      assert old(ops) + [Op.RecordPull(row)] + [Op.Transition(PrCreated)]
             == old(ops) + [Op.RecordPull(row), Op.Transition(PrCreated)];
    }

    /** The end of `_publish`: the recorded pull request and the completed run are one transaction. */
    method CompletePublication(p: Publication) returns (status: Status)
      requires Valid() && !broken
      modifies this
      ensures Ran(PublicationWrites(p), status)
      ensures status.Done? ==> old(run).state == WaitingForApproval && run.state == Completed
    {
      ghost var before := View();
      ghost var recorded := [Op.RecordPull(PullRequest(p.approval.diffHash, p.diff.text)), Op.Transition(PrCreated)];
      assert recorded + [Op.Transition(Completed)] == PublicationWrites(p);
      ExecSnoc(before, recorded, Op.Transition(Completed));
      status := RecordPullRequest(p);
      if !status.Done? {
        return;
      }
      status := Transition(Completed);
      assert old(ops) + recorded + [Op.Transition(Completed)] == old(ops) + (recorded + [Op.Transition(Completed)]);
    }
  }
}
