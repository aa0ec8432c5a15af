/**
 The driver of module Orchestrator refines the protocol: the log of a whole drive, with whatever
 other workers and requests do between its commits, is a history of the transition system in which
 each commit is one `Drive` step. So every theorem about histories is about what the driver does.
 */
module DriveRefinement {
  import opened Basics
  import opened RunStates
  import opened TestEvidence
  import opened Store
  import opened Risk
  import opened Transactions
  import opened History
  import opened Jobs
  import opened Protocol
  import opened ProtocolInvariant
  import opened ProtocolTheorems
  import AgentLoops
  import opened Orchestrator

  /** The attempt a commitment is, for a session whose copy was read at version `at`. */
  function AttemptOf(c: Commitment, at: nat): Attempt {
    Attempt(at, at, at, c.request, c.ops)
  }

  /**
   A commit the driver makes, against the rows that are the latest when it commits, is one the
   protocol attempts and lets through, with the same rows as result.
   */
  lemma CommitIsAttempt(search: Matcher, h: Versions, at: nat, c: Commitment)
    requires at < |h| && h[at].row == c.copy && Latest(h) == c.db && Allowed(search, c)
    requires c.request.StepDone? || c.request.StepAborted?
    ensures Attemptable(search, h, AttemptOf(c, at))
    ensures Committed(search, h, AttemptOf(c, at)) == Some(Commit(c.copy, c.db, c.ops).value)
  {
  }

  /** The rows a commit leaves behind. */
  function NewVersion(c: Commitment): Tables {
    match Commit(c.copy, c.db, c.ops)
    case Ok(t) => t
    case Err(_) => c.db
  }

  /** Worker `w` drives job `id` from a copy of version `at`, whose row is `copy`. */
  predicate DrivesFrom(s: System, w: WorkerId, id: JobId, at: nat, copy: RunRow) {
    && WorkerAt(s, w) == Driving(id, at) && HasJob(s, id)
    && at < |RunOf(s, id)| && RunOf(s, id)[at].row == copy
  }

  /** It is the worker's `Drive` step: it appends exactly that version and moves the worker on. */
  lemma CommitIsADriveStep(search: Matcher, s: System, w: WorkerId, id: JobId, at: nat, c: Commitment)
    requires DrivesFrom(s, w, id, at, c.copy) && Latest(RunOf(s, id)) == c.db
    requires Allowed(search, c) && (c.request.StepDone? || c.request.StepAborted?)
    ensures var s' := Do(search, s, Step.Drive(w, AttemptOf(c, at)));
            && HasJob(s', id) && RunOf(s', id) == RunOf(s, id) + [NewVersion(c)]
            && WorkerAt(s', w) == (if c.request.StepDone? then Driving(id, |RunOf(s, id)|) else Worker.Done(id, true))
            && s'.jobs == s.jobs && s'.pushes == s.pushes
  {
    CommitIsAttempt(search, RunOf(s, id), at, c);
  }

  /** After a committed step the driver's copy is the row of the version it just appended. */
  lemma CopyIsTheNewVersion(search: Matcher, c: Commitment, copy: RunRow)
    requires LogOk(c.db) && c.copy == c.db.row && Allowed(search, c) && LeavesCopy(c, copy)
    ensures copy == NewVersion(c).row
  {
    ExecKeepsLog(Tx(c.copy, c.db), c.ops);
  }

  /** A commit that goes through was made from the latest version. */
  lemma CommitIsFresh(search: Matcher, s: System, w: WorkerId, id: JobId, at: nat, c: Commitment)
    requires SafeOk(search, s) && DrivesFrom(s, w, id, at, c.copy) && Latest(RunOf(s, id)) == c.db
    requires Allowed(search, c) && (c.request.StepDone? || c.request.StepAborted?)
    ensures at == |RunOf(s, id)| - 1 && c.copy == c.db.row && LogOk(c.db)
  {
    var h := RunOf(s, id);
    assert HistoryOk(search, h);
    CommitIsAttempt(search, h, at, c);
    OnlyFreshCommits(search, h, AttemptOf(c, at));
    assert SoundAt(search, h, |h| - 1);
  }

  // ------------------------------------------------------------------ whole drives

  /** The steps of a drive's log, with the steps `others[i]` of others before its i-th commit. */
  function Schedule(w: WorkerId, at: nat, log: seq<Commitment>, others: seq<seq<Step>>): seq<Step>
    requires |others| == |log|
    decreases |log|
  {
    if log == [] then []
    else
      var n := |log| - 1;
      Schedule(w, at, log[..n], others[..n]) + others[n] + [Step.Drive(w, AttemptOf(log[n], at + n))]
  }

  /** Where each list of steps leads. */
  type Course = seq<Step> -> System

  function CourseOf(search: Matcher): Course {
    steps => After(search, steps)
  }

  /**
   Between the history `steps` and the commit `c`, worker `w` does nothing, and `c` meets the rows committed
   by then.
   */
  ghost predicate MeetsAfter(course: Course, steps: seq<Step>, more: seq<Step>, w: WorkerId, id: JobId, c: Commitment) {
    && (forall k :: 0 <= k < |more| ==> Mover(more[k]) != Some(w))
    && var s := course(steps + more);
       HasJob(s, id) && Latest(RunOf(s, id)) == c.db
  }

  /** Each transaction of the log began on the rows that the history had committed by then. */
  ghost predicate MadeIn(course: Course, steps: seq<Step>, w: WorkerId, id: JobId, at: nat,
                         log: seq<Commitment>, others: seq<seq<Step>>)
    requires |others| == |log|
    decreases |log|
  {
    if log == [] then true
    else
      var n := |log| - 1;
      && MadeIn(course, steps, w, id, at, log[..n], others[..n])
      && MeetsAfter(course, steps + Schedule(w, at, log[..n], others[..n]), others[n], w, id, log[n])
  }

  function NewVersions(log: seq<Commitment>): seq<Tables> {
    if log == [] then [] else NewVersions(log[..|log| - 1]) + [NewVersion(log[|log| - 1])]
  }

  lemma {:induction false} OthersLeaveTheWorker(search: Matcher, steps: seq<Step>, more: seq<Step>, w: WorkerId)
    requires forall k :: 0 <= k < |more| ==> Mover(more[k]) != Some(w)
    ensures WorkerAt(After(search, steps + more), w) == WorkerAt(After(search, steps), w)
    decreases |more|
  {
    if more == [] {
      assert steps + more == steps;
    } else {
      var n := |more| - 1;
      assert steps + more == steps + more[..n] + [more[n]];
      OthersLeaveTheWorker(search, steps, more[..n], w);
      AfterOne(search, steps + more[..n], more[n]);
      OthersStayPut(search, After(search, steps + more[..n]), more[n], w);
    }
  }

  /** Until its next commit the driver's position stays what it is, and its run only grows. */
  lemma StillDrives(search: Matcher, steps: seq<Step>, more: seq<Step>, w: WorkerId, id: JobId, at: nat, c: Commitment)
    requires DrivesFrom(After(search, steps), w, id, at, c.copy) && MeetsAfter(CourseOf(search), steps, more, w, id, c)
    ensures DrivesFrom(After(search, steps + more), w, id, at, c.copy)
    ensures RunOf(After(search, steps), id) <= RunOf(After(search, steps + more), id)
  {
    OthersLeaveTheWorker(search, steps, more, w);
    NothingCommittedIsTakenBack(search, steps, more);
  }

  /** From `s` to `t` worker `w` has committed `c`, as its run's next version and from the latest one. */
  predicate Appended(s: System, t: System, w: WorkerId, id: JobId, at: nat, c: Commitment) {
    && HasJob(s, id) && HasJob(t, id)
    && at == |RunOf(s, id)| - 1 && RunOf(t, id) == RunOf(s, id) + [NewVersion(c)]
    && WorkerAt(t, w) == (if c.request.StepDone? then Driving(id, at + 1) else Worker.Done(id, true))
  }

  lemma DriveAppends(search: Matcher, s: System, t: System, w: WorkerId, id: JobId, at: nat, c: Commitment)
    requires DrivesFrom(s, w, id, at, c.copy) && DrivesFrom(t, w, id, at, c.copy) && RunOf(s, id) <= RunOf(t, id)
    requires SafeOk(search, t) && Latest(RunOf(t, id)) == c.db
    requires Allowed(search, c) && (c.request.StepDone? || c.request.StepAborted?)
    ensures Appended(s, Do(search, t, Step.Drive(w, AttemptOf(c, at))), w, id, at, c) && c.copy == c.db.row
            && LogOk(c.db)
  {
    CommitIsFresh(search, t, w, id, at, c);
    CommitIsADriveStep(search, t, w, id, at, c);
    assert RunOf(t, id) == RunOf(s, id);
  }

  /**
   One commit of a drive, after anything others did since the last one: if the last version was the
   driver's own, nobody else has committed on the run, and the commit appends the next version.
   */
  lemma NextCommit(search: Matcher, steps: seq<Step>, more: seq<Step>, after: seq<Step>, w: WorkerId, id: JobId,
                   at: nat, c: Commitment)
    requires DrivesFrom(After(search, steps), w, id, at, c.copy) && MeetsAfter(CourseOf(search), steps, more, w, id, c)
    requires Allowed(search, c) && (c.request.StepDone? || c.request.StepAborted?)
    requires after == steps + more + [Step.Drive(w, AttemptOf(c, at))]
    ensures Appended(After(search, steps), After(search, after), w, id, at, c) && c.copy == c.db.row && LogOk(c.db)
  {
    StillDrives(search, steps, more, w, id, at, c);
    EveryHistoryIsSafe(search, steps + more);
    DriveAppends(search, After(search, steps), After(search, steps + more), w, id, at, c);
    AfterOne(search, steps + more, Step.Drive(w, AttemptOf(c, at)));
  }

  /** From `s` to `t` worker `w` has committed exactly the log, and it is left with the copy `last`. */
  predicate Drove(s: System, t: System, w: WorkerId, id: JobId, at: nat, log: seq<Commitment>, last: RunRow) {
    && HasJob(s, id) && DrivesFrom(t, w, id, at + |log|, last)
    && RunOf(t, id) == RunOf(s, id) + NewVersions(log)
    && (log != [] ==> at + |log| == |RunOf(t, id)| - 1)
  }

  lemma DroveFurther(s: System, mid: System, t: System, w: WorkerId, id: JobId, at: nat, log: seq<Commitment>,
                     last: RunRow)
    requires log != [] && var n, c := |log| - 1, log[|log| - 1];
             && Drove(s, mid, w, id, at, log[..n], c.copy) && Appended(mid, t, w, id, at + n, c)
             && c.request.StepDone? && NewVersion(c).row == last
    ensures Drove(s, t, w, id, at, log, last)
  {
    Associates(RunOf(s, id), NewVersions(log[..|log| - 1]), NewVersion(log[|log| - 1]));
  }

  lemma Associates(a: Versions, b: Versions, t: Tables)
    ensures a + b + [t] == a + (b + [t])
  {
  }

  /** `after` is `before`, some steps of others, and then the step in which worker `w` commits `c`. */
  ghost predicate Makes(search: Matcher, course: Course, before: seq<Step>, more: seq<Step>, after: seq<Step>,
                        w: WorkerId, id: JobId, at: nat, c: Commitment, last: RunRow)
  {
    && DrivesFrom(course(before), w, id, at, c.copy) && MeetsAfter(course, before, more, w, id, c)
    && Allowed(search, c) && c.request.StepDone? && LeavesCopy(c, last)
    && after == before + more + [Step.Drive(w, AttemptOf(c, at))]
  }

  /** Each commit of worker `w` appends its version. */
  ghost predicate OneByOne(search: Matcher, course: Course, w: WorkerId, id: JobId) {
    forall before, more, after, at, c, last :: Makes(search, course, before, more, after, w, id, at, c, last) ==>
      Appended(course(before), course(after), w, id, at, c) && NewVersion(c).row == last
  }

  lemma ProtocolIsOneByOne(search: Matcher, w: WorkerId, id: JobId)
    ensures OneByOne(search, CourseOf(search), w, id)
  {
    forall before, more, after, at, c, last | Makes(search, CourseOf(search), before, more, after, w, id, at, c, last)
      ensures Appended(After(search, before), After(search, after), w, id, at, c) && NewVersion(c).row == last
    {
      NextCommit(search, before, more, after, w, id, at, c);
      CopyIsTheNewVersion(search, c, last);
    }
  }

  lemma AppendThree(a: seq<Step>, b: seq<Step>, c: seq<Step>, d: seq<Step>)
    ensures a + (b + c + d) == a + b + c + d
  {
  }

  lemma ScheduleSnoc(w: WorkerId, at: nat, log: seq<Commitment>, others: seq<seq<Step>>, steps: seq<Step>)
    requires |others| == |log| > 0
    ensures var n := |log| - 1;
            steps + Schedule(w, at, log, others)
            == steps + Schedule(w, at, log[..n], others[..n]) + others[n] + [Step.Drive(w, AttemptOf(log[n], at + n))]
  {
    var n := |log| - 1;
    AppendThree(steps, Schedule(w, at, log[..n], others[..n]), others[n], [Step.Drive(w, AttemptOf(log[n], at + n))]);
  }

  lemma CommitIsMade(search: Matcher, course: Course, before: seq<Step>, more: seq<Step>, after: seq<Step>,
                   w: WorkerId, id: JobId, at: nat, c: Commitment, last: RunRow)
    requires OneByOne(search, course, w, id)
    requires DrivesFrom(course(before), w, id, at, c.copy) && MeetsAfter(course, before, more, w, id, c)
    requires Allowed(search, c) && c.request.StepDone? && LeavesCopy(c, last)
    requires after == before + more + [Step.Drive(w, AttemptOf(c, at))]
    ensures NewVersion(c).row == last && Appended(course(before), course(after), w, id, at, c)
  {
    assert Makes(search, course, before, more, after, w, id, at, c, last);
  }

  lemma LastIsMade(search: Matcher, course: Course, before: seq<Step>, more: seq<Step>, after: seq<Step>,
                   w: WorkerId, id: JobId, at: nat, log: seq<Commitment>, first: RunRow, last: RunRow)
    requires OneByOne(search, course, w, id) && log != [] && DriveLog(search, log, first, last)
    requires var n := |log| - 1;
             && DrivesFrom(course(before), w, id, at + n, log[n].copy)
             && MeetsAfter(course, before, more, w, id, log[n])
             && after == before + more + [Step.Drive(w, AttemptOf(log[n], at + n))]
    ensures var n := |log| - 1;
            && log[n].request.StepDone? && NewVersion(log[n]).row == last
            && Appended(course(before), course(after), w, id, at + n, log[n])
  {
    CommitIsMade(search, course, before, more, after, w, id, at + (|log| - 1), log[|log| - 1], last);
  }

  /** A log whose commits append one by one, on any course. */
  lemma {:induction false} LogAppends(search: Matcher, course: Course, steps: seq<Step>, w: WorkerId, id: JobId,
                                      at: nat, log: seq<Commitment>, others: seq<seq<Step>>,
                                      first: RunRow, last: RunRow)
    requires OneByOne(search, course, w, id) && |others| == |log|
    requires DriveLog(search, log, first, last) && MadeIn(course, steps, w, id, at, log, others)
    requires DrivesFrom(course(steps), w, id, at, first)
    ensures Drove(course(steps), course(steps + Schedule(w, at, log, others)), w, id, at, log, last)
    decreases |log|
  {
    if log == [] {
      assert steps + Schedule(w, at, log, others) == steps;
    } else {
      var n := |log| - 1;
      LogAppends(search, course, steps, w, id, at, log[..n], others[..n], first, log[n].copy);
      ScheduleSnoc(w, at, log, others, steps);
      var before, after := steps + Schedule(w, at, log[..n], others[..n]), steps + Schedule(w, at, log, others);
      assert DrivesFrom(course(before), w, id, at + n, log[n].copy);
      LastIsMade(search, course, before, others[n], after, w, id, at, log, first, last);
      DroveFurther(course(steps), course(before), course(after), w, id, at, log, last);
    }
  }

  /**
   The log of a whole drive is a history: if a worker drives a job from a copy of version `at`, and
   each transaction of the log began on the rows committed by then, then the log's commits are that
   worker's `Drive` steps, they append consecutive versions whatever others do in between, and the
   worker is left with the copy the log ends in.
   */
  lemma DriveLogIsAHistory(search: Matcher, steps: seq<Step>, w: WorkerId, id: JobId, at: nat,
                           log: seq<Commitment>, others: seq<seq<Step>>, first: RunRow, last: RunRow)
    requires |others| == |log| && DriveLog(search, log, first, last)
    requires MadeIn(CourseOf(search), steps, w, id, at, log, others)
    requires DrivesFrom(After(search, steps), w, id, at, first)
    ensures Drove(After(search, steps), After(search, steps + Schedule(w, at, log, others)), w, id, at, log, last)
  {
    ProtocolIsOneByOne(search, w, id);
    LogAppends(search, CourseOf(search), steps, w, id, at, log, others, first, last);
  }

  /** And a drive that fails ends with one more step, which leaves the run failed and the job done. */
  lemma FailedDriveIsAHistory(search: Matcher, steps: seq<Step>, w: WorkerId, id: JobId, at: nat,
                              log: seq<Commitment>, others: seq<seq<Step>>, first: RunRow, failure: Commitment,
                              more: seq<Step>)
    requires |others| == |log| && DriveLog(search, log, first, failure.copy)
             && MadeIn(CourseOf(search), steps, w, id, at, log, others)
    requires DrivesFrom(After(search, steps), w, id, at, first)
    requires Allowed(search, failure) && failure.request.StepAborted?
    requires MeetsAfter(CourseOf(search), steps + Schedule(w, at, log, others), more, w, id, failure)
    ensures DroveAndFailed(After(search, steps),
                           After(search, steps + Schedule(w, at, log, others) + more
                                 + [Step.Drive(w, AttemptOf(failure, at + |log|))]),
                           w, id, log, failure)
  {
    DriveLogIsAHistory(search, steps, w, id, at, log, others, first, failure.copy);
    FailureAfter(search, After(search, steps), steps + Schedule(w, at, log, others), more, w, id, at, log, failure);
  }

  lemma FailureAfter(search: Matcher, s: System, before: seq<Step>, more: seq<Step>, w: WorkerId, id: JobId, at: nat,
                     log: seq<Commitment>, failure: Commitment)
    requires Drove(s, After(search, before), w, id, at, log, failure.copy)
             && MeetsAfter(CourseOf(search), before, more, w, id, failure)
    requires Allowed(search, failure) && failure.request.StepAborted?
    ensures DroveAndFailed(s, After(search, before + more + [Step.Drive(w, AttemptOf(failure, at + |log|))]),
                           w, id, log, failure)
  {
    var after := before + more + [Step.Drive(w, AttemptOf(failure, at + |log|))];
    NextCommit(search, before, more, after, w, id, at + |log|, failure);
    AbortedRunsFail(search, failure);
    ThenFailed(s, After(search, before), After(search, after), w, id, at, log, failure);
  }

  /** From `s` to `t` worker `w` has committed the log and then the run's failure, and is done with its job. */
  predicate DroveAndFailed(s: System, t: System, w: WorkerId, id: JobId, log: seq<Commitment>, failure: Commitment) {
    && HasJob(s, id) && HasJob(t, id) && WorkerAt(t, w) == Worker.Done(id, true)
    && RunOf(t, id) == RunOf(s, id) + NewVersions(log) + [NewVersion(failure)]
    && NewVersion(failure).row.state == Failed
  }

  lemma ThenFailed(s: System, mid: System, t: System, w: WorkerId, id: JobId, at: nat, log: seq<Commitment>,
                   failure: Commitment)
    requires Drove(s, mid, w, id, at, log, failure.copy) && Appended(mid, t, w, id, at + |log|, failure)
    requires failure.request.StepAborted? && NewVersion(failure).row.state == Failed
    ensures DroveAndFailed(s, t, w, id, log, failure)
  {
  }

  lemma AbortedRunsFail(search: Matcher, c: Commitment)
    requires LogOk(c.db) && c.copy == c.db.row && Allowed(search, c) && c.request.StepAborted?
    ensures NewVersion(c).row.state == Failed
  {
    LastTransitionWins(c.db, Writes(search, c.request, c.copy, c.db, c.db).value, c.ops, Failed);
  }

  /**
   The evidence a version that waits for approval carries, and that a completed run is later judged
   by, is what a test run of the drive that committed it showed.
   */
  lemma EvidenceWasRun(search: Matcher, c: Commitment, tests: AgentLoops.TestRuns, e: nat -> Surroundings)
    requires LogOk(c.db) && c.copy == c.db.row && Allowed(search, c) && Witnessed(c, tests, e)
    requires c.request.StepDone? && c.copy.state == Verifying
    ensures NewVersion(c).row.state == WaitingForApproval && NewVersion(c).evidence.Some?
    ensures AllPassed(NewVersion(c).evidence.value) && Ran(NewVersion(c).evidence.value, tests, e)
  {
    var outcomes := c.request.work.suite.Outcomes();
    CommitEffect(c.db, c.ops);
    ExecTwo(Tx(c.db.row, c.db), Witness(outcomes), Transition(WaitingForApproval));
  }
}
