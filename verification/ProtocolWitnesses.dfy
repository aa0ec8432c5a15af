/**
 Two histories of the protocol that show what its theorems cannot promise. `_record_failure` reads
 the run and then writes the event number after the one it read; if another session commits in
 between, the write is refused and the job is marked failed while the run is still active. At the
 job's last attempt that loses the run. And a worker that lost its lease can put a job that has
 succeeded back into the queue.
 */
module ProtocolWitnesses {
  import opened Basics
  import opened RunStates
  import opened TestEvidence
  import opened Store
  import opened Risk
  import opened Transactions
  import opened History
  import opened Jobs
  import opened Protocol
  import opened ProtocolInvariant
  import opened ProtocolLiveness
  import opened ProtocolTheorems

  const SOME_WORK := Work("", 0, Suite(OtherFramework, None, None))

  /** A step from version `at` that only changes the state. */
  function PlainStep(at: nat, target: RunState): Attempt {
    Attempt(at, at, at, StepDone(SOME_WORK), [Transition(target)])
  }

  /** Three workers take the job in turn; the first one is slow, not dead. */
  const FIRST_TAKES: seq<Step> := [CreateRun(0, 0, false, 0), ClaimJob(1, 0, 0, 120), LoadRun(1, 0)]
  const SECOND_TAKES: seq<Step> := [ReclaimJob(0, 121), ClaimJob(2, 0, 121, 120), Crash(2)]
  const THIRD_TAKES: seq<Step> := [ReclaimJob(0, 242), ClaimJob(3, 0, 242, 120), LoadRun(3, 0)]

  /** The slow worker commits a step, so the third one's own commit is refused, and it reads the run again. */
  const SLOW_COMMITS: seq<Step> := [Drive(1, PlainStep(0, CloningRepository)), Raise(3), ReadForFailure(3, 1)]

  /** The slow worker commits another step, so the third one's failure record is refused as well. */
  const RECORD_COLLIDES: seq<Step> := [Drive(1, PlainStep(1, AnalyzingIssue)), RecordsFailure(3), MarkJob(3, 243, 30)]

  const ALL_DIE: seq<Step> := [Crash(1), Crash(2), Crash(3)]

  const COLLISION: seq<Step> := FIRST_TAKES + SECOND_TAKES + THIRD_TAKES + SLOW_COMMITS + RECORD_COLLIDES + ALL_DIE

  const FIRST_VERSION := [NewRun(false)]
  const JOB_QUEUED := NewJob(ExecuteRun, 0, 0, 3, 0)
  const JOB_TAKEN := Claimed(JOB_QUEUED, 1, 0, 120)
  const JOB_TAKEN_TWICE := Claimed(Reclaimed(JOB_TAKEN), 2, 121, 120)
  const JOB_TAKEN_THREE_TIMES := Claimed(Reclaimed(JOB_TAKEN_TWICE), 3, 242, 120)

  const ONE_HOLDS := System(map[0 := FIRST_VERSION], map[0 := JOB_TAKEN], map[1 := Driving(0, 0)], [])
  const TWO_DIED := System(map[0 := FIRST_VERSION], map[0 := JOB_TAKEN_TWICE], map[1 := Driving(0, 0), 2 := Idle], [])
  const THREE_HOLDS :=
    System(map[0 := FIRST_VERSION], map[0 := JOB_TAKEN_THREE_TIMES],
           map[1 := Driving(0, 0), 2 := Idle, 3 := Driving(0, 0)], [])

  lemma ThreeMore(steps: seq<Step>, more: seq<Step>)
    requires |more| == 3
    ensures steps + more == steps + [more[0]] + [more[1]] + [more[2]]
  {
  }

  /** Three steps more. */
  lemma AfterThree(search: Matcher, steps: seq<Step>, more: seq<Step>)
    requires |more| == 3
    ensures After(search, steps + more)
            == Do(search, Do(search, Do(search, After(search, steps), more[0]), more[1]), more[2])
  {
    ThreeMore(steps, more);
    AfterOne(search, steps, more[0]);
    AfterOne(search, steps + [more[0]], more[1]);
    AfterOne(search, steps + [more[0]] + [more[1]], more[2]);
  }

  // ------------------------------------------------------------------ three workers take the job

  lemma OneTakes(search: Matcher)
    ensures After(search, FIRST_TAKES) == ONE_HOLDS
  {
    AfterThree(search, [], FIRST_TAKES);
    assert [] + FIRST_TAKES == FIRST_TAKES;
    FirstSteps();
  }

  lemma FirstSteps()
    ensures DoLoad(DoClaim(DoCreate(EMPTY_SYSTEM, 0, 0, false, 0), 1, 0, 0, 120), 1, 0) == ONE_HOLDS
  {
    var created := DoCreate(EMPTY_SYSTEM, 0, 0, false, 0);
    assert created == System(map[0 := FIRST_VERSION], map[0 := JOB_QUEUED], map[], []);
    var claimed := DoClaim(created, 1, 0, 0, 120);
    assert claimed == System(map[0 := FIRST_VERSION], map[0 := JOB_TAKEN], map[1 := Holding(0)], []);
  }

  lemma LeaseRunsOut(search: Matcher)
    ensures Do(search, ONE_HOLDS, ReclaimJob(0, 121)) == SetJob(ONE_HOLDS, 0, Reclaimed(JOB_TAKEN))
  {
    assert Expired(ONE_HOLDS.jobs[0], 121);
  }

  lemma SecondTakesIs(search: Matcher, before: seq<Step>)
    ensures After(search, before + SECOND_TAKES) ==
            SetWorker(DoClaim(Do(search, After(search, before), ReclaimJob(0, 121)), 2, 0, 121, 120), 2, Idle)
  {
    AfterThree(search, before, SECOND_TAKES);
  }

  lemma TwoTakes(search: Matcher)
    ensures After(search, FIRST_TAKES + SECOND_TAKES) == TWO_DIED
  {
    OneTakes(search);
    SecondTakesIs(search, FIRST_TAKES);
    LeaseRunsOut(search);
    SecondSteps();
  }

  lemma SecondSteps()
    ensures SetWorker(DoClaim(SetJob(ONE_HOLDS, 0, Reclaimed(JOB_TAKEN)), 2, 0, 121, 120), 2, Idle) == TWO_DIED
  {
    var reclaimed := SetJob(ONE_HOLDS, 0, Reclaimed(JOB_TAKEN));
    assert reclaimed == System(map[0 := FIRST_VERSION], map[0 := Reclaimed(JOB_TAKEN)], map[1 := Driving(0, 0)], []);
    var claimed := DoClaim(reclaimed, 2, 0, 121, 120);
    assert claimed == System(map[0 := FIRST_VERSION], map[0 := JOB_TAKEN_TWICE],
                             map[1 := Driving(0, 0), 2 := Holding(0)], []);
  }

  lemma ThreeTakes(search: Matcher)
    ensures After(search, FIRST_TAKES + SECOND_TAKES + THIRD_TAKES) == THREE_HOLDS
  {
    TwoTakes(search);
    AfterThree(search, FIRST_TAKES + SECOND_TAKES, THIRD_TAKES);
    assert Expired(TWO_DIED.jobs[0], 242);
    ThirdSteps();
  }

  lemma ThirdSteps()
    ensures DoLoad(DoClaim(SetJob(TWO_DIED, 0, Reclaimed(JOB_TAKEN_TWICE)), 3, 0, 242, 120), 3, 0) == THREE_HOLDS
  {
    var reclaimed := SetJob(TWO_DIED, 0, Reclaimed(JOB_TAKEN_TWICE));
    assert reclaimed == System(map[0 := FIRST_VERSION], map[0 := Reclaimed(JOB_TAKEN_TWICE)],
                               map[1 := Driving(0, 0), 2 := Idle], []);
    var claimed := DoClaim(reclaimed, 3, 0, 242, 120);
    assert claimed == System(map[0 := FIRST_VERSION], map[0 := JOB_TAKEN_THREE_TIMES],
                             map[1 := Driving(0, 0), 2 := Idle, 3 := Holding(0)], []);
  }

  // ------------------------------------------------------------------ a collision

  /** The one run, its number of versions and latest state, the one job, and where the workers are. */
  predicate At(s: System, versions: nat, state: RunState, job: Job, workers: map<WorkerId, Worker>) {
    && s.runs.Keys == {0} && |s.runs[0]| == versions > 0 && Latest(s.runs[0]).row.state == state
    && s.jobs == map[0 := job] && s.workers == workers
  }

  /** A step from the latest version is not refused. */
  lemma FreshStepCommits(search: Matcher, h: Versions, target: RunState)
    requires HistoryOk(search, h) && Latest(h).row.state in {Created, CloningRepository}
    requires target == StepTarget(Latest(h).row.state, false)
    ensures Attemptable(search, h, PlainStep(|h| - 1, target))
    ensures Committed(search, h, PlainStep(|h| - 1, target)).Some?
    ensures Committed(search, h, PlainStep(|h| - 1, target)).value.row.state == target
  {
    var t := Latest(h);
    assert SoundAt(search, h, |h| - 1);
    assert Core([Transition(target)]) == [Transition(target)] by {
      assert [Transition(target)][1..] == [];
    }
    ExecOne(Tx(t.row, t), Transition(target));
  }

  /** Worker 1 commits one more step of the run it still drives. */
  lemma SlowStep(search: Matcher, s: System, n: nat, from: RunState, job: Job, workers: map<WorkerId, Worker>)
    requires At(s, n + 1, from, job, workers) && HistoryOk(search, s.runs[0]) && from in {Created, CloningRepository}
    requires job.run == 0 && 1 in workers && workers[1] == Driving(0, n)
    ensures At(DoDrive(search, s, 1, PlainStep(n, StepTarget(from, false))), n + 2, StepTarget(from, false), job,
               workers[1 := Driving(0, n + 1)])
  {
    FreshStepCommits(search, s.runs[0], StepTarget(from, false));
  }

  lemma ThirdReads(s: System)
    requires At(s, 2, CloningRepository, JOB_TAKEN_THREE_TIMES, map[1 := Driving(0, 1), 2 := Idle, 3 := Driving(0, 0)])
    ensures At(DoReadForFailure(DoRaise(s, 3), 3, 1),
               2, CloningRepository, JOB_TAKEN_THREE_TIMES, map[1 := Driving(0, 1), 2 := Idle, 3 := Recording(0, 1)])
  {
    assert DoRaise(s, 3).workers == map[1 := Driving(0, 1), 2 := Idle, 3 := Recovering(0)];
  }

  lemma SlowWorkerWins(search: Matcher, s: System)
    requires SafeOk(search, s) && s == THREE_HOLDS
    ensures At(DoReadForFailure(DoRaise(DoDrive(search, s, 1, PlainStep(0, CloningRepository)), 3), 3, 1),
               2, CloningRepository, JOB_TAKEN_THREE_TIMES, map[1 := Driving(0, 1), 2 := Idle, 3 := Recording(0, 1)])
  {
    SlowStep(search, s, 0, Created, JOB_TAKEN_THREE_TIMES, s.workers);
    ThirdReads(DoDrive(search, s, 1, PlainStep(0, CloningRepository)));
  }

  lemma SlowCommitsAre(search: Matcher, before: seq<Step>)
    ensures After(search, before + SLOW_COMMITS) ==
            DoReadForFailure(DoRaise(DoDrive(search, After(search, before), 1, PlainStep(0, CloningRepository)), 3),
                             3, 1)
  {
    AfterThree(search, before, SLOW_COMMITS);
  }

  lemma AfterSlowCommits(search: Matcher, before: seq<Step>)
    requires After(search, before) == THREE_HOLDS
    ensures At(After(search, before + SLOW_COMMITS),
               2, CloningRepository, JOB_TAKEN_THREE_TIMES, map[1 := Driving(0, 1), 2 := Idle, 3 := Recording(0, 1)])
  {
    EveryHistoryIsSafe(search, before);
    SlowWorkerWins(search, After(search, before));
    SlowCommitsAre(search, before);
  }

  lemma RecordIsRefused(search: Matcher, s: System)
    requires At(s, 3, AnalyzingIssue, JOB_TAKEN_THREE_TIMES,
                map[1 := Driving(0, 1), 2 := Idle, 3 := Recording(0, 1)][1 := Driving(0, 2)])
    requires HistoryOk(search, s.runs[0])
    ensures At(DoMark(DoRecordsFailure(search, s, 3), 3, 243, 30),
               3, AnalyzingIssue, MarkedFailed(JOB_TAKEN_THREE_TIMES, 243, 30),
               map[1 := Driving(0, 2), 2 := Idle, 3 := Idle])
  {
    assert TryCommit(search, s, 0, FailureOf(1)).None? by {
      if TryCommit(search, s, 0, FailureOf(1)).Some? {
        OnlyFreshCommits(search, s.runs[0], FailureOf(1));
      }
    }
    assert DoRecordsFailure(search, s, 3).workers == map[1 := Driving(0, 2), 2 := Idle, 3 := Done(0, false)];
  }

  lemma SlowStepIsSound(search: Matcher, s: System, s1: System)
    requires SafeOk(search, s) && s1 == DoDrive(search, s, 1, PlainStep(1, AnalyzingIssue)) && 0 in s1.runs
    ensures HistoryOk(search, s1.runs[0])
  {
    DriveIsSafe(search, s, 1, PlainStep(1, AnalyzingIssue));
  }

  lemma RecordCollidesIs(search: Matcher, before: seq<Step>)
    ensures After(search, before + RECORD_COLLIDES) ==
            DoMark(DoRecordsFailure(search, DoDrive(search, After(search, before), 1, PlainStep(1, AnalyzingIssue)), 3),
                   3, 243, 30)
  {
    AfterThree(search, before, RECORD_COLLIDES);
  }

  lemma FailureRecordLoses(search: Matcher, s: System, s1: System)
    requires SafeOk(search, s) && s1 == DoDrive(search, s, 1, PlainStep(1, AnalyzingIssue))
    requires At(s, 2, CloningRepository, JOB_TAKEN_THREE_TIMES,
                map[1 := Driving(0, 1), 2 := Idle, 3 := Recording(0, 1)])
    ensures At(s1, 3, AnalyzingIssue, JOB_TAKEN_THREE_TIMES,
               map[1 := Driving(0, 1), 2 := Idle, 3 := Recording(0, 1)][1 := Driving(0, 2)])
    ensures HistoryOk(search, s1.runs[0])
  {
    SlowStep(search, s, 1, CloningRepository, JOB_TAKEN_THREE_TIMES,
             map[1 := Driving(0, 1), 2 := Idle, 3 := Recording(0, 1)]);
    SlowStepIsSound(search, s, s1);
  }

  lemma AfterRecordCollides(search: Matcher, before: seq<Step>)
    requires At(After(search, before), 2, CloningRepository, JOB_TAKEN_THREE_TIMES,
                map[1 := Driving(0, 1), 2 := Idle, 3 := Recording(0, 1)])
    ensures At(After(search, before + RECORD_COLLIDES),
               3, AnalyzingIssue, MarkedFailed(JOB_TAKEN_THREE_TIMES, 243, 30),
               map[1 := Driving(0, 2), 2 := Idle, 3 := Idle])
  {
    EveryHistoryIsSafe(search, before);
    var s1 := DoDrive(search, After(search, before), 1, PlainStep(1, AnalyzingIssue));
    FailureRecordLoses(search, After(search, before), s1);
    RecordIsRefused(search, s1);
    RecordCollidesIs(search, before);
  }

  lemma TheyDie(s: System, state: RunState, job: Job, workers: map<WorkerId, Worker>)
    requires At(s, 3, state, job, workers) && workers.Keys == {1, 2, 3}
    ensures At(SetWorker(SetWorker(SetWorker(s, 1, Idle), 2, Idle), 3, Idle), 3, state, job,
               map[1 := Idle, 2 := Idle, 3 := Idle])
  {
  }

  lemma AllDieIs(search: Matcher, before: seq<Step>)
    ensures After(search, before + ALL_DIE)
            == SetWorker(SetWorker(SetWorker(After(search, before), 1, Idle), 2, Idle), 3, Idle)
  {
    AfterThree(search, before, ALL_DIE);
  }

  lemma AfterCollision(search: Matcher)
    ensures At(After(search, COLLISION),
               3, AnalyzingIssue, MarkedFailed(JOB_TAKEN_THREE_TIMES, 243, 30), map[1 := Idle, 2 := Idle, 3 := Idle])
  {
    var before := FIRST_TAKES + SECOND_TAKES + THIRD_TAKES;
    ThreeTakes(search);
    AfterSlowCommits(search, before);
    AfterRecordCollides(search, before + SLOW_COMMITS);
    AllDieIs(search, before + SLOW_COMMITS + RECORD_COLLIDES);
    TheyDie(After(search, before + SLOW_COMMITS + RECORD_COLLIDES), AnalyzingIssue,
            MarkedFailed(JOB_TAKEN_THREE_TIMES, 243, 30), map[1 := Driving(0, 2), 2 := Idle, 3 := Idle]);
  }

  /**
   With a single collision, at a job's last attempt, the property fails: the run is still active,
   every worker is gone, and no job is left to bring one back.
   */
  lemma ACollisionCanLoseARun(search: Matcher)
    ensures Lost(After(search, COLLISION), 0) && !NeverAbandoned(search, COLLISION, 0)
    ensures forall w :: WorkerAt(After(search, COLLISION), w) == Idle
  {
    AfterCollision(search);
    if NeverAbandoned(search, COLLISION, 0) {
      NoRunIsLost(search, COLLISION, 0);
    }
  }

  // ------------------------------------------------------------------ a late failure

  const CANCELLING := Attempt(0, 0, 0, Cancel, [Transition(Cancelled)])

  /** The first worker loses its lease, the run is cancelled, and a second one takes the job. */
  const CANCELLED_MEANWHILE: seq<Step> :=
    [ReclaimJob(0, 121), ApiRequest(0, CANCELLING, 1, 121), ClaimJob(2, 0, 121, 120)]

  /** It finds nothing left to do, and reports success. */
  const SECOND_SUCCEEDS: seq<Step> := [LoadRun(2, 1), MarkJob(2, 122, 30), Crash(2)]

  /** The first worker's next commit is refused, and it reports failure. */
  const FIRST_FAILS: seq<Step> := [Raise(1), ReadForFailure(1, 1), MarkJob(1, 123, 30)]

  const SUCCEEDED: seq<Step> := FIRST_TAKES + CANCELLED_MEANWHILE + SECOND_SUCCEEDS

  lemma CancelCommits(search: Matcher)
    ensures Attemptable(search, FIRST_VERSION, CANCELLING) && Committed(search, FIRST_VERSION, CANCELLING).Some?
    ensures Committed(search, FIRST_VERSION, CANCELLING).value.row.state == Cancelled
  {
    var t := NewRun(false);
    assert Core([Transition(Cancelled)]) == [Transition(Cancelled)] by {
      assert [Transition(Cancelled)][1..] == [];
    }
    ExecOne(Tx(t.row, t), Transition(Cancelled));
  }

  lemma SecondTakesACancelledRun(search: Matcher)
    ensures At(DoClaim(DoApi(search, SetJob(ONE_HOLDS, 0, Reclaimed(JOB_TAKEN)), 0, CANCELLING, 1, 121),
                       2, 0, 121, 120),
               2, Cancelled, JOB_TAKEN_TWICE, map[1 := Driving(0, 0), 2 := Holding(0)])
  {
    CancelCommits(search);
    var s := SetJob(ONE_HOLDS, 0, Reclaimed(JOB_TAKEN));
    assert s == System(map[0 := FIRST_VERSION], map[0 := Reclaimed(JOB_TAKEN)], map[1 := Driving(0, 0)], []);
    assert At(DoApi(search, s, 0, CANCELLING, 1, 121), 2, Cancelled, Reclaimed(JOB_TAKEN), map[1 := Driving(0, 0)]);
  }

  lemma SecondReportsSuccess(s: System)
    requires At(s, 2, Cancelled, JOB_TAKEN_TWICE, map[1 := Driving(0, 0), 2 := Holding(0)])
    ensures At(SetWorker(DoMark(DoLoad(s, 2, 1), 2, 122, 30), 2, Idle),
               2, Cancelled, MarkedSucceeded(JOB_TAKEN_TWICE), map[1 := Driving(0, 0), 2 := Idle])
  {
    assert DoLoad(s, 2, 1).workers == map[1 := Driving(0, 0), 2 := Done(0, true)];
  }

  lemma FirstReportsFailure(s: System, job: Job)
    requires At(s, 2, Cancelled, job, map[1 := Driving(0, 0), 2 := Idle]) && job.since == 0 && job.run == 0
    ensures DoMark(DoReadForFailure(DoRaise(s, 1), 1, 1), 1, 123, 30).jobs == map[0 := MarkedFailed(job, 123, 30)]
  {
    var s1 := DoRaise(s, 1);
    assert s1.workers == map[1 := Recovering(0), 2 := Idle];
    assert DoReadForFailure(s1, 1, 1).workers == map[1 := Done(0, false), 2 := Idle];
  }

  lemma CancelledMeanwhileIs(search: Matcher, before: seq<Step>)
    ensures After(search, before + CANCELLED_MEANWHILE) ==
            DoClaim(DoApi(search, Do(search, After(search, before), ReclaimJob(0, 121)), 0, CANCELLING, 1, 121),
                    2, 0, 121, 120)
  {
    AfterThree(search, before, CANCELLED_MEANWHILE);
  }

  lemma SecondSucceedsIs(search: Matcher, before: seq<Step>)
    ensures After(search, before + SECOND_SUCCEEDS)
            == SetWorker(DoMark(DoLoad(After(search, before), 2, 1), 2, 122, 30), 2, Idle)
  {
    AfterThree(search, before, SECOND_SUCCEEDS);
  }

  lemma SecondIsHolding(search: Matcher)
    ensures At(After(search, FIRST_TAKES + CANCELLED_MEANWHILE), 2, Cancelled, JOB_TAKEN_TWICE,
               map[1 := Driving(0, 0), 2 := Holding(0)])
  {
    OneTakes(search);
    CancelledMeanwhileIs(search, FIRST_TAKES);
    LeaseRunsOut(search);
    SecondTakesACancelledRun(search);
  }

  lemma SecondIsDone(search: Matcher)
    ensures At(After(search, SUCCEEDED), 2, Cancelled, MarkedSucceeded(JOB_TAKEN_TWICE),
               map[1 := Driving(0, 0), 2 := Idle])
  {
    SecondIsHolding(search);
    SecondSucceedsIs(search, FIRST_TAKES + CANCELLED_MEANWHILE);
    SecondReportsSuccess(After(search, FIRST_TAKES + CANCELLED_MEANWHILE));
  }

  lemma FirstFailsIs(search: Matcher, before: seq<Step>)
    ensures After(search, before + FIRST_FAILS)
            == DoMark(DoReadForFailure(DoRaise(After(search, before), 1), 1, 1), 1, 123, 30)
  {
    AfterThree(search, before, FIRST_FAILS);
  }

  /** A job that has succeeded, for a run that is over, is queued again by a worker that lost its lease. */
  lemma ALateFailureRequeues(search: Matcher)
    ensures 0 in After(search, SUCCEEDED).jobs && After(search, SUCCEEDED).jobs[0].status == Succeeded
    ensures 0 in After(search, SUCCEEDED + FIRST_FAILS).jobs
            && After(search, SUCCEEDED + FIRST_FAILS).jobs[0].status == Queued
  {
    SecondIsDone(search);
    FirstFailsIs(search, SUCCEEDED);
    FirstReportsFailure(After(search, SUCCEEDED), MarkedSucceeded(JOB_TAKEN_TWICE));
  }
}
