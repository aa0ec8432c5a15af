/** What the protocol guarantees over every history, read off the invariants. */
module ProtocolTheorems {
  import opened Basics
  import opened RunStates
  import opened TestEvidence
  import opened Store
  import opened Risk
  import opened Texts
  import opened Transactions
  import opened History
  import opened Jobs
  import opened Protocol
  import opened ProtocolInvariant
  import opened ProtocolLiveness

  /** Version `k` of run `r` was committed at some point of the history. */
  predicate Reached(s: System, r: RunId, k: nat) {
    r in s.runs && k < |s.runs[r]|
  }

  /** An active run with no execute_run job queued or running: nothing will bring a worker to it. */
  predicate Lost(s: System, r: RunId) {
    && r in s.runs && s.runs[r] != []
    && Latest(s.runs[r]).row.state !in {WaitingForPlanReview, WaitingForApproval, Completed, RunState.Failed, Cancelled}
    && forall id :: id in s.jobs && s.jobs[id].kind == ExecuteRun && s.jobs[id].run == r ==> !Pending(s.jobs[id])
  }

  /**
   No run is lost: whatever workers, crashes, lease reclaims, cancellations, reviews and colliding
   failure records do, a run that is neither finished nor waiting for a human has an execute_run
   job that is queued or running, unless some step abandoned it.
   */
  lemma NoRunIsLost(search: Matcher, steps: seq<Step>, r: RunId)
    requires NeverAbandoned(search, steps, r)
    ensures !Lost(After(search, steps), r)
  {
    DrivenUpTo(search, steps, r, |steps|);
    assert steps[..|steps|] == steps;
    var s := After(search, steps);
    if Active(s, r) {
      var id: JobId :| Drives(s, r, id);
      assert id in s.jobs && s.jobs[id].kind == ExecuteRun;
    }
  }

  /**
   The exact condition: a run has a job that drives it at every moment of a history if and only if
   no step of the history marks its last driver failed for good while it is active.
   */
  lemma DrivenUnlessAbandoned(search: Matcher, steps: seq<Step>, r: RunId)
    ensures NeverAbandoned(search, steps, r) <==> forall i: nat :: i <= |steps| ==> DrivenAt(search, steps, i, r)
  {
    if NeverAbandoned(search, steps, r) {
      forall i: nat | i <= |steps| ensures DrivenAt(search, steps, i, r) {
        DrivenUpTo(search, steps, r, i);
      }
    } else {
      var i: nat :| i < |steps| && AbandonsAt(search, steps, i, r);
      UndrivenAfter(search, steps, r, i);
    }
  }

  /** A worker marks a job of run `r` failed for good while the run is active. */
  predicate GivesUp(s: System, step: Step, r: RunId) {
    && step.MarkJob? && WorkerAt(s, step.worker).Done? && !WorkerAt(s, step.worker).ok
    && var id := WorkerAt(s, step.worker).job;
       && id in s.jobs && s.jobs[id].kind == ExecuteRun && s.jobs[id].run == r
       && s.jobs[id].attempts >= s.jobs[id].maxAttempts && Active(s, r)
  }

  /** At the step: giving up loses the run exactly when no other execute_run job of it is pending. */
  lemma GivingUpLosesTheRun(search: Matcher, s: System, step: Step, r: RunId)
    requires GivesUp(s, step, r)
    ensures Lost(Do(search, s, step), r) <==>
            forall id :: id in s.jobs && s.jobs[id].kind == ExecuteRun && s.jobs[id].run == r
                         && id != WorkerAt(s, step.worker).job ==>
              !Pending(s.jobs[id])
  {
    var s', given := Do(search, s, step), WorkerAt(s, step.worker).job;
    assert forall id :: id in s.jobs && id != given ==> s'.jobs[id] == s.jobs[id];
    assert !Pending(s'.jobs[given]);
    assert Active(s', r);
  }

  /** What it takes in the code: a run whose failure records never collide is never lost. */
  lemma NoCollisionNoLoss(search: Matcher, steps: seq<Step>, r: RunId)
    requires forall i: nat :: i < |steps| ==> !CollidesAt(search, steps, i, r)
    ensures !Lost(After(search, steps), r)
  {
    OnlyCollisionsAbandon(search, steps, r);
    NoRunIsLost(search, steps, r);
  }

  /**
   An approved run waiting to be published has a create_pull_request job that is queued,
   running, or has used up its attempts; it is never marked done early.
   */
  lemma ApprovedRunsArePublished(search: Matcher, steps: seq<Step>, r: RunId)
    requires IsApproved(After(search, steps), r)
    ensures exists id :: Publishes(After(search, steps), r, id)
  {
    EveryHistoryIsLive(search, steps);
    assert Published(After(search, steps), r);
  }

  /**
   Stale writers change nothing: every committed version has events numbered exactly
   1..lastSequence whose state changes are a path from CREATED to the row's state; and every
   earlier version's events are still there, unchanged.
   */
  lemma CommittedLogsAreSound(search: Matcher, steps: seq<Step>, r: RunId, i: nat, k: nat)
    requires Reached(After(search, steps), r, k) && i <= k
    ensures SoundLog(After(search, steps).runs[r][k])
    ensures ContinuesLog(After(search, steps).runs[r], i, k)
  {
    EveryHistoryIsSafe(search, steps);
    assert HistoryOk(search, After(search, steps).runs[r]);
    LogIsSound(search, After(search, steps).runs[r], k);
    LogContinues(search, After(search, steps).runs[r], i, k);
  }

  /** Numbered without gaps, and its state changes a path from CREATED to the row's state. */
  ghost predicate SoundLog(t: Tables) {
    var visited := StatesVisited(t, t.row.lastSequence);
    && (forall n :: n in t.events <==> 1 <= n <= t.row.lastSequence)
    && visited != [] && IsPath(visited) && visited[0] == Created && visited[|visited| - 1] == t.row.state
  }

  /** Between two versions events are only added, and the earlier one was not terminal. */
  ghost predicate ContinuesLog(h: Versions, i: nat, k: nat)
    requires i <= k < |h|
  {
    && EventsKept(h[i], h[k])
    && (i < k ==> h[i].row.lastSequence < h[k].row.lastSequence && !IsTerminal(h[i].row.state))
  }

  lemma LogIsSound(search: Matcher, h: Versions, k: nat)
    requires HistoryOk(search, h) && k < |h|
    ensures SoundLog(h[k])
  {
    assert SoundAt(search, h, k);
    StateChangesFormAPath(h[k], h[k].row.lastSequence);
  }

  lemma LogContinues(search: Matcher, h: Versions, i: nat, k: nat)
    requires HistoryOk(search, h) && i <= k < |h|
    ensures ContinuesLog(h, i, k)
  {
    TimelineIsAppendOnly(search, h, i, k);
    if i < k {
      SequenceGrows(search, h, i, k);
      OpenBefore(search, h, i + 1);
    }
  }

  lemma GrowsTwice(s: System, mid: System, s': System)
    requires Grows(s, mid) && Grows(mid, s')
    ensures Grows(s, s')
  {
  }

  lemma OneStepMore(search: Matcher, steps: seq<Step>, step: Step)
    ensures Grows(After(search, steps), After(search, steps + [step]))
  {
    AfterOne(search, steps, step);
    StepGrows(search, After(search, steps), step);
  }

  /**
   Nothing committed is ever taken back: however a history goes on, every version of every run
   stays as it was, every job keeps its kind and run, and every push stays made.
   */
  lemma {:induction false} NothingCommittedIsTakenBack(search: Matcher, steps: seq<Step>, more: seq<Step>)
    ensures Grows(After(search, steps), After(search, steps + more))
    decreases |more|
  {
    if more == [] {
      assert steps + more == steps;
    } else {
      var n := |more| - 1;
      assert steps + more == steps + more[..n] + [more[n]];
      NothingCommittedIsTakenBack(search, steps, more[..n]);
      OneStepMore(search, steps + more[..n], more[n]);
      GrowsTwice(After(search, steps), After(search, steps + more[..n]), After(search, steps + more));
    }
  }

  /** The diff text was approved by a human and shows no credential. */
  predicate ApprovedText(search: Matcher, t: Tables, text: string) {
    && t.approval.Some? && t.approval.value.decision == Approved
    && t.approval.value.diffHash == Sha256(text)
    && ScanForSecrets(search, text) == {}
  }

  /**
   The gate over whole runs: at most one pull-request row per run is ever committed, and the diff
   text gated for it was approved and is free of credentials, however many publish jobs there were.
   */
  lemma PullRequestsAreGated(search: Matcher, steps: seq<Step>, r: RunId, k: nat)
    requires Reached(After(search, steps), r, k)
    ensures var t := After(search, steps).runs[r][k];
            |t.pulls| <= 1 && (t.pulls != [] ==> t.row.state == Completed && ApprovedText(search, t, t.pulls[0].gated))
  {
    EveryHistoryIsSafe(search, steps);
    assert HistoryOk(search, After(search, steps).runs[r]);
    assert SoundAt(search, After(search, steps).runs[r], k);
  }

  /**
   The same for the pushes themselves, including those whose recording later failed: each was made
   when the latest stored diff hashed to what the run's approval names. That approval stands, and
   no other diff is ever stored for the run. What the pushed branch holds is not said here: the gate
   never looks at the files, and module Publishing says when they are the reviewed ones.
   */
  lemma PushesAreGated(search: Matcher, steps: seq<Step>, i: nat)
    requires i < |After(search, steps).pushes|
    ensures var s := After(search, steps); var p := s.pushes[i];
            && p.run in s.runs && s.runs[p.run] != []
            && (exists k :: 0 <= k < |s.runs[p.run]| && AllowsPush(s.runs[p.run][k], p.gated))
            && ApprovedText(search, Latest(s.runs[p.run]), p.gated)
            && LatestDiff(Latest(s.runs[p.run])).Some? && LatestDiff(Latest(s.runs[p.run])).value.text == p.gated
  {
    EveryHistoryIsSafe(search, steps);
    var s := After(search, steps);
    assert PushOk(s, s.pushes[i]);
    PushWasApproved(search, s, s.pushes[i]);
  }

  lemma PushWasApproved(search: Matcher, s: System, p: Push)
    requires RunsOk(search, s) && PushOk(s, p)
    ensures s.runs[p.run] != [] && ApprovedText(search, Latest(s.runs[p.run]), p.gated)
    ensures LatestDiff(Latest(s.runs[p.run])).Some? && LatestDiff(Latest(s.runs[p.run])).value.text == p.gated
  {
    var h := s.runs[p.run];
    var k :| 0 <= k < |h| && AllowsPush(h[k], p.gated);
    assert HistoryOk(search, h);
    assert SoundAt(search, h, k);
    DecisionIsFinal(search, h, k, |h| - 1);
    ApprovalFreezesTheDiff(search, h, k, |h| - 1);
  }

  /**
   What that means line by line, for patterns that look at nothing around their match: no line that a
   recorded pull request or a push adds shows a credential to any of the seven.
   */
  lemma GatedLinesShowNoCredential(search: Matcher, steps: seq<Step>, text: string, i: nat, n: nat)
    requires Local(search) && n < 7 && i < |Lines(text)| && AddsText(Lines(text)[i])
    requires GatedAnywhere(After(search, steps), text)
    ensures !search(n, Lines(text)[i][1..])
  {
    var s := After(search, steps);
    if p :| p in s.pushes && p.gated == text {
      var k :| 0 <= k < |s.pushes| && s.pushes[k] == p;
      PushesAreGated(search, steps, k);
    } else {
      var r: RunId, k: nat :| Reached(s, r, k) && s.runs[r][k].pulls != [] && s.runs[r][k].pulls[0].gated == text;
      PullRequestsAreGated(search, steps, r, k);
    }
    assert !Blocking(search, text);
    if search(n, Lines(text)[i][1..]) {
      AddedCredentialBlocks(search, text, i, n);
    }
  }

  /** The text was gated for a push or for a committed pull request. */
  ghost predicate GatedAnywhere(s: System, text: string) {
    || (exists p :: p in s.pushes && p.gated == text)
    || (exists r: RunId, k: nat :: Reached(s, r, k) && s.runs[r][k].pulls != [] && s.runs[r][k].pulls[0].gated == text)
  }

  /** Once a run is approved, no further diff is stored for it. */
  lemma {:induction false} ApprovalFreezesTheDiff(search: Matcher, h: Versions, i: nat, k: nat)
    requires HistoryOk(search, h) && i <= k < |h|
    requires h[i].approval.Some? && h[i].approval.value.decision == Approved
    ensures h[k].diffs == h[i].diffs
    decreases k
  {
    if i < k {
      ApprovalFreezesTheDiff(search, h, i, k - 1);
      DecisionIsFinal(search, h, i, k - 1);
      assert SoundAt(search, h, k - 1);
      assert AdjacentAt(h, k);
    }
  }

  /**
   Every completed run earned it: the version just before completion waited for approval with
   a stored plan, a latest diff naming at least one file, and an approval of that diff; the
   tests its last `_await_approval` step saw were run, and all exited 0 without a timeout or a
   runner error. Such a run never asked for its plan to be reviewed.
   */
  lemma CompletedRunsAreEarned(search: Matcher, steps: seq<Step>, r: RunId, k: nat)
    requires Reached(After(search, steps), r, k) && After(search, steps).runs[r][k].row.state == Completed
    ensures k > 0
    ensures var t := After(search, steps).runs[r][k - 1];
            && t.row.state == WaitingForApproval && !t.row.requirePlanApproval
            && t.plans != [] && LatestDiff(t).Some? && LatestDiff(t).value.filesChanged > 0
            && ApprovedText(search, t, LatestDiff(t).value.text)
            && t.evidence.Some? && CleanEvidence(t.evidence.value)
    ensures var t := After(search, steps).runs[r][k];
            var visited := StatesVisited(t, t.row.lastSequence);
            |visited| >= 5 && visited[|visited| - 4..] == [Verifying, WaitingForApproval, PrCreated, Completed]
  {
    EveryHistoryIsSafe(search, steps);
    var h := After(search, steps).runs[r];
    assert HistoryOk(search, h);
    LogIsSound(search, h, k);
    CompletedOnlyThroughApproval(StatesVisited(h[k], h[k].row.lastSequence));
    CompletedIsNotFirst(search, steps, r);
    EarnedBefore(search, h, k);
  }

  lemma EarnedBefore(search: Matcher, h: Versions, k: nat)
    requires HistoryOk(search, h) && 0 < k < |h| && h[k].row.state == Completed
    ensures var t := h[k - 1];
            && t.row.state == WaitingForApproval && !t.row.requirePlanApproval
            && t.plans != [] && LatestDiff(t).Some? && LatestDiff(t).value.filesChanged > 0
            && ApprovedText(search, t, LatestDiff(t).value.text)
            && t.evidence.Some? && CleanEvidence(t.evidence.value)
  {
    assert AdjacentAt(h, k);
    assert SoundAt(search, h, k - 1);
    AllPassedIsCleanEvidence(h[k - 1].evidence.value);
    assert DiffOk(search, h[k - 1].diffs[|h[k - 1].diffs| - 1]);
  }

  lemma {:induction false} CompletedIsNotFirst(search: Matcher, steps: seq<Step>, r: RunId)
    requires Reached(After(search, steps), r, 0)
    ensures After(search, steps).runs[r][0].row.state == Created
    decreases |steps|
  {
    if steps != [] {
      var before := steps[..|steps| - 1];
      var s, step := After(search, before), steps[|steps| - 1];
      EveryHistoryIsSafe(search, before);
      StepGrows(search, s, step);
      if r in s.runs {
        assert HistoryOk(search, s.runs[r]);
        CompletedIsNotFirst(search, before, r);
      }
    }
  }

  /**
   A revision request is a dead end: once it is committed, no later version of the run, however
   it is retried or resumed, is PR_CREATED or COMPLETED, no pull request is ever recorded, and
   no push is ever made for the run.
   */
  lemma RevisionNeverPublishes(search: Matcher, steps: seq<Step>, r: RunId, k: nat, later: nat)
    requires Reached(After(search, steps), r, later) && k <= later && Revised(After(search, steps).runs[r][k])
    ensures var t := After(search, steps).runs[r][later];
            t.row.state != PrCreated && t.row.state != Completed && t.pulls == []
    ensures forall i :: 0 <= i < |After(search, steps).pushes| ==> After(search, steps).pushes[i].run != r
  {
    EveryHistoryIsSafe(search, steps);
    var s := After(search, steps);
    var h := s.runs[r];
    assert HistoryOk(search, h);
    assert SoundAt(search, h, later);
    DecisionIsFinal(search, h, k, later);
    DecisionIsFinal(search, h, k, |h| - 1);
    RevisedRunsAreNotPushed(search, s, r);
  }

  lemma RevisedRunsAreNotPushed(search: Matcher, s: System, r: RunId)
    requires RunsOk(search, s) && PushesOk(s) && Reached(s, r, 0) && Revised(Latest(s.runs[r]))
    ensures forall i :: 0 <= i < |s.pushes| ==> s.pushes[i].run != r
  {
    forall i | 0 <= i < |s.pushes| ensures s.pushes[i].run != r {
      assert PushOk(s, s.pushes[i]);
      PushWasApproved(search, s, s.pushes[i]);
    }
  }

  /** A run created with plan review never gets past it: no version implements, tests or completes. */
  lemma PlanReviewIsADeadEnd(search: Matcher, steps: seq<Step>, r: RunId, k: nat)
    requires Reached(After(search, steps), r, k) && After(search, steps).runs[r][k].row.requirePlanApproval
    ensures After(search, steps).runs[r][k].row.state !in
              {Implementing, Testing, Verifying, WaitingForApproval, PrCreated, Completed}
  {
    EveryHistoryIsSafe(search, steps);
    assert HistoryOk(search, After(search, steps).runs[r]);
    assert SoundAt(search, After(search, steps).runs[r], k);
  }

  /** Queue accounting in the running system, with workers that outlive their leases. */
  lemma QueueAccountsForEveryJob(search: Matcher, steps: seq<Step>, id: JobId)
    requires id in After(search, steps).jobs
    ensures JobOk(After(search, steps).jobs[id])
  {
    EveryHistoryIsSafe(search, steps);
    assert JobFits(After(search, steps), After(search, steps).jobs[id]);
  }

  /**
   What can bring back a job that has succeeded: of all steps only a worker's late report of
   failure, and then the job is queued again exactly while it has attempts left.
   */
  lemma OnlyLateFailuresRevive(search: Matcher, s: System, step: Step, id: JobId)
    requires id in s.jobs && s.jobs[id].status == Succeeded
    ensures id in Do(search, s, step).jobs
    ensures Do(search, s, step).jobs[id].status != Succeeded <==>
            step.MarkJob? && WorkerAt(s, step.worker) == Worker.Done(id, false)
    ensures Do(search, s, step).jobs[id].status == Queued <==>
              && step.MarkJob? && WorkerAt(s, step.worker) == Worker.Done(id, false)
              && s.jobs[id].attempts < s.jobs[id].maxAttempts
  {
    StepGrows(search, s, step);
    if step.Drive? || step.RecordsFailure? || step.FailPublication? || step.Record? {
      CommitsLeaveJobs(search, s, step);
    }
  }

  lemma CommitsLeaveJobs(search: Matcher, s: System, step: Step)
    requires step.Drive? || step.RecordsFailure? || step.FailPublication? || step.Record?
    ensures Do(search, s, step).jobs == s.jobs
  {
  }
}
