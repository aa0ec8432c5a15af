/**
 The rest of the way: how an approved run is published, from an empty database to one pull request;
 how a failure is recorded; and how long a lease keeps others off. As in module ProtocolProgress, rows
 and writes are spelled out.
 */
module ProtocolCompletion {
  import opened Basics
  import opened RunStates
  import opened TestEvidence
  import opened Store
  import opened Risk
  import opened Transactions
  import opened History
  import opened Jobs
  import opened Protocol
  import opened ProtocolInvariant
  import opened ProtocolProgress

  // ------------------------------------------------------------------ past the gate

  /** The version that recording a pull request commits. */
  function Published(t: Tables, text: string): Tables {
    var recorded := t.(pulls := t.pulls + [PullRequest(Sha256(text), text)]);
    WithEvent(WithEvent(recorded, StateChanged, PrCreated), StateChanged, Completed)
  }

  /** The latest diff is approved and waits to be published. */
  predicate ApprovedAsIs(t: Tables) {
    && t.row.state == WaitingForApproval && t.plans != [] && t.diffs != []
    && t.approval == Some(Store.Approval(Approved, Sha256(t.diffs[|t.diffs| - 1].text)))
  }

  function ReviewedText(t: Tables): string
    requires t.diffs != []
  {
    t.diffs[|t.diffs| - 1].text
  }

  function WhatIsPublished(t: Tables): Publication
    requires t.diffs != []
  {
    Publication(t.diffs[|t.diffs| - 1], Store.Approval(Approved, Sha256(ReviewedText(t))))
  }

  function RecordingOps(t: Tables): seq<Op>
    requires t.diffs != []
  {
    [RecordPull(PullRequest(Sha256(ReviewedText(t)), ReviewedText(t))), Transition(PrCreated), Transition(Completed)]
  }

  lemma RecordingIsCore(t: Tables)
    requires t.diffs != []
    ensures Core(RecordingOps(t)) == RecordingOps(t)
  {
    var ops := RecordingOps(t);
    assert ops[1..] == [ops[1], ops[2]];
    CoreOfTwo(ops[1], ops[2]);
    assert ops == [ops[0]] + Core(ops[1..]);
  }

  lemma RecordingWrites(t: Tables)
    requires LogOk(t) && t.row.state == WaitingForApproval && t.diffs != []
    ensures Commit(t.row, t, RecordingOps(t)) == Store.Ok(Published(t, ReviewedText(t)))
  {
    var ops := RecordingOps(t);
    ExecThree(Tx(t.row, t), ops[0], ops[1], ops[2]);
  }

  lemma PushIsAllowed(t: Tables)
    requires ApprovedAsIs(t) && t.diffs[|t.diffs| - 1].hash == Sha256(ReviewedText(t))
    ensures PushAllowed(t) == Some(WhatIsPublished(t))
    ensures PublicationWrites(WhatIsPublished(t)) == RecordingOps(t)
  {
  }

  lemma RecordingCommits(search: Matcher, h: Versions)
    requires HistoryOk(search, h) && ApprovedAsIs(Latest(h))
    ensures PushAllowed(Latest(h)) == Some(WhatIsPublished(Latest(h)))
    ensures var a := UpToDate(h, RecordPublication(WhatIsPublished(Latest(h))), RecordingOps(Latest(h)));
            Attemptable(search, h, a) && Committed(search, h, a) == Some(Published(Latest(h), ReviewedText(Latest(h))))
  {
    assert SoundAt(search, h, |h| - 1);
    assert DiffOk(search, Latest(h).diffs[|Latest(h).diffs| - 1]);
    PushIsAllowed(Latest(h));
    RecordingIsCore(Latest(h));
    RecordingWrites(Latest(h));
  }

  function PublishingAttempt(h: Versions): Attempt
    requires h != [] && Latest(h).diffs != []
  {
    UpToDate(h, RecordPublication(WhatIsPublished(Latest(h))), RecordingOps(Latest(h)))
  }

  /** The three steps of a publish worker: past the gate and onto GitHub, into the rows, and done. */
  function PublishingSteps(h: Versions, w: WorkerId, now: int): seq<Step>
    requires h != [] && Latest(h).diffs != []
  {
    [PushBranch(w, |h| - 1), Record(w, PublishingAttempt(h)), MarkJob(w, now, 0)]
  }

  /** The system once they are taken: one more version, one more push, a finished job and a free worker. */
  function WithPublication(s: System, r: RunId, id: JobId, w: WorkerId): System
    requires Known(s, r) && Latest(s.runs[r]).diffs != [] && id in s.jobs
  {
    var t := Latest(s.runs[r]);
    System(s.runs[r := s.runs[r] + [Published(t, ReviewedText(t))]], s.jobs[id := Finished(s.jobs[id])],
           s.workers[w := Idle], s.pushes + [Push(r, ReviewedText(t))])
  }

  lemma Pushes(search: Matcher, s: System, r: RunId, id: JobId, w: WorkerId)
    requires Known(s, r) && HistoryOk(search, s.runs[r]) && ApprovedAsIs(Latest(s.runs[r]))
    requires id in s.jobs && s.jobs[id].run == r && WorkerAt(s, w) == Publishing(id, |s.runs[r]| - 1)
    ensures var t, at := Latest(s.runs[r]), |s.runs[r]| - 1;
            DoPush(s, w, at) == System(s.runs, s.jobs, s.workers[w := Pushed(id, at, at, WhatIsPublished(t))],
                                       s.pushes + [Push(r, ReviewedText(t))])
  {
    RecordingCommits(search, s.runs[r]);
  }

  lemma RecordsAndReports(search: Matcher, s: System, r: RunId, id: JobId, w: WorkerId, now: int)
    requires Known(s, r) && HistoryOk(search, s.runs[r]) && ApprovedAsIs(Latest(s.runs[r]))
    requires id in s.jobs && s.jobs[id].run == r
    requires var at := |s.runs[r]| - 1; WorkerAt(s, w) == Pushed(id, at, at, WhatIsPublished(Latest(s.runs[r])))
    ensures var t := Latest(s.runs[r]);
            DoMark(DoRecord(search, s, w, PublishingAttempt(s.runs[r])), w, now, 0)
            == System(s.runs[r := s.runs[r] + [Published(t, ReviewedText(t))]], s.jobs[id := Finished(s.jobs[id])],
                      s.workers[w := Idle], s.pushes)
  {
    var t := Latest(s.runs[r]);
    RecordingCommits(search, s.runs[r]);
    var s1 := DoRecord(search, s, w, PublishingAttempt(s.runs[r]));
    assert s1 == System(s.runs[r := s.runs[r] + [Published(t, ReviewedText(t))]], s.jobs,
                        s.workers[w := Done(id, true)], s.pushes);
    assert s1.workers[w := Idle] == s.workers[w := Idle];
  }

  lemma PublishWorkerFinishes(search: Matcher, s: System, r: RunId, id: JobId, w: WorkerId, now: int)
    requires Known(s, r) && HistoryOk(search, s.runs[r]) && ApprovedAsIs(Latest(s.runs[r]))
    requires id in s.jobs && s.jobs[id].run == r && WorkerAt(s, w) == Publishing(id, |s.runs[r]| - 1)
    ensures DoMark(DoRecord(search, DoPush(s, w, |s.runs[r]| - 1), w, PublishingAttempt(s.runs[r])), w, now, 0)
            == WithPublication(s, r, id, w)
  {
    Pushes(search, s, r, id, w);
    var s1 := DoPush(s, w, |s.runs[r]| - 1);
    RecordsAndReports(search, s1, r, id, w, now);
    assert s1.workers[w := Idle] == s.workers[w := Idle];
  }

  lemma AfterThreeSteps(search: Matcher, steps: seq<Step>, a: Step, b: Step, c: Step)
    ensures After(search, steps + [a, b, c]) == Do(search, Do(search, Do(search, After(search, steps), a), b), c)
  {
    assert steps + [a, b, c] == steps + [a, b] + [c];
    AfterTwo(search, steps, a, b);
    AfterOne(search, steps + [a, b], c);
  }

  lemma PublishingDoes(search: Matcher, steps: seq<Step>, s: System, w: WorkerId, at: nat, a: Attempt, now: int)
    requires s == After(search, steps)
    ensures After(search, steps + [PushBranch(w, at), Record(w, a), MarkJob(w, now, 0)])
            == DoMark(DoRecord(search, DoPush(s, w, at), w, a), w, now, 0)
  {
    AfterThreeSteps(search, steps, PushBranch(w, at), Record(w, a), MarkJob(w, now, 0));
  }

  lemma PublishesStepByStep(search: Matcher, steps: seq<Step>, s: System, r: RunId, id: JobId, w: WorkerId, now: int)
    requires s == After(search, steps) && Known(s, r) && ApprovedAsIs(Latest(s.runs[r]))
    requires id in s.jobs && s.jobs[id].run == r && WorkerAt(s, w) == Publishing(id, |s.runs[r]| - 1)
    ensures After(search, steps + PublishingSteps(s.runs[r], w, now)) == WithPublication(s, r, id, w)
  {
    RunIsSound(search, steps, s, r);
    PublishingDoes(search, steps, s, w, |s.runs[r]| - 1, PublishingAttempt(s.runs[r]), now);
    PublishWorkerFinishes(search, s, r, id, w, now);
  }

  /** What publishing does to the system: one version, one push, one finished job. */
  predicate IsPublishedIn(s: System, s': System, r: RunId, id: JobId, w: WorkerId, now: int, lease: nat)
  {
    && Known(s, r) && id in s.jobs && Latest(s.runs[r]).diffs != []
    && var t := Latest(s.runs[r]);
       s' == System(s.runs[r := s.runs[r] + [Published(t, ReviewedText(t))]],
                    s.jobs[id := Finished(Taken(s.jobs[id], w, now, lease))],
                    s.workers[w := Idle], s.pushes + [Push(r, ReviewedText(t))])
  }

  lemma PublishedAfterTaking(s: System, s1: System, r: RunId, id: JobId, w: WorkerId, now: int, lease: nat)
    requires Known(s, r) && id in s.jobs && Latest(s.runs[r]).diffs != []
    requires s1 == System(s.runs, s.jobs[id := Taken(s.jobs[id], w, now, lease)],
                          s.workers[w := Publishing(id, |s.runs[r]| - 1)], s.pushes)
    ensures IsPublishedIn(s, WithPublication(s1, r, id, w), r, id, w, now, lease)
  {
    assert s1.workers[w := Idle] == s.workers[w := Idle];
    assert s1.jobs[id := Finished(s1.jobs[id])] == s.jobs[id := Finished(Taken(s.jobs[id], w, now, lease))];
  }

  lemma TwoParts(steps: seq<Step>, a: seq<Step>, b: seq<Step>)
    ensures steps + (a + b) == steps + a + b
  {
  }

  /** A worker that takes the due job of an approved run publishes it, with one push of the approved diff. */
  lemma ApprovedRunsCanBePublished(search: Matcher, steps: seq<Step>, s: System, r: RunId, id: JobId, w: WorkerId,
                                   now: int, lease: nat)
    returns (more: seq<Step>)
    requires s == After(search, steps) && Waiting(s, id, w, CreatePullRequest, r, now)
    requires ApprovedAsIs(Latest(s.runs[r]))
    ensures IsPublishedIn(s, After(search, steps + more), r, id, w, now, lease)
  {
    TakesTheJob(search, steps, s, r, id, w, CreatePullRequest, now, lease);
    var first := [ClaimJob(w, id, now, lease), LoadRun(w, |s.runs[r]| - 1)];
    var s1 := After(search, steps + first);
    PublishesStepByStep(search, steps + first, s1, r, id, w, now);
    more := first + PublishingSteps(s1.runs[r], w, now);
    TwoParts(steps, first, PublishingSteps(s1.runs[r], w, now));
    PublishedAfterTaking(s, s1, r, id, w, now, lease);
  }

  /** The version an approval commits. */
  function OnceApproved(t: Tables): Tables
    requires t.diffs != []
  {
    WithEvent(Decided(t, Approved), Note(ApprovalGiven), WaitingForApproval)
  }

  /** What approving and publishing a waiting run leaves: the decision, the pull request, a push, a finished job. */
  predicate ApprovedAndPublished(s: System, s': System, r: RunId, id: JobId, w: WorkerId, now: int, lease: nat) {
    && Known(s, r) && Latest(s.runs[r]).diffs != []
    && var t := Latest(s.runs[r]);
       && s'.runs == s.runs[r := s.runs[r] + [OnceApproved(t)] + [Published(OnceApproved(t), ReviewedText(t))]]
       && s'.jobs == s.jobs[id := Job(CreatePullRequest, r, Succeeded, 1, 3, now, now, None, None, 1, 0,
                                      |s.runs[r]|)]
       && s'.workers == s.workers[w := Idle]
       && s'.pushes == s.pushes + [Push(r, ReviewedText(t))]
  }

  lemma ApprovedThenPublished(s: System, s1: System, s2: System, r: RunId, id: JobId, w: WorkerId, now: int, lease: nat)
    requires Known(s, r) && Latest(s.runs[r]).diffs != [] && id !in s.jobs
    requires var t := Latest(s.runs[r]);
             s1 == System(s.runs[r := s.runs[r] + [OnceApproved(t)]],
                          s.jobs[id := Job(CreatePullRequest, r, Queued, 0, 3, now, now, None, None, 0, 0,
                                           |s.runs[r]|)], s.workers, s.pushes)
    requires IsPublishedIn(s1, s2, r, id, w, now, lease)
    ensures ApprovedAndPublished(s, s2, r, id, w, now, lease)
  {
    assert s2.runs == s.runs[r := s2.runs[r]];
    assert s2.jobs == s.jobs[id := Finished(Taken(s1.jobs[id], w, now, lease))];
  }

  /**
   The gate opens: a reachable run that waits undecided with a diff that shows no credential can be
   approved and published, by one worker, with exactly one pull request and one push of that diff.
   */
  lemma WaitingRunsCanComplete(search: Matcher, steps: seq<Step>, s: System, r: RunId, id: JobId, w: WorkerId,
                               now: int, lease: nat)
    returns (more: seq<Step>)
    requires s == After(search, steps) && Known(s, r) && id !in s.jobs && WorkerAt(s, w) == Idle
    requires Undecided(Latest(s.runs[r]))
    requires Latest(s.runs[r]).diffs != [] ==> !Blocking(search, ReviewedText(Latest(s.runs[r])))
    ensures ApprovedAndPublished(s, After(search, steps + more), r, id, w, now, lease)
  {
    var t := Latest(s.runs[r]);
    SomethingToReview(search, steps, s, r);
    var approve := ApiRequest(r, UpToDate(s.runs[r], Approve, AskedWrites(t, Approve)), id, now);
    RequestsAreCarriedOut(search, steps, r, Approve, id, now);
    AfterOne(search, steps, approve);
    var s1 := After(search, steps + [approve]);
    var later := ApprovedRunsCanBePublished(search, steps + [approve], s1, r, id, w, now, lease);
    more := [approve] + later;
    StepThen(steps, approve, later);
    ApprovedThenPublished(s, s1, After(search, steps + more), r, id, w, now, lease);
  }

  lemma SomethingToReview(search: Matcher, steps: seq<Step>, s: System, r: RunId)
    requires s == After(search, steps) && Known(s, r) && Latest(s.runs[r]).row.state == WaitingForApproval
    ensures Latest(s.runs[r]).plans != [] && Latest(s.runs[r]).diffs != []
  {
    EveryHistoryIsSafe(search, steps);
    assert HistoryOk(search, s.runs[r]);
    assert SoundAt(search, s.runs[r], |s.runs[r]| - 1);
  }

  // ------------------------------------------------------------------ from nothing to a pull request

  /** A run as it is created: one informational event, and nothing else. */
  function Born(requirePlanApproval: bool): Tables {
    Tables(RunRow(Created, 1, requirePlanApproval), map[1 := Event(Note(Info), Created)], [], [], None, [], None)
  }

  /** Creating a run stores it with a due job; a run or a job that exists is left alone. */
  lemma CreatingCreates(search: Matcher, s: System, r: RunId, id: JobId, plan: bool, now: int)
    ensures Do(search, s, CreateRun(r, id, plan, now)) ==
            if r in s.runs || id in s.jobs then s
            else System(s.runs[r := [Born(plan)]],
                        s.jobs[id := Job(ExecuteRun, r, Queued, 0, 3, now, now, None, None, 0, 0, 0)],
                        s.workers, s.pushes)
  {
  }

  /** One run, completed: planned, reviewed as it is, tested, published once. */
  predicate CompletedOnce(s: System, search: Matcher, work: Work, w: WorkerId) {
    && s.runs.Keys == {0} && s.runs[0] != []
    && var t := Latest(s.runs[0]);
       && t.row.state == Completed && t.plans != []
       && t.diffs == [Diff(work.diffText, Sha256(work.diffText), work.filesChanged, false)]
       && t.approval == Some(Store.Approval(Approved, Sha256(work.diffText)))
       && t.evidence == Some(work.suite.Outcomes())
       && t.pulls == [PullRequest(Sha256(work.diffText), work.diffText)]
       && s.pushes == [Push(0, work.diffText)]
       && s.jobs.Keys == {0, 1} && s.jobs[0].status == Succeeded && s.jobs[1].status == Succeeded
       && s.workers == map[w := Idle]
  }

  lemma PublishedOnce(search: Matcher, s: System, s': System, work: Work, w: WorkerId, now: int, lease: nat)
    requires s.runs.Keys == {0} && s.runs[0] != [] && s.jobs.Keys == {0} && s.jobs[0].status == Succeeded
    requires s.workers == map[w := Idle] && s.pushes == [] && !Blocking(search, work.diffText)
    requires Presents(search, Born(false), Latest(s.runs[0]), work)
    requires ApprovedAndPublished(s, s', 0, 1, w, now, lease)
    ensures CompletedOnce(s', search, work, w)
  {
    assert s'.workers == map[w := Idle];
  }

  /**
   From the empty database to a pull request: for any diff that shows no credential and names a file,
   and any tests that pass, there is a history that ends with one completed run, one pull request,
   one push of exactly that diff, both jobs done and the worker free.
   */
  lemma ARunCanComplete(search: Matcher, work: Work, w: WorkerId) returns (steps: seq<Step>)
    requires GoodWork(work) && !Blocking(search, work.diffText)
    ensures CompletedOnce(After(search, steps), search, work, w)
  {
    var create := [CreateRun(0, 0, false, 0)];
    var s0 := After(search, create);
    FromNothing(search, create[0]);
    FirstCreation(search);
    var drive := EveryActiveRunCanReachTheGate(search, create, s0, 0, 0, w, 0, 120, work);
    var s1 := After(search, create + drive);
    GateOfTheFirst(search, s0, s1, w, work);
    var publish := WaitingRunsCanComplete(search, create + drive, s1, 0, 1, w, 0, 120);
    steps := create + drive + publish;
    PublishedOnce(search, s1, After(search, steps), work, w, 0, 120);
  }

  /** The system once the first run is created. */
  const FIRST_RUN :=
    System(map[0 := [Born(false)]], map[0 := Job(ExecuteRun, 0, Queued, 0, 3, 0, 0, None, None, 0, 0, 0)], map[], [])

  lemma FirstCreation(search: Matcher)
    ensures Do(search, EMPTY_SYSTEM, CreateRun(0, 0, false, 0)) == FIRST_RUN
  {
    CreatingCreates(search, EMPTY_SYSTEM, 0, 0, false, 0);
    assert EMPTY_SYSTEM.runs[0 := [Born(false)]] == map[0 := [Born(false)]];
  }

  lemma FromNothing(search: Matcher, step: Step)
    ensures After(search, [step]) == Do(search, EMPTY_SYSTEM, step)
  {
    assert [] + [step] == [step];
    AfterOne(search, [], step);
  }

  lemma GateOfTheFirst(search: Matcher, s0: System, s1: System, w: WorkerId, work: Work)
    requires s0 == FIRST_RUN
    requires WorkedOff(search, s0, s1, 0, 0, w, 0, 120, work) && !Blocking(search, work.diffText)
    ensures s1.runs.Keys == {0} && s1.runs[0] != [] && s1.jobs.Keys == {0} && s1.jobs[0].status == Succeeded
    ensures s1.workers == map[w := Idle] && s1.pushes == []
    ensures Presents(search, Born(false), Latest(s1.runs[0]), work) && Undecided(Latest(s1.runs[0]))
    ensures Latest(s1.runs[0]).diffs != [] && !Blocking(search, ReviewedText(Latest(s1.runs[0])))
  {
    assert s1.workers == map[w := Idle];
    assert Latest(s0.runs[0]) == Born(false);
  }

  // ------------------------------------------------------------------ when things go wrong

  /** The row of a job whose worker reported a failure. */
  function GivenBack(j: Job, now: int, delay: nat): Job {
    if j.attempts < j.maxAttempts then
      Job(j.kind, j.run, Queued, j.attempts, j.maxAttempts, now + delay, j.lockedAt, None, None, j.claims, j.reclaims,
          j.since)
    else
      Job(j.kind, j.run, FailedForGood, j.attempts, j.maxAttempts, j.runAfter, j.lockedAt, None, None, j.claims,
          j.reclaims, j.since)
  }

  lemma FailingCommits(search: Matcher, h: Versions, request: Request)
    requires HistoryOk(search, h) && !IsTerminal(Latest(h).row.state)
    requires request == RecordFailure || (request.StepAborted? && request.done == 0 && !Parked(Latest(h).row.state))
    ensures var a := UpToDate(h, request, [Transition(RunState.Failed)]);
            && Attemptable(search, h, a)
            && Committed(search, h, a) == Some(WithEvent(Latest(h), StateChanged, RunState.Failed))
  {
    assert SoundAt(search, h, |h| - 1);
    CoreOfTwo(Transition(RunState.Failed), Transition(RunState.Failed));
    TerminalIsTheEnd(Latest(h).row.state);
    OneTransition(Latest(h), RunState.Failed);
    if request.StepAborted? {
      assert StepWrites(search, Latest(h).row, request.work)[..0] == [];
    }
  }

  /** What a recorded failure does to the system. */
  function WithFailure(s: System, r: RunId, id: JobId, w: WorkerId, now: int, delay: nat): System
    requires Known(s, r) && id in s.jobs
  {
    System(s.runs[r := s.runs[r] + [WithEvent(Latest(s.runs[r]), StateChanged, RunState.Failed)]],
           s.jobs[id := GivenBack(s.jobs[id], now, delay)], s.workers[w := Idle], s.pushes)
  }

  lemma ReadsForFailure(s: System, r: RunId, id: JobId, w: WorkerId)
    requires AtTheLatest(s, w, id, r) && s.jobs[id].since < |s.runs[r]| && !IsTerminal(Latest(s.runs[r]).row.state)
    ensures DoReadForFailure(DoRaise(s, w), w, |s.runs[r]| - 1)
            == System(s.runs, s.jobs, s.workers[w := Recording(id, |s.runs[r]| - 1)], s.pushes)
  {
    var s1 := DoRaise(s, w);
    assert s1 == System(s.runs, s.jobs, s.workers[w := Recovering(id)], s.pushes);
    assert s1.workers[w := Recording(id, |s.runs[r]| - 1)] == s.workers[w := Recording(id, |s.runs[r]| - 1)];
  }

  lemma RecordsAndGivesBack(search: Matcher, s: System, r: RunId, id: JobId, w: WorkerId, now: int, delay: nat)
    requires Known(s, r) && id in s.jobs && s.jobs[id].run == r && HistoryOk(search, s.runs[r])
    requires WorkerAt(s, w) == Recording(id, |s.runs[r]| - 1) && !IsTerminal(Latest(s.runs[r]).row.state)
    ensures DoMark(DoRecordsFailure(search, s, w), w, now, delay) == WithFailure(s, r, id, w, now, delay)
  {
    FailingCommits(search, s.runs[r], RecordFailure);
    var s1 := DoRecordsFailure(search, s, w);
    assert s1 == System(s.runs[r := s.runs[r] + [WithEvent(Latest(s.runs[r]), StateChanged, RunState.Failed)]], s.jobs,
                        s.workers[w := Done(id, false)], s.pushes);
    assert s1.workers[w := Idle] == s.workers[w := Idle];
  }

  lemma RecoveryWorks(search: Matcher, s: System, r: RunId, id: JobId, w: WorkerId, now: int, delay: nat)
    requires AtTheLatest(s, w, id, r) && s.jobs[id].since < |s.runs[r]|
    requires HistoryOk(search, s.runs[r]) && !IsTerminal(Latest(s.runs[r]).row.state)
    ensures DoMark(DoRecordsFailure(search, DoReadForFailure(DoRaise(s, w), w, |s.runs[r]| - 1), w), w, now, delay)
            == WithFailure(s, r, id, w, now, delay)
  {
    var s1 := DoReadForFailure(DoRaise(s, w), w, |s.runs[r]| - 1);
    ReadsForFailure(s, r, id, w);
    RecordsAndGivesBack(search, s1, r, id, w, now, delay);
    assert s1.workers[w := Idle] == s.workers[w := Idle];
  }

  /**
   A drive that raises fails its run: if nobody commits in between, the worker reads the run again,
   marks it failed, and gives the job back, which is due again after the delay or failed for good.
   */
  lemma FailuresAreRecorded(search: Matcher, steps: seq<Step>, s: System, r: RunId, id: JobId, w: WorkerId, now: int,
                            delay: nat)
    requires s == After(search, steps) && AtTheLatest(s, w, id, r) && !IsTerminal(Latest(s.runs[r]).row.state)
    ensures After(search, steps + [Raise(w), ReadForFailure(w, |s.runs[r]| - 1)]
                          + [RecordsFailure(w), MarkJob(w, now, delay)])
            == WithFailure(s, r, id, w, now, delay)
  {
    AtRest(search, steps, s, r, id);
    RunIsSound(search, steps, s, r);
    RecoveryDoes(search, steps, s, w, |s.runs[r]| - 1, now, delay);
    RecoveryWorks(search, s, r, id, w, now, delay);
  }

  lemma RecoveryDoes(search: Matcher, steps: seq<Step>, s: System, w: WorkerId, at: nat, now: int, delay: nat)
    requires s == After(search, steps)
    ensures After(search, steps + [Raise(w), ReadForFailure(w, at)] + [RecordsFailure(w), MarkJob(w, now, delay)])
            == DoMark(DoRecordsFailure(search, DoReadForFailure(DoRaise(s, w), w, at), w), w, now, delay)
  {
    AfterTwo(search, steps, Raise(w), ReadForFailure(w, at));
    AfterTwo(search, steps + [Raise(w), ReadForFailure(w, at)], RecordsFailure(w), MarkJob(w, now, delay));
  }

  /** A publication that cannot be made fails its run as well. */
  lemma FailedPublicationsFailTheRun(search: Matcher, steps: seq<Step>, s: System, r: RunId, id: JobId, w: WorkerId,
                                     now: int, delay: nat)
    requires s == After(search, steps) && Known(s, r) && id in s.jobs && s.jobs[id].run == r
    requires WorkerAt(s, w) == Publishing(id, |s.runs[r]| - 1) && !IsTerminal(Latest(s.runs[r]).row.state)
    ensures var a := UpToDate(s.runs[r], RecordFailure, [Transition(RunState.Failed)]);
            DoMark(Do(search, s, FailPublication(w, a)), w, now, delay) == WithFailure(s, r, id, w, now, delay)
  {
    RunIsSound(search, steps, s, r);
    FailsAndGivesBack(search, s, r, id, w, now, delay);
  }

  lemma FailsAndGivesBack(search: Matcher, s: System, r: RunId, id: JobId, w: WorkerId, now: int, delay: nat)
    requires Known(s, r) && id in s.jobs && s.jobs[id].run == r && HistoryOk(search, s.runs[r])
    requires WorkerAt(s, w) == Publishing(id, |s.runs[r]| - 1) && !IsTerminal(Latest(s.runs[r]).row.state)
    ensures DoMark(DoFailPublication(search, s, w, UpToDate(s.runs[r], RecordFailure, [Transition(RunState.Failed)])),
                   w, now, delay)
            == WithFailure(s, r, id, w, now, delay)
  {
    FailingCommits(search, s.runs[r], RecordFailure);
    var s1 := DoFailPublication(search, s, w, UpToDate(s.runs[r], RecordFailure, [Transition(RunState.Failed)]));
    assert s1 == System(s.runs[r := s.runs[r] + [WithEvent(Latest(s.runs[r]), StateChanged, RunState.Failed)]], s.jobs,
                        s.workers[w := Done(id, false)], s.pushes);
    assert s1.workers[w := Idle] == s.workers[w := Idle];
  }

  /** A step that is aborted before it writes anything fails its run, and its job is done. */
  lemma AbortedStepsFailTheRun(search: Matcher, steps: seq<Step>, s: System, r: RunId, id: JobId, w: WorkerId,
                               work: Work)
    requires s == After(search, steps) && AtTheLatest(s, w, id, r) && !Parked(Latest(s.runs[r]).row.state)
    ensures Do(search, s, Drive(w, UpToDate(s.runs[r], StepAborted(work, 0), [Transition(RunState.Failed)])))
            == RunAndWorker(s, r, s.runs[r] + [WithEvent(Latest(s.runs[r]), StateChanged, RunState.Failed)], w,
                            Done(id, true))
  {
    RunIsSound(search, steps, s, r);
    FailingCommits(search, s.runs[r], StepAborted(work, 0));
  }

  // ------------------------------------------------------------------ leases

  /** A job is taken exactly when it is queued and due and the worker has nothing to do. */
  lemma ClaimedWhenDue(search: Matcher, s: System, id: JobId, w: WorkerId, now: int, lease: nat)
    ensures Do(search, s, ClaimJob(w, id, now, lease)) ==
            if id in s.jobs && s.jobs[id].status == Queued && s.jobs[id].runAfter <= now && WorkerAt(s, w) == Idle then
              System(s.runs, s.jobs[id := Taken(s.jobs[id], w, now, lease)], s.workers[w := Holding(id)], s.pushes)
            else s
  {
  }

  /** A job row given back by the queue itself. */
  function TakenBack(j: Job): Job {
    Job(j.kind, j.run, Queued, j.attempts, j.maxAttempts, j.runAfter, j.lockedAt, None, None, j.claims, j.reclaims + 1,
        j.since)
  }

  /**
   A lease holds for its time: until it is over nobody else can take the job, by claiming or by
   reclaiming it; after that, reclaiming puts it back in the queue. A heartbeat starts the time anew.
   */
  lemma LeasesHold(search: Matcher, s: System, id: JobId, w: WorkerId, now: int, lease: nat, beat: int, more: nat)
    requires id in s.jobs && s.jobs[id].status == Queued && s.jobs[id].runAfter <= now && WorkerAt(s, w) == Idle
    ensures var held := Do(search, s, ClaimJob(w, id, now, lease));
            && held.jobs == s.jobs[id := Taken(s.jobs[id], w, now, lease)] && WorkerAt(held, w) == Holding(id)
            && LeasedUntil(search, held, id, now + lease)
            && LeasedUntil(search, Do(search, held, BeatJob(id, beat, more)), id, beat + more)
  {
  }

  ghost predicate LeasedUntil(search: Matcher, s: System, id: JobId, end: int) {
    && id in s.jobs
    && (forall v: WorkerId, t: int, l: nat :: Do(search, s, ClaimJob(v, id, t, l)) == s)
    && (forall t: int :: Do(search, s, ReclaimJob(id, t)) ==
                         if t <= end then s else s.(jobs := s.jobs[id := TakenBack(s.jobs[id])]))
  }
}
