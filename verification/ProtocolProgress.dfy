/**
 What the protocol lets happen: which requests of the API are carried out and what they leave, and
 how a worker, step by step, brings a run to the human gate. The safety theorems say what never
 happens; these say that the rest does. Rows and writes are spelled out here, not taken from the
 definitions the protocol is built of.
 */
module ProtocolProgress {
  import opened Basics
  import opened RunStates
  import opened TestEvidence
  import opened Store
  import opened Risk
  import opened Transactions
  import opened History
  import opened Jobs
  import opened Protocol
  import opened ProtocolInvariant
  import Texts

  /** An attempt by a session that has just read the latest version. */
  function UpToDate(h: Versions, request: Request, ops: seq<Op>): Attempt
    requires h != []
  {
    Attempt(|h| - 1, |h| - 1, |h| - 1, request, ops)
  }

  /** The rows with one more event, and the run in the event's state. */
  function WithEvent(t: Tables, kind: EventKind, state: RunState): Tables {
    var n := t.row.lastSequence + 1;
    t.(row := RunRow(state, n, t.row.requirePlanApproval), events := t.events[n := Event(kind, state)])
  }

  /** The rows once a decision on the latest diff is stored. */
  function Decided(t: Tables, decision: Decision): Tables
    requires t.diffs != []
  {
    t.(approval := Some(Store.Approval(decision, Sha256(t.diffs[|t.diffs| - 1].text))))
  }

  predicate Known(s: System, r: RunId) {
    r in s.runs && s.runs[r] != []
  }

  // ------------------------------------------------------------------ requests of the API

  /** A run that waits for the one decision it will get. */
  predicate Undecided(t: Tables) {
    t.row.state == WaitingForApproval && t.approval.None?
  }

  /** The requests that are carried out. */
  predicate Acceptable(search: Matcher, t: Tables, request: Request) {
    match request
    case Cancel => t.row.state !in {Completed, RunState.Failed, Cancelled}
    case Approve => Undecided(t) && t.diffs != [] && !Blocking(search, t.diffs[|t.diffs| - 1].text)
    case Reject => Undecided(t) && t.diffs != []
    case RequestRevision(comment) => Undecided(t) && t.diffs != [] && !Texts.Blank(comment)
    case _ => false
  }

  /** The writes of a request, in order. */
  function AskedWrites(t: Tables, request: Request): seq<Op> {
    if request.Cancel? then [Transition(Cancelled)]
    else if t.diffs == [] then []
    else
      var hash := Sha256(t.diffs[|t.diffs| - 1].text);
      match request
      case Approve => [Op.Decide(Store.Approval(Approved, hash)), Append(ApprovalGiven)]
      case Reject => [Op.Decide(Store.Approval(Rejected, hash)), Transition(RunState.Failed)]
      case RequestRevision(_) => [Op.Decide(Store.Approval(Decision.RevisionRequested, hash)), Transition(Planning)]
      case _ => []
  }

  /** The version that carrying out a request commits. */
  function Asked(t: Tables, request: Request): Tables
    requires t.diffs != [] || request.Cancel?
  {
    match request
    case Approve => WithEvent(Decided(t, Approved), Note(ApprovalGiven), WaitingForApproval)
    case Reject => WithEvent(Decided(t, Rejected), StateChanged, RunState.Failed)
    case RequestRevision(_) => WithEvent(Decided(t, Decision.RevisionRequested), StateChanged, Planning)
    case _ => WithEvent(t, StateChanged, Cancelled)
  }

  /** The job a request puts in the queue, due at once. */
  function AskedJobs(jobs: map<JobId, Job>, id: JobId, r: RunId, version: nat, request: Request, now: int)
    : map<JobId, Job>
  {
    match request
    case Approve => jobs[id := Job(CreatePullRequest, r, Queued, 0, 3, now, now, None, None, 0, 0, version)]
    case RequestRevision(_) => jobs[id := Job(ExecuteRun, r, Queued, 0, 3, now, now, None, None, 0, 0, version)]
    case _ => jobs
  }

  lemma CoreOfTwo(a: Op, b: Op)
    ensures Core([a, b]) == Core([a]) + Core([b])
    ensures Core([a]) == if a.Append? then [] else [a]
    ensures Core([b]) == if b.Append? then [] else [b]
  {
    assert [a, b][1..] == [b] && [a][1..] == [] && [b][1..] == [];
  }

  /** A decision and one more write that adds an event, over a sound latest version. */
  lemma DecideThen(t: Tables, approval: Store.Approval, op: Op)
    requires LogOk(t) && t.approval.None? && (op.Append? || (op.Transition? && CanTransition(t.row.state, op.target)))
    ensures Commit(t.row, t, [Op.Decide(approval), op]) ==
            Store.Ok(WithEvent(t.(approval := Some(approval)),
                               if op.Append? then Note(op.note) else StateChanged,
                               if op.Append? then t.row.state else op.target))
  {
    ExecTwo(Tx(t.row, t), Op.Decide(approval), op);
  }

  lemma OneTransition(t: Tables, target: RunState)
    requires LogOk(t) && CanTransition(t.row.state, target)
    ensures Commit(t.row, t, [Transition(target)]) == Store.Ok(WithEvent(t, StateChanged, target))
  {
    ExecOne(Tx(t.row, t), Transition(target));
  }

  lemma CancelCommits(search: Matcher, h: Versions)
    requires HistoryOk(search, h) && Acceptable(search, Latest(h), Cancel)
    ensures var a := UpToDate(h, Cancel, [Transition(Cancelled)]);
            && Attemptable(search, h, a)
            && Committed(search, h, a) == Some(WithEvent(Latest(h), StateChanged, Cancelled))
  {
    assert SoundAt(search, h, |h| - 1);
    CoreOfTwo(Transition(Cancelled), Transition(Cancelled));
    OneTransition(Latest(h), Cancelled);
  }

  /** What a decision writes is what the protocol has it write. */
  lemma AskedIsWritten(search: Matcher, h: Versions, request: Request)
    requires HistoryOk(search, h) && Acceptable(search, Latest(h), request) && !request.Cancel?
    ensures var t, ops := Latest(h), AskedWrites(Latest(h), request);
            && |ops| == 2 && ops[0].Decide? && (ops[1].Append? || ops[1].Transition?)
            && Writes(search, request, t.row, t, t) == Some(Core(ops))
            && (request.Approve? ==> ops == Core(ops) + [Append(ApprovalGiven)])
  {
    var t := Latest(h);
    assert SoundAt(search, h, |h| - 1);
    assert DiffOk(search, t.diffs[|t.diffs| - 1]);
    var ops := AskedWrites(t, request);
    CoreOfTwo(ops[0], ops[1]);
  }

  lemma DecisionCommits(search: Matcher, h: Versions, request: Request)
    requires HistoryOk(search, h) && Acceptable(search, Latest(h), request) && !request.Cancel?
    ensures Commit(Latest(h).row, Latest(h), AskedWrites(Latest(h), request)) == Store.Ok(Asked(Latest(h), request))
  {
    var t := Latest(h);
    assert SoundAt(search, h, |h| - 1);
    var ops := AskedWrites(t, request);
    DecideThen(t, ops[0].approval, ops[1]);
  }

  /** An acceptable request commits exactly the version it asks for. */
  lemma AskingCommits(search: Matcher, h: Versions, request: Request)
    requires HistoryOk(search, h) && Acceptable(search, Latest(h), request)
    ensures var a := UpToDate(h, request, AskedWrites(Latest(h), request));
            Attemptable(search, h, a) && Committed(search, h, a) == Some(Asked(Latest(h), request))
  {
    if request.Cancel? {
      CancelCommits(search, h);
    } else {
      AskedIsWritten(search, h, request);
      DecisionCommits(search, h, request);
    }
  }

  /** Nothing else commits, whatever the session has read and tries to write. */
  lemma UnacceptableIsRefused(search: Matcher, h: Versions, a: Attempt)
    requires HistoryOk(search, h) && ApiMayAsk(a.request) && !Acceptable(search, Latest(h), a.request)
    requires Attemptable(search, h, a)
    ensures Committed(search, h, a).None?
  {
    if Committed(search, h, a).Some? {
      OnlyFreshCommits(search, h, a);
      assert SoundAt(search, h, |h| - 1);
      if Latest(h).diffs != [] {
        assert DiffOk(search, Latest(h).diffs[|Latest(h).diffs| - 1]);
      }
    }
  }

  /**
   Which requests are carried out: an acceptable one, made by a session that has read the latest
   version, commits exactly one version, with its decision bound to the latest diff, and puts exactly
   its job in the queue; one that is not acceptable changes nothing, whatever was read or is written.
   */
  lemma RequestsAreCarriedOut(search: Matcher, steps: seq<Step>, r: RunId, request: Request, id: JobId, now: int)
    requires Known(After(search, steps), r) && id !in After(search, steps).jobs
    requires Acceptable(search, Latest(After(search, steps).runs[r]), request)
    ensures var s := After(search, steps); var h := s.runs[r]; var t := Latest(h);
            Do(search, s, ApiRequest(r, UpToDate(h, request, AskedWrites(t, request)), id, now))
            == System(s.runs[r := h + [Asked(t, request)]], AskedJobs(s.jobs, id, r, |h|, request, now),
                      s.workers, s.pushes)
  {
    EveryHistoryIsSafe(search, steps);
    assert HistoryOk(search, After(search, steps).runs[r]);
    AskingDoes(search, After(search, steps), r, request, id, now);
  }

  lemma AskingDoes(search: Matcher, s: System, r: RunId, request: Request, id: JobId, now: int)
    requires Known(s, r) && id !in s.jobs && HistoryOk(search, s.runs[r])
    requires Acceptable(search, Latest(s.runs[r]), request)
    ensures var h := s.runs[r]; var t := Latest(h);
            DoApi(search, s, r, UpToDate(h, request, AskedWrites(t, request)), id, now)
            == System(s.runs[r := h + [Asked(t, request)]], AskedJobs(s.jobs, id, r, |h|, request, now),
                      s.workers, s.pushes)
  {
    AskingCommits(search, s.runs[r], request);
  }

  lemma OtherRequestsChangeNothing(search: Matcher, steps: seq<Step>, r: RunId, a: Attempt, id: JobId, now: int)
    requires Known(After(search, steps), r) ==>
               !Acceptable(search, Latest(After(search, steps).runs[r]), a.request)
    ensures Do(search, After(search, steps), ApiRequest(r, a, id, now)) == After(search, steps)
  {
    EveryHistoryIsSafe(search, steps);
    var s := After(search, steps);
    if r in s.runs && ApiMayAsk(a.request) && Attemptable(search, s.runs[r], a) {
      assert HistoryOk(search, s.runs[r]);
      UnacceptableIsRefused(search, s.runs[r], a);
    }
  }

  // ------------------------------------------------------------------ one step of a drive

  /** Tests that ran and succeeded: the full suite, and the targeted ones if there were any. */
  predicate Passes(suite: Suite) {
    && suite.full.Some? && suite.full.value.result.exitCode == 0 && !suite.full.value.result.timedOut
    && (suite.targeted.Some? ==> suite.targeted.value.result.exitCode == 0 && !suite.targeted.value.result.timedOut)
  }

  /** The next state on the way of a run to the human who reviews its plan or its change. */
  function NextState(row: RunRow): RunState {
    if row.state == Planning && row.requirePlanApproval then WaitingForPlanReview
    else if HappyIndex(row.state) < 12 then HAPPY_PATH[HappyIndex(row.state) + 1] else row.state
  }

  /** The writes of a step that does its work. */
  function StepOps(search: Matcher, row: RunRow, work: Work): seq<Op> {
    match row.state
    case RetrievingContext => [Transition(Planning), Op.StorePlan]
    case Testing =>
      [Transition(Verifying),
       Op.StoreDiff(Diff(work.diffText, Sha256(work.diffText), work.filesChanged, Blocking(search, work.diffText)))]
    case Verifying => [Witness(work.suite.Outcomes()), Transition(WaitingForApproval)]
    case _ => [Transition(NextState(row))]
  }

  /** The version it commits: the next state, and what the step has produced. */
  function Stepped(search: Matcher, t: Tables, work: Work): Tables {
    var u := WithEvent(t, StateChanged, NextState(t.row));
    match t.row.state
    case RetrievingContext => u.(plans := t.plans + [Plan(|t.plans| + 1)])
    case Testing =>
      u.(diffs := t.diffs + [Diff(work.diffText, Sha256(work.diffText), work.filesChanged,
                                  Blocking(search, work.diffText))])
    case Verifying => u.(evidence := Some(work.suite.Outcomes()))
    case _ => u
  }

  /** Work that lets every step go through: a change to show, and tests that pass. */
  predicate GoodWork(work: Work) {
    work.filesChanged > 0 && Passes(work.suite)
  }

  lemma NextIsTheTarget(row: RunRow)
    requires HasStep(row.state)
    ensures NextState(row) == StepTarget(row.state, row.requirePlanApproval) && CanTransition(row.state, NextState(row))
  {
    StepDescends(row.state, row.requirePlanApproval);
  }

  lemma TransitionThenPlan(t: Tables, target: RunState)
    requires LogOk(t) && CanTransition(t.row.state, target)
    ensures Commit(t.row, t, [Transition(target), Op.StorePlan])
            == Store.Ok(WithEvent(t, StateChanged, target).(plans := t.plans + [Plan(|t.plans| + 1)]))
  {
    ExecTwo(Tx(t.row, t), Transition(target), Op.StorePlan);
  }

  lemma TransitionThenDiff(t: Tables, target: RunState, diff: Diff)
    requires LogOk(t) && CanTransition(t.row.state, target)
    ensures Commit(t.row, t, [Transition(target), Op.StoreDiff(diff)])
            == Store.Ok(WithEvent(t, StateChanged, target).(diffs := t.diffs + [diff]))
  {
    ExecTwo(Tx(t.row, t), Transition(target), Op.StoreDiff(diff));
  }

  lemma WitnessThenTransition(t: Tables, target: RunState, outcomes: seq<TestOutcome>)
    requires LogOk(t) && CanTransition(t.row.state, target)
    ensures Commit(t.row, t, [Witness(outcomes), Transition(target)])
            == Store.Ok(WithEvent(t, StateChanged, target).(evidence := Some(outcomes)))
  {
    ExecTwo(Tx(t.row, t), Witness(outcomes), Transition(target));
  }

  lemma StepOpsCommit(search: Matcher, t: Tables, work: Work)
    requires LogOk(t) && HasStep(t.row.state)
    ensures Commit(t.row, t, StepOps(search, t.row, work)) == Store.Ok(Stepped(search, t, work))
  {
    NextIsTheTarget(t.row);
    if t.row.state == RetrievingContext {
      TransitionThenPlan(t, Planning);
    } else if t.row.state == Testing {
      TransitionThenDiff(t, Verifying, Diff(work.diffText, Sha256(work.diffText), work.filesChanged,
                                            Blocking(search, work.diffText)));
    } else if t.row.state == Verifying {
      WitnessThenTransition(t, WaitingForApproval, work.suite.Outcomes());
    } else {
      OneTransition(t, NextState(t.row));
    }
  }

  lemma StepOpsAreTheWrites(search: Matcher, row: RunRow, work: Work)
    requires HasStep(row.state) && GoodWork(work)
    ensures StepCompletes(row, work) && Core(StepOps(search, row, work)) == StepWrites(search, row, work)
  {
    NextIsTheTarget(row);
    SuiteVerdict(work.suite);
    var ops := StepOps(search, row, work);
    if |ops| == 2 {
      CoreOfTwo(ops[0], ops[1]);
      assert ops == [ops[0], ops[1]];
    } else {
      CoreOfTwo(ops[0], ops[0]);
    }
  }

  lemma StepCommits(search: Matcher, h: Versions, work: Work)
    requires HistoryOk(search, h) && HasStep(Latest(h).row.state) && GoodWork(work)
    ensures var a := UpToDate(h, StepDone(work), StepOps(search, Latest(h).row, work));
            Attemptable(search, h, a) && Committed(search, h, a) == Some(Stepped(search, Latest(h), work))
  {
    assert SoundAt(search, h, |h| - 1);
    StepOpsCommit(search, Latest(h), work);
    StepOpsAreTheWrites(search, Latest(h).row, work);
  }

  /** A worker at the latest version of the run of its job. */
  predicate AtTheLatest(s: System, w: WorkerId, id: JobId, r: RunId) {
    && Known(s, r) && id in s.jobs && s.jobs[id].run == r
    && WorkerAt(s, w) == Driving(id, |s.runs[r]| - 1)
  }

  /** What happened to one run and one worker, and to nothing else. */
  function RunAndWorker(s: System, r: RunId, h: Versions, w: WorkerId, x: Worker): System {
    System(s.runs[r := h], s.jobs, s.workers[w := x], s.pushes)
  }

  lemma CommittedDriveMoves(search: Matcher, s: System, w: WorkerId, id: JobId, r: RunId, a: Attempt, u: Tables)
    requires AtTheLatest(s, w, id, r) && a.at == |s.runs[r]| - 1 && a.request.StepDone?
    requires Attemptable(search, s.runs[r], a) && Committed(search, s.runs[r], a) == Some(u)
    ensures DoDrive(search, s, w, a) == RunAndWorker(s, r, s.runs[r] + [u], w, Driving(id, |s.runs[r]|))
  {
  }

  /** One more step of a drive, from any reachable state. */
  lemma DriveGoesOn(search: Matcher, steps: seq<Step>, w: WorkerId, id: JobId, r: RunId, work: Work)
    requires var s := After(search, steps);
             AtTheLatest(s, w, id, r) && HasStep(Latest(s.runs[r]).row.state) && GoodWork(work)
    ensures var s := After(search, steps); var h := s.runs[r];
            Do(search, s, Drive(w, UpToDate(h, StepDone(work), StepOps(search, Latest(h).row, work))))
            == RunAndWorker(s, r, h + [Stepped(search, Latest(h), work)], w, Driving(id, |h|))
  {
    EveryHistoryIsSafe(search, steps);
    DriveGoesOnFrom(search, After(search, steps), w, id, r, work);
  }

  lemma DriveGoesOnFrom(search: Matcher, s: System, w: WorkerId, id: JobId, r: RunId, work: Work)
    requires AtTheLatest(s, w, id, r) && HistoryOk(search, s.runs[r])
    requires HasStep(Latest(s.runs[r]).row.state) && GoodWork(work)
    ensures var h := s.runs[r];
            DoDrive(search, s, w, UpToDate(h, StepDone(work), StepOps(search, Latest(h).row, work)))
            == RunAndWorker(s, r, h + [Stepped(search, Latest(h), work)], w, Driving(id, |h|))
  {
    var h := s.runs[r];
    StepCommits(search, h, work);
    CommittedDriveMoves(search, s, w, id, r, UpToDate(h, StepDone(work), StepOps(search, Latest(h).row, work)),
                        Stepped(search, Latest(h), work));
  }

  // ------------------------------------------------------------------ as far as the human gate

  /** Where the worker has to leave the run to a human. */
  function Gate(row: RunRow): RunState {
    if row.requirePlanApproval then WaitingForPlanReview else WaitingForApproval
  }

  /** Version `u` is at the gate, and what there is to review was made on the way from `t`. */
  predicate Presents(search: Matcher, t: Tables, u: Tables, work: Work) {
    && u.row.state == Gate(t.row) && u.plans != [] && u.approval == t.approval && u.pulls == t.pulls
    && (t.row.state == Gate(t.row) ==> u == t)
    && (u.row.state == WaitingForApproval && t.row.state != WaitingForApproval ==>
          && u.evidence == Some(work.suite.Outcomes())
          && u.diffs == if t.row.state == Verifying then t.diffs
                        else t.diffs + [Diff(work.diffText, Sha256(work.diffText), work.filesChanged,
                                             Blocking(search, work.diffText))])
  }

  lemma PresentsOneEarlier(search: Matcher, t: Tables, u: Tables, work: Work)
    requires HasStep(t.row.state) && Presents(search, Stepped(search, t, work), u, work)
    ensures Presents(search, t, u, work)
  {
  }

  /** Nothing else in the system has changed. */
  predicate OnlyDrove(s: System, s': System, r: RunId, w: WorkerId, id: JobId) {
    && Known(s, r) && Known(s', r) && s.runs[r] <= s'.runs[r]
    && s' == RunAndWorker(s, r, s'.runs[r], w, Driving(id, |s'.runs[r]| - 1))
  }

  lemma DroveTwice(s: System, mid: System, s': System, r: RunId, w: WorkerId, id: JobId)
    requires OnlyDrove(s, mid, r, w, id) && OnlyDrove(mid, s', r, w, id)
    ensures OnlyDrove(s, s', r, w, id)
  {
    assert s'.runs == mid.runs[r := s'.runs[r]] == s.runs[r := s'.runs[r]];
    assert s'.workers == s.workers[w := Driving(id, |s'.runs[r]| - 1)];
  }

  lemma DroveNothing(s: System, r: RunId, w: WorkerId, id: JobId)
    requires AtTheLatest(s, w, id, r)
    ensures OnlyDrove(s, s, r, w, id)
  {
    assert s.runs == s.runs[r := s.runs[r]];
    assert s.workers == s.workers[w := Driving(id, |s.runs[r]| - 1)];
  }

  /** On the way to the gate, or there. */
  predicate BeforeTheGate(t: Tables) {
    HasStep(t.row.state) || t.row.state == Gate(t.row)
  }

  lemma StepTowardsTheGate(search: Matcher, h: Versions, work: Work)
    requires HistoryOk(search, h) && HasStep(Latest(h).row.state)
    ensures var t, u := Latest(h), Stepped(search, Latest(h), work);
            Rank(u.row.state) < Rank(t.row.state) && BeforeTheGate(u)
  {
    assert SoundAt(search, h, |h| - 1);
    StepDescends(Latest(h).row.state, Latest(h).row.requirePlanApproval);
  }

  lemma AtTheGate(search: Matcher, h: Versions, work: Work)
    requires HistoryOk(search, h) && Latest(h).row.state == Gate(Latest(h).row)
    ensures Presents(search, Latest(h), Latest(h), work)
  {
    assert SoundAt(search, h, |h| - 1);
  }

  /** One state further, and nothing else. */
  predicate WentOn(search: Matcher, s: System, s': System, w: WorkerId, id: JobId, r: RunId, work: Work) {
    && OnlyDrove(s, s', r, w, id) && AtTheLatest(s', w, id, r)
    && Latest(s'.runs[r]) == Stepped(search, Latest(s.runs[r]), work) && BeforeTheGate(Latest(s'.runs[r]))
    && Rank(Latest(s'.runs[r]).row.state) < Rank(Latest(s.runs[r]).row.state)
  }

  lemma GoesOn(search: Matcher, s: System, w: WorkerId, id: JobId, r: RunId, work: Work)
    requires AtTheLatest(s, w, id, r) && HistoryOk(search, s.runs[r]) && HasStep(Latest(s.runs[r]).row.state)
    ensures WentOn(search, s, RunAndWorker(s, r, s.runs[r] + [Stepped(search, Latest(s.runs[r]), work)], w,
                                           Driving(id, |s.runs[r]|)), w, id, r, work)
  {
    StepTowardsTheGate(search, s.runs[r], work);
  }

  /** The step that brings the run one state further. */
  lemma OneStepFurther(search: Matcher, steps: seq<Step>, s: System, w: WorkerId, id: JobId, r: RunId, work: Work)
    returns (step: Step)
    requires s == After(search, steps) && AtTheLatest(s, w, id, r) && GoodWork(work)
    requires HasStep(Latest(s.runs[r]).row.state)
    ensures WentOn(search, s, After(search, steps + [step]), w, id, r, work)
  {
    RunIsSound(search, steps, s, r);
    step := Drive(w, UpToDate(s.runs[r], StepDone(work), StepOps(search, Latest(s.runs[r]).row, work)));
    AfterOne(search, steps, step);
    DriveGoesOnFrom(search, s, w, id, r, work);
    GoesOn(search, s, w, id, r, work);
  }

  lemma RunIsSound(search: Matcher, steps: seq<Step>, s: System, r: RunId)
    requires s == After(search, steps) && r in s.runs
    ensures HistoryOk(search, s.runs[r])
  {
    EveryHistoryIsSafe(search, steps);
  }

  lemma Waits(search: Matcher, steps: seq<Step>, w: WorkerId, id: JobId, r: RunId, work: Work)
    requires AtTheLatest(After(search, steps), w, id, r)
    requires Latest(After(search, steps).runs[r]).row.state == Gate(Latest(After(search, steps).runs[r]).row)
    ensures OnlyDrove(After(search, steps), After(search, steps), r, w, id)
    ensures Presents(search, Latest(After(search, steps).runs[r]), Latest(After(search, steps).runs[r]), work)
  {
    EveryHistoryIsSafe(search, steps);
    assert HistoryOk(search, After(search, steps).runs[r]);
    AtTheGate(search, After(search, steps).runs[r], work);
    DroveNothing(After(search, steps), r, w, id);
  }

  /** What a drive has done to the system: nothing but bring the run to the gate. */
  predicate DroveToTheGate(search: Matcher, s: System, s': System, r: RunId, w: WorkerId, id: JobId, work: Work) {
    OnlyDrove(s, s', r, w, id) && Presents(search, Latest(s.runs[r]), Latest(s'.runs[r]), work)
  }

  lemma FromOneEarlier(search: Matcher, s: System, mid: System, s': System, r: RunId, w: WorkerId, id: JobId,
                       work: Work)
    requires OnlyDrove(s, mid, r, w, id) && HasStep(Latest(s.runs[r]).row.state)
    requires Latest(mid.runs[r]) == Stepped(search, Latest(s.runs[r]), work)
    requires DroveToTheGate(search, mid, s', r, w, id, work)
    ensures DroveToTheGate(search, s, s', r, w, id, work)
  {
    DroveTwice(s, mid, s', r, w, id);
    PresentsOneEarlier(search, Latest(s.runs[r]), Latest(s'.runs[r]), work);
  }

  lemma StepThen(steps: seq<Step>, step: Step, later: seq<Step>)
    ensures steps + ([step] + later) == steps + [step] + later
    ensures steps + [] == steps
  {
  }

  /** A worker that drives a run, and whose steps do their work, brings it to the gate. */
  lemma {:induction false} DriveReachesTheGate(search: Matcher, steps: seq<Step>, s: System, w: WorkerId, id: JobId,
                                               r: RunId, work: Work)
    returns (more: seq<Step>)
    requires s == After(search, steps) && AtTheLatest(s, w, id, r) && GoodWork(work)
    requires BeforeTheGate(Latest(s.runs[r]))
    ensures DroveToTheGate(search, s, After(search, steps + more), r, w, id, work)
    decreases Rank(Latest(s.runs[r]).row.state)
  {
    if !HasStep(Latest(s.runs[r]).row.state) {
      more := [];
      Waits(search, steps, w, id, r, work);
      StepThen(steps, Crash(w), []);
    } else {
      var step := OneStepFurther(search, steps, s, w, id, r, work);
      var mid := After(search, steps + [step]);
      var later := DriveReachesTheGate(search, steps + [step], mid, w, id, r, work);
      more := [step] + later;
      StepThen(steps, step, later);
      FromOneEarlier(search, s, mid, After(search, steps + more), r, w, id, work);
    }
  }

  // ------------------------------------------------------------------ taking a job and finishing it

  /** The row of a job that a worker has just taken. */
  function Taken(j: Job, w: WorkerId, now: int, lease: nat): Job {
    Job(j.kind, j.run, Running, j.attempts + 1, j.maxAttempts, j.runAfter, now, Some(w), Some(now + lease),
        j.claims + 1, j.reclaims, j.since)
  }

  /** The row of a job that is done. */
  function Finished(j: Job): Job {
    Job(j.kind, j.run, Succeeded, j.attempts, j.maxAttempts, j.runAfter, j.lockedAt, None, None,
        j.claims, j.reclaims, j.since)
  }

  /** A job that waits for a worker, and one that has nothing to do. */
  predicate Waiting(s: System, id: JobId, w: WorkerId, kind: JobKind, r: RunId, now: int) {
    && Known(s, r) && id in s.jobs && s.jobs[id].kind == kind && s.jobs[id].run == r
    && s.jobs[id].status == Queued && s.jobs[id].runAfter <= now
    && WorkerAt(s, w) == Idle
  }

  lemma AfterTwo(search: Matcher, steps: seq<Step>, a: Step, b: Step)
    ensures After(search, steps + [a, b]) == Do(search, Do(search, After(search, steps), a), b)
  {
    assert steps + [a, b] == steps + [a] + [b];
    AfterOne(search, steps, a);
    AfterOne(search, steps + [a], b);
  }

  /** Taking a job and reading the latest version of its run. */
  lemma TakesTheJob(search: Matcher, steps: seq<Step>, s: System, r: RunId, id: JobId, w: WorkerId, kind: JobKind,
                    now: int, lease: nat)
    requires s == After(search, steps) && Waiting(s, id, w, kind, r, now)
    requires Latest(s.runs[r]).row.state !in {Completed, RunState.Failed, Cancelled}
    ensures var at := |s.runs[r]| - 1;
            After(search, steps + [ClaimJob(w, id, now, lease), LoadRun(w, at)])
            == System(s.runs, s.jobs[id := Taken(s.jobs[id], w, now, lease)],
                      s.workers[w := if kind == ExecuteRun then Driving(id, at) else Publishing(id, at)], s.pushes)
  {
    AtRest(search, steps, s, r, id);
    ClaimsAndLoads(search, steps, s, id, w, now, lease, |s.runs[r]| - 1);
    LoadsTheLatest(s, r, id, w, kind, now, lease);
  }

  lemma ClaimsAndLoads(search: Matcher, steps: seq<Step>, s: System, id: JobId, w: WorkerId, now: int, lease: nat,
                       at: nat)
    requires s == After(search, steps)
    ensures After(search, steps + [ClaimJob(w, id, now, lease), LoadRun(w, at)])
            == DoLoad(DoClaim(s, w, id, now, lease), w, at)
  {
    AfterTwo(search, steps, ClaimJob(w, id, now, lease), LoadRun(w, at));
  }

  /** A reachable run rests in a state with a step or in a parked one; and a job of it is no newer than the run. */
  lemma AtRest(search: Matcher, steps: seq<Step>, s: System, r: RunId, id: JobId)
    requires s == After(search, steps) && Known(s, r) && id in s.jobs && s.jobs[id].run == r
    ensures s.jobs[id].since < |s.runs[r]|
    ensures Latest(s.runs[r]).row.state != PrCreated
    ensures HasStep(Latest(s.runs[r]).row.state) || Parked(Latest(s.runs[r]).row.state)
  {
    RunIsSound(search, steps, s, r);
    RestsSomewhere(search, s.runs[r]);
    EveryHistoryIsSafe(search, steps);
    assert JobFits(s, s.jobs[id]);
  }

  lemma RestsSomewhere(search: Matcher, h: Versions)
    requires HistoryOk(search, h)
    ensures Latest(h).row.state != PrCreated && (HasStep(Latest(h).row.state) || Parked(Latest(h).row.state))
  {
    assert SoundAt(search, h, |h| - 1);
    StepOrParked(Latest(h).row.state);
  }

  lemma LoadsTheLatest(s: System, r: RunId, id: JobId, w: WorkerId, kind: JobKind, now: int, lease: nat)
    requires Waiting(s, id, w, kind, r, now) && s.jobs[id].since < |s.runs[r]|
    requires Latest(s.runs[r]).row.state !in {Completed, RunState.Failed, Cancelled, PrCreated}
    ensures var at := |s.runs[r]| - 1;
            DoLoad(DoClaim(s, w, id, now, lease), w, at)
            == System(s.runs, s.jobs[id := Taken(s.jobs[id], w, now, lease)],
                      s.workers[w := if kind == ExecuteRun then Driving(id, at) else Publishing(id, at)], s.pushes)
  {
    var claimed := DoClaim(s, w, id, now, lease);
    assert claimed == System(s.runs, s.jobs[id := Taken(s.jobs[id], w, now, lease)], s.workers[w := Holding(id)],
                             s.pushes);
    assert claimed.workers[w := Publishing(id, |s.runs[r]| - 1)] == s.workers[w := Publishing(id, |s.runs[r]| - 1)];
    assert claimed.workers[w := Driving(id, |s.runs[r]| - 1)] == s.workers[w := Driving(id, |s.runs[r]| - 1)];
  }

  /** A worker whose run waits for a human returns and reports its job done. */
  lemma ReportsTheJob(search: Matcher, steps: seq<Step>, s: System, r: RunId, id: JobId, w: WorkerId, now: int,
                      delay: nat)
    requires s == After(search, steps) && AtTheLatest(s, w, id, r)
    requires Latest(s.runs[r]).row.state in {WaitingForPlanReview, WaitingForApproval}
    ensures After(search, steps + [ReturnParked(w), MarkJob(w, now, delay)])
            == System(s.runs, s.jobs[id := Finished(s.jobs[id])], s.workers[w := Idle], s.pushes)
  {
    AfterTwo(search, steps, ReturnParked(w), MarkJob(w, now, delay));
    var returned := DoReturn(s, w);
    assert returned == System(s.runs, s.jobs, s.workers[w := Done(id, true)], s.pushes);
    assert returned.workers[w := Idle] == s.workers[w := Idle];
  }

  /** What a job's whole run has done to the system: its run is at the gate, it is finished, its worker is free. */
  predicate WorkedOff(search: Matcher, s: System, s': System, r: RunId, id: JobId, w: WorkerId, now: int, lease: nat,
                      work: Work)
  {
    && Known(s, r) && Known(s', r) && id in s.jobs && s.runs[r] <= s'.runs[r]
    && s' == System(s.runs[r := s'.runs[r]], s.jobs[id := Finished(Taken(s.jobs[id], w, now, lease))],
                    s.workers[w := Idle], s.pushes)
    && Presents(search, Latest(s.runs[r]), Latest(s'.runs[r]), work)
  }

  lemma WorksOff(search: Matcher, s: System, s1: System, s2: System, s3: System, r: RunId, id: JobId, w: WorkerId,
                 now: int, lease: nat, work: Work)
    requires Known(s, r) && id in s.jobs
    requires s1 == System(s.runs, s.jobs[id := Taken(s.jobs[id], w, now, lease)],
                          s.workers[w := Driving(id, |s.runs[r]| - 1)], s.pushes)
    requires DroveToTheGate(search, s1, s2, r, w, id, work)
    requires s3 == System(s2.runs, s2.jobs[id := Finished(s2.jobs[id])], s2.workers[w := Idle], s2.pushes)
    ensures WorkedOff(search, s, s3, r, id, w, now, lease, work)
  {
    assert s3.jobs == s.jobs[id := Finished(Taken(s.jobs[id], w, now, lease))];
    assert s3.workers == s.workers[w := Idle];
  }

  /**
   No reachable run is stuck: wherever a run is that neither waits for a human nor is finished, a
   worker that takes a due job of it, and whose steps do their work, brings it to the gate. There is a
   plan to review, or the diff of the work and the outcomes of its tests; the job is done and the worker
   free; and nothing else has changed.
   */
  lemma EveryActiveRunCanReachTheGate(search: Matcher, steps: seq<Step>, s: System, r: RunId, id: JobId, w: WorkerId,
                                      now: int, lease: nat, work: Work)
    returns (more: seq<Step>)
    requires s == After(search, steps) && Waiting(s, id, w, ExecuteRun, r, now) && GoodWork(work)
    requires Latest(s.runs[r]).row.state !in
               {WaitingForPlanReview, WaitingForApproval, Completed, RunState.Failed, Cancelled}
    ensures WorkedOff(search, s, After(search, steps + more), r, id, w, now, lease, work)
  {
    AtRest(search, steps, s, r, id);
    StepOrParked(Latest(s.runs[r]).row.state);
    TakesTheJob(search, steps, s, r, id, w, ExecuteRun, now, lease);
    var first := [ClaimJob(w, id, now, lease), LoadRun(w, |s.runs[r]| - 1)];
    var s1 := After(search, steps + first);
    var way := DriveReachesTheGate(search, steps + first, s1, w, id, r, work);
    var s2 := After(search, steps + first + way);
    var last := ReportsAtTheGate(search, steps + first + way, s1, s2, r, id, w, now, work);
    more := first + way + last;
    ThreeParts(steps, first, way, last);
    WorksOff(search, s, s1, s2, After(search, steps + more), r, id, w, now, lease, work);
  }

  lemma ThreeParts(steps: seq<Step>, a: seq<Step>, b: seq<Step>, c: seq<Step>)
    ensures steps + (a + b + c) == steps + a + b + c
  {
  }

  lemma ReportsAtTheGate(search: Matcher, steps: seq<Step>, s1: System, s2: System, r: RunId, id: JobId, w: WorkerId,
                         now: int, work: Work)
    returns (last: seq<Step>)
    requires s2 == After(search, steps) && DroveToTheGate(search, s1, s2, r, w, id, work)
    requires id in s1.jobs && s1.jobs[id].run == r
    ensures After(search, steps + last)
            == System(s2.runs, s2.jobs[id := Finished(s2.jobs[id])], s2.workers[w := Idle], s2.pushes)
  {
    last := [ReturnParked(w), MarkJob(w, now, 0)];
    ReportsTheJob(search, steps, s2, r, id, w, now, 0);
  }
}
