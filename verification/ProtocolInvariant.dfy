/** The inductive invariant of the protocol, one small lemma per kind of step. */
module ProtocolInvariant {
  import opened Basics
  import opened RunStates
  import opened TestEvidence
  import opened Store
  import opened Risk
  import opened Transactions
  import opened History
  import opened Jobs
  import opened Protocol

  // ------------------------------------------------------------------ the parts

  ghost predicate RunsOk(search: Matcher, s: System) {
    forall r :: r in s.runs ==> HistoryOk(search, s.runs[r])
  }

  predicate JobFits(s: System, j: Job) {
    JobOk(j) && j.run in s.runs && j.since < |s.runs[j.run]|
  }

  ghost predicate JobsOk(s: System) {
    forall id :: id in s.jobs ==> JobFits(s, s.jobs[id])
  }

  /** What a worker's position says about the run it works on. Only facts that other workers cannot undo. */
  predicate WorkerOk(s: System, x: Worker) {
    match x
    case Idle => true
    case Holding(id) => id in s.jobs
    case Driving(id, at) =>
      HasJob(s, id) && s.jobs[id].kind == ExecuteRun && s.jobs[id].since <= at < |RunOf(s, id)|
    case Recovering(id) => id in s.jobs && s.jobs[id].kind == ExecuteRun
    case Recording(id, at) =>
      && HasJob(s, id) && s.jobs[id].kind == ExecuteRun && s.jobs[id].since <= at < |RunOf(s, id)|
      && !IsTerminal(RunOf(s, id)[at].row.state)
    case Publishing(id, at) =>
      HasJob(s, id) && s.jobs[id].kind == CreatePullRequest && s.jobs[id].since <= at < |RunOf(s, id)|
    case Pushed(id, at, read, p) =>
      && HasJob(s, id) && s.jobs[id].kind == CreatePullRequest
      && at <= read < |RunOf(s, id)| && PushAllowed(RunOf(s, id)[read]) == Some(p)
    case Done(id, _) => id in s.jobs
  }

  ghost predicate WorkersOk(s: System) {
    forall w :: w in s.workers ==> WorkerOk(s, s.workers[w])
  }

  /** Every push ever made was allowed by some committed version of its run. */
  ghost predicate PushOk(s: System, p: Push) {
    p.run in s.runs &&
    exists k :: 0 <= k < |s.runs[p.run]| && AllowsPush(s.runs[p.run][k], p.gated)
  }

  predicate AllowsPush(t: Tables, text: string) {
    PushAllowed(t).Some? && PushAllowed(t).value.diff.text == text
  }

  ghost predicate PushesOk(s: System) {
    forall i :: 0 <= i < |s.pushes| ==> PushOk(s, s.pushes[i])
  }

  ghost predicate SafeOk(search: Matcher, s: System) {
    RunsOk(search, s) && JobsOk(s) && WorkersOk(s) && PushesOk(s)
  }

  // ------------------------------------------------------------------ growth

  /** Nothing committed is ever taken back. */
  ghost predicate Grows(s: System, s': System) {
    && (forall r :: r in s.runs ==> r in s'.runs && s.runs[r] <= s'.runs[r])
    && (forall id :: id in s.jobs ==>
          && id in s'.jobs && s'.jobs[id].kind == s.jobs[id].kind
          && s'.jobs[id].run == s.jobs[id].run && s'.jobs[id].since == s.jobs[id].since)
    && s.pushes <= s'.pushes
  }

  lemma WorkersOkGrow(s: System, s': System, w: WorkerId)
    requires Grows(s, s') && WorkersOk(s) && WorkerOk(s', WorkerAt(s', w))
    requires forall v :: v in s'.workers && v != w ==> v in s.workers && s.workers[v] == s'.workers[v]
    ensures WorkersOk(s')
  {
  }

  lemma PushesOkGrow(s: System, s': System)
    requires Grows(s, s') && PushesOk(s) && s'.pushes == s.pushes
    ensures PushesOk(s')
  {
  }

  /** Grown, with no run added. */
  ghost predicate Appends(s: System, s': System) {
    Grows(s, s') && s'.runs.Keys == s.runs.Keys
  }

  lemma CommitAppends(search: Matcher, s: System, run: RunId, a: Attempt)
    ensures TryCommit(search, s, run, a).Some? ==>
              var s' := TryCommit(search, s, run, a).value;
              Appends(s, s') && s'.jobs == s.jobs && s'.pushes == s.pushes
  {
  }

  lemma WorkerCommitAppends(search: Matcher, s: System, w: WorkerId, a: Attempt)
    ensures Appends(s, DoDrive(search, s, w, a))
    ensures Appends(s, DoFailPublication(search, s, w, a))
    ensures Appends(s, DoRecord(search, s, w, a))
  {
    var x := WorkerAt(s, w);
    if !x.Idle? && HasJob(s, x.job) {
      CommitAppends(search, s, s.jobs[x.job].run, a);
    }
  }

  lemma RecoveryAppends(search: Matcher, s: System, w: WorkerId)
    ensures Appends(s, DoRecordsFailure(search, s, w))
  {
    var x := WorkerAt(s, w);
    if x.Recording? && HasJob(s, x.job) {
      CommitAppends(search, s, s.jobs[x.job].run, FailureOf(x.at));
    }
  }

  lemma ApiAppends(search: Matcher, s: System, run: RunId, a: Attempt, id: JobId, now: int)
    ensures Appends(s, DoApi(search, s, run, a, id, now))
  {
    CommitAppends(search, s, run, a);
  }

  lemma ClaimAppends(s: System, w: WorkerId, id: JobId, now: int, lease: nat, delay: nat)
    ensures Appends(s, DoClaim(s, w, id, now, lease)) && Appends(s, DoMark(s, w, now, delay))
  {
  }

  lemma RowChangeAppends(search: Matcher, s: System, step: Step)
    requires step.BeatJob? || step.ReclaimJob?
    ensures Appends(s, Do(search, s, step))
  {
  }

  lemma ReadsAppend(s: System, w: WorkerId, at: nat)
    ensures Appends(s, DoLoad(s, w, at)) && Appends(s, DoReadForFailure(s, w, at))
  {
  }

  lemma EndsAppend(s: System, w: WorkerId)
    ensures Appends(s, DoReturn(s, w)) && Appends(s, DoRaise(s, w)) && Appends(s, SetWorker(s, w, Idle))
  {
  }

  lemma PushAppends(s: System, w: WorkerId, read: nat)
    ensures Appends(s, DoPush(s, w, read))
  {
  }

  lemma StepGrows(search: Matcher, s: System, step: Step)
    ensures Grows(s, Do(search, s, step))
    ensures !step.CreateRun? ==> Appends(s, Do(search, s, step))
  {
    match step {
      case CreateRun(_, _, _, _) =>
      case ApiRequest(run, a, id, now) => ApiAppends(search, s, run, a, id, now);
      case Drive(w, a) => WorkerCommitAppends(search, s, w, a);
      case RecordsFailure(w) => RecoveryAppends(search, s, w);
      case PushBranch(w, read) => PushAppends(s, w, read);
      case FailPublication(w, a) => WorkerCommitAppends(search, s, w, a);
      case Record(w, a) => WorkerCommitAppends(search, s, w, a);
      case ClaimJob(w, id, now, lease) => ClaimAppends(s, w, id, now, lease, 0);
      case MarkJob(w, now, delay) => ClaimAppends(s, w, 0, now, 0, delay);
      case BeatJob(_, _, _) => RowChangeAppends(search, s, step);
      case ReclaimJob(_, _) => RowChangeAppends(search, s, step);
      case LoadRun(w, at) => ReadsAppend(s, w, at);
      case ReadForFailure(w, at) => ReadsAppend(s, w, at);
      case ReturnParked(w) => EndsAppend(s, w);
      case Raise(w) => EndsAppend(s, w);
      case Crash(w) => EndsAppend(s, w);
    }
  }

  /** A step leaves every worker alone but the one whose step it is. */
  lemma OthersStayPut(search: Matcher, s: System, step: Step, w: WorkerId)
    requires Mover(step) != Some(w)
    ensures WorkerAt(Do(search, s, step), w) == WorkerAt(s, w)
  {
    match step {
      case Drive(v, a) => CommittersMoveAlone(search, s, v, a, w);
      case FailPublication(v, a) => CommittersMoveAlone(search, s, v, a, w);
      case Record(v, a) => CommittersMoveAlone(search, s, v, a, w);
      case _ =>
    }
  }

  lemma CommittersMoveAlone(search: Matcher, s: System, v: WorkerId, a: Attempt, w: WorkerId)
    requires v != w
    ensures WorkerAt(DoDrive(search, s, v, a), w) == WorkerAt(s, w)
    ensures WorkerAt(DoFailPublication(search, s, v, a), w) == WorkerAt(s, w)
    ensures WorkerAt(DoRecord(search, s, v, a), w) == WorkerAt(s, w)
  {
  }

  // ------------------------------------------------------------------ the kinds of change

  lemma NewRunIsOk(search: Matcher, plan: bool)
    ensures HistoryOk(search, [NewRun(plan)])
  {
    var t := NewRun(plan);
    assert StateAfter(t, 0) == Created && StateAfter(t, 1) == Created;
    forall k: nat | k > 0 ensures EventFits(t, k) {
    }
  }

  /** A step that only moves one worker. */
  lemma WorkerMoves(search: Matcher, s: System, w: WorkerId, x: Worker)
    requires SafeOk(search, s) && WorkerOk(s, x)
    ensures SafeOk(search, SetWorker(s, w, x))
  {
  }

  /** A step that rewrites one queue row. */
  lemma JobChanges(search: Matcher, s: System, id: JobId, j: Job)
    requires SafeOk(search, s) && id in s.jobs && JobOk(j)
    requires j.kind == s.jobs[id].kind && j.run == s.jobs[id].run && j.since == s.jobs[id].since
    ensures SafeOk(search, SetJob(s, id, j)) && Grows(s, SetJob(s, id, j))
  {
  }

  /** A step that inserts a queue row. */
  lemma JobAppears(search: Matcher, s: System, id: JobId, j: Job)
    requires SafeOk(search, s) && id !in s.jobs && JobFits(s, j)
    ensures SafeOk(search, SetJob(s, id, j)) && Grows(s, SetJob(s, id, j))
  {
  }

  /** A step that commits one more version of one run. */
  lemma CommitKeepsRuns(search: Matcher, s: System, run: RunId, a: Attempt)
    requires RunsOk(search, s) && TryCommit(search, s, run, a).Some?
    ensures var s' := TryCommit(search, s, run, a).value;
            && RunsOk(search, s') && Grows(s, s')
            && DecidesAs(a.request, Latest(s.runs[run]), Latest(s'.runs[run]))
  {
    AttemptKeepsHistory(search, s.runs[run], a);
  }

  lemma RunCommits(search: Matcher, s: System, run: RunId, a: Attempt)
    requires SafeOk(search, s) && TryCommit(search, s, run, a).Some?
    ensures var s' := TryCommit(search, s, run, a).value;
            && SafeOk(search, s') && Grows(s, s')
            && s'.jobs == s.jobs && s'.workers == s.workers && s'.runs.Keys == s.runs.Keys
            && |s'.runs[run]| == |s.runs[run]| + 1 && s'.runs[run][..|s.runs[run]|] == s.runs[run]
            && DecidesAs(a.request, Latest(s.runs[run]), Latest(s'.runs[run]))
            && (forall r :: r in s.runs && r != run ==> s'.runs[r] == s.runs[r])
  {
    CommitKeepsRuns(search, s, run, a);
    var s' := TryCommit(search, s, run, a).value;
    WorkersOkGrow(s, s', 0);
    PushesOkGrow(s, s');
    forall id | id in s'.jobs ensures JobFits(s', s'.jobs[id]) {
      assert JobFits(s, s.jobs[id]);
    }
  }

  lemma RunAppears(search: Matcher, s: System, run: RunId, plan: bool)
    requires SafeOk(search, s) && run !in s.runs
    ensures SafeOk(search, s.(runs := s.runs[run := [NewRun(plan)]]))
    ensures Grows(s, s.(runs := s.runs[run := [NewRun(plan)]]))
  {
    var s' := s.(runs := s.runs[run := [NewRun(plan)]]);
    NewRunIsOk(search, plan);
    WorkersOkGrow(s, s', 0);
    PushesOkGrow(s, s');
    forall id | id in s'.jobs ensures JobFits(s', s'.jobs[id]) {
      assert JobFits(s, s.jobs[id]);
    }
  }

  lemma PushHappens(search: Matcher, s: System, p: Push)
    requires SafeOk(search, s) && PushOk(s, p)
    ensures SafeOk(search, s.(pushes := s.pushes + [p]))
  {
  }

  // ------------------------------------------------------------------ every step

  lemma CreateIsSafe(search: Matcher, s: System, run: RunId, id: JobId, plan: bool, now: int)
    requires SafeOk(search, s)
    ensures SafeOk(search, DoCreate(s, run, id, plan, now))
  {
    if run !in s.runs && id !in s.jobs {
      RunAppears(search, s, run, plan);
      JobAppears(search, s.(runs := s.runs[run := [NewRun(plan)]]), id, NewJob(ExecuteRun, run, now, 3, 0));
    }
  }

  lemma EnqueueIsSafe(search: Matcher, s: System, run: RunId, r: Request, id: JobId, now: int)
    requires SafeOk(search, s) && id !in s.jobs
    ensures SafeOk(search, EnqueueFor(s, run, r, id, now))
  {
    if run in s.runs && s.runs[run] != [] {
      var since := |s.runs[run]| - 1;
      JobAppears(search, s, id, NewJob(CreatePullRequest, run, now, 3, since));
      JobAppears(search, s, id, NewJob(ExecuteRun, run, now, 3, since));
    }
  }

  lemma ApiIsSafe(search: Matcher, s: System, run: RunId, a: Attempt, id: JobId, now: int)
    requires SafeOk(search, s)
    ensures SafeOk(search, DoApi(search, s, run, a, id, now))
  {
    if id !in s.jobs && TryCommit(search, s, run, a).Some? {
      RunCommits(search, s, run, a);
      EnqueueIsSafe(search, TryCommit(search, s, run, a).value, run, a.request, id, now);
    }
  }

  lemma ClaimIsSafe(search: Matcher, s: System, w: WorkerId, id: JobId, now: int, lease: nat)
    requires SafeOk(search, s)
    ensures SafeOk(search, DoClaim(s, w, id, now, lease))
  {
    if id in s.jobs && Runnable(s.jobs[id], now) {
      assert JobFits(s, s.jobs[id]);
      var j := Claimed(s.jobs[id], w, now, lease);
      JobChanges(search, s, id, j);
      WorkerMoves(search, SetJob(s, id, j), w, Holding(id));
    }
  }

  lemma LoadIsSafe(search: Matcher, s: System, w: WorkerId, at: nat)
    requires SafeOk(search, s)
    ensures SafeOk(search, DoLoad(s, w, at))
  {
    match WorkerAt(s, w) {
      case Holding(id) =>
        if HasJob(s, id) && s.jobs[id].since <= at < |RunOf(s, id)| {
          WorkerMoves(search, s, w, Done(id, true));
          if s.jobs[id].kind == ExecuteRun {
            WorkerMoves(search, s, w, Driving(id, at));
          } else {
            WorkerMoves(search, s, w, Publishing(id, at));
          }
        }
      case _ =>
    }
  }

  /** A worker that commits on its run and then moves to a position that is fine afterwards. */
  lemma CommitAndMove(search: Matcher, s: System, w: WorkerId, run: RunId, a: Attempt, x: Worker)
    requires SafeOk(search, s) && TryCommit(search, s, run, a).Some?
    requires WorkerOk(TryCommit(search, s, run, a).value, x)
    ensures SafeOk(search, SetWorker(TryCommit(search, s, run, a).value, w, x))
  {
    RunCommits(search, s, run, a);
    WorkerMoves(search, TryCommit(search, s, run, a).value, w, x);
  }

  lemma CommitAndFinish(search: Matcher, s: System, w: WorkerId, id: JobId, a: Attempt, ok: bool)
    requires SafeOk(search, s) && HasJob(s, id) && TryCommit(search, s, s.jobs[id].run, a).Some?
    ensures SafeOk(search, SetWorker(TryCommit(search, s, s.jobs[id].run, a).value, w, Done(id, ok)))
  {
    CommitAndMove(search, s, w, s.jobs[id].run, a, Done(id, ok));
  }

  lemma DriveIsSafe(search: Matcher, s: System, w: WorkerId, a: Attempt)
    requires SafeOk(search, s)
    ensures SafeOk(search, DoDrive(search, s, w, a))
  {
    match WorkerAt(s, w) {
      case Driving(id, at) =>
        if HasJob(s, id) && TryCommit(search, s, s.jobs[id].run, a).Some? {
          assert WorkerOk(s, s.workers[w]);
          RunCommits(search, s, s.jobs[id].run, a);
          CommitAndMove(search, s, w, s.jobs[id].run, a, Driving(id, |RunOf(s, id)|));
          CommitAndFinish(search, s, w, id, a, true);
        }
      case _ =>
    }
  }

  lemma RecordsFailureIsSafe(search: Matcher, s: System, w: WorkerId)
    requires SafeOk(search, s)
    ensures SafeOk(search, DoRecordsFailure(search, s, w))
  {
    match WorkerAt(s, w) {
      case Recording(id, at) =>
        if HasJob(s, id) {
          WorkerMoves(search, s, w, Done(id, false));
          if TryCommit(search, s, s.jobs[id].run, FailureOf(at)).Some? {
            CommitAndFinish(search, s, w, id, FailureOf(at), false);
          }
        }
      case _ =>
    }
  }

  lemma ReadForFailureIsSafe(search: Matcher, s: System, w: WorkerId, at: nat)
    requires SafeOk(search, s)
    ensures SafeOk(search, DoReadForFailure(s, w, at))
  {
    match WorkerAt(s, w) {
      case Recovering(id) =>
        if HasJob(s, id) && s.jobs[id].since <= at < |RunOf(s, id)| {
          assert WorkerOk(s, s.workers[w]);
          if IsTerminal(RunOf(s, id)[at].row.state) {
            WorkerMoves(search, s, w, Done(id, false));
          } else {
            WorkerMoves(search, s, w, Recording(id, at));
          }
        }
      case _ =>
    }
  }

  lemma PushIsSafe(search: Matcher, s: System, w: WorkerId, read: nat)
    requires SafeOk(search, s)
    ensures SafeOk(search, DoPush(s, w, read))
  {
    match WorkerAt(s, w) {
      case Publishing(id, at) =>
        if HasJob(s, id) && at <= read < |RunOf(s, id)| && PushAllowed(RunOf(s, id)[read]).Some? {
          assert WorkerOk(s, s.workers[w]);
          var p := PushAllowed(RunOf(s, id)[read]).value;
          var push := Push(s.jobs[id].run, p.diff.text);
          assert AllowsPush(s.runs[push.run][read], push.gated);
          PushHappens(search, s, push);
          WorkerMoves(search, s.(pushes := s.pushes + [push]), w, Pushed(id, at, read, p));
        }
      case _ =>
    }
  }

  lemma FailPublicationIsSafe(search: Matcher, s: System, w: WorkerId, a: Attempt)
    requires SafeOk(search, s)
    ensures SafeOk(search, DoFailPublication(search, s, w, a))
  {
    var x := WorkerAt(s, w);
    if x.Publishing? && HasJob(s, x.job) && TryCommit(search, s, s.jobs[x.job].run, a).Some? {
      CommitAndFinish(search, s, w, x.job, a, false);
    }
  }

  lemma RecordIsSafe(search: Matcher, s: System, w: WorkerId, a: Attempt)
    requires SafeOk(search, s)
    ensures SafeOk(search, DoRecord(search, s, w, a))
  {
    var x := WorkerAt(s, w);
    if x.Pushed? && HasJob(s, x.job) && TryCommit(search, s, s.jobs[x.job].run, a).Some? {
      CommitAndFinish(search, s, w, x.job, a, true);
    }
  }

  lemma QuietMovesAreSafe(search: Matcher, s: System, w: WorkerId)
    requires SafeOk(search, s)
    ensures SafeOk(search, DoReturn(s, w)) && SafeOk(search, DoRaise(s, w))
    ensures SafeOk(search, SetWorker(s, w, Idle))
  {
    WorkerMoves(search, s, w, Idle);
    match WorkerAt(s, w) {
      case Driving(id, _) =>
        assert WorkerOk(s, s.workers[w]);
        WorkerMoves(search, s, w, Done(id, true));
        WorkerMoves(search, s, w, Recovering(id));
      case Publishing(id, _) => WorkerMoves(search, s, w, Done(id, false));
      case Pushed(id, _, _, _) => WorkerMoves(search, s, w, Done(id, false));
      case _ =>
    }
  }

  lemma MarkIsSafe(search: Matcher, s: System, w: WorkerId, now: int, delay: nat)
    requires SafeOk(search, s)
    ensures SafeOk(search, DoMark(s, w, now, delay))
  {
    match WorkerAt(s, w) {
      case Done(id, ok) =>
        if id in s.jobs {
          assert JobFits(s, s.jobs[id]);
          var j := if ok then MarkedSucceeded(s.jobs[id]) else MarkedFailed(s.jobs[id], now, delay);
          JobChanges(search, s, id, j);
          WorkerMoves(search, SetJob(s, id, j), w, Idle);
        }
      case _ =>
    }
  }

  lemma QueueIsSafe(search: Matcher, s: System, id: JobId, j: Job)
    requires SafeOk(search, s) && id in s.jobs
    requires (exists now, lease :: j == Beaten(s.jobs[id], now, lease))
             || (j == Reclaimed(s.jobs[id]) && s.jobs[id].status == Running)
    ensures SafeOk(search, SetJob(s, id, j))
  {
    assert JobFits(s, s.jobs[id]);
    JobChanges(search, s, id, j);
  }

  predicate ExecutesRun(step: Step) {
    || step.LoadRun? || step.Drive? || step.ReturnParked? || step.Raise?
    || step.ReadForFailure? || step.RecordsFailure? || step.Crash?
  }

  predicate PublishesRun(step: Step) {
    step.PushBranch? || step.FailPublication? || step.Record?
  }

  lemma RecoveringIsSafe(search: Matcher, s: System, step: Step)
    requires SafeOk(search, s) && (step.ReadForFailure? || step.RecordsFailure? || step.Raise? || step.Crash?)
    ensures SafeOk(search, Do(search, s, step))
  {
    match step {
      case ReadForFailure(w, at) => ReadForFailureIsSafe(search, s, w, at);
      case RecordsFailure(w) => RecordsFailureIsSafe(search, s, w);
      case Raise(w) => QuietMovesAreSafe(search, s, w);
      case Crash(w) => QuietMovesAreSafe(search, s, w);
    }
  }

  lemma ExecutingIsSafe(search: Matcher, s: System, step: Step)
    requires SafeOk(search, s) && ExecutesRun(step)
    ensures SafeOk(search, Do(search, s, step))
  {
    match step {
      case LoadRun(w, at) => LoadIsSafe(search, s, w, at);
      case Drive(w, a) => DriveIsSafe(search, s, w, a);
      case ReturnParked(w) => QuietMovesAreSafe(search, s, w);
      case _ => RecoveringIsSafe(search, s, step);
    }
  }

  lemma PublishingIsSafe(search: Matcher, s: System, step: Step)
    requires SafeOk(search, s) && PublishesRun(step)
    ensures SafeOk(search, Do(search, s, step))
  {
    match step {
      case PushBranch(w, read) => PushIsSafe(search, s, w, read);
      case FailPublication(w, a) => FailPublicationIsSafe(search, s, w, a);
      case Record(w, a) => RecordIsSafe(search, s, w, a);
    }
  }

  lemma AskingIsSafe(search: Matcher, s: System, step: Step)
    requires SafeOk(search, s) && !ExecutesRun(step) && !PublishesRun(step)
    ensures SafeOk(search, Do(search, s, step))
  {
    match step {
      case CreateRun(run, id, plan, now) => CreateIsSafe(search, s, run, id, plan, now);
      case ApiRequest(run, a, id, now) => ApiIsSafe(search, s, run, a, id, now);
      case ClaimJob(w, id, now, lease) => ClaimIsSafe(search, s, w, id, now, lease);
      case MarkJob(w, now, delay) => MarkIsSafe(search, s, w, now, delay);
      case BeatJob(id, now, lease) =>
        if id in s.jobs {
          QueueIsSafe(search, s, id, Beaten(s.jobs[id], now, lease));
        }
      case ReclaimJob(id, now) =>
        if id in s.jobs && Expired(s.jobs[id], now) {
          QueueIsSafe(search, s, id, Reclaimed(s.jobs[id]));
        }
    }
  }

  lemma StepIsSafe(search: Matcher, s: System, step: Step)
    requires SafeOk(search, s)
    ensures SafeOk(search, Do(search, s, step))
  {
    if ExecutesRun(step) {
      ExecutingIsSafe(search, s, step);
    } else if PublishesRun(step) {
      PublishingIsSafe(search, s, step);
    } else {
      AskingIsSafe(search, s, step);
    }
  }

  lemma {:induction false} EveryHistoryIsSafe(search: Matcher, steps: seq<Step>)
    ensures SafeOk(search, After(search, steps))
    decreases |steps|
  {
    if steps != [] {
      EveryHistoryIsSafe(search, steps[..|steps| - 1]);
      StepIsSafe(search, After(search, steps[..|steps| - 1]), steps[|steps| - 1]);
    }
  }
}
