/**
 What keeps a run going: a job that will bring a worker to it while it needs one, and a publish
 job once it is approved. No step takes either away, except the one that marks an execute_run
 job failed for good while the run is active and no other job drives it.
 */
module ProtocolLiveness {
  import opened Basics
  import opened RunStates
  import opened TestEvidence
  import opened Store
  import opened Risk
  import opened Transactions
  import opened History
  import opened Jobs
  import opened Protocol
  import opened ProtocolInvariant

  predicate Pending(j: Job) {
    j.status == Queued || j.status == Running
  }

  predicate Active(s: System, r: RunId) {
    r in s.runs && s.runs[r] != [] && !Parked(Latest(s.runs[r]).row.state)
  }

  /** Job `id` will bring a worker to run `r`; once a revision was asked for, only a job enqueued by it counts. */
  predicate Drives(s: System, r: RunId, id: JobId)
    requires r in s.runs && s.runs[r] != []
  {
    && id in s.jobs && s.jobs[id].kind == ExecuteRun && s.jobs[id].run == r
    && Pending(s.jobs[id]) && s.jobs[id].since < |s.runs[r]|
    && (Revised(Latest(s.runs[r])) ==> Revised(s.runs[r][s.jobs[id].since]))
  }

  ghost predicate Driven(s: System, r: RunId) {
    Active(s, r) ==> exists id: JobId :: Drives(s, r, id)
  }

  /** Job `id` will publish run `r`, or has used up its attempts at it. */
  predicate Publishes(s: System, r: RunId, id: JobId) {
    && id in s.jobs && s.jobs[id].kind == CreatePullRequest && s.jobs[id].run == r
    && (Pending(s.jobs[id]) || (s.jobs[id].status == FailedForGood && s.jobs[id].attempts >= s.jobs[id].maxAttempts))
  }

  predicate AwaitsPublication(t: Tables) {
    t.row.state == WaitingForApproval && t.approval.Some? && t.approval.value.decision == Approved
  }

  predicate IsApproved(s: System, r: RunId) {
    r in s.runs && s.runs[r] != [] && AwaitsPublication(Latest(s.runs[r]))
  }

  ghost predicate Published(s: System, r: RunId) {
    IsApproved(s, r) ==> exists id: JobId :: Publishes(s, r, id)
  }

  /** The reason a worker may report success: a version, no older than the job, that needs no more of it. */
  predicate Reason(s: System, id: JobId, k: nat) {
    && HasJob(s, id) && s.jobs[id].since <= k < |RunOf(s, id)|
    && var state := RunOf(s, id)[k].row.state;
       if s.jobs[id].kind == ExecuteRun then Parked(state) else IsTerminal(state)
  }

  ghost predicate Justified(s: System, x: Worker) {
    x.Done? && x.ok ==> exists k: nat :: Reason(s, x.job, k)
  }

  ghost predicate AllJustified(s: System) {
    forall w :: w in s.workers ==> Justified(s, s.workers[w])
  }

  ghost predicate LiveOk(search: Matcher, s: System) {
    SafeOk(search, s) && AllJustified(s)
  }

  /** What drove run `r` still does, and what published it. */
  ghost predicate KeepsGoing(s: System, s': System, r: RunId) {
    (Driven(s, r) ==> Driven(s', r)) && (Published(s, r) ==> Published(s', r))
  }

  ghost predicate AllKeepGoing(s: System, s': System) {
    forall r: RunId :: KeepsGoing(s, s', r)
  }

  /** A step that is fine for every run. */
  ghost predicate Fine(search: Matcher, s: System, s': System) {
    LiveOk(search, s') && AllKeepGoing(s, s')
  }

  lemma FineTwice(search: Matcher, s: System, mid: System, s': System)
    requires Fine(search, s, mid) && Fine(search, mid, s')
    ensures Fine(search, s, s')
  {
    forall r: RunId ensures KeepsGoing(s, s', r) {
      assert KeepsGoing(s, mid, r) && KeepsGoing(mid, s', r);
    }
  }

  // ------------------------------------------------------------------ frames

  lemma JustifiedGrows(s: System, s': System, x: Worker)
    requires Grows(s, s') && Justified(s, x)
    ensures Justified(s', x)
  {
    if x.Done? && x.ok {
      var k: nat :| Reason(s, x.job, k);
      assert RunOf(s', x.job)[k] == RunOf(s, x.job)[k];
      assert Reason(s', x.job, k);
    }
  }

  lemma AllJustifiedStay(s: System, s': System)
    requires Grows(s, s') && AllJustified(s) && s'.workers == s.workers
    ensures AllJustified(s')
  {
    forall v | v in s'.workers ensures Justified(s', s'.workers[v]) {
      JustifiedGrows(s, s', s.workers[v]);
    }
  }

  lemma AllJustifiedMove(s: System, w: WorkerId, x: Worker)
    requires AllJustified(s) && Justified(s, x)
    ensures AllJustified(SetWorker(s, w, x))
  {
    var s' := SetWorker(s, w, x);
    forall v | v in s'.workers ensures Justified(s', s'.workers[v]) {
      JustifiedGrows(s, s', if v == w then x else s.workers[v]);
    }
  }

  /**
   A run keeps going if its versions stay and its jobs stay what they are for it. The jobs may
   change in any way that keeps a driver a driver and a publisher a publisher.
   */
  lemma GoingStays(s: System, s': System, r: RunId)
    requires r in s.runs <==> r in s'.runs
    requires r in s.runs ==> s'.runs[r] == s.runs[r]
    requires Active(s, r) ==> forall id: JobId :: Drives(s, r, id) ==> Drives(s', r, id)
    requires IsApproved(s, r) ==> forall id: JobId :: Publishes(s, r, id) ==> Publishes(s', r, id)
    ensures KeepsGoing(s, s', r)
  {
  }

  lemma AllGoingStay(s: System, s': System)
    requires s'.runs == s.runs
    requires forall id :: id in s.jobs ==> id in s'.jobs && s'.jobs[id] == s.jobs[id]
    ensures AllKeepGoing(s, s')
  {
    forall r: RunId ensures KeepsGoing(s, s', r) {
      GoingStays(s, s', r);
    }
  }

  lemma MoveIsFine(search: Matcher, s: System, w: WorkerId, x: Worker)
    requires LiveOk(search, s) && WorkerOk(s, x) && Justified(s, x)
    ensures Fine(search, s, SetWorker(s, w, x))
  {
    WorkerMoves(search, s, w, x);
    AllJustifiedMove(s, w, x);
    AllGoingStay(s, SetWorker(s, w, x));
  }

  /** Rewriting a row keeps its run going if the row stays pending, or the run no longer depends on it. */
  lemma JobChangeKeepsGoing(s: System, id: JobId, j: Job)
    requires HasJob(s, id)
    requires j.kind == s.jobs[id].kind && j.run == s.jobs[id].run && j.since == s.jobs[id].since
    requires Active(s, j.run) && Drives(s, j.run, id) ==> Pending(j)
    requires IsApproved(s, j.run) && Publishes(s, j.run, id) ==>
               Pending(j) || (j.status == FailedForGood && j.attempts >= j.maxAttempts)
    ensures AllKeepGoing(s, SetJob(s, id, j))
  {
    forall r: RunId ensures KeepsGoing(s, SetJob(s, id, j), r) {
      GoingStays(s, SetJob(s, id, j), r);
    }
  }

  lemma JobChangeIsFine(search: Matcher, s: System, id: JobId, j: Job)
    requires LiveOk(search, s) && id in s.jobs && JobOk(j)
    requires j.kind == s.jobs[id].kind && j.run == s.jobs[id].run && j.since == s.jobs[id].since
    requires Pending(j) || j == s.jobs[id].(lease := j.lease)
    ensures Fine(search, s, SetJob(s, id, j))
  {
    assert JobFits(s, s.jobs[id]);
    JobChanges(search, s, id, j);
    AllJustifiedStay(s, SetJob(s, id, j));
    JobChangeKeepsGoing(s, id, j);
  }

  // ------------------------------------------------------------------ marking a job

  /** The job being marked by a worker that has a reason is not what keeps its run going. */
  lemma MarkedJobIsNotNeeded(search: Matcher, s: System, id: JobId)
    requires HasJob(s, id) && HistoryOk(search, RunOf(s, id)) && s.jobs[id].kind == ExecuteRun
    requires Justified(s, Done(id, true))
    ensures !Active(s, s.jobs[id].run) || !Drives(s, s.jobs[id].run, id)
  {
    var k: nat :| Reason(s, id, k);
    UnparkedAfter(search, RunOf(s, id), s.jobs[id].since, k);
  }

  /** A version that needs no more work, and an active latest version: only a later revision explains both. */
  lemma UnparkedAfter(search: Matcher, h: Versions, since: nat, k: nat)
    requires HistoryOk(search, h) && since <= k < |h| && Parked(h[k].row.state)
    ensures Parked(Latest(h).row.state) || (Revised(Latest(h)) && !Revised(h[since]))
  {
    if !Parked(Latest(h).row.state) {
      OnlyRevisionUnparks(search, h, k, |h| - 1);
      if h[since].approval.Some? {
        DecisionIsFinal(search, h, since, k);
      }
    }
  }

  lemma MarkedPublishJobIsNotNeeded(search: Matcher, s: System, id: JobId)
    requires HasJob(s, id) && HistoryOk(search, RunOf(s, id)) && s.jobs[id].kind == CreatePullRequest
    requires Justified(s, Done(id, true))
    ensures IsTerminal(Latest(RunOf(s, id)).row.state)
  {
    var k: nat :| Reason(s, id, k);
    TerminalIsLast(search, RunOf(s, id), k);
  }

  lemma SucceedingIsFine(search: Matcher, s: System, id: JobId)
    requires LiveOk(search, s) && id in s.jobs && Justified(s, Done(id, true))
    ensures Fine(search, s, SetJob(s, id, MarkedSucceeded(s.jobs[id])))
  {
    assert JobFits(s, s.jobs[id]);
    var j := MarkedSucceeded(s.jobs[id]);
    JobChanges(search, s, id, j);
    AllJustifiedStay(s, SetJob(s, id, j));
    if j.kind == ExecuteRun {
      MarkedJobIsNotNeeded(search, s, id);
    } else {
      MarkedPublishJobIsNotNeeded(search, s, id);
    }
    JobChangeKeepsGoing(s, id, j);
  }

  /** Failing a job is fine for every run but, at the last attempt, the active one it was for. */
  lemma FailingIsFine(search: Matcher, s: System, id: JobId, now: int, delay: nat)
    requires LiveOk(search, s) && id in s.jobs
    ensures var s' := SetJob(s, id, MarkedFailed(s.jobs[id], now, delay));
            && LiveOk(search, s')
            && (forall r: RunId :: Published(s, r) ==> Published(s', r))
            && (forall r: RunId :: Driven(s, r) && !LastDriver(s, id, r) ==> Driven(s', r))
  {
    assert JobFits(s, s.jobs[id]);
    var j := MarkedFailed(s.jobs[id], now, delay);
    var s' := SetJob(s, id, j);
    JobChanges(search, s, id, j);
    AllJustifiedStay(s, s');
    forall r: RunId | Published(s, r) ensures Published(s', r) {
      FailingKeepsPublished(s, id, now, delay, r);
    }
    forall r: RunId | Driven(s, r) && !LastDriver(s, id, r) ensures Driven(s', r) {
      FailingKeepsDriven(s, id, now, delay, r);
    }
  }

  lemma FailingKeepsPublished(s: System, id: JobId, now: int, delay: nat, r: RunId)
    requires id in s.jobs && Published(s, r)
    ensures Published(SetJob(s, id, MarkedFailed(s.jobs[id], now, delay)), r)
  {
    var s' := SetJob(s, id, MarkedFailed(s.jobs[id], now, delay));
    if IsApproved(s, r) {
      var d: JobId :| Publishes(s, r, d);
      assert Publishes(s', r, d);
    }
  }

  /** Job `id` has used up its attempts, its run `r` is active, and no other job drives it. */
  ghost predicate LastDriver(s: System, id: JobId, r: RunId) {
    && id in s.jobs && s.jobs[id].kind == ExecuteRun && s.jobs[id].run == r
    && s.jobs[id].attempts >= s.jobs[id].maxAttempts
    && Active(s, r) && forall d: JobId :: d != id ==> !Drives(s, r, d)
  }

  lemma FailingKeepsDriven(s: System, id: JobId, now: int, delay: nat, r: RunId)
    requires id in s.jobs && Driven(s, r) && !LastDriver(s, id, r)
    ensures Driven(SetJob(s, id, MarkedFailed(s.jobs[id], now, delay)), r)
  {
    var s' := SetJob(s, id, MarkedFailed(s.jobs[id], now, delay));
    if Active(s, r) {
      var d: JobId :| Drives(s, r, d) && (d != id || s.jobs[id].attempts < s.jobs[id].maxAttempts);
      assert Drives(s', r, d);
    }
  }

  // ------------------------------------------------------------------ committing

  lemma OthersKeepGoing(s: System, s': System, run: RunId)
    requires forall id :: id in s.jobs ==> id in s'.jobs && s'.jobs[id] == s.jobs[id]
    requires s'.runs.Keys == s.runs.Keys + {run} && forall r :: r in s.runs && r != run ==> s'.runs[r] == s.runs[r]
    requires KeepsGoing(s, s', run)
    ensures AllKeepGoing(s, s')
  {
    forall r: RunId ensures KeepsGoing(s, s', r) {
      if r != run {
        GoingStays(s, s', r);
      }
    }
  }

  /** A commit that is neither an approval nor a revision keeps every run going as it was. */
  lemma CommitIsFine(search: Matcher, s: System, run: RunId, a: Attempt)
    requires LiveOk(search, s) && TryCommit(search, s, run, a).Some?
    requires !a.request.Approve? && !a.request.RequestRevision?
    ensures Fine(search, s, TryCommit(search, s, run, a).value)
  {
    var s' := TryCommit(search, s, run, a).value;
    RunCommits(search, s, run, a);
    AllJustifiedStay(s, s');
    LatestIsAdjacent(search, s.runs[run], s'.runs[run]);
    CommittedRunKeepsGoing(s, s', run, a.request);
    OthersKeepGoing(s, s', run);
  }

  lemma LatestIsAdjacent(search: Matcher, h: Versions, h': Versions)
    requires HistoryOk(search, h') && h != [] && |h'| == |h| + 1 && h'[..|h|] == h
    ensures Adjacent(Latest(h), Latest(h')) && ApprovalOk(search, Latest(h))
  {
    var n := |h|;
    assert AdjacentAt(h', n);
    assert SoundAt(search, h', n - 1);
    assert h'[n - 1] == h[n - 1];
  }

  lemma CommittedRunKeepsGoing(s: System, s': System, run: RunId, request: Request)
    requires run in s.runs && run in s'.runs && s.runs[run] != []
    requires |s'.runs[run]| == |s.runs[run]| + 1 && s'.runs[run][..|s.runs[run]|] == s.runs[run]
    requires s'.jobs == s.jobs && DecidesAs(request, Latest(s.runs[run]), Latest(s'.runs[run]))
    requires Follows(Latest(s.runs[run]), Latest(s'.runs[run]))
    requires Latest(s.runs[run]).approval.Some? && Latest(s.runs[run]).approval.value.decision == Store.Approved ==>
               AwaitsPublication(Latest(s.runs[run])) || IsTerminal(Latest(s.runs[run]).row.state)
    requires !request.Approve? && !request.RequestRevision?
    ensures KeepsGoing(s, s', run)
  {
    var h, h' := s.runs[run], s'.runs[run];
    if Driven(s, run) && Active(s', run) {
      var d: JobId :| Drives(s, run, d);
      assert h'[s.jobs[d].since] == h[s.jobs[d].since];
      assert Drives(s', run, d);
    }
    if Published(s, run) && IsApproved(s', run) {
      var d: JobId :| Publishes(s, run, d);
      assert Publishes(s', run, d);
    }
  }

  /** An approval or a revision commits together with the job that acts on it. */
  lemma DecisionIsFine(search: Matcher, s: System, run: RunId, a: Attempt, id: JobId, now: int)
    requires LiveOk(search, s) && TryCommit(search, s, run, a).Some? && id !in s.jobs
    requires a.request.Approve? || a.request.RequestRevision?
    ensures Fine(search, s, EnqueueFor(TryCommit(search, s, run, a).value, run, a.request, id, now))
  {
    var s1 := TryCommit(search, s, run, a).value;
    DecidedIsLive(search, s, run, a);
    EnqueueIsFine(search, s1, run, a.request, id, now);
    OthersKeepGoing(s, EnqueueFor(s1, run, a.request, id, now), run);
  }

  lemma DecidedIsLive(search: Matcher, s: System, run: RunId, a: Attempt)
    requires LiveOk(search, s) && TryCommit(search, s, run, a).Some?
    requires a.request.Approve? || a.request.RequestRevision?
    ensures var s1 := TryCommit(search, s, run, a).value;
            && LiveOk(search, s1) && s1.jobs == s.jobs && s1.runs.Keys == s.runs.Keys && s1.runs[run] != []
            && (forall r :: r in s.runs && r != run ==> s1.runs[r] == s.runs[r])
            && (a.request.Approve? ==> Latest(s1.runs[run]).row.state == WaitingForApproval)
            && (a.request.RequestRevision? ==> Latest(s1.runs[run]).row.state == Planning)
  {
    var s1 := TryCommit(search, s, run, a).value;
    RunCommits(search, s, run, a);
    DecisionParks(search, s.runs[run], a);
    assert Latest(s1.runs[run]) == Committed(search, s.runs[run], a).value;
    AllJustifiedStay(s, s1);
  }

  lemma EnqueueIsFine(search: Matcher, s: System, run: RunId, r: Request, id: JobId, now: int)
    requires LiveOk(search, s) && run in s.runs && s.runs[run] != [] && id !in s.jobs
    requires r.Approve? ==> Latest(s.runs[run]).row.state == WaitingForApproval
    requires r.RequestRevision? ==> Latest(s.runs[run]).row.state == Planning
    requires r.Approve? || r.RequestRevision?
    ensures LiveOk(search, EnqueueFor(s, run, r, id, now))
    ensures Driven(EnqueueFor(s, run, r, id, now), run) && Published(EnqueueFor(s, run, r, id, now), run)
  {
    var j := NewJob(if r.Approve? then CreatePullRequest else ExecuteRun, run, now, 3, |s.runs[run]| - 1);
    assert SetJob(s, id, j) == EnqueueFor(s, run, r, id, now);
    JobAppears(search, s, id, j);
    AllJustifiedStay(s, SetJob(s, id, j));
    NewJobKeepsItsRunGoing(s, run, id, j);
  }

  lemma NewJobKeepsItsRunGoing(s: System, run: RunId, id: JobId, j: Job)
    requires run in s.runs && s.runs[run] != [] && j.run == run && j.status == Queued && j.since == |s.runs[run]| - 1
    requires j.kind == ExecuteRun ==> !Parked(Latest(s.runs[run]).row.state)
    requires j.kind == CreatePullRequest ==> Latest(s.runs[run]).row.state == WaitingForApproval
    ensures Driven(SetJob(s, id, j), run) && Published(SetJob(s, id, j), run)
  {
    if j.kind == ExecuteRun {
      assert Drives(SetJob(s, id, j), run, id);
    } else {
      assert Publishes(SetJob(s, id, j), run, id);
    }
  }

  lemma DecisionParks(search: Matcher, h: Versions, a: Attempt)
    requires HistoryOk(search, h) && Attemptable(search, h, a) && Committed(search, h, a).Some?
    ensures a.request.Approve? ==> Committed(search, h, a).value.row.state == WaitingForApproval
    ensures a.request.RequestRevision? ==> Committed(search, h, a).value.row.state == Planning
  {
    if a.request.RequestRevision? {
      CommitsItsLastTransition(search, h, a, Planning);
    } else if a.request.Approve? {
      OnlyFreshCommits(search, h, a);
      var t := Latest(h);
      assert SoundAt(search, h, |h| - 1);
      CommitEffect(t, a.ops);
      var w := Writes(search, a.request, t.row, t, t).value;
      assert w == [w[0]];
      ExecOne(Tx(t.row, t), w[0]);
    }
  }

  // ------------------------------------------------------------------ every step

  lemma CreateIsFine(search: Matcher, s: System, run: RunId, id: JobId, plan: bool, now: int)
    requires LiveOk(search, s)
    ensures Fine(search, s, DoCreate(s, run, id, plan, now))
  {
    if run in s.runs || id in s.jobs {
      AllGoingStay(s, s);
    } else {
      var s1 := s.(runs := s.runs[run := [NewRun(plan)]]);
      var j := NewJob(ExecuteRun, run, now, 3, 0);
      CreatedIsLive(search, s, run, id, plan, now);
      NewJobKeepsItsRunGoing(s1, run, id, j);
      OthersKeepGoing(s, SetJob(s1, id, j), run);
    }
  }

  lemma CreatedIsLive(search: Matcher, s: System, run: RunId, id: JobId, plan: bool, now: int)
    requires LiveOk(search, s) && run !in s.runs && id !in s.jobs
    ensures var s1 := s.(runs := s.runs[run := [NewRun(plan)]]);
            LiveOk(search, SetJob(s1, id, NewJob(ExecuteRun, run, now, 3, 0)))
  {
    var s1 := s.(runs := s.runs[run := [NewRun(plan)]]);
    RunAppears(search, s, run, plan);
    AllJustifiedStay(s, s1);
    JobAppears(search, s1, id, NewJob(ExecuteRun, run, now, 3, 0));
    AllJustifiedStay(s1, SetJob(s1, id, NewJob(ExecuteRun, run, now, 3, 0)));
  }

  lemma ApiIsFine(search: Matcher, s: System, run: RunId, a: Attempt, id: JobId, now: int)
    requires LiveOk(search, s)
    ensures Fine(search, s, DoApi(search, s, run, a, id, now))
  {
    if ApiMayAsk(a.request) && id !in s.jobs && TryCommit(search, s, run, a).Some? {
      if a.request.Approve? || a.request.RequestRevision? {
        DecisionIsFine(search, s, run, a, id, now);
      } else {
        CommitIsFine(search, s, run, a);
      }
    } else {
      AllGoingStay(s, s);
    }
  }

  lemma ClaimIsFine(search: Matcher, s: System, w: WorkerId, id: JobId, now: int, lease: nat)
    requires LiveOk(search, s)
    ensures Fine(search, s, DoClaim(s, w, id, now, lease))
  {
    AllGoingStay(s, s);
    if id in s.jobs && Runnable(s.jobs[id], now) {
      assert JobFits(s, s.jobs[id]);
      var j := Claimed(s.jobs[id], w, now, lease);
      JobChangeIsFine(search, s, id, j);
      MoveIsFine(search, SetJob(s, id, j), w, Holding(id));
      FineTwice(search, s, SetJob(s, id, j), SetWorker(SetJob(s, id, j), w, Holding(id)));
    }
  }

  lemma LoadIsFine(search: Matcher, s: System, w: WorkerId, at: nat)
    requires LiveOk(search, s)
    ensures Fine(search, s, DoLoad(s, w, at))
  {
    AllGoingStay(s, s);
    match WorkerAt(s, w) {
      case Holding(id) =>
        if HasJob(s, id) && s.jobs[id].since <= at < |RunOf(s, id)| {
          assert SoundAt(search, RunOf(s, id), at);
          if IsTerminal(RunOf(s, id)[at].row.state) {
            assert Reason(s, id, at);
            MoveIsFine(search, s, w, Done(id, true));
          } else if s.jobs[id].kind == ExecuteRun {
            MoveIsFine(search, s, w, Driving(id, at));
          } else {
            MoveIsFine(search, s, w, Publishing(id, at));
          }
        }
      case _ =>
    }
  }

  /** A worker's commit that finishes its job: the new version is the reason. */
  lemma FinishIsFine(search: Matcher, s: System, w: WorkerId, id: JobId, a: Attempt, ok: bool)
    requires LiveOk(search, s) && HasJob(s, id) && TryCommit(search, s, s.jobs[id].run, a).Some?
    requires a.request.StepAborted? || a.request.RecordFailure? || a.request.RecordPublication?
    ensures Fine(search, s, SetWorker(TryCommit(search, s, s.jobs[id].run, a).value, w, Done(id, ok)))
  {
    var s' := TryCommit(search, s, s.jobs[id].run, a).value;
    CommitIsFine(search, s, s.jobs[id].run, a);
    RunCommits(search, s, s.jobs[id].run, a);
    StopsItsRun(search, RunOf(s, id), a);
    assert JobFits(s, s.jobs[id]);
    FinalVersionIsReason(s, s', id);
    MoveIsFine(search, s', w, Done(id, ok));
    FineTwice(search, s, s', SetWorker(s', w, Done(id, ok)));
  }

  lemma StopsItsRun(search: Matcher, h: Versions, a: Attempt)
    requires HistoryOk(search, h) && Attemptable(search, h, a) && Committed(search, h, a).Some?
    requires a.request.StepAborted? || a.request.RecordFailure? || a.request.RecordPublication?
    ensures IsTerminal(Committed(search, h, a).value.row.state)
  {
    CommitsItsLastTransition(search, h, a, if a.request.RecordPublication? then Completed else Failed);
  }

  lemma FinalVersionIsReason(s: System, s': System, id: JobId)
    requires HasJob(s, id) && HasJob(s', id) && s'.jobs[id] == s.jobs[id] && s.jobs[id].since < |RunOf(s, id)|
    requires |RunOf(s', id)| == |RunOf(s, id)| + 1 && IsTerminal(Latest(RunOf(s', id)).row.state)
    ensures forall ok :: Justified(s', Done(id, ok))
  {
    assert Reason(s', id, |RunOf(s, id)|);
  }

  lemma DriveIsFine(search: Matcher, s: System, w: WorkerId, a: Attempt)
    requires LiveOk(search, s)
    ensures Fine(search, s, DoDrive(search, s, w, a))
  {
    AllGoingStay(s, s);
    match WorkerAt(s, w) {
      case Driving(id, at) =>
        if HasJob(s, id) && TryCommit(search, s, s.jobs[id].run, a).Some? {
          assert WorkerOk(s, s.workers[w]);
          if a.request.StepAborted? {
            FinishIsFine(search, s, w, id, a, true);
          } else if a.request.StepDone? {
            var s' := TryCommit(search, s, s.jobs[id].run, a).value;
            RunCommits(search, s, s.jobs[id].run, a);
            CommitIsFine(search, s, s.jobs[id].run, a);
            MoveIsFine(search, s', w, Driving(id, |RunOf(s, id)|));
            FineTwice(search, s, s', SetWorker(s', w, Driving(id, |RunOf(s, id)|)));
          }
        }
      case _ =>
    }
  }

  lemma ReturnIsFine(search: Matcher, s: System, w: WorkerId)
    requires LiveOk(search, s)
    ensures Fine(search, s, DoReturn(s, w))
  {
    AllGoingStay(s, s);
    match WorkerAt(s, w) {
      case Driving(id, at) =>
        assert WorkerOk(s, s.workers[w]);
        if Parked(RunOf(s, id)[at].row.state) {
          assert Reason(s, id, at);
          MoveIsFine(search, s, w, Done(id, true));
        }
      case _ =>
    }
  }

  lemma RaiseIsFine(search: Matcher, s: System, w: WorkerId)
    requires LiveOk(search, s)
    ensures Fine(search, s, DoRaise(s, w))
  {
    AllGoingStay(s, s);
    if w in s.workers {
      assert WorkerOk(s, s.workers[w]);
      match WorkerAt(s, w) {
        case Driving(id, _) => MoveIsFine(search, s, w, Recovering(id));
        case Publishing(id, _) => MoveIsFine(search, s, w, Done(id, false));
        case Pushed(id, _, _, _) => MoveIsFine(search, s, w, Done(id, false));
        case _ =>
      }
    }
  }

  lemma ReadForFailureIsFine(search: Matcher, s: System, w: WorkerId, at: nat)
    requires LiveOk(search, s)
    ensures Fine(search, s, DoReadForFailure(s, w, at))
  {
    AllGoingStay(s, s);
    match WorkerAt(s, w) {
      case Recovering(id) =>
        if HasJob(s, id) && s.jobs[id].since <= at < |RunOf(s, id)| {
          assert WorkerOk(s, s.workers[w]);
          if IsTerminal(RunOf(s, id)[at].row.state) {
            MoveIsFine(search, s, w, Done(id, false));
          } else {
            MoveIsFine(search, s, w, Recording(id, at));
          }
        }
      case _ =>
    }
  }

  lemma RecordsFailureIsFine(search: Matcher, s: System, w: WorkerId)
    requires LiveOk(search, s)
    ensures Fine(search, s, DoRecordsFailure(search, s, w))
  {
    AllGoingStay(s, s);
    match WorkerAt(s, w) {
      case Recording(id, at) =>
        assert WorkerOk(s, s.workers[w]);
        if TryCommit(search, s, s.jobs[id].run, FailureOf(at)).Some? {
          FinishIsFine(search, s, w, id, FailureOf(at), false);
        } else {
          MoveIsFine(search, s, w, Done(id, false));
        }
      case _ =>
    }
  }

  lemma PublishingIsFine(search: Matcher, s: System, w: WorkerId, a: Attempt)
    requires LiveOk(search, s)
    ensures Fine(search, s, DoFailPublication(search, s, w, a)) && Fine(search, s, DoRecord(search, s, w, a))
  {
    AllGoingStay(s, s);
    match WorkerAt(s, w) {
      case Publishing(id, _) =>
        if HasJob(s, id) && a.request.RecordFailure? && TryCommit(search, s, s.jobs[id].run, a).Some? {
          FinishIsFine(search, s, w, id, a, false);
        }
      case Pushed(id, _, _, _) =>
        if HasJob(s, id) && a.request.RecordPublication? && TryCommit(search, s, s.jobs[id].run, a).Some? {
          FinishIsFine(search, s, w, id, a, true);
        }
      case _ =>
    }
  }

  lemma PushIsFine(search: Matcher, s: System, w: WorkerId, read: nat)
    requires LiveOk(search, s)
    ensures Fine(search, s, DoPush(s, w, read))
  {
    PushIsSafe(search, s, w, read);
    AllGoingStay(s, DoPush(s, w, read));
    match WorkerAt(s, w) {
      case Publishing(id, at) =>
        if HasJob(s, id) && at <= read < |RunOf(s, id)| && PushAllowed(RunOf(s, id)[read]).Some? {
          var p := PushAllowed(RunOf(s, id)[read]).value;
          var s1 := s.(pushes := s.pushes + [Push(s.jobs[id].run, p.diff.text)]);
          AllJustifiedStay(s, s1);
          AllJustifiedMove(s1, w, Pushed(id, at, read, p));
        }
      case _ =>
    }
  }

  lemma QueueStepIsFine(search: Matcher, s: System, step: Step)
    requires LiveOk(search, s) && (step.BeatJob? || step.ReclaimJob?)
    ensures Fine(search, s, Do(search, s, step))
  {
    AllGoingStay(s, s);
    if step.job in s.jobs {
      assert JobFits(s, s.jobs[step.job]);
      if step.BeatJob? {
        JobChangeIsFine(search, s, step.job, Beaten(s.jobs[step.job], step.now, step.leaseSeconds));
      } else if Expired(s.jobs[step.job], step.now) {
        JobChangeIsFine(search, s, step.job, Reclaimed(s.jobs[step.job]));
      }
    }
  }

  lemma StepIsFine(search: Matcher, s: System, step: Step)
    requires LiveOk(search, s) && !step.MarkJob?
    ensures Fine(search, s, Do(search, s, step))
  {
    match step {
      case CreateRun(run, id, plan, now) => CreateIsFine(search, s, run, id, plan, now);
      case ApiRequest(run, a, id, now) => ApiIsFine(search, s, run, a, id, now);
      case ClaimJob(w, id, now, lease) => ClaimIsFine(search, s, w, id, now, lease);
      case BeatJob(_, _, _) => QueueStepIsFine(search, s, step);
      case ReclaimJob(_, _) => QueueStepIsFine(search, s, step);
      case LoadRun(w, at) => LoadIsFine(search, s, w, at);
      case Drive(w, a) => DriveIsFine(search, s, w, a);
      case ReturnParked(w) => ReturnIsFine(search, s, w);
      case Raise(w) => RaiseIsFine(search, s, w);
      case ReadForFailure(w, at) => ReadForFailureIsFine(search, s, w, at);
      case RecordsFailure(w) => RecordsFailureIsFine(search, s, w);
      case PushBranch(w, read) => PushIsFine(search, s, w, read);
      case FailPublication(w, a) => PublishingIsFine(search, s, w, a);
      case Record(w, a) => PublishingIsFine(search, s, w, a);
      case Crash(w) => MoveIsFine(search, s, w, Idle);
    }
  }

  // ------------------------------------------------------------------ giving a run up

  /** The step marks an execute_run job failed for good while its run is active and nothing else drives it. */
  ghost predicate Abandons(s: System, step: Step, r: RunId) {
    && step.MarkJob? && WorkerAt(s, step.worker).Done? && !WorkerAt(s, step.worker).ok
    && LastDriver(s, WorkerAt(s, step.worker).job, r)
  }

  lemma MarkThenMove(search: Matcher, s: System, w: WorkerId, id: JobId, ok: bool, now: int, delay: nat)
    requires LiveOk(search, s) && id in s.jobs && Justified(s, Done(id, ok))
    ensures var j := if ok then MarkedSucceeded(s.jobs[id]) else MarkedFailed(s.jobs[id], now, delay);
            var s' := SetWorker(SetJob(s, id, j), w, Idle);
            && LiveOk(search, s')
            && (forall r: RunId :: Published(s, r) ==> Published(s', r))
            && (forall r: RunId :: Driven(s, r) && (ok || !LastDriver(s, id, r)) ==> Driven(s', r))
  {
    var mid := SetJob(s, id, if ok then MarkedSucceeded(s.jobs[id]) else MarkedFailed(s.jobs[id], now, delay));
    if ok {
      SucceedingIsFine(search, s, id);
    } else {
      FailingIsFine(search, s, id, now, delay);
    }
    MoveIsFine(search, mid, w, Idle);
    forall r: RunId | Published(s, r) ensures Published(SetWorker(mid, w, Idle), r) {
      assert ok ==> KeepsGoing(s, mid, r);
      assert Published(mid, r) && KeepsGoing(mid, SetWorker(mid, w, Idle), r);
    }
    forall r: RunId | Driven(s, r) && (ok || !LastDriver(s, id, r)) ensures Driven(SetWorker(mid, w, Idle), r) {
      assert ok ==> KeepsGoing(s, mid, r);
      assert Driven(mid, r) && KeepsGoing(mid, SetWorker(mid, w, Idle), r);
    }
  }

  lemma MarkIsAlmostFine(search: Matcher, s: System, w: WorkerId, now: int, delay: nat)
    requires LiveOk(search, s)
    ensures var s' := DoMark(s, w, now, delay);
            && LiveOk(search, s')
            && (forall r: RunId :: Published(s, r) ==> Published(s', r))
            && (forall r: RunId :: Driven(s, r) && !Abandons(s, MarkJob(w, now, delay), r) ==> Driven(s', r))
  {
    match WorkerAt(s, w) {
      case Done(id, ok) =>
        if id in s.jobs {
          assert Justified(s, s.workers[w]);
          MarkThenMove(search, s, w, id, ok, now, delay);
        }
      case _ =>
    }
  }

  /** Every step keeps approved runs published, and keeps every run driven that it does not abandon. */
  lemma StepIsLive(search: Matcher, s: System, step: Step)
    requires LiveOk(search, s)
    ensures LiveOk(search, Do(search, s, step))
    ensures forall r: RunId :: Published(s, r) ==> Published(Do(search, s, step), r)
    ensures forall r: RunId :: Driven(s, r) && !Abandons(s, step, r) ==> Driven(Do(search, s, step), r)
  {
    if step.MarkJob? {
      MarkIsAlmostFine(search, s, step.worker, step.now, step.delay);
    } else {
      StepIsFine(search, s, step);
      var s' := Do(search, s, step);
      assert forall r: RunId {:trigger Driven(s', r)} {:trigger Published(s', r)} :: KeepsGoing(s, s', r);
    }
  }

  /** And the other half: abandoning a run leaves nothing that drives it. */
  lemma AbandonedIsNotDriven(search: Matcher, s: System, step: Step, r: RunId)
    requires Abandons(s, step, r)
    ensures !Driven(Do(search, s, step), r)
  {
    var s' := Do(search, s, step);
    forall d: JobId ensures !Drives(s', r, d) {
      assert d != WorkerAt(s, step.worker).job ==> !Drives(s, r, d);
    }
  }

  lemma {:induction false} EveryHistoryIsLive(search: Matcher, steps: seq<Step>)
    ensures LiveOk(search, After(search, steps))
    ensures forall r: RunId :: Published(After(search, steps), r)
    decreases |steps|
  {
    if steps != [] {
      EveryHistoryIsLive(search, steps[..|steps| - 1]);
      StepIsLive(search, After(search, steps[..|steps| - 1]), steps[|steps| - 1]);
    }
  }

  /** Step `i` of the history abandons run `r`. */
  ghost predicate AbandonsAt(search: Matcher, steps: seq<Step>, i: nat, r: RunId)
    requires i < |steps|
  {
    Abandons(After(search, steps[..i]), steps[i], r)
  }

  ghost predicate DrivenAt(search: Matcher, steps: seq<Step>, i: nat, r: RunId)
    requires i <= |steps|
  {
    Driven(After(search, steps[..i]), r)
  }

  ghost predicate NeverAbandoned(search: Matcher, steps: seq<Step>, r: RunId) {
    forall i: nat :: i < |steps| ==> !AbandonsAt(search, steps, i, r)
  }

  lemma AfterPrefix(search: Matcher, steps: seq<Step>, i: nat)
    requires i < |steps|
    ensures After(search, steps[..i + 1]) == Do(search, After(search, steps[..i]), steps[i])
  {
    assert steps[..i + 1] == steps[..i] + [steps[i]];
    AfterOne(search, steps[..i], steps[i]);
  }

  lemma {:induction false} DrivenUpTo(search: Matcher, steps: seq<Step>, r: RunId, i: nat)
    requires i <= |steps| && forall k: nat :: k < i ==> !AbandonsAt(search, steps, k, r)
    ensures DrivenAt(search, steps, i, r)
  {
    if i > 0 {
      DrivenUpTo(search, steps, r, i - 1);
      EveryHistoryIsLive(search, steps[..i - 1]);
      AfterPrefix(search, steps, i - 1);
      assert !AbandonsAt(search, steps, i - 1, r);
      StepIsLive(search, After(search, steps[..i - 1]), steps[i - 1]);
    }
  }

  lemma UndrivenAfter(search: Matcher, steps: seq<Step>, r: RunId, i: nat)
    requires i < |steps| && AbandonsAt(search, steps, i, r)
    ensures !DrivenAt(search, steps, i + 1, r)
  {
    AfterPrefix(search, steps, i);
    AbandonedIsNotDriven(search, After(search, steps[..i]), steps[i], r);
  }

  // ------------------------------------------------------------------ why a run is given up

  /** The worker's failure record meets an event number another session has taken since it read the run. */
  predicate Collides(s: System, step: Step, r: RunId) {
    && step.RecordsFailure? && WorkerAt(s, step.worker).Recording?
    && var x := WorkerAt(s, step.worker);
       HasJob(s, x.job) && s.jobs[x.job].run == r && x.at < |RunOf(s, x.job)| - 1
  }

  /** A worker that reports failure on run `r` leaves a finished run behind. */
  predicate Recorded(s: System, x: Worker, r: RunId) {
    x.Done? && !x.ok && x.job in s.jobs && s.jobs[x.job].kind == ExecuteRun && s.jobs[x.job].run == r ==>
      r in s.runs && s.runs[r] != [] && IsTerminal(Latest(s.runs[r]).row.state)
  }

  predicate AllRecorded(s: System, r: RunId) {
    forall w :: w in s.workers ==> Recorded(s, s.workers[w], r)
  }

  lemma RecordedStays(search: Matcher, s: System, s': System, x: Worker, r: RunId)
    requires SafeOk(search, s) && SafeOk(search, s') && Grows(s, s') && WorkerOk(s, x) && Recorded(s, x, r)
    ensures Recorded(s', x, r)
  {
    if x.Done? && !x.ok && s.jobs[x.job].kind == ExecuteRun && s.jobs[x.job].run == r {
      assert HistoryOk(search, s'.runs[r]);
      TerminalIsLast(search, s'.runs[r], |s.runs[r]| - 1);
      assert s'.runs[r][|s.runs[r]| - 1] == s.runs[r][|s.runs[r]| - 1];
    }
  }

  /** A failure record made from the latest version is not refused. */
  lemma FreshFailureCommits(search: Matcher, h: Versions)
    requires HistoryOk(search, h) && !IsTerminal(Latest(h).row.state)
    ensures Attemptable(search, h, FailureOf(|h| - 1))
    ensures Committed(search, h, FailureOf(|h| - 1)).Some?
    ensures IsTerminal(Committed(search, h, FailureOf(|h| - 1)).value.row.state)
  {
    var t := Latest(h);
    var op := Transition(Failed);
    assert SoundAt(search, h, |h| - 1);
    assert Core([op]) == [op] by {
      assert [op][1..] == [];
    }
    ExecOne(Tx(t.row, t), op);
  }

  predicate RunOfIs(s: System, id: JobId, r: RunId) {
    HasJob(s, id) && s.jobs[id].run == r
  }

  lemma RecordingIsRecorded(search: Matcher, s: System, w: WorkerId, r: RunId)
    requires SafeOk(search, s) && !Collides(s, RecordsFailure(w), r) && WorkerOk(s, WorkerAt(s, w))
             && !WorkerAt(s, w).Done?
    ensures Recorded(DoRecordsFailure(search, s, w), WorkerAt(DoRecordsFailure(search, s, w), w), r)
  {
    if WorkerAt(s, w).Recording? && RunOfIs(s, WorkerAt(s, w).job, r) {
      assert HistoryOk(search, s.runs[r]);
      FreshFailureCommits(search, s.runs[r]);
    }
  }

  /** The steps that can leave a worker reporting failure. */
  predicate MayFail(step: Step) {
    step.FailPublication? || step.Record? || step.Raise? || step.RecordsFailure? || step.ReadForFailure?
  }

  lemma FailingIsRecorded(search: Matcher, s: System, step: Step, r: RunId)
    requires SafeOk(search, s) && !Collides(s, step, r) && MayFail(step)
    requires WorkerOk(s, WorkerAt(s, step.worker)) && !WorkerAt(s, step.worker).Done?
    ensures Recorded(Do(search, s, step), WorkerAt(Do(search, s, step), step.worker), r)
  {
    match step {
      case RecordsFailure(w) => RecordingIsRecorded(search, s, w, r);
      case ReadForFailure(w, at) => ReadingIsRecorded(search, s, w, at, r);
      case FailPublication(w, a) => PublishingIsRecorded(search, s, w, a, r);
      case Record(w, a) => PublishingIsRecorded(search, s, w, a, r);
      case Raise(w) => RaisingIsRecorded(s, w, r);
    }
  }

  /** Where a step leaves the one worker it moves. */
  lemma MovedWorkerIsRecorded(search: Matcher, s: System, step: Step, w: WorkerId, r: RunId)
    requires SafeOk(search, s) && !Collides(s, step, r) && Mover(step) == Some(w)
    requires WorkerAt(Do(search, s, step), w) != WorkerAt(s, w)
    ensures Recorded(Do(search, s, step), WorkerAt(Do(search, s, step), w), r)
  {
    assert WorkerOk(s, WorkerAt(s, w));
    if !MayFail(step) {
      OthersDoNotFail(search, s, step, w);
    } else if WorkerAt(s, w).Done? {
      DoneStays(search, s, step);
    } else {
      FailingIsRecorded(search, s, step, r);
    }
  }

  lemma DoneStays(search: Matcher, s: System, step: Step)
    requires MayFail(step) && WorkerAt(s, step.worker).Done?
    ensures Do(search, s, step) == s
  {
  }

  lemma ReadingIsRecorded(search: Matcher, s: System, w: WorkerId, at: nat, r: RunId)
    requires SafeOk(search, s) && !WorkerAt(s, w).Done?
    ensures Recorded(DoReadForFailure(s, w, at), WorkerAt(DoReadForFailure(s, w, at), w), r)
  {
    if WorkerAt(s, w).Recovering? && RunOfIs(s, WorkerAt(s, w).job, r) && at < |s.runs[r]|
       && IsTerminal(s.runs[r][at].row.state)
    {
      assert HistoryOk(search, s.runs[r]);
      TerminalIsLast(search, s.runs[r], at);
    }
  }

  /** Publishing a run is another kind of job. */
  lemma PublishingIsRecorded(search: Matcher, s: System, w: WorkerId, a: Attempt, r: RunId)
    requires WorkerOk(s, WorkerAt(s, w)) && !WorkerAt(s, w).Done?
    ensures Recorded(DoFailPublication(search, s, w, a), WorkerAt(DoFailPublication(search, s, w, a), w), r)
    ensures Recorded(DoRecord(search, s, w, a), WorkerAt(DoRecord(search, s, w, a), w), r)
  {
  }

  lemma RaisingIsRecorded(s: System, w: WorkerId, r: RunId)
    requires WorkerOk(s, WorkerAt(s, w)) && !WorkerAt(s, w).Done?
    ensures Recorded(DoRaise(s, w), WorkerAt(DoRaise(s, w), w), r)
  {
  }

  /** No other step leaves a worker reporting failure. */
  lemma OthersDoNotFail(search: Matcher, s: System, step: Step, w: WorkerId)
    requires !MayFail(step)
    requires WorkerAt(Do(search, s, step), w) != WorkerAt(s, w)
    ensures WorkerAt(Do(search, s, step), w).Done? ==> WorkerAt(Do(search, s, step), w).ok
  {
    if step.Drive? {
      DrivingDoesNotFail(search, s, step.worker, step.attempt);
    }
  }

  lemma DrivingDoesNotFail(search: Matcher, s: System, v: WorkerId, a: Attempt)
    ensures var s' := DoDrive(search, s, v, a);
            forall w :: WorkerAt(s', w) != WorkerAt(s, w) && WorkerAt(s', w).Done? ==> WorkerAt(s', w).ok
  {
  }

  lemma StepKeepsRecorded(search: Matcher, s: System, step: Step, r: RunId)
    requires SafeOk(search, s) && AllRecorded(s, r) && !Collides(s, step, r)
    ensures AllRecorded(Do(search, s, step), r)
  {
    var s' := Do(search, s, step);
    StepIsSafe(search, s, step);
    StepGrows(search, s, step);
    forall w | w in s'.workers ensures Recorded(s', s'.workers[w], r) {
      if WorkerAt(s', w) == WorkerAt(s, w) {
        assert WorkerOk(s, WorkerAt(s, w));
        RecordedStays(search, s, s', WorkerAt(s, w), r);
      } else {
        if Mover(step) != Some(w) {
          OthersStayPut(search, s, step, w);
        }
        MovedWorkerIsRecorded(search, s, step, w, r);
      }
    }
  }

  ghost predicate CollidesAt(search: Matcher, steps: seq<Step>, i: nat, r: RunId)
    requires i < |steps|
  {
    Collides(After(search, steps[..i]), steps[i], r)
  }

  lemma {:induction false} RecordedUpTo(search: Matcher, steps: seq<Step>, r: RunId, i: nat)
    requires i <= |steps| && forall k: nat :: k < i ==> !CollidesAt(search, steps, k, r)
    ensures AllRecorded(After(search, steps[..i]), r)
  {
    if i > 0 {
      RecordedUpTo(search, steps, r, i - 1);
      EveryHistoryIsSafe(search, steps[..i - 1]);
      AfterPrefix(search, steps, i - 1);
      assert !CollidesAt(search, steps, i - 1, r);
      StepKeepsRecorded(search, After(search, steps[..i - 1]), steps[i - 1], r);
    }
  }

  lemma RecordedIsNotAbandoned(s: System, step: Step, r: RunId)
    requires AllRecorded(s, r)
    ensures !Abandons(s, step, r)
  {
    assert step.MarkJob? && WorkerAt(s, step.worker).Done? ==> Recorded(s, s.workers[step.worker], r);
  }

  /** Only a failure record of run `r` that collided can lead to its being abandoned. */
  lemma OnlyCollisionsAbandon(search: Matcher, steps: seq<Step>, r: RunId)
    requires forall i: nat :: i < |steps| ==> !CollidesAt(search, steps, i, r)
    ensures NeverAbandoned(search, steps, r)
  {
    forall i: nat | i < |steps| ensures !AbandonsAt(search, steps, i, r) {
      RecordedUpTo(search, steps, r, i);
      RecordedIsNotAbandoned(After(search, steps[..i]), steps[i], r);
    }
  }
}
