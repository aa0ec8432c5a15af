/**
 The whole protocol as a transition system: workers claim jobs under leases, drive runs one
 committed transaction at a time, crash and resume (backend/app/worker/main.py,
 backend/app/agent/orchestrator.py), and race with the API's create, cancel, approve, reject
 and revise requests (backend/app/services/run_manager.py, review_service.py).

 A history is any finite list of steps; a step that is not enabled changes nothing.
 */
module Protocol {
  import opened Basics
  import opened RunStates
  import opened TestEvidence
  import opened Store
  import opened Risk
  import opened Transactions
  import opened History
  import opened Jobs

  /** What a worker process is doing; `at` is the version its session's row copy was read from. */
  datatype Worker =
    | Idle
    | Holding(job: JobId)
    | Driving(job: JobId, at: nat)
    | Recovering(job: JobId)
    | Recording(job: JobId, at: nat)
    | Publishing(job: JobId, at: nat)
    | Pushed(job: JobId, at: nat, read: nat, publication: Publication)
    | Done(job: JobId, ok: bool)

  /**
   A branch push and pull-request creation on GitHub, which no rollback takes back. `gated` is the
   stored diff text the gate compared; what the branch then holds is the matter of module Publishing.
   */
  datatype Push = Push(run: RunId, gated: string)

  datatype System = System(
    runs: map<RunId, Versions>, jobs: map<JobId, Job>, workers: map<WorkerId, Worker>, pushes: seq<Push>)

  datatype Step =
    // API requests
    | CreateRun(run: RunId, newJob: JobId, requirePlanApproval: bool, now: int)
    | ApiRequest(run: RunId, attempt: Attempt, newJob: JobId, now: int)
    // the queue
    | ClaimJob(worker: WorkerId, job: JobId, now: int, leaseSeconds: nat)
    | BeatJob(job: JobId, now: int, leaseSeconds: nat)
    | ReclaimJob(job: JobId, now: int)
    // a worker with an execute_run job
    | LoadRun(worker: WorkerId, at: nat)
    | Drive(worker: WorkerId, attempt: Attempt)
    | ReturnParked(worker: WorkerId)
    | Raise(worker: WorkerId)
    | ReadForFailure(worker: WorkerId, at: nat)
    | RecordsFailure(worker: WorkerId)
    // a worker with a create_pull_request job
    | PushBranch(worker: WorkerId, read: nat)
    | FailPublication(worker: WorkerId, attempt: Attempt)
    | Record(worker: WorkerId, attempt: Attempt)
    // any worker
    | MarkJob(worker: WorkerId, now: int, delay: nat)
    | Crash(worker: WorkerId)

  /** The worker whose step it is, if it is a worker's. */
  function Mover(step: Step): Option<WorkerId> {
    match step
    case CreateRun(_, _, _, _) => None
    case ApiRequest(_, _, _, _) => None
    case BeatJob(_, _, _) => None
    case ReclaimJob(_, _) => None
    case _ => Some(step.worker)
  }

  const EMPTY_SYSTEM := System(map[], map[], map[], [])

  function WorkerAt(s: System, w: WorkerId): Worker {
    if w in s.workers then s.workers[w] else Idle
  }

  function SetWorker(s: System, w: WorkerId, x: Worker): System {
    s.(workers := s.workers[w := x])
  }

  function SetJob(s: System, id: JobId, j: Job): System {
    s.(jobs := s.jobs[id := j])
  }

  /** The job a worker holds, with the versions of its run; None if there is no such row. */
  predicate HasJob(s: System, id: JobId) {
    id in s.jobs && s.jobs[id].run in s.runs && s.runs[s.jobs[id].run] != []
  }

  function RunOf(s: System, id: JobId): Versions
    requires HasJob(s, id)
  {
    s.runs[s.jobs[id].run]
  }

  /** Tries an attempt on a run; the system is unchanged unless it commits. */
  function TryCommit(search: Matcher, s: System, run: RunId, a: Attempt): Option<System> {
    if run !in s.runs || s.runs[run] == [] || !Attemptable(search, s.runs[run], a) then None
    else
      match Committed(search, s.runs[run], a)
      case None => None
      case Some(t) => Some(s.(runs := s.runs[run := s.runs[run] + [t]]))
  }

  predicate ApiMayAsk(r: Request) {
    r.Cancel? || r.Approve? || r.Reject? || r.RequestRevision?
  }

  /** Approving and revising enqueue a job in the same transaction. */
  function EnqueueFor(s: System, run: RunId, r: Request, id: JobId, now: int): System {
    if run !in s.runs || s.runs[run] == [] then s
    else if r.Approve? then SetJob(s, id, NewJob(CreatePullRequest, run, now, 3, |s.runs[run]| - 1))
    else if r.RequestRevision? then SetJob(s, id, NewJob(ExecuteRun, run, now, 3, |s.runs[run]| - 1))
    else s
  }

  function DoCreate(s: System, run: RunId, id: JobId, plan: bool, now: int): System {
    if run in s.runs || id in s.jobs then s
    else SetJob(s.(runs := s.runs[run := [NewRun(plan)]]), id, NewJob(ExecuteRun, run, now, 3, 0))
  }

  function DoApi(search: Matcher, s: System, run: RunId, a: Attempt, id: JobId, now: int): System {
    if !ApiMayAsk(a.request) || id in s.jobs then s
    else
      match TryCommit(search, s, run, a)
      case None => s
      case Some(s') => EnqueueFor(s', run, a.request, id, now)
  }

  function DoClaim(s: System, w: WorkerId, id: JobId, now: int, lease: nat): System {
    if WorkerAt(s, w) != Idle || id !in s.jobs || !Runnable(s.jobs[id], now) then s
    else SetWorker(SetJob(s, id, Claimed(s.jobs[id], w, now, lease)), w, Holding(id))
  }

  /**
   `_load_run` in a fresh session, which sees the run no older than the job row it just claimed;
   a finished run needs nothing, and neither does publishing one that has its pull request.
   */
  function DoLoad(s: System, w: WorkerId, at: nat): System {
    match WorkerAt(s, w)
    case Holding(id) =>
      if !HasJob(s, id) || !(s.jobs[id].since <= at < |RunOf(s, id)|) then s
      else
        var state := RunOf(s, id)[at].row.state;
        if IsTerminal(state) then SetWorker(s, w, Done(id, true))
        else if s.jobs[id].kind == ExecuteRun then SetWorker(s, w, Driving(id, at))
        else if state == PrCreated then SetWorker(s, w, Done(id, true))
        else SetWorker(s, w, Publishing(id, at))
    case _ => s
  }

  /** One committed orchestrator step, or an aborted one that commits the run as failed. */
  function DoDrive(search: Matcher, s: System, w: WorkerId, a: Attempt): System {
    match WorkerAt(s, w)
    case Driving(id, at) =>
      if !HasJob(s, id) || a.at != at || !(a.request.StepDone? || a.request.StepAborted?) then s
      else (
        match TryCommit(search, s, s.jobs[id].run, a)
        case None => s
        case Some(s') =>
          SetWorker(s', w, if a.request.StepDone? then Driving(id, |RunOf(s, id)|) else Done(id, true))
      )
    case _ => s
  }

  /** `advance` returns once its own copy of the row is parked. */
  function DoReturn(s: System, w: WorkerId): System {
    match WorkerAt(s, w)
    case Driving(id, at) =>
      if HasJob(s, id) && at < |RunOf(s, id)| && Parked(RunOf(s, id)[at].row.state)
      then SetWorker(s, w, Done(id, true)) else s
    case _ => s
  }

  /** Any exception out of a session, in particular a refused commit: nothing of it is kept. */
  function DoRaise(s: System, w: WorkerId): System {
    match WorkerAt(s, w)
    case Driving(id, _) => SetWorker(s, w, Recovering(id))
    case Publishing(id, _) => SetWorker(s, w, Done(id, false))
    case Pushed(id, _, _, _) => SetWorker(s, w, Done(id, false))
    case _ => s
  }

  /** `_record_failure` reads the run in a session of its own, and leaves a finished one alone. */
  function DoReadForFailure(s: System, w: WorkerId, at: nat): System {
    match WorkerAt(s, w)
    case Recovering(id) =>
      if !HasJob(s, id) || !(s.jobs[id].since <= at < |RunOf(s, id)|) then s
      else SetWorker(s, w, if IsTerminal(RunOf(s, id)[at].row.state) then Done(id, false) else Recording(id, at))
    case _ => s
  }

  /** The write `_record_failure` makes from the copy it read. */
  function FailureOf(at: nat): Attempt {
    Attempt(at, at, at, Request.RecordFailure, [Transition(Failed)])
  }

  /** It fails the run, or is beaten to the next event number; the job is then marked failed either way. */
  function DoRecordsFailure(search: Matcher, s: System, w: WorkerId): System {
    match WorkerAt(s, w)
    case Recording(id, at) =>
      if !HasJob(s, id) then s
      else (
        match TryCommit(search, s, s.jobs[id].run, FailureOf(at))
        case None => SetWorker(s, w, Done(id, false))
        case Some(s') => SetWorker(s', w, Done(id, false))
      )
    case _ => s
  }

  /** The gate, and the push it guards. */
  function DoPush(s: System, w: WorkerId, read: nat): System {
    match WorkerAt(s, w)
    case Publishing(id, at) =>
      if !HasJob(s, id) || !(at <= read < |RunOf(s, id)|) then s
      else (
        match PushAllowed(RunOf(s, id)[read])
        case None => s
        case Some(p) =>
          SetWorker(s.(pushes := s.pushes + [Push(s.jobs[id].run, p.diff.text)]), w, Pushed(id, at, read, p))
      )
    case _ => s
  }

  /** A refused or impossible publication fails the run and is raised again. */
  function DoFailPublication(search: Matcher, s: System, w: WorkerId, a: Attempt): System {
    match WorkerAt(s, w)
    case Publishing(id, at) =>
      if !HasJob(s, id) || a.at != at || !a.request.RecordFailure? then s
      else (
        match TryCommit(search, s, s.jobs[id].run, a)
        case None => s
        case Some(s') => SetWorker(s', w, Done(id, false))
      )
    case _ => s
  }

  /** Recording the pull request and completing the run, in one transaction. */
  function DoRecord(search: Matcher, s: System, w: WorkerId, a: Attempt): System {
    match WorkerAt(s, w)
    case Pushed(id, at, read, p) =>
      if !HasJob(s, id) || a.at != at || a.first != read || a.request != RecordPublication(p) then s
      else (
        match TryCommit(search, s, s.jobs[id].run, a)
        case None => s
        case Some(s') => SetWorker(s', w, Done(id, true))
      )
    case _ => s
  }

  function DoMark(s: System, w: WorkerId, now: int, delay: nat): System {
    match WorkerAt(s, w)
    case Done(id, ok) =>
      if id !in s.jobs then s
      else
        var j := if ok then MarkedSucceeded(s.jobs[id]) else MarkedFailed(s.jobs[id], now, delay);
        SetWorker(SetJob(s, id, j), w, Idle)
    case _ => s
  }

  function Do(search: Matcher, s: System, step: Step): System {
    match step
    case CreateRun(run, id, plan, now) => DoCreate(s, run, id, plan, now)
    case ApiRequest(run, a, id, now) => DoApi(search, s, run, a, id, now)
    case ClaimJob(w, id, now, lease) => DoClaim(s, w, id, now, lease)
    case BeatJob(id, now, lease) => if id in s.jobs then SetJob(s, id, Beaten(s.jobs[id], now, lease)) else s
    case ReclaimJob(id, now) =>
      if id in s.jobs && Expired(s.jobs[id], now) then SetJob(s, id, Reclaimed(s.jobs[id])) else s
    case LoadRun(w, at) => DoLoad(s, w, at)
    case Drive(w, a) => DoDrive(search, s, w, a)
    case ReturnParked(w) => DoReturn(s, w)
    case Raise(w) => DoRaise(s, w)
    case ReadForFailure(w, at) => DoReadForFailure(s, w, at)
    case RecordsFailure(w) => DoRecordsFailure(search, s, w)
    case PushBranch(w, read) => DoPush(s, w, read)
    case FailPublication(w, a) => DoFailPublication(search, s, w, a)
    case Record(w, a) => DoRecord(search, s, w, a)
    case MarkJob(w, now, delay) => DoMark(s, w, now, delay)
    case Crash(w) => SetWorker(s, w, Idle)
  }

  /** The system after a history of steps from the empty database. */
  function After(search: Matcher, steps: seq<Step>): System
    decreases |steps|
  {
    if steps == [] then EMPTY_SYSTEM
    else Do(search, After(search, steps[..|steps| - 1]), steps[|steps| - 1])
  }

  lemma AfterOne(search: Matcher, steps: seq<Step>, step: Step)
    ensures After(search, steps + [step]) == Do(search, After(search, steps), step)
  {
    assert (steps + [step])[..|steps|] == steps;
  }
}
