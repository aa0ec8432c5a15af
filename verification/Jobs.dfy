/**
 The durable job queue of backend/app/services/job_queue.py: rows updated in place, at-least-once
 delivery, no owner check when a job is marked.
 */
module Jobs {
  import opened Basics

  type JobId = nat
  type RunId = nat
  type WorkerId = nat

  datatype JobKind = ExecuteRun | CreatePullRequest
  datatype JobStatus = Queued | Running | Succeeded | FailedForGood

  /**
   One queue row. `lockedAt` means something once the row was claimed, and stays. `claims` and `reclaims`
   are history variables: how often the row was claimed, and how often its expired lease was taken
   back. `since` is the number of run versions
   already committed when the row was inserted, less one.
   */
  datatype Job = Job(
    kind: JobKind, run: RunId, status: JobStatus, attempts: nat, maxAttempts: nat, runAfter: int,
    lockedAt: int, lockedBy: Option<WorkerId>, lease: Option<int>, claims: nat, reclaims: nat, since: nat)

  function NewJob(kind: JobKind, run: RunId, now: int, maxAttempts: nat, since: nat): Job {
    Job(kind, run, Queued, 0, maxAttempts, now, now, None, None, 0, 0, since)
  }

  predicate Runnable(j: Job, now: int) {
    j.status == Queued && j.runAfter <= now
  }

  predicate Expired(j: Job, now: int) {
    j.status == Running && j.lease.Some? && j.lease.value < now
  }

  function Claimed(j: Job, worker: WorkerId, now: int, leaseSeconds: nat): Job {
    j.(status := Running, attempts := j.attempts + 1, lockedAt := now, lockedBy := Some(worker),
       lease := Some(now + leaseSeconds), claims := j.claims + 1)
  }

  function Beaten(j: Job, now: int, leaseSeconds: nat): Job {
    j.(lease := Some(now + leaseSeconds))
  }

  function MarkedSucceeded(j: Job): Job {
    j.(status := Succeeded, lockedBy := None, lease := None)
  }

  function MarkedFailed(j: Job, now: int, delay: nat): Job {
    if j.attempts < j.maxAttempts then
      j.(status := Queued, runAfter := now + delay, lockedBy := None, lease := None)
    else
      j.(status := FailedForGood, lockedBy := None, lease := None)
  }

  function Reclaimed(j: Job): Job {
    j.(status := Queued, lockedBy := None, lease := None, reclaims := j.reclaims + 1)
  }

  // ------------------------------------------------------------------ accounting over every history of a row

  datatype JobOp =
    | Claim(worker: WorkerId, now: int, leaseSeconds: nat)
    | Beat(now: int, leaseSeconds: nat)
    | Succeed
    | Fail(now: int, delay: nat)
    | Reclaim(now: int)

  /** Anyone may mark or beat a row at any time; only claiming and reclaiming look at it first. */
  function ApplyJob(j: Job, op: JobOp): Job {
    match op
    case Claim(w, now, l) => if Runnable(j, now) then Claimed(j, w, now, l) else j
    case Beat(now, l) => Beaten(j, now, l)
    case Succeed => MarkedSucceeded(j)
    case Fail(now, d) => MarkedFailed(j, now, d)
    case Reclaim(now) => if Expired(j, now) then Reclaimed(j) else j
  }

  function ApplyJobs(j: Job, ops: seq<JobOp>): Job
    decreases |ops|
  {
    if ops == [] then j else ApplyJobs(ApplyJob(j, ops[0]), ops[1..])
  }

  predicate JobOk(j: Job) {
    && j.attempts == j.claims
    && j.attempts <= j.maxAttempts + j.reclaims
    && (j.status == Queued ==> j.attempts < j.maxAttempts + j.reclaims)
    && (j.lockedBy.Some? <==> j.status == Running)
    && (j.status == Running ==> j.lease.Some? && j.runAfter <= j.lockedAt)
    && (j.status == FailedForGood ==> j.attempts >= j.maxAttempts)
  }

  /**
   Queue accounting: in every history of a row, attempts count the claims and exceed the limit
   by at most the number of reclaimed leases; a row is locked exactly while it runs, and a
   running row has a lease.
   */
  lemma {:induction false} QueueAccounting(kind: JobKind, run: RunId, now: int, maxAttempts: nat, since: nat,
                                           ops: seq<JobOp>)
    requires maxAttempts >= 1
    ensures JobOk(ApplyJobs(NewJob(kind, run, now, maxAttempts, since), ops))
  {
    JobOkIsKept(NewJob(kind, run, now, maxAttempts, since), ops);
  }

  lemma {:induction false} JobOkIsKept(j: Job, ops: seq<JobOp>)
    requires JobOk(j)
    ensures JobOk(ApplyJobs(j, ops))
    decreases |ops|
  {
    if ops != [] {
      JobOkIsKept(ApplyJob(j, ops[0]), ops[1..]);
    }
  }

  /** The clock the operations read never goes back: their times ascend from `from` and end by `to`. */
  predicate OnClock(from: int, ops: seq<JobOp>, to: int)
    decreases |ops|
  {
    if ops == [] then from <= to
    else if ops[0].Succeed? then OnClock(from, ops[1..], to)
    else from <= ops[0].now && OnClock(ops[0].now, ops[1..], to)
  }

  lemma {:induction false} ClockAdvances(from: int, ops: seq<JobOp>, to: int)
    requires OnClock(from, ops, to)
    ensures from <= to
    decreases |ops|
  {
    if ops != [] {
      ClockAdvances(if ops[0].Succeed? then from else ops[0].now, ops[1..], to);
    }
  }

  /** A row that runs was locked in the past. */
  lemma {:induction false} LockedInThePast(j: Job, ops: seq<JobOp>, from: int, to: int)
    requires OnClock(from, ops, to) && (j.status == Running ==> j.lockedAt <= from)
    ensures ApplyJobs(j, ops).status == Running ==> ApplyJobs(j, ops).lockedAt <= to
    decreases |ops|
  {
    ClockAdvances(from, ops, to);
    if ops != [] {
      LockedInThePast(ApplyJob(j, ops[0]), ops[1..], if ops[0].Succeed? then from else ops[0].now, to);
    }
  }

  lemma ReclaimThenClaim(j: Job, now: int, worker: WorkerId, leaseSeconds: nat)
    requires JobOk(j) && j.status == Running && j.lease.value < now && j.lockedAt <= now
    ensures ApplyJobs(j, [Reclaim(now), Claim(worker, now, leaseSeconds)])
            == Claimed(Reclaimed(j), worker, now, leaseSeconds)
  {
    var ops := [Reclaim(now), Claim(worker, now, leaseSeconds)];
    assert ops[1..] == [Claim(worker, now, leaseSeconds)];
    assert ops[1..][1..] == [];
    assert ApplyJobs(Reclaimed(j), ops[1..]) == ApplyJobs(Claimed(Reclaimed(j), worker, now, leaseSeconds), []);
  }

  /**
   A running row can always be recovered: in every history of a row, on a clock that does not go
   back, once the lease is past the row can be reclaimed and claimed again in the same moment.
   */
  lemma RunningJobRecovers(kind: JobKind, run: RunId, due: int, start: int, maxAttempts: nat, since: nat,
                           ops: seq<JobOp>, now: int, worker: WorkerId, leaseSeconds: nat)
    requires maxAttempts >= 1 && OnClock(start, ops, now)
    requires var j := ApplyJobs(NewJob(kind, run, due, maxAttempts, since), ops);
             j.status == Running && (j.lease.Some? ==> j.lease.value < now)
    ensures var j := ApplyJobs(NewJob(kind, run, due, maxAttempts, since), ops);
            && j.lease.Some?
            && ApplyJobs(j, [Reclaim(now), Claim(worker, now, leaseSeconds)])
               == Claimed(Reclaimed(j), worker, now, leaseSeconds)
  {
    var j := NewJob(kind, run, due, maxAttempts, since);
    JobOkIsKept(j, ops);
    LockedInThePast(j, ops, start, now);
    ReclaimThenClaim(ApplyJobs(j, ops), now, worker, leaseSeconds);
  }

  /** The limit alone is not a bound on attempts: a row limited to one attempt can be claimed twice. */
  lemma ReclaimExceedsTheLimit()
    ensures var ops := [Claim(7, 0, 120), Reclaim(121), Claim(8, 121, 120)];
            ApplyJobs(NewJob(ExecuteRun, 0, 0, 1, 0), ops).attempts == 2
  {
    var ops := [Claim(7, 0, 120), Reclaim(121), Claim(8, 121, 120)];
    assert ops[1..] == [Reclaim(121), Claim(8, 121, 120)];
    assert ops[1..][1..] == [Claim(8, 121, 120)];
    assert ops[1..][1..][1..] == [];
    var j := NewJob(ExecuteRun, 0, 0, 1, 0);
    assert ApplyJobs(j, ops) == ApplyJobs(Claimed(j, 7, 0, 120), ops[1..]);
    assert ApplyJobs(Reclaimed(Claimed(j, 7, 0, 120)), ops[1..][1..]).attempts == 2;
  }

  // ------------------------------------------------------------------ the table

  class JobQueue {
    var rows: map<JobId, Job>
    var nextId: JobId

    ghost predicate Valid()
      reads this
    {
      && (forall id :: id in rows ==> id < nextId)
      && (forall id :: id in rows ==> JobOk(rows[id]))
    }

    constructor ()
      ensures Valid() && rows == map[]
    {
      rows, nextId := map[], 0;
    }

    method Enqueue(kind: JobKind, run: RunId, now: int, delay: nat, maxAttempts: nat, since: nat) returns (id: JobId)
      requires Valid() && maxAttempts >= 1
      modifies this
      ensures Valid() && id !in old(rows)
      ensures rows == old(rows)[id := NewJob(kind, run, now + delay, maxAttempts, since)]
    {
      id := nextId;
      rows := rows[id := NewJob(kind, run, now + delay, maxAttempts, since)];
      nextId := nextId + 1;
    }

    /** Claims the runnable row with the earliest due time, or reports that there is none. */
    method ClaimNext(worker: WorkerId, now: int, leaseSeconds: nat) returns (claimed: Option<JobId>)
      requires Valid()
      modifies this
      ensures Valid() && nextId == old(nextId)
      ensures claimed.None? ==> rows == old(rows) && forall id :: id in rows ==> !Runnable(rows[id], now)
      ensures claimed.Some? ==>
                && claimed.value in old(rows) && Runnable(old(rows)[claimed.value], now)
                && rows == old(rows)[claimed.value := Claimed(old(rows)[claimed.value], worker, now, leaseSeconds)]
                && forall id :: id in old(rows) && Runnable(old(rows)[id], now) ==>
                     old(rows)[claimed.value].runAfter <= old(rows)[id].runAfter
    {
      claimed := EarliestRunnable(now);
      if claimed.Some? {
        rows := rows[claimed.value := Claimed(rows[claimed.value], worker, now, leaseSeconds)];
      }
    }

    method EarliestRunnable(now: int) returns (best: Option<JobId>)
      ensures best.None? ==> forall id :: id in rows ==> !Runnable(rows[id], now)
      ensures best.Some? ==>
                && best.value in rows && Runnable(rows[best.value], now)
                && forall id :: id in rows && Runnable(rows[id], now) ==> rows[best.value].runAfter <= rows[id].runAfter
    {
      best := None;
      var todo := rows.Keys;
      while todo != {}
        invariant todo <= rows.Keys
        invariant best.Some? ==> best.value in rows && Runnable(rows[best.value], now)
        invariant forall id :: id in rows && id !in todo && Runnable(rows[id], now) ==>
                    best.Some? && rows[best.value].runAfter <= rows[id].runAfter
        decreases |todo|
      {
        var id :| id in todo;
        todo := todo - {id};
        if Runnable(rows[id], now) && (best.None? || rows[id].runAfter < rows[best.value].runAfter) {
          best := Some(id);
        }
      }
    }

    method Heartbeat(id: JobId, now: int, leaseSeconds: nat)
      requires Valid()
      modifies this
      ensures Valid() && nextId == old(nextId)
      ensures rows == if id in old(rows) then old(rows)[id := Beaten(old(rows)[id], now, leaseSeconds)] else old(rows)
    {
      if id in rows {
        rows := rows[id := Beaten(rows[id], now, leaseSeconds)];
      }
    }

    method MarkSucceeded(id: JobId)
      requires Valid()
      modifies this
      ensures Valid() && nextId == old(nextId)
      ensures rows == if id in old(rows) then old(rows)[id := MarkedSucceeded(old(rows)[id])] else old(rows)
    {
      if id in rows {
        rows := rows[id := MarkedSucceeded(rows[id])];
      }
    }

    method MarkFailed(id: JobId, now: int, delay: nat) returns (status: JobStatus)
      requires Valid() && id in rows
      modifies this
      ensures Valid() && nextId == old(nextId)
      ensures rows == old(rows)[id := MarkedFailed(old(rows)[id], now, delay)] && status == rows[id].status
    {
      var job := rows[id];
      if job.attempts < job.maxAttempts {
        job := job.(status := Queued, runAfter := now + delay);
      } else {
        job := job.(status := FailedForGood);
      }
      job := job.(lockedBy := None, lease := None);
      rows := rows[id := job];
      status := job.status;
    }

    /** Requeues every expired row and no other. */
    method ReclaimExpired(now: int) returns (count: nat)
      requires Valid()
      modifies this
      ensures Valid() && nextId == old(nextId) && rows.Keys == old(rows).Keys
      ensures forall id :: id in rows ==> rows[id] == ApplyJob(old(rows)[id], Reclaim(now))
      ensures count == |set id | id in old(rows) && Expired(old(rows)[id], now)|
    {
      count := |set id | id in rows && Expired(rows[id], now)|;
      rows := map id | id in rows :: if Expired(rows[id], now) then Reclaimed(rows[id]) else rows[id];
    }
  }
}
