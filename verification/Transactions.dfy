/**
 The transactions that workers and API requests attempt on one run: what each checks, which
 rows it writes, and the invariants every committed version of the run satisfies.
 */
module Transactions {
  import opened Basics
  import opened RunStates
  import opened TestEvidence
  import opened Store
  import opened Risk
  import opened Texts

  /** What the outside world contributes to one orchestrator step. */
  datatype Work = Work(diffText: string, filesChanged: nat, suite: Suite)

  function MakeDiff(search: Matcher, work: Work): Diff {
    Diff(work.diffText, Sha256(work.diffText), work.filesChanged, Blocking(search, work.diffText))
  }

  /** The data writes of the step for state `row.state`, in order. */
  function StepWrites(search: Matcher, row: RunRow, work: Work): seq<Op> {
    if !HasStep(row.state) then []
    else
      var target := StepTarget(row.state, row.requirePlanApproval);
      match row.state
      case RetrievingContext => [Transition(target), StorePlan]
      case Testing => [Transition(target), StoreDiff(MakeDiff(search, work))]
      case Verifying => [Witness(work.suite.Outcomes()), Transition(target)]
      case _ => [Transition(target)]
  }

  /** The source's own reasons for a step to abort: an empty change set, tests that did not pass. */
  predicate StepCompletes(row: RunRow, work: Work) {
    && HasStep(row.state)
    && (row.state == Testing ==> work.filesChanged > 0)
    && (row.state == Verifying ==> AllPassed(work.suite.Outcomes()))
  }

  /** How far an aborting step can have got: before the check that stops it, or anywhere. */
  predicate AbortPoint(search: Matcher, row: RunRow, work: Work, k: nat) {
    && k <= |StepWrites(search, row, work)|
    && (!StepCompletes(row, work) ==> k <= if row.state == Testing then 1 else 0)
  }

  /** A publish attempt's reads, taken before the push and used again when recording it. */
  datatype Publication = Publication(diff: Diff, approval: Approval)

  datatype Request =
    | StepDone(work: Work)
    | StepAborted(work: Work, done: nat)
    | RecordFailure
    | Cancel
    | Approve
    | Reject
    | RequestRevision(comment: string)
    | RecordPublication(publication: Publication)

  /** A run as `create_run` commits it: one informational event, in state CREATED. */
  function NewRun(requirePlanApproval: bool): Tables {
    Tables(RunRow(Created, 1, requirePlanApproval), map[1 := Event(Note(Info), Created)], [], [], None, [], None)
  }

  function LatestDiff(t: Tables): Option<Diff> {
    if t.diffs == [] then None else Some(t.diffs[|t.diffs| - 1])
  }

  /** `_decide`: one decision per run, bound to the diff it was shown. */
  function DecideWrites(view: Tables, decision: Decision): Option<seq<Op>> {
    if view.approval.Some? || LatestDiff(view).None? then None
    else Some([Decide(Store.Approval(decision, LatestDiff(view).value.hash))])
  }

  /** `approve`: refuses a blocking diff before `_decide` is asked. */
  function ApproveWrites(row: RunRow, riskView: Tables, decideView: Tables): Option<seq<Op>> {
    if row.state != WaitingForApproval then None
    else if LatestDiff(riskView).Some? && LatestDiff(riskView).value.blocking then None
    else DecideWrites(decideView, Approved)
  }

  function AndThen(writes: Option<seq<Op>>, op: Op): Option<seq<Op>> {
    if writes.None? then None else Some(writes.value + [op])
  }

  /**
   `_publish` up to the push: `assert_push_allowed` compares the stored approval with the hash
   of the stored diff. None is a refusal, which fails the run.
   */
  function PushAllowed(view: Tables): Option<Publication> {
    if LatestDiff(view).None? || view.plans == [] then None
    else if view.approval.None? || view.approval.value.decision != Approved then None
    else if view.approval.value.diffHash != Sha256(LatestDiff(view).value.text) then None
    else Some(Publication(LatestDiff(view).value, view.approval.value))
  }

  /** Recording a pull request and completing the run. */
  function PublicationWrites(p: Publication): seq<Op> {
    [RecordPull(PullRequest(p.approval.diffHash, p.diff.text)), Transition(PrCreated), Transition(Completed)]
  }

  /**
   The data writes of a request made by a session whose copy of the row is `row` and whose
   other reads returned `first` and, for the one request that reads twice, `second`.
   None: the request is refused before anything is written.
   */
  function Writes(search: Matcher, request: Request, row: RunRow, first: Tables, second: Tables): Option<seq<Op>> {
    match request
    case StepDone(work) =>
      if StepCompletes(row, work) then Some(StepWrites(search, row, work)) else None
    case StepAborted(work, done) =>
      if Parked(row.state) || !AbortPoint(search, row, work, done) then None
      else Some(StepWrites(search, row, work)[..done] + [Transition(Failed)])
    case RecordFailure => if IsTerminal(row.state) then None else Some([Transition(Failed)])
    case Cancel => if IsTerminal(row.state) then None else Some([Transition(Cancelled)])
    case Approve => ApproveWrites(row, first, second)
    case Reject =>
      if row.state != WaitingForApproval then None
      else AndThen(DecideWrites(first, Rejected), Transition(Failed))
    case RequestRevision(comment) =>
      if row.state != WaitingForApproval || Blank(comment) then None
      else AndThen(DecideWrites(first, Decision.RevisionRequested), Transition(Planning))
    case RecordPublication(p) =>
      if IsTerminal(row.state) || row.state == PrCreated then None
      else Some(PublicationWrites(p))
  }

  // ------------------------------------------------------------------ what every version satisfies

  predicate DiffOk(search: Matcher, d: Diff) {
    d.hash == Sha256(d.text) && d.filesChanged > 0 && (d.blocking <==> Blocking(search, d.text))
  }

  ghost predicate DiffsOk(search: Matcher, t: Tables) {
    forall i :: 0 <= i < |t.diffs| ==> DiffOk(search, t.diffs[i])
  }

  /** A decision names a diff that was stored; an approval names one free of credentials. */
  ghost predicate ApprovalOk(search: Matcher, t: Tables) {
    t.approval.Some? ==>
      && (exists i :: 0 <= i < |t.diffs| && t.diffs[i].hash == t.approval.value.diffHash)
      && (t.approval.value.decision == Approved ==>
            !Blocking(search, t.approval.value.diffHash.text)
            && (t.row.state == WaitingForApproval || IsTerminal(t.row.state)))
      && (t.approval.value.decision == Rejected ==> t.row.state == Failed)
  }

  /** Pull requests exist exactly for completed runs, one each, made when the gate saw the approved text. */
  predicate PullsOk(t: Tables) {
    && |t.pulls| == (if t.row.state == Completed then 1 else 0)
    && (t.row.state == Completed ==>
          && t.approval.Some? && t.approval.value.decision == Approved
          && t.pulls[0].approvalHash == t.approval.value.diffHash == Sha256(t.pulls[0].gated)
          && t.plans != [] && t.diffs != [])
  }

  /** Once a run waits for approval, the last look at the tests was clean. */
  ghost predicate EvidenceOk(t: Tables) {
    t.row.state in {WaitingForApproval, Completed} ==>
      t.evidence.Some? && AllPassed(t.evidence.value) && AllParsed(t.evidence.value)
  }

  /** States no commit ever rests in, and the states a run that wants its plan approved never sees. */
  predicate StateOk(t: Tables) {
    && t.row.state !in {PrCreated, AnalyzingFailure, Revising}
    && (t.row.requirePlanApproval ==>
          t.row.state !in {Implementing, Testing, Verifying, WaitingForApproval, Completed})
  }

  predicate Planned(s: RunState) {
    s in {Planning, WaitingForPlanReview, Implementing, Testing, Verifying, WaitingForApproval, Completed}
  }

  /** Whatever is past planning has a plan, and whatever is past testing a diff. */
  predicate StoredOk(t: Tables) {
    && (Planned(t.row.state) ==> t.plans != [])
    && (t.row.state in {Verifying, WaitingForApproval, Completed} ==> t.diffs != [])
  }

  ghost predicate VersionsOk(t: Tables) {
    forall i :: 0 <= i < |t.plans| ==> t.plans[i].version == i + 1
  }

  ghost predicate RowsOk(search: Matcher, t: Tables) {
    && DiffsOk(search, t) && ApprovalOk(search, t) && PullsOk(t) && EvidenceOk(t) && StateOk(t) && VersionsOk(t)
    && StoredOk(t)
  }

  /** What one commit may change. */
  ghost predicate Follows(a: Tables, b: Tables) {
    && !IsTerminal(a.row.state)
    && a.row.requirePlanApproval == b.row.requirePlanApproval
    && a.plans <= b.plans && a.diffs <= b.diffs && a.pulls <= b.pulls
    && (a.approval.Some? ==> b.approval == a.approval)
    && (b.approval != a.approval ==> a.row.state == WaitingForApproval)
    && (b.row.state == Completed ==>
          a.row.state == WaitingForApproval && PushAllowed(a).Some? && b.evidence == a.evidence)
    && (AwaitsHuman(a.row.state) && !Parked(b.row.state) ==> a.approval.None? && Revised(b))
    && (Parked(a.row.state) ==> b.diffs == a.diffs)
  }

  predicate Revised(t: Tables) {
    t.approval.Some? && t.approval.value.decision == Decision.RevisionRequested
  }

  lemma SameRestTransports(search: Matcher, a: Tables, b: Tables, c: Tables)
    requires SameRest(b, c)
    ensures RowsOk(search, b) ==> RowsOk(search, c)
    ensures Follows(a, b) ==> Follows(a, c)
    ensures forall r :: DecidesAs(r, a, b) ==> DecidesAs(r, a, c)
  {
  }

  // ------------------------------------------------------------------ running the writes

  function Then(r: Store.Result<Tx>, op: Op): Store.Result<Tx> {
    if r.Err? then r else Apply(r.value, op)
  }

  lemma {:induction false} ExecSnoc(tx: Tx, ops: seq<Op>, op: Op)
    ensures Exec(tx, ops + [op]) == Then(Exec(tx, ops), op)
    decreases |ops|
  {
    if ops == [] {
      assert [op][1..] == [];
      assert Exec(tx, [op]) == Then(Ok(tx), op);
    } else {
      assert (ops + [op])[1..] == ops[1..] + [op];
      if Apply(tx, ops[0]).Ok? {
        ExecSnoc(Apply(tx, ops[0]).value, ops[1..], op);
      }
    }
  }

  lemma ExecOne(tx: Tx, a: Op)
    ensures Exec(tx, [a]) == Apply(tx, a)
  {
  }

  lemma ExecTwo(tx: Tx, a: Op, b: Op)
    ensures Exec(tx, [a, b]) == Then(Apply(tx, a), b)
  {
    assert [a, b] == [a] + [b];
    ExecSnoc(tx, [a], b);
    ExecOne(tx, a);
  }

  lemma ExecThree(tx: Tx, a: Op, b: Op, c: Op)
    ensures Exec(tx, [a, b, c]) == Then(Then(Apply(tx, a), b), c)
  {
    assert [a, b, c] == [a, b] + [c];
    ExecSnoc(tx, [a, b], c);
    ExecTwo(tx, a, b);
  }

  /** What part of a step, finished or not, does to the rows; the state is left open. */
  ghost predicate Grown(search: Matcher, t: Tables, u: Tables) {
    && u.row.requirePlanApproval == t.row.requirePlanApproval
    && t.plans <= u.plans && VersionsOk(u)
    && t.diffs <= u.diffs && DiffsOk(search, u)
    && u.approval == t.approval && u.pulls == t.pulls
  }

  lemma OneWriteGrows(search: Matcher, t: Tables, tx: Tx, op: Op)
    requires Grown(search, t, tx.db) && tx.copy.state == tx.db.row.state
    requires Apply(tx, op).Ok?
    requires op.Transition? || op.StorePlan? || op.Witness? || (op.StoreDiff? && DiffOk(search, op.diff))
    ensures Grown(search, t, Apply(tx, op).value.db)
    ensures Apply(tx, op).value.copy.state == Apply(tx, op).value.db.row.state
    ensures Apply(tx, op).value.db.row.state == if op.Transition? then op.target else tx.db.row.state
    ensures Apply(tx, op).value.db.evidence == if op.Witness? then Some(op.outcomes) else tx.db.evidence
  {
  }

  /** The step writes of an up-to-date session, up to any point it may reach. */
  lemma StepPrefix(search: Matcher, t: Tables, work: Work, k: nat)
    requires RowsOk(search, t) && k <= |StepWrites(search, t.row, work)|
    requires t.row.state == Testing && k == 2 ==> work.filesChanged > 0
    ensures var r := Exec(Tx(t.row, t), StepWrites(search, t.row, work)[..k]);
            r.Ok? ==>
              && Grown(search, t, r.value.db)
              && r.value.copy.state == r.value.db.row.state
              && (k == |StepWrites(search, t.row, work)| && HasStep(t.row.state) ==>
                    && r.value.db.row.state == StepTarget(t.row.state, t.row.requirePlanApproval)
                    && (t.row.state == RetrievingContext ==> r.value.db.plans != [])
                    && (t.row.state == Testing ==> r.value.db.diffs != [])
                    && (t.row.state == Verifying ==> r.value.db.evidence == Some(work.suite.Outcomes())))
  {
    var tx, ops := Tx(t.row, t), StepWrites(search, t.row, work);
    if k == 0 {
      assert ops[..k] == [];
    } else if k == 1 {
      assert ops[..k] == [ops[0]];
      ExecOne(tx, ops[0]);
      if Apply(tx, ops[0]).Ok? {
        OneWriteGrows(search, t, tx, ops[0]);
      }
    } else {
      assert ops[..k] == [ops[0], ops[1]];
      ExecTwo(tx, ops[0], ops[1]);
      if Apply(tx, ops[0]).Ok? {
        OneWriteGrows(search, t, tx, ops[0]);
        var mid := Apply(tx, ops[0]).value;
        if Apply(mid, ops[1]).Ok? {
          OneWriteGrows(search, t, mid, ops[1]);
        }
      }
    }
  }

  // ------------------------------------------------------------------ each request keeps the invariants

  /** The rows left by a transaction of an up-to-date session. */
  function Outcome(t: Tables, writes: seq<Op>): Store.Result<Tables> {
    Commit(t.row, t, writes)
  }

  /** A new decision is the one that was asked for. */
  predicate DecidesAs(request: Request, t: Tables, u: Tables) {
    u.approval != t.approval ==>
      && u.approval.Some?
      && u.approval.value.decision ==
           (match request case Approve => Approved case Reject => Rejected case _ => Decision.RevisionRequested)
      && (request.Approve? || request.Reject? || request.RequestRevision?)
  }

  ghost predicate Keeps(search: Matcher, t: Tables, request: Request, o: Store.Result<Tables>) {
    o.Ok? ==> RowsOk(search, o.value) && Follows(t, o.value) && DecidesAs(request, t, o.value)
  }

  lemma StepDoneKeeps(search: Matcher, t: Tables, work: Work)
    requires RowsOk(search, t) && StepCompletes(t.row, work)
    ensures Keeps(search, t, StepDone(work), Outcome(t, StepWrites(search, t.row, work)))
  {
    var ops := StepWrites(search, t.row, work);
    assert ops[..|ops|] == ops;
    StepPrefix(search, t, work, |ops|);
    SuiteVerdict(work.suite);
    var o := Outcome(t, ops);
    if o.Ok? {
      GrownApproval(search, t, o.value);
    }
  }

  lemma GrownApproval(search: Matcher, t: Tables, u: Tables)
    requires RowsOk(search, t) && Grown(search, t, u) && !Parked(t.row.state)
    ensures ApprovalOk(search, u)
  {
  }

  lemma StepAbortedKeeps(search: Matcher, t: Tables, work: Work, k: nat)
    requires RowsOk(search, t) && !Parked(t.row.state) && AbortPoint(search, t.row, work, k)
    ensures Keeps(search, t, StepAborted(work, k),
                  Outcome(t, StepWrites(search, t.row, work)[..k] + [Transition(Failed)]))
  {
    var ops := StepWrites(search, t.row, work)[..k];
    StepPrefix(search, t, work, k);
    ExecSnoc(Tx(t.row, t), ops, Transition(Failed));
    var mid := Exec(Tx(t.row, t), ops);
    if mid.Ok? && Apply(mid.value, Transition(Failed)).Ok? {
      OneWriteGrows(search, t, mid.value, Transition(Failed));
      GrownApproval(search, t, Apply(mid.value, Transition(Failed)).value.db);
    }
  }

  /** Failing or cancelling a run, from any state that is not terminal. */
  lemma StopKeeps(search: Matcher, t: Tables, request: Request, target: RunState)
    requires RowsOk(search, t) && target in {Failed, Cancelled}
    ensures Keeps(search, t, request, Outcome(t, [Transition(target)]))
  {
    ExecOne(Tx(t.row, t), Transition(target));
  }

  lemma DecideKeeps(search: Matcher, t: Tables, decision: Decision, comment: string)
    requires RowsOk(search, t) && t.row.state == WaitingForApproval
    requires DecideWrites(t, decision).Some?
    requires decision == Approved ==> !LatestDiff(t).value.blocking
    ensures decision == Approved ==> Keeps(search, t, Approve, Outcome(t, DecideWrites(t, decision).value))
    ensures decision == Rejected ==>
              Keeps(search, t, Reject, Outcome(t, DecideWrites(t, decision).value + [Transition(Failed)]))
    ensures decision == Decision.RevisionRequested ==>
              Keeps(search, t, RequestRevision(comment),
                    Outcome(t, DecideWrites(t, decision).value + [Transition(Planning)]))
  {
    var d := DecideWrites(t, decision).value[0];
    var tx := Tx(t.row, t);
    ExecOne(tx, d);
    assert [d] + [Transition(Failed)] == [d, Transition(Failed)];
    assert [d] + [Transition(Planning)] == [d, Transition(Planning)];
    ExecTwo(tx, d, Transition(Failed));
    ExecTwo(tx, d, Transition(Planning));
    assert DiffOk(search, t.diffs[|t.diffs| - 1]);
  }

  lemma PublicationKeeps(search: Matcher, t: Tables, p: Publication)
    requires RowsOk(search, t) && PushAllowed(t) == Some(p)
    ensures Keeps(search, t, RecordPublication(p),
                  Outcome(t, [RecordPull(PullRequest(p.approval.diffHash, p.diff.text)),
                                         Transition(PrCreated), Transition(Completed)]))
  {
    ExecThree(Tx(t.row, t), RecordPull(PullRequest(p.approval.diffHash, p.diff.text)),
              Transition(PrCreated), Transition(Completed));
  }

  /**
   Whatever an up-to-date session asks for, the committed rows keep every invariant. A
   publication is the one request that uses reads made before its own transaction; here they
   are still true.
   */
  lemma RequestKeeps(search: Matcher, t: Tables, request: Request)
    requires LogOk(t) && RowsOk(search, t)
    requires request.RecordPublication? ==> PushAllowed(t) == Some(request.publication)
    requires Writes(search, request, t.row, t, t).Some?
    ensures Keeps(search, t, request, Outcome(t, Writes(search, request, t.row, t, t).value))
  {
    match request {
      case StepDone(work) => StepDoneKeeps(search, t, work);
      case StepAborted(work, k) => StepAbortedKeeps(search, t, work, k);
      case RecordFailure => StopKeeps(search, t, request, Failed);
      case Cancel => StopKeeps(search, t, request, Cancelled);
      case Approve => DecideKeeps(search, t, Approved, "");
      case Reject => DecideKeeps(search, t, Rejected, "");
      case RequestRevision(comment) => DecideKeeps(search, t, Decision.RevisionRequested, comment);
      case RecordPublication(p) => PublicationKeeps(search, t, p);
    }
  }
}
