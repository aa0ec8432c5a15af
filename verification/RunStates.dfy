/**
 The run state machine of backend/app/agent/states.py: the transition table, the terminal
 and human-gate sets, and the states the orchestrator has a step for.
 */
module RunStates {

  datatype RunState =
    | Created
    | CloningRepository
    | AnalyzingIssue
    | ExploringRepository
    | IndexingRepository
    | RetrievingContext
    | Planning
    | WaitingForPlanReview
    | Implementing
    | Testing
    | AnalyzingFailure
    | Revising
    | Verifying
    | WaitingForApproval
    | PrCreated
    | Completed
    | Failed
    | Cancelled

  predicate IsTerminal(s: RunState) {
    s.Completed? || s.Failed? || s.Cancelled?
  }

  predicate AwaitsHuman(s: RunState) {
    s.WaitingForPlanReview? || s.WaitingForApproval?
  }

  /** The run needs no worker: it is finished, or a human has to act next. */
  predicate Parked(s: RunState) {
    IsTerminal(s) || AwaitsHuman(s)
  }

  /** The happy-path and recovery edges, without failure and cancellation. */
  function Transitions(s: RunState): set<RunState> {
    match s
    case Created => {CloningRepository}
    case CloningRepository => {AnalyzingIssue}
    case AnalyzingIssue => {ExploringRepository}
    case ExploringRepository => {IndexingRepository}
    case IndexingRepository => {RetrievingContext}
    case RetrievingContext => {Planning}
    case Planning => {WaitingForPlanReview, Implementing}
    case WaitingForPlanReview => {Implementing, Planning}
    case Implementing => {Testing}
    case Testing => {Verifying, AnalyzingFailure}
    case AnalyzingFailure => {RetrievingContext, Revising}
    case Revising => {Testing}
    case Verifying => {WaitingForApproval, AnalyzingFailure}
    case WaitingForApproval => {PrCreated, Planning}
    case PrCreated => {Completed}
    case Completed => {}
    case Failed => {}
    case Cancelled => {}
  }

  function AllowedTargets(s: RunState): set<RunState> {
    if IsTerminal(s) then {} else Transitions(s) + {Failed, Cancelled}
  }

  predicate CanTransition(from: RunState, to: RunState) {
    to in AllowedTargets(from)
  }

  /** A walk through the table, one legal edge after another. */
  ghost predicate IsPath(states: seq<RunState>) {
    forall i :: 0 <= i < |states| - 1 ==> CanTransition(states[i], states[i + 1])
  }

  /**
   Every walk from CREATED to COMPLETED, however often it goes round the table's cycles,
   passes VERIFYING, then WAITING_FOR_APPROVAL, and ends with PR_CREATED, COMPLETED.
   */
  lemma CompletedOnlyThroughApproval(path: seq<RunState>)
    requires IsPath(path) && |path| > 0
    requires path[0] == Created && path[|path| - 1] == Completed
    ensures |path| >= 5
    ensures path[|path| - 4..] == [Verifying, WaitingForApproval, PrCreated, Completed]
  {
    var n := |path|;
    assert n > 1;
    assert CanTransition(path[n - 2], path[n - 1]);
    assert path[n - 2] == PrCreated;
    assert n > 2;
    assert CanTransition(path[n - 3], path[n - 2]);
    assert path[n - 3] == WaitingForApproval;
    assert n > 3;
    assert CanTransition(path[n - 4], path[n - 3]);
    assert path[n - 4] == Verifying;
  }

  /** A run finishes in exactly the states from which no edge leads on. */
  lemma TerminalIsTheEnd(s: RunState)
    ensures IsTerminal(s) <==> forall t :: !CanTransition(s, t)
    ensures !IsTerminal(s) ==> CanTransition(s, Failed) && CanTransition(s, Cancelled)
  {
    if !IsTerminal(s) {
      assert CanTransition(s, Failed) && CanTransition(s, Cancelled);
    }
  }

  // ------------------------------------------------------------------ the table as walks

  /** From an issue to a pull request. */
  const HAPPY_PATH := [Created, CloningRepository, AnalyzingIssue, ExploringRepository, IndexingRepository,
                       RetrievingContext, Planning, Implementing, Testing, Verifying, WaitingForApproval,
                       PrCreated, Completed]

  /** Stopping to have the plan reviewed, which may send the run back to planning. */
  const PLAN_REVIEW := [Planning, WaitingForPlanReview, Planning]
  const PLAN_ACCEPTED := [WaitingForPlanReview, Implementing]

  /** A failure that is repaired, one that needs other code to look at, and one found late. */
  const REPAIR := [Testing, AnalyzingFailure, Revising, Testing]
  const LOOK_AGAIN := [Verifying, AnalyzingFailure, RetrievingContext]

  /** A human asks for a revision. */
  const SENT_BACK := [WaitingForApproval, Planning]

  /** `t` comes right after `s` somewhere on a walk. */
  predicate NextTo(walk: seq<RunState>, s: RunState, t: RunState) {
    exists i: nat :: i < |walk| && StepAt(walk, i, s, t)
  }

  predicate StepAt(walk: seq<RunState>, i: nat, s: RunState, t: RunState)
    requires i < |walk|
  {
    i + 1 < |walk| && walk[i] == s && walk[i + 1] == t
  }

  predicate OnADetour(s: RunState, t: RunState) {
    || NextTo(PLAN_REVIEW, s, t) || NextTo(PLAN_ACCEPTED, s, t) || NextTo(REPAIR, s, t)
    || NextTo(LOOK_AGAIN, s, t) || NextTo(SENT_BACK, s, t)
  }

  predicate OnSomeWalk(s: RunState, t: RunState) {
    NextTo(HAPPY_PATH, s, t) || OnADetour(s, t)
  }

  lemma StepOf(walk: seq<RunState>, i: nat)
    requires i + 1 < |walk|
    ensures NextTo(walk, walk[i], walk[i + 1])
  {
    assert StepAt(walk, i, walk[i], walk[i + 1]);
  }

  lemma HappyPathIsLegal(i: nat)
    requires i + 1 < |HAPPY_PATH|
    ensures HAPPY_PATH[i + 1] in Transitions(HAPPY_PATH[i])
  {
  }

  /** Where a state is on the happy path, for the states that are on it. */
  function HappyIndex(s: RunState): (i: nat)
    ensures i < |HAPPY_PATH|
    ensures HAPPY_PATH[i] == s || s in {WaitingForPlanReview, AnalyzingFailure, Revising, Failed, Cancelled}
  {
    match s
    case Created => 0
    case CloningRepository => 1
    case AnalyzingIssue => 2
    case ExploringRepository => 3
    case IndexingRepository => 4
    case RetrievingContext => 5
    case Planning => 6
    case Implementing => 7
    case Testing => 8
    case Verifying => 9
    case WaitingForApproval => 10
    case PrCreated => 11
    case Completed => 12
    case _ => 0
  }

  lemma HappyPlaces(i: nat)
    requires i < |HAPPY_PATH|
    ensures HappyIndex(HAPPY_PATH[i]) == i
  {
  }

  /** `t` is next on the happy path. */
  predicate HappyNext(s: RunState, t: RunState) {
    HappyIndex(s) + 1 < |HAPPY_PATH| && HAPPY_PATH[HappyIndex(s)] == s && t == HAPPY_PATH[HappyIndex(s) + 1]
  }

  lemma HappySteps(s: RunState, t: RunState)
    ensures NextTo(HAPPY_PATH, s, t) <==> HappyNext(s, t)
  {
    if NextTo(HAPPY_PATH, s, t) {
      var i: nat :| i < |HAPPY_PATH| && StepAt(HAPPY_PATH, i, s, t);
      HappyPlaces(i);
    }
    if HappyNext(s, t) {
      StepOf(HAPPY_PATH, HappyIndex(s));
    }
  }

  lemma TwoStates(s: RunState, t: RunState, a: RunState, b: RunState)
    ensures NextTo([a, b], s, t) <==> (s, t) == (a, b)
  {
    assert StepAt([a, b], 0, a, b);
  }

  lemma ReviewSteps(s: RunState, t: RunState)
    ensures NextTo(PLAN_REVIEW, s, t) <==>
            (s, t) in {(Planning, WaitingForPlanReview), (WaitingForPlanReview, Planning)}
  {
    StepOf(PLAN_REVIEW, 0);
    StepOf(PLAN_REVIEW, 1);
  }

  lemma LateSteps(s: RunState, t: RunState)
    ensures NextTo(LOOK_AGAIN, s, t) <==>
            (s, t) in {(Verifying, AnalyzingFailure), (AnalyzingFailure, RetrievingContext)}
  {
    StepOf(LOOK_AGAIN, 0);
    StepOf(LOOK_AGAIN, 1);
  }

  lemma RepairSteps(s: RunState, t: RunState)
    ensures NextTo(REPAIR, s, t) <==> (s, t) in {(Testing, AnalyzingFailure), (AnalyzingFailure, Revising),
                                                 (Revising, Testing)}
  {
    StepOf(REPAIR, 0);
    StepOf(REPAIR, 1);
    StepOf(REPAIR, 2);
  }

  /** The edges off the happy path. */
  predicate IsDetour(s: RunState, t: RunState) {
    (s, t) in {(Planning, WaitingForPlanReview), (WaitingForPlanReview, Planning), (WaitingForPlanReview, Implementing),
               (Testing, AnalyzingFailure), (AnalyzingFailure, Revising), (Revising, Testing),
               (Verifying, AnalyzingFailure), (AnalyzingFailure, RetrievingContext), (WaitingForApproval, Planning)}
  }

  lemma Detours(s: RunState, t: RunState)
    ensures OnADetour(s, t) <==> IsDetour(s, t)
  {
    ReviewSteps(s, t);
    TwoStates(s, t, WaitingForPlanReview, Implementing);
    RepairSteps(s, t);
    LateSteps(s, t);
    TwoStates(s, t, WaitingForApproval, Planning);
  }

  lemma HappyEdges(s: RunState, t: RunState)
    ensures HappyNext(s, t) ==> t in Transitions(s)
  {
  }

  lemma EarlyEdges(s: RunState, t: RunState)
    requires s in {Created, CloningRepository, AnalyzingIssue, ExploringRepository, IndexingRepository,
                   RetrievingContext, Planning}
    ensures t in Transitions(s) && !IsDetour(s, t) ==> HappyNext(s, t)
  {
  }

  lemma LateEdges(s: RunState, t: RunState)
    requires s in {Implementing, Testing, Verifying, WaitingForApproval, PrCreated}
    ensures t in Transitions(s) && !IsDetour(s, t) ==> HappyNext(s, t)
  {
  }

  lemma OtherEdges(s: RunState, t: RunState)
    ensures t in Transitions(s) && !IsDetour(s, t) ==> HappyNext(s, t)
  {
    if s in {Implementing, Testing, Verifying, WaitingForApproval, PrCreated} {
      LateEdges(s, t);
    } else if s !in {WaitingForPlanReview, AnalyzingFailure, Revising, Completed, Failed, Cancelled} {
      EarlyEdges(s, t);
    }
  }

  lemma DetourEdges(s: RunState, t: RunState)
    ensures IsDetour(s, t) ==> t in Transitions(s)
  {
  }

  lemma EdgesOnWalks(s: RunState, t: RunState)
    ensures t in Transitions(s) <==> OnSomeWalk(s, t)
  {
    Detours(s, t);
    HappySteps(s, t);
    HappyEdges(s, t);
    OtherEdges(s, t);
    DetourEdges(s, t);
  }

  /**
   The table is exactly its walks: an edge is legal if and only if it is a step of one of them, or
   fails or cancels a run that is not finished.
   */
  lemma LegalEdges(s: RunState, t: RunState)
    ensures CanTransition(s, t) <==>
            OnSomeWalk(s, t) || (t in {Failed, Cancelled} && s !in {Completed, Failed, Cancelled})
  {
    EdgesOnWalks(s, t);
  }

  // ------------------------------------------------------------------ runs that have been tested

  /** A legal walk of a run from its creation to a state. */
  ghost predicate LeadsTo(path: seq<RunState>, s: RunState) {
    path != [] && IsPath(path) && path[0] == Created && path[|path| - 1] == s
  }

  /** However a run gets to `s`, its changes have been made and tested before. */
  ghost predicate OnlyAfterTesting(s: RunState) {
    forall path :: LeadsTo(path, s) ==> Testing in path
  }

  /** The states a run can be in that was never tested. */
  predicate Untested(s: RunState) {
    s in {Created, CloningRepository, AnalyzingIssue, ExploringRepository, IndexingRepository, RetrievingContext,
          Planning, WaitingForPlanReview, Implementing, Failed, Cancelled}
  }

  lemma {:induction false} UntestedSoFar(path: seq<RunState>, i: nat)
    requires IsPath(path) && i < |path| && path[0] == Created && Testing !in path
    ensures Untested(path[i])
  {
    if i > 0 {
      UntestedSoFar(path, i - 1);
      assert CanTransition(path[i - 1], path[i]);
    }
  }

  lemma HappyPrefix(n: nat)
    requires 0 < n <= |HAPPY_PATH|
    ensures LeadsTo(HAPPY_PATH[..n], HAPPY_PATH[n - 1])
    ensures n <= 8 ==> Testing !in HAPPY_PATH[..n]
  {
    forall i | 0 <= i < n - 1 ensures CanTransition(HAPPY_PATH[..n][i], HAPPY_PATH[..n][i + 1]) {
      HappyPathIsLegal(i);
    }
  }

  /** Every untested state is reached by some walk that does not test. */
  lemma UntestedWalk(s: RunState) returns (path: seq<RunState>)
    requires Untested(s)
    ensures LeadsTo(path, s) && Testing !in path
  {
    var n := if s == WaitingForPlanReview then 7 else HappyIndex(s) + 1;
    HappyPrefix(n);
    path := HAPPY_PATH[..n];
    if s in {WaitingForPlanReview, Failed, Cancelled} {
      assert CanTransition(path[n - 1], s);
      path := path + [s];
    }
  }

  /** Exactly the other states are only reached after testing. */
  lemma TestedStates(s: RunState)
    ensures OnlyAfterTesting(s) <==> !Untested(s)
  {
    if Untested(s) {
      var path := UntestedWalk(s);
    } else {
      forall path | LeadsTo(path, s) ensures Testing in path {
        if Testing !in path {
          UntestedSoFar(path, |path| - 1);
        }
      }
    }
  }

  /** The states `Orchestrator._steps` has a step for. */
  predicate HasStep(s: RunState) {
    s in {Created, CloningRepository, AnalyzingIssue, ExploringRepository, IndexingRepository,
          RetrievingContext, Planning, Implementing, Testing, Verifying}
  }

  /** The state a completed step leaves the run in; it depends on the row only at PLANNING. */
  function StepTarget(s: RunState, requirePlanApproval: bool): RunState
    requires HasStep(s)
  {
    match s
    case Created => CloningRepository
    case CloningRepository => AnalyzingIssue
    case AnalyzingIssue => ExploringRepository
    case ExploringRepository => IndexingRepository
    case IndexingRepository => RetrievingContext
    case RetrievingContext => Planning
    case Planning => if requirePlanApproval then WaitingForPlanReview else Implementing
    case Implementing => Testing
    case Testing => Verifying
    case Verifying => WaitingForApproval
  }

  /** How many further steps one drive can still take: the variant of `advance`. */
  function Rank(s: RunState): nat {
    match s
    case Created => 10
    case CloningRepository => 9
    case AnalyzingIssue => 8
    case ExploringRepository => 7
    case IndexingRepository => 6
    case RetrievingContext => 5
    case Planning => 4
    case Implementing => 3
    case Testing => 2
    case Verifying => 1
    case _ => 0
  }

  /** Each step takes a legal edge and strictly lowers the rank, although the table has cycles. */
  lemma StepDescends(s: RunState, requirePlanApproval: bool)
    requires HasStep(s)
    ensures CanTransition(s, StepTarget(s, requirePlanApproval))
    ensures Rank(StepTarget(s, requirePlanApproval)) < Rank(s)
  {
  }

  /** Every state either has a step, or waits for nobody or a human, or is one no commit ever rests in. */
  lemma StepOrParked(s: RunState)
    ensures HasStep(s) <==> !Parked(s) && s !in {AnalyzingFailure, Revising, PrCreated}
    ensures Parked(s) <==> s in {WaitingForPlanReview, WaitingForApproval, Completed, Failed, Cancelled}
  {
  }

  /** The table itself does have a cycle, so the bound is a fact about the steps, not the table. */
  lemma TableHasACycle()
    ensures IsPath([Planning, Implementing, Testing, Verifying, WaitingForApproval, Planning])
  {
    var p := [Planning, Implementing, Testing, Verifying, WaitingForApproval, Planning];
    forall i | 0 <= i < |p| - 1 ensures CanTransition(p[i], p[i + 1]) {
      assert p[i] == if i == 0 then Planning else if i == 1 then Implementing
                     else if i == 2 then Testing else if i == 3 then Verifying
                     else WaitingForApproval;
    }
  }
}
