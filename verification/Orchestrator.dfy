/**
 The driver of backend/app/agent/orchestrator.py: `advance` takes one step per stored state, each
 in its own transaction, until the run is finished, waits for a human, or fails. What the world
 contributes to each step is arbitrary.
 */
module Orchestrator {
  import opened Basics
  import opened RunStates
  import opened TestEvidence
  import opened Store
  import opened Risk
  import opened Transactions
  import opened RunSession
  import opened Tools
  import opened AgentLoops
  import Editing
  import ChangeSet

  // ------------------------------------------------------------------ notes in a transaction

  lemma {:induction false} CoreAppends(a: seq<Op>, b: seq<Op>)
    ensures Core(a + b) == Core(a) + Core(b)
    decreases |a|
  {
    if a == [] {
      assert a + b == b;
    } else {
      assert (a + b)[1..] == a[1..] + b;
      CoreAppends(a[1..], b);
    }
  }

  lemma CoreSnoc(ops: seq<Op>, op: Op)
    ensures Core(ops + [op]) == if op.Append? then Core(ops) else Core(ops) + [op]
  {
    CoreAppends(ops, [op]);
    assert [op][1..] == [];
  }

  // ------------------------------------------------------------------ a step's surroundings and outcome

  /** What the world contributes to one turn of the driver's loop. */
  datatype Surroundings = Surroundings(
    timeLeft: bool,          // the wall-clock budget is not used up
    kept: bool,              // the run's checkout is still there
    clones: bool,            // cloning the repository and preparing its sandbox succeeds
    works: bool,             // the step's other work outside the database and the model succeeds
    found: bool,             // something is worth a note: code was retrieved, a test command exists
    notes: nat,              // timeline events the observer appends meanwhile
    rerun: Suite,            // what running the tests again would show
    committed: Tables)       // the committed rows the next transaction starts from

  /** Finished and ready to commit; stopped with the session usable; or stopped by a refused insert. */
  datatype End = Finished | Aborted | Broken

  const CALLS_TO_ANALYSE := 3
  const CALLS_TO_PLAN := 15
  const CALLS_TO_VERIFY := 8

  /** 12 for each attempt and 3 for each failure analysed between two of them. */
  function CallsToImplement(maxIterations: nat): nat {
    if maxIterations == 0 then 0 else 15 * maxIterations - 3
  }

  /** The model calls a drive may still make: each kind of work is ahead of it or behind. */
  function CallsAhead(state: RunState, analysed: bool, maxIterations: nat): nat {
    (if analysed then 0 else CALLS_TO_ANALYSE)
    + (if Rank(state) >= Rank(RetrievingContext) then CALLS_TO_PLAN else 0)
    + (if Rank(state) >= Rank(Implementing) then CallsToImplement(maxIterations) else 0)
    + (if Rank(state) >= Rank(Testing) then CALLS_TO_VERIFY else 0)
  }

  /** The budget of a whole drive is exactly what its loops may use: nothing is counted twice and nothing left out. */
  lemma CallBudget(n: nat)
    requires n >= 1
    ensures CALLS_TO_ANALYSE == 3
    ensures CALLS_TO_PLAN == DEFAULT_LIMITS.maxSteps + 3 && CALLS_TO_VERIFY == VERIFY_LIMITS.maxSteps + 3
    ensures CallsToImplement(n) == DEFAULT_LIMITS.maxSteps * n + 3 * (n - 1)
    ensures CallsAhead(Created, false, n) == 15 * n + 23
  {
  }

  lemma EarlyCalls(state: RunState, analysed: bool, maxIterations: nat)
    requires Rank(state) >= Rank(RetrievingContext)
    ensures CallsAhead(state, analysed, maxIterations)
            == (if analysed then 0 else CALLS_TO_ANALYSE)
               + CALLS_TO_PLAN + CallsToImplement(maxIterations) + CALLS_TO_VERIFY
  {
  }

  lemma LastCalls(analysed: bool, maxIterations: nat)
    ensures CallsAhead(Implementing, analysed, maxIterations)
            == CallsAhead(Testing, analysed, maxIterations) + CallsToImplement(maxIterations)
    ensures CallsAhead(Testing, analysed, maxIterations)
            == CallsAhead(Verifying, analysed, maxIterations) + CALLS_TO_VERIFY
    ensures CallsAhead(Verifying, analysed, maxIterations) == if analysed then 0 else CALLS_TO_ANALYSE
  {
  }

  /** One committed transaction of a drive: what it was, from which copy and rows, and its writes. */
  datatype Commitment = Commitment(request: Request, copy: RunRow, db: Tables, ops: seq<Op>)

  /** It makes exactly the writes the protocol allows this request, and they go through. */
  ghost predicate Allowed(search: Matcher, c: Commitment) {
    && Writes(search, c.request, c.copy, c.db, c.db) == Some(Core(c.ops))
    && Commit(c.copy, c.db, c.ops).Ok?
  }

  /** The row copy a committed transaction leaves to the next one. */
  ghost predicate LeavesCopy(c: Commitment, copy: RunRow) {
    Exec(Tx(c.copy, c.db), c.ops).Ok? && copy == Exec(Tx(c.copy, c.db), c.ops).value.copy
  }

  /** Committed steps in a row, from one copy of the run row to another. */
  ghost predicate DriveLog(search: Matcher, log: seq<Commitment>, first: RunRow, last: RunRow) {
    if log == [] then first == last
    else
      var c := log[|log| - 1];
      && c.request.StepDone? && Allowed(search, c) && LeavesCopy(c, last)
      && DriveLog(search, log[..|log| - 1], first, c.copy)
  }

  lemma DriveLogGrows(search: Matcher, log: seq<Commitment>, first: RunRow, c: Commitment, last: RunRow)
    requires DriveLog(search, log, first, c.copy) && c.request.StepDone? && Allowed(search, c) && LeavesCopy(c, last)
    ensures DriveLog(search, log + [c], first, last)
  {
  }

  // ------------------------------------------------------------------ the driver

  /** Outcomes that some test run, or none, produced. */
  ghost predicate Evident(outcomes: seq<TestOutcome>) {
    exists suite: Suite :: outcomes == suite.Outcomes()
  }

  /** What running the tests showed: in an attempt of the repair loop, or again in some turn of the drive. */
  ghost predicate Ran(outcomes: seq<TestOutcome>, tests: TestRuns, e: nat -> Surroundings) {
    (exists n: nat :: outcomes == tests(n).Outcomes()) || (exists n: nat :: outcomes == e(n).rerun.Outcomes())
  }

  /** A commit that waits for a human names test outcomes that all passed and that this drive saw. */
  ghost predicate Witnessed(c: Commitment, tests: TestRuns, e: nat -> Surroundings) {
    c.request.StepDone? && c.copy.state == Verifying ==>
      AllPassed(c.request.work.suite.Outcomes()) && Ran(c.request.work.suite.Outcomes(), tests, e)
  }

  ghost predicate AllWitnessed(log: seq<Commitment>, tests: TestRuns, e: nat -> Surroundings) {
    forall i :: 0 <= i < |log| ==> Witnessed(log[i], tests, e)
  }

  lemma WitnessedGrows(log: seq<Commitment>, c: Commitment, tests: TestRuns, e: nat -> Surroundings)
    requires AllWitnessed(log, tests, e) && Witnessed(c, tests, e)
    ensures AllWitnessed(log + [c], tests, e)
  {
  }

  /** The states in which the checkout holds edits that no clone brings back. */
  predicate HasEdits(s: RunState) {
    s in {Testing, AnalyzingFailure, Revising, Verifying, WaitingForApproval}
  }

  /** The states whose steps work from the plan, or lead to one that does. */
  predicate NeedsPlan(s: RunState) {
    s in {Planning, Implementing, Testing, Verifying}
  }

  /** They are the states a run only reaches after it has been tested, up to its pull request. */
  lemma EditsNeedTesting(s: RunState)
    ensures HasEdits(s) <==> OnlyAfterTesting(s) && s !in {PrCreated, Completed}
  {
    TestedStates(s);
  }

  /** The writes of a step begun on `row` that has finished, or been aborted after `done` of them. */
  predicate Fits(end: End, search: Matcher, row: RunRow, work: Work, done: nat, written: seq<Op>, now: RunRow) {
    && now.requirePlanApproval == row.requirePlanApproval
    && if end == Finished then
         && StepCompletes(row, work) && written == StepWrites(search, row, work)
         && now.state == StepTarget(row.state, row.requirePlanApproval)
       else
         && AbortPoint(search, row, work, done) && written == StepWrites(search, row, work)[..done]
         && !IsTerminal(now.state)
  }

  /** The ways a step can end whose first write is its transition. */
  lemma EnteringFits(search: Matcher, row: RunRow, work: Work, now: RunRow)
    requires HasStep(row.state) && row.state != Verifying && now.requirePlanApproval == row.requirePlanApproval
    requires now.state == StepTarget(row.state, row.requirePlanApproval)
    ensures Fits(Aborted, search, row, work, 1, [Transition(now.state)], now)
    ensures row.state == RetrievingContext ==>
              Fits(Finished, search, row, work, 1, [Transition(now.state), Op.StorePlan], now)
    ensures row.state == Testing && work.filesChanged > 0 ==>
              Fits(Finished, search, row, work, 1, [Transition(now.state), Op.StoreDiff(MakeDiff(search, work))], now)
    ensures row.state != RetrievingContext && row.state != Testing ==>
              Fits(Finished, search, row, work, 1, [Transition(now.state)], now)
  {
  }

  /** A step that has written nothing may always be aborted. */
  lemma UntouchedFits(search: Matcher, row: RunRow, work: Work, now: RunRow)
    requires now.requirePlanApproval == row.requirePlanApproval && !IsTerminal(now.state)
    ensures Fits(Aborted, search, row, work, 0, [], now)
  {
  }

  lemma WaitingFits(search: Matcher, row: RunRow, work: Work, now: RunRow)
    requires row.state == Verifying && now.requirePlanApproval == row.requirePlanApproval
             && now.state == WaitingForApproval
    requires AllPassed(work.suite.Outcomes())
    ensures Fits(Finished, search, row, work, 0, [Witness(work.suite.Outcomes()), Transition(WaitingForApproval)], now)
  {
  }

  const NO_TESTS := Suite(OtherFramework, None, None)

  /** The work of a step that stores no diff. */
  function NoDiff(suite: Suite): Work {
    Work("", 0, suite)
  }

  /** How a change set is written out as one diff text. */
  type Renderer = seq<ChangeSet.FileDiff> -> string

  /** The diff is that of the change between two workspaces, file by file. */
  ghost predicate ShowsChange(render: Renderer, start: Editing.Files, files: Editing.Files, work: Work) {
    exists diffs ::
      ChangeSet.Exact(start, files, diffs) && work.diffText == render(diffs) && work.filesChanged == |diffs|
  }

  ghost predicate SameTexts(start: Editing.Files, files: Editing.Files) {
    forall p :: Editing.TextAt(start, p) == Editing.TextAt(files, p)
  }

  ghost predicate StoresChange(render: Renderer, start: Editing.Files, files: Editing.Files, c: Commitment) {
    c.request.StepDone? && c.copy.state == Testing ==> ShowsChange(render, start, files, c.request.work)
  }

  /** Every diff a drive has stored is that of the change from the starting workspace to these files. */
  ghost predicate AllShow(render: Renderer, start: Editing.Files, files: Editing.Files, log: seq<Commitment>) {
    forall i :: 0 <= i < |log| ==> StoresChange(render, start, files, log[i])
  }

  /** Diffs are stored only once the implementing is over. */
  ghost predicate StoresNone(log: seq<Commitment>) {
    forall i :: 0 <= i < |log| ==> log[i].copy.state != Testing
  }

  /**
   At each state of a drive: what was stored is still right, and nothing was stored before the implementing
   is over.
   */
  ghost predicate ShowsSoFar(render: Renderer, start: Editing.Files, files: Editing.Files, log: seq<Commitment>,
                             state: RunState)
  {
    AllShow(render, start, files, log) && (Rank(state) >= Rank(Testing) ==> StoresNone(log))
  }

  lemma ShowsStill(render: Renderer, start: Editing.Files, files: Editing.Files, files': Editing.Files,
                   log: seq<Commitment>, state: RunState)
    requires ShowsSoFar(render, start, files, log, state) && (state != Implementing ==> files' == files)
    ensures AllShow(render, start, files', log)
  {
    if state == Implementing {
      forall i | 0 <= i < |log| ensures StoresChange(render, start, files', log[i]) {
        assert log[i].copy.state != Testing;
      }
    }
  }

  lemma ShowsOneMore(render: Renderer, start: Editing.Files, files: Editing.Files, log: seq<Commitment>, c: Commitment,
                     state: RunState, next: RunState)
    requires AllShow(render, start, files, log) && StoresChange(render, start, files, c)
    requires (Rank(state) >= Rank(Testing) ==> StoresNone(log)) && c.copy.state == state && Rank(next) < Rank(state)
    ensures ShowsSoFar(render, start, files, log + [c], next)
  {
    forall i | 0 <= i < |log + [c]| ensures StoresChange(render, start, files, (log + [c])[i]) {
      if i < |log| {
        assert StoresChange(render, start, files, log[i]);
      }
    }
  }

  class Driver {
    const session: Session
    const model: LanguageModel
    const registry: ToolRegistry
    const context: ToolContext
    const search: Matcher
    const tests: TestRuns
    const render: Renderer
    const maxIterations: nat

    // RunScratch: what one execution remembers between its steps
    var checkedOut: bool
    var mapped: bool
    var analysed: bool
    var retrievalAttempted: bool
    var planned: bool
    var repair: Option<RepairResult>
    var outcomes: seq<TestOutcome>

    constructor (session: Session, model: LanguageModel, registry: ToolRegistry, context: ToolContext,
                 search: Matcher, tests: TestRuns, render: Renderer, maxIterations: nat)
      ensures this.session == session && this.model == model && this.registry == registry && this.context == context
      ensures this.search == search && this.tests == tests && this.maxIterations == maxIterations
      ensures this.render == render
      ensures !analysed && outcomes == [] && repair.None? && ScratchOk()
    {
      this.session, this.model, this.registry, this.context := session, model, registry, context;
      this.search, this.tests, this.render, this.maxIterations := search, tests, render, maxIterations;
      checkedOut, mapped, analysed, retrievalAttempted, planned := false, false, false, false, false;
      repair, outcomes := None, [];
      new;
      assert NO_TESTS.Outcomes() == [];
    }

    ghost predicate ScratchOk()
      reads this
    {
      Evident(outcomes) && (repair.Some? ==> RepairOk(tests, maxIterations, repair.value))
    }

    /** The open transaction can go on, and has made these writes besides notes. */
    ghost predicate Open(written: seq<Op>)
      reads session
    {
      session.Valid() && !session.broken && Core(session.ops) == written
    }

    /** A transaction has begun, and nothing but notes is written yet. */
    ghost predicate SessionAt(state: RunState)
      reads session
    {
      && Open([])
      && session.run.state == session.base.copy.state == state
      && session.run.requirePlanApproval == session.base.copy.requirePlanApproval
    }

    ghost predicate ToolsOk()
      reads registry, context, context.workspace
    {
      registry.Valid() && context.Valid()
    }

    ghost predicate AtStep(state: RunState)
      reads this, session, registry, context, context.workspace
    {
      SessionAt(state) && ScratchOk() && ToolsOk()
    }

    /** How a step may leave the transaction it began in. */
    ghost predicate Ended(end: End, work: Work, done: nat)
      reads this, session
    {
      && (end == Broken ==> session.broken)
      && (end != Broken ==>
            && session.Valid() && !session.broken
            && Fits(end, search, session.base.copy, work, done, Core(session.ops), session.run))
    }

    // ---------------------------------------------------------------- writing

    method Enter(target: RunState) returns (ok: bool)
      requires session.Valid() && !session.broken && CanTransition(session.run.state, target)
      modifies session
      ensures session.base == old(session.base)
      ensures ok ==> Open(old(Core(session.ops)) + [Transition(target)])
      ensures ok ==> session.run.state == target
      ensures ok ==> session.run.requirePlanApproval == old(session.run.requirePlanApproval)
      ensures !ok ==> session.broken
    {
      CoreSnoc(session.ops, Transition(target));
      var status := session.Transition(target);
      ok := status.Done?;
    }

    method Note(note: NoteKind) returns (ok: bool)
      requires session.Valid() && !session.broken
      modifies session
      ensures session.base == old(session.base)
      ensures ok ==> Open(old(Core(session.ops)))
      ensures ok ==> session.run.state == old(session.run.state)
      ensures ok ==> session.run.requirePlanApproval == old(session.run.requirePlanApproval)
      ensures !ok ==> session.broken
    {
      CoreSnoc(session.ops, Append(note));
      var status := session.AppendEvent(note);
      ok := status.Done?;
    }

    /** The events an observer appends while a component works. */
    method Observe(count: nat) returns (ok: bool)
      requires session.Valid() && !session.broken
      modifies session
      ensures session.base == old(session.base)
      ensures ok ==> Open(old(Core(session.ops)))
      ensures ok ==> session.run.state == old(session.run.state)
      ensures ok ==> session.run.requirePlanApproval == old(session.run.requirePlanApproval)
      ensures !ok ==> session.broken
    {
      for i := 0 to count
        invariant session.base == old(session.base) && Open(old(Core(session.ops)))
        invariant session.run.state == old(session.run.state)
        invariant session.run.requirePlanApproval == old(session.run.requirePlanApproval)
      {
        ok := Note(ToolCalled);
        if !ok {
          return;
        }
      }
      ok := true;
    }

    method SavePlan()
      requires session.Valid() && !session.broken
      modifies session
      ensures session.base == old(session.base) && session.run == old(session.run)
      ensures Open(old(Core(session.ops)) + [Op.StorePlan])
    {
      CoreSnoc(session.ops, Op.StorePlan);
      session.StorePlan();
    }

    method SaveDiff(diff: Diff)
      requires session.Valid() && !session.broken
      modifies session
      ensures session.base == old(session.base) && session.run == old(session.run)
      ensures Open(old(Core(session.ops)) + [Op.StoreDiff(diff)])
    {
      CoreSnoc(session.ops, Op.StoreDiff(diff));
      session.StoreDiff(diff);
    }

    // ---------------------------------------------------------------- what the steps share

    /** Part of a step that writes only notes: the transaction is where it was, or broken. */
    twostate predicate Noted(end: End)
      reads session
    {
      && session.base == old(session.base)
      && (end == Broken ==> session.broken)
      && (end != Broken ==>
            && Open(old(Core(session.ops)))
            && session.run.state == old(session.run.state)
            && session.run.requirePlanApproval == old(session.run.requirePlanApproval))
    }

    /** The last of the calls made since there were `before` of them gave no usable answer. */
    ghost predicate Unanswered(before: nat)
      reads model
    {
      model.calls > before && model.LastAnswer().None?
    }

    /** `_ensure_analysis`: re-derived only if this execution does not have it. */
    method EnsureAnalysis() returns (ok: bool)
      modifies this`analysed, model
      ensures old(analysed) ==> ok && model.calls == old(model.calls)
      ensures ok ==> analysed
      ensures old(model.calls) <= model.calls <= old(model.calls) + CALLS_TO_ANALYSE
      ensures old(analysed) ==> analysed
      ensures !old(analysed) && ok ==> model.LastAnswer().Some?
      ensures !ok ==> Unanswered(old(model.calls))
    {
      if analysed {
        return true;
      }
      var analysis := GenerateStructured(model);
      ok := analysis.Value?;
      analysed := ok;
    }

    /** The evidence for the change as it is: the last attempt's, else what running the tests again shows. */
    ghost function EvidenceAtHand(rerun: Suite): seq<TestOutcome>
      reads this
    {
      if repair.Some? && repair.value.attempts != [] then repair.value.attempts[|repair.value.attempts| - 1].outcomes
      else if !mapped then []
      else rerun.Outcomes()
    }

    /** What `_await_approval` looks at: what TESTING left in memory, if anything. */
    ghost function EvidenceToShow(rerun: Suite): seq<TestOutcome>
      reads this
    {
      if outcomes != [] then outcomes else EvidenceAtHand(rerun)
    }

    /** `_outcomes`: the last attempt's evidence, or a fresh test run when there was no attempt. */
    method CurrentOutcomes(rerun: Suite) returns (evidence: seq<TestOutcome>)
      requires ScratchOk()
      ensures Evident(evidence) && evidence == EvidenceAtHand(rerun)
    {
      if repair.Some? && repair.value.attempts != [] {
        var n := |repair.value.attempts| - 1;
        evidence := repair.value.attempts[n].outcomes;
        assert NO_TESTS.Outcomes() == [];
        assert evidence == if repair.value.stoppedBecause == ToolBudgetExhausted then [] else tests(n).Outcomes();
        return;
      }
      if !mapped {
        assert NO_TESTS.Outcomes() == [];
        return [];
      }
      evidence := RunTests(rerun);
    }

    // ---------------------------------------------------------------- the steps

    /** CREATED: clone the repository. */
    method Clone(e: Surroundings) returns (end: End, ghost work: Work, ghost done: nat)
      requires SessionAt(Created)
      modifies this`checkedOut, session
      ensures session.base == old(session.base) && Ended(end, work, done) && analysed == old(analysed)
      ensures end == Finished ==> e.clones && checkedOut
      ensures end == Aborted ==> !e.clones
    {
      work, done := NoDiff(e.rerun), 1;
      var ok := Enter(CloningRepository);
      if !ok {
        return Broken, work, done;
      }
      EnteringFits(search, session.base.copy, work, session.run);
      if !e.clones {
        return Aborted, work, done;
      }
      checkedOut := true;
      ok := Note(Info);
      end := if ok then Finished else Broken;
    }

    /** The model's analysis of the issue, kept if it calls the issue actionable. */
    method JudgeIssue() returns (actionable: bool)
      modifies this`analysed, model
      ensures actionable ==> analysed
      ensures actionable <==> model.LastAnswer() == Some(true)
      ensures old(model.calls) < model.calls <= old(model.calls) + CALLS_TO_ANALYSE
      ensures !actionable ==> analysed == old(analysed)
    {
      var analysis := GenerateStructured(model);
      actionable := analysis.Value? && analysis.value;
      analysed := analysed || actionable;
    }

    /** CLONING_REPOSITORY: analyse the issue; one that is not actionable stops the run. */
    method AnalyseIssue(e: Surroundings) returns (end: End, ghost work: Work, ghost done: nat)
      requires SessionAt(CloningRepository)
      modifies this`analysed, session, model
      ensures session.base == old(session.base) && Ended(end, work, done)
      ensures old(model.calls) <= model.calls <= old(model.calls) + CALLS_TO_ANALYSE
      ensures end == Finished ==> analysed && e.works && model.LastAnswer() == Some(true)
      ensures end == Aborted ==> !e.works || (model.calls > old(model.calls) && model.LastAnswer() != Some(true))
    {
      work, done := NoDiff(e.rerun), 1;
      var ok := Enter(AnalyzingIssue);
      if !ok {
        return Broken, work, done;
      }
      EnteringFits(search, session.base.copy, work, session.run);
      if !e.works {
        return Aborted, work, done;
      }
      ok := JudgeIssue();
      if !ok {
        return Aborted, work, done;
      }
      ok := Note(Info);
      end := if ok then Finished else Broken;
    }

    /** ANALYZING_ISSUE: map the repository. */
    method Explore(e: Surroundings) returns (end: End, ghost work: Work, ghost done: nat)
      requires SessionAt(AnalyzingIssue)
      modifies this`mapped, session
      ensures session.base == old(session.base) && Ended(end, work, done) && analysed == old(analysed)
      ensures end == Finished ==> checkedOut && e.works && mapped
      ensures end == Aborted ==> !checkedOut || !e.works
    {
      work, done := NoDiff(e.rerun), 1;
      var ok := Enter(ExploringRepository);
      if !ok {
        return Broken, work, done;
      }
      EnteringFits(search, session.base.copy, work, session.run);
      if !checkedOut || !e.works {
        return Aborted, work, done;
      }
      mapped := true;
      if !e.found {
        ok := Note(Warning);
        if !ok {
          return Broken, work, done;
        }
      }
      ok := Note(Info);
      end := if ok then Finished else Broken;
    }

    /** EXPLORING_REPOSITORY: index the checkout, or reuse the commit's index. */
    method Index(e: Surroundings) returns (end: End, ghost work: Work, ghost done: nat)
      requires SessionAt(ExploringRepository)
      modifies session
      ensures session.base == old(session.base) && Ended(end, work, done) && analysed == old(analysed)
      ensures end == Finished ==> e.works && checkedOut
      ensures end == Aborted ==> !checkedOut || !e.works
    {
      work, done := NoDiff(e.rerun), 1;
      var ok := Enter(IndexingRepository);
      if !ok {
        return Broken, work, done;
      }
      EnteringFits(search, session.base.copy, work, session.run);
      if !checkedOut || !e.works {
        return Aborted, work, done;
      }
      ok := Note(Info);
      end := if ok then Finished else Broken;
    }

    /** INDEXING_REPOSITORY: retrieve code for the analysed queries. */
    method Retrieve(e: Surroundings) returns (end: End, ghost work: Work, ghost done: nat)
      requires SessionAt(IndexingRepository)
      modifies this`analysed, this`retrievalAttempted, session, model
      ensures session.base == old(session.base) && Ended(end, work, done) && (old(analysed) ==> analysed)
      ensures old(model.calls) <= model.calls <= old(model.calls) + (if old(analysed) then 0 else CALLS_TO_ANALYSE)
      ensures end == Finished ==> analysed && e.works && retrievalAttempted
      ensures end == Aborted ==> !e.works || Unanswered(old(model.calls))
    {
      work, done := NoDiff(e.rerun), 1;
      var ok := Enter(RetrievingContext);
      if !ok {
        return Broken, work, done;
      }
      EnteringFits(search, session.base.copy, work, session.run);
      ok := EnsureAnalysis();
      if !ok || !e.works {
        return Aborted, work, done;
      }
      retrievalAttempted := true;
      if !e.found {
        ok := Note(Warning);
        if !ok {
          return Broken, work, done;
        }
      }
      ok := Note(Retrieval);
      end := if ok then Finished else Broken;
    }

    /** RETRIEVING_CONTEXT: investigate read-only, then store a plan. */
    method Plan(e: Surroundings) returns (end: End, ghost work: Work, ghost done: nat)
      requires SessionAt(RetrievingContext) && ToolsOk()
      modifies this`analysed, this`planned, session, model, context, context.workspace
      ensures session.base == old(session.base) && Ended(end, work, done) && ToolsOk() && (old(analysed) ==> analysed)
      ensures old(model.calls) <= model.calls
              <= old(model.calls) + (if old(analysed) then 0 else CALLS_TO_ANALYSE) + CALLS_TO_PLAN
      ensures end == Finished ==> analysed && planned && checkedOut && model.LastAnswer().Some?
      ensures end == Aborted ==> !checkedOut || Unanswered(old(model.calls))
      ensures context.workspace.View() == old(context.workspace.View())
    {
      work, done := NoDiff(e.rerun), 1;
      var ok := Enter(Planning);
      if !ok {
        return Broken, work, done;
      }
      EnteringFits(search, session.base.copy, work, session.run);
      end := DraftPlan(e);
      if end != Finished {
        return end, work, done;
      }
      planned := true;
      SavePlan();
      ok := Note(Info);
      end := if ok then Finished else Broken;
    }

    /** The model's part of planning: it reads, it does not write. */
    method DraftPlan(e: Surroundings) returns (end: End)
      requires session.Valid() && !session.broken && ToolsOk()
      modifies this`analysed, session, model, context, context.workspace
      ensures ToolsOk() && Noted(end) && (old(analysed) ==> analysed)
      ensures old(model.calls) <= model.calls
              <= old(model.calls) + (if old(analysed) then 0 else CALLS_TO_ANALYSE) + CALLS_TO_PLAN
      ensures end == Finished ==> analysed && checkedOut && model.LastAnswer().Some?
      ensures end == Aborted ==> !checkedOut || Unanswered(old(model.calls))
      ensures context.workspace.View() == old(context.workspace.View())
    {
      var ok := EnsureAnalysis();
      if !ok || !checkedOut {
        return Aborted;
      }
      var plan := Investigate(model, registry, context, DEFAULT_LIMITS);
      ok := Observe(e.notes);
      end := if !ok then Broken else if plan.Raised? then Aborted else Finished;
    }

    /** PLANNING: park for plan review, or go straight on. */
    method AfterPlan(e: Surroundings) returns (end: End, ghost work: Work, ghost done: nat)
      requires SessionAt(Planning)
      modifies session
      ensures session.base == old(session.base) && Ended(end, work, done)
      ensures end != Aborted
    {
      work, done := NoDiff(e.rerun), 0;
      var ok := Enter(if session.run.requirePlanApproval then WaitingForPlanReview else Implementing);
      if ok {
        EnteringFits(search, session.base.copy, work, session.run);
      }
      end := if ok then Finished else Broken;
    }

    /** IMPLEMENTING: apply the changes and repair until the tests pass or a bound is reached. */
    method Implement(e: Surroundings) returns (end: End, ghost work: Work, ghost done: nat)
      requires AtStep(Implementing) && repair.None?
      modifies this`analysed, this`retrievalAttempted, this`repair, session, model, context, context.workspace
      ensures session.base == old(session.base) && Ended(end, work, done) && ToolsOk() && ScratchOk()
              && (old(analysed) ==> analysed)
      ensures old(model.calls) <= model.calls <=
              old(model.calls) + (if old(analysed) then 0 else CALLS_TO_ANALYSE) + CallsToImplement(maxIterations)
      ensures end == Finished && !analysed ==> model.calls <= old(model.calls) + CallsToImplement(maxIterations)
      ensures end == Finished ==> planned && mapped && checkedOut && retrievalAttempted
      ensures end == Aborted ==> !planned || !mapped || !checkedOut || !e.works || Unanswered(old(model.calls))
      ensures end == Finished ==> repair.Some? && model.calls - old(model.calls) >= |repair.value.attempts|
    {
      work, done := NoDiff(e.rerun), 0;
      UntouchedFits(search, session.base.copy, work, session.run);
      if !planned || !mapped {
        return Aborted, work, done;
      }
      end := MakeChange(e);
      if end != Finished {
        return end, work, done;
      }
      var ok := Enter(Testing);
      if ok {
        EnteringFits(search, session.base.copy, work, session.run);
      }
      end := if ok then Finished else Broken;
    }

    /** The step's work outside the database. */
    method MakeChange(e: Surroundings) returns (end: End)
      requires session.Valid() && !session.broken && ToolsOk() && ScratchOk() && repair.None?
      modifies this`analysed, this`retrievalAttempted, this`repair, session, model, context, context.workspace
      ensures ToolsOk() && ScratchOk() && Noted(end) && (old(analysed) ==> analysed)
      ensures old(model.calls) <= model.calls <=
              old(model.calls) + (if old(analysed) then 0 else CALLS_TO_ANALYSE) + CallsToImplement(maxIterations)
      ensures end == Finished && !analysed ==> model.calls <= old(model.calls) + CallsToImplement(maxIterations)
      ensures end == Finished ==> checkedOut && retrievalAttempted
      ensures end == Aborted ==> !checkedOut || !e.works || Unanswered(old(model.calls))
      ensures end == Finished ==> repair.Some? && model.calls - old(model.calls) >= |repair.value.attempts|
    {
      var ready := GatherContext(e);
      if !ready {
        return Aborted;
      }
      end := Repair(e);
    }

    /** A resumed run retrieves once before it implements. */
    method GatherContext(e: Surroundings) returns (ready: bool)
      modifies this`analysed, this`retrievalAttempted, model
      ensures old(analysed) ==> analysed
      ensures old(model.calls) <= model.calls <= old(model.calls) + (if old(analysed) then 0 else CALLS_TO_ANALYSE)
      ensures ready && !analysed ==> model.calls == old(model.calls)
      ensures ready ==> checkedOut && retrievalAttempted && (old(retrievalAttempted) || e.works)
      ensures !ready ==> !checkedOut || (!old(retrievalAttempted) && !e.works) || Unanswered(old(model.calls))
    {
      if !retrievalAttempted {
        ready := EnsureAnalysis();
        if !ready || !e.works {
          return false;
        }
        retrievalAttempted := true;
      }
      ready := checkedOut;
    }

    method Repair(e: Surroundings) returns (end: End)
      requires session.Valid() && !session.broken && ToolsOk() && ScratchOk()
      modifies this`repair, session, model, context, context.workspace
      ensures ToolsOk() && ScratchOk() && Noted(end)
      ensures old(model.calls) <= model.calls <= old(model.calls) + CallsToImplement(maxIterations)
      ensures end == Finished ==> repair.Some? && model.calls - old(model.calls) >= |repair.value.attempts|
      ensures end == Aborted ==> Unanswered(old(model.calls))
    {
      var result := ImplementAndRepair(model, registry, context, tests, maxIterations);
      var ok := Observe(e.notes);
      if !ok {
        return Broken;
      }
      if result.Raised? {
        return Aborted;
      }
      repair := Some(result.value);
      end := Finished;
    }

    /** The change set of the run: every path whose text is not what it was at the start. */
    method Changes() returns (diffs: seq<ChangeSet.FileDiff>)
      requires context.Valid()
      ensures ChangeSet.Exact(context.workspace.start, context.workspace.files, diffs)
      ensures diffs == [] ==> SameTexts(context.workspace.start, context.workspace.files)
    {
      diffs := ChangeSet.BuildChangeSet(context.workspace.files, context.workspace.changes);
      ChangeSet.LogMakesItExact(context.workspace.start, context.workspace.View(), diffs);
    }

    /** TESTING: verify the change, store its diff; a failed self-check is only a warning. */
    method Assess(e: Surroundings) returns (end: End, ghost work: Work, ghost done: nat)
      requires AtStep(Testing)
      modifies this`outcomes, session, model, context, context.workspace
      ensures session.base == old(session.base) && Ended(end, work, done) && ToolsOk() && ScratchOk()
              && analysed == old(analysed)
      ensures old(model.calls) <= model.calls <= old(model.calls) + CALLS_TO_VERIFY
      ensures context.workspace.View() == old(context.workspace.View())
      ensures end == Finished ==> ShowsChange(render, context.workspace.start, context.workspace.files, work)
      ensures end == Aborted ==> !planned || !checkedOut || SameTexts(context.workspace.start, context.workspace.files)
      ensures outcomes == old(outcomes) || outcomes == EvidenceAtHand(e.rerun)
      ensures end == Finished ==> outcomes == EvidenceAtHand(e.rerun)
      ensures !AllPassed(EvidenceAtHand(e.rerun)) ==> model.calls == old(model.calls)
      ensures end == Finished && AllPassed(outcomes) ==> model.calls > old(model.calls)
    {
      var diffs := Changes();
      work, done := Work(render(diffs), |diffs|, e.rerun), 1;
      var ok := Enter(Verifying);
      if !ok {
        return Broken, work, done;
      }
      EnteringFits(search, session.base.copy, work, session.run);
      if !planned || !checkedOut || diffs == [] {
        return Aborted, work, done;
      }
      end := GatherEvidence(e);
      if end == Finished {
        ok := StoreAssessment(MakeDiff(search, Work(render(diffs), |diffs|, e.rerun)));
        end := if ok then Finished else Broken;
      }
    }

    /** The diff, and the note that sums it up. */
    method StoreAssessment(diff: Diff) returns (ok: bool)
      requires session.Valid() && !session.broken
      modifies session
      ensures session.base == old(session.base)
      ensures ok ==> Open(old(Core(session.ops)) + [Op.StoreDiff(diff)])
      ensures ok ==> session.run.state == old(session.run.state)
      ensures ok ==> session.run.requirePlanApproval == old(session.run.requirePlanApproval)
      ensures !ok ==> session.broken
    {
      SaveDiff(diff);
      ok := Note(Info);
    }

    /** The test evidence, and the self-check that follows only when it passed. */
    method GatherEvidence(e: Surroundings) returns (end: End)
      requires session.Valid() && !session.broken && ToolsOk() && ScratchOk()
      modifies this`outcomes, session, model, context, context.workspace
      ensures ToolsOk() && ScratchOk() && Noted(end) && end != Aborted
      ensures old(model.calls) <= model.calls <= old(model.calls) + CALLS_TO_VERIFY
      ensures outcomes == EvidenceAtHand(e.rerun)
      ensures AllPassed(outcomes) <==> model.calls > old(model.calls)
      ensures context.workspace.View() == old(context.workspace.View())
    {
      outcomes := CurrentOutcomes(e.rerun);
      if !AllPassed(outcomes) {
        return Finished;
      }
      end := SelfCheck(e);
    }

    /** `repair.verify`, whose failure must not discard a working change. */
    method SelfCheck(e: Surroundings) returns (end: End)
      requires session.Valid() && !session.broken && ToolsOk()
      modifies session, model, context, context.workspace
      ensures ToolsOk() && Noted(end) && end != Aborted
      ensures old(model.calls) < model.calls <= old(model.calls) + CALLS_TO_VERIFY
      ensures context.workspace.View() == old(context.workspace.View())
    {
      var verification := Investigate(model, registry, context, VERIFY_LIMITS);
      var ok := Observe(e.notes);
      if ok && verification.Raised? {
        ok := Note(Warning);
      }
      end := if ok then Finished else Broken;
    }

    /** VERIFYING: wait for a human, but only with test evidence that passed. */
    method AwaitApproval(e: Surroundings) returns (end: End, ghost work: Work, ghost done: nat)
      requires SessionAt(Verifying) && ScratchOk()
      modifies session
      ensures session.base == old(session.base) && Ended(end, work, done) && analysed == old(analysed)
      ensures end == Finished ==> work.suite.Outcomes() == EvidenceToShow(e.rerun)
      ensures !AllPassed(EvidenceToShow(e.rerun)) <==> end == Aborted
      ensures end == Aborted ==> done == 0
    {
      done := 0;
      var evidence := outcomes;
      if evidence == [] {
        evidence := CurrentOutcomes(e.rerun);
      }
      ghost var suite: Suite :| evidence == suite.Outcomes();
      work := NoDiff(suite);
      UntouchedFits(search, session.base.copy, work, session.run);
      if !AllPassed(evidence) {
        return Aborted, work, done;
      }
      CoreSnoc(session.ops, Witness(evidence));
      session.WitnessOutcomes(evidence);
      var ok := Enter(WaitingForApproval);
      if ok {
        WaitingFits(search, session.base.copy, work, session.run);
      }
      end := if ok then Finished else Broken;
    }

    // ---------------------------------------------------------------- the loop

    /** Analysing happens no earlier than its own step, so it is paid for once; so does implementing. */
    ghost predicate OnTrack(state: RunState)
      reads this
    {
      && (analysed ==> Rank(state) <= Rank(AnalyzingIssue))
      && (repair.Some? ==> Rank(state) < Rank(Implementing))
    }

    /** The evidence in memory is what it was or what is at hand; and that is what a human is shown. */
    twostate predicate Evidenced(e: Surroundings, end: End, work: Work)
      reads this, session
    {
      && (outcomes == old(outcomes) || outcomes == old(EvidenceAtHand(e.rerun)))
      && (end == Finished && old(session.run.state) == Verifying ==>
            work.suite.Outcomes() == old(EvidenceToShow(e.rerun)) && AllPassed(work.suite.Outcomes()))
    }

    /** Only implementing changes files, and the diff stored at the end of TESTING is that of the files. */
    twostate predicate Shown(end: End, work: Work)
      reads this, session, context.workspace
    {
      && (old(session.run.state) != Implementing ==> context.workspace.files == old(context.workspace.files))
      && (end == Finished && old(session.run.state) == Testing ==>
            ShowsChange(render, context.workspace.start, context.workspace.files, work))
    }

    /** This execution has what the step for a state works with: a checkout, a map of it, a plan. */
    ghost predicate Equipped(state: RunState)
      reads this
    {
      && (state != Created ==> checkedOut)
      && (state !in {Created, CloningRepository, AnalyzingIssue} ==> mapped)
      && (NeedsPlan(state) ==> planned)
    }

    /** Some turn of the drive met one of these. */
    ghost predicate StuckSomewhere(e: nat -> Surroundings)
      reads this, model, context, context.workspace
    {
      exists n: nat, state: RunState :: Stuck(e(n), state)
    }

    /** What can stop the step for a state: the world, the model, no change to show, or tests that did not pass. */
    ghost predicate Stuck(e: Surroundings, state: RunState)
      reads this, model, context, context.workspace
    {
      || !e.timeLeft || !e.works || (state == Created && !e.clones)
      || (model.calls > 0 && model.LastAnswer() != Some(true))
      || (state == Testing && SameTexts(context.workspace.start, context.workspace.files))
      || (state == Verifying && !AllPassed(EvidenceToShow(e.rerun)))
    }

    /** There is a step to take, with all it needs, or nothing left to do. */
    ghost predicate Ready()
      reads this, session
    {
      Equipped(session.run.state) && (HasStep(session.run.state) || Parked(session.run.state))
    }

    /** A step is aborted for one of these reasons only, and a finished one leaves the next what it needs. */
    twostate predicate Reasoned(e: Surroundings, end: End)
      reads this, session, model, context, context.workspace
    {
      old(Equipped(session.run.state) && HasStep(session.run.state)) ==>
        && (end == Aborted ==> Stuck(e, old(session.run.state)))
        && (end == Finished ==> Ready())
    }

    /** The model calls of a step stay within what was ahead, and leave enough for what still is. */
    twostate predicate Spends(end: End)
      reads this, session, model
    {
      var before := CallsAhead(old(session.run.state), old(analysed), maxIterations);
      && old(model.calls) <= model.calls <= old(model.calls) + before
      && (end == Finished ==>
            && OnTrack(session.run.state)
            && model.calls - old(model.calls) + CallsAhead(session.run.state, analysed, maxIterations) <= before)
    }

    /** The steps that get the code and read the issue. */
    method StepOnIssue(e: Surroundings) returns (end: End, ghost work: Work, ghost done: nat)
      requires SessionAt(session.run.state) && OnTrack(session.run.state)
      requires session.run.state in {Created, CloningRepository}
      modifies this`checkedOut, this`analysed, session, model
      ensures session.base == old(session.base) && Ended(end, work, done) && Spends(end) && Reasoned(e, end)
    {
      EarlyCalls(session.run.state, analysed, maxIterations);
      if session.run.state == Created {
        end, work, done := Clone(e);
      } else {
        end, work, done := AnalyseIssue(e);
      }
      if end == Finished {
        EarlyCalls(session.run.state, analysed, maxIterations);
      }
    }

    /** The steps that map, index and search the code. */
    method StepOnCode(e: Surroundings) returns (end: End, ghost work: Work, ghost done: nat)
      requires SessionAt(session.run.state) && OnTrack(session.run.state)
      requires session.run.state in {AnalyzingIssue, ExploringRepository, IndexingRepository}
      modifies this`mapped, this`analysed, this`retrievalAttempted, session, model
      ensures session.base == old(session.base) && Ended(end, work, done) && Spends(end) && Reasoned(e, end)
    {
      EarlyCalls(session.run.state, analysed, maxIterations);
      if session.run.state == AnalyzingIssue {
        end, work, done := Explore(e);
      } else if session.run.state == ExploringRepository {
        end, work, done := Index(e);
      } else {
        end, work, done := Retrieve(e);
      }
      if end == Finished {
        EarlyCalls(session.run.state, analysed, maxIterations);
      }
    }

    /** IMPLEMENTING, within what is ahead of it. */
    method StepImplement(e: Surroundings) returns (end: End, ghost work: Work, ghost done: nat)
      requires AtStep(Implementing) && OnTrack(Implementing)
      modifies this, session, model, context, context.workspace
      ensures session.base == old(session.base) && Ended(end, work, done) && Spends(end)
      ensures ToolsOk() && ScratchOk() && Evidenced(e, end, work) && Shown(end, work) && Reasoned(e, end)
    {
      LastCalls(analysed, maxIterations);
      end, work, done := Implement(e);
      LastCalls(analysed, maxIterations);
      assert end == Finished ==> session.run.state == Testing;
      assert outcomes == old(outcomes);
    }

    /** TESTING, within what is ahead of it. */
    method StepAssess(e: Surroundings) returns (end: End, ghost work: Work, ghost done: nat)
      requires AtStep(Testing) && OnTrack(Testing)
      modifies this, session, model, context, context.workspace
      ensures session.base == old(session.base) && Ended(end, work, done) && Spends(end)
      ensures ToolsOk() && ScratchOk() && Evidenced(e, end, work) && Shown(end, work) && Reasoned(e, end)
    {
      LastCalls(analysed, maxIterations);
      end, work, done := Assess(e);
      assert end == Finished ==> session.run.state == Verifying;
    }

    /** The steps that only look at what is there. */
    method StepOnRow(e: Surroundings) returns (end: End, ghost work: Work, ghost done: nat)
      requires SessionAt(session.run.state) && OnTrack(session.run.state) && ScratchOk()
      requires session.run.state in {Planning, Verifying}
      modifies session
      ensures session.base == old(session.base) && Ended(end, work, done) && Spends(end) && Evidenced(e, end, work)
      ensures Reasoned(e, end)
    {
      if session.run.state == Planning {
        end, work, done := AfterPlan(e);
      } else {
        end, work, done := AwaitApproval(e);
      }
    }

    /** The step the table `_steps` has for the current state. */
    method Step(e: Surroundings) returns (end: End, ghost work: Work, ghost done: nat)
      requires AtStep(session.run.state) && HasStep(session.run.state) && OnTrack(session.run.state)
      modifies this, session, model, context, context.workspace
      ensures session.base == old(session.base) && Ended(end, work, done) && Spends(end)
      ensures ToolsOk() && ScratchOk() && Evidenced(e, end, work) && Shown(end, work) && Reasoned(e, end)
    {
      if session.run.state in {Created, CloningRepository} {
        end, work, done := StepOnIssue(e);
      } else if session.run.state in {AnalyzingIssue, ExploringRepository, IndexingRepository} {
        end, work, done := StepOnCode(e);
      } else if session.run.state in {Planning, Verifying} {
        end, work, done := StepOnRow(e);
      } else if session.run.state == RetrievingContext {
        end, work, done := Plan(e);
      } else if session.run.state == Implementing {
        end, work, done := StepImplement(e);
      } else {
        end, work, done := StepAssess(e);
      }
    }

    /** `_rehydrate`: what a resumed execution rebuilds before its first step. */
    method Rehydrate(e: Surroundings) returns (end: End)
      requires AtStep(session.run.state)
      modifies this`checkedOut, this`mapped, this`planned, session
      ensures Noted(end) && ScratchOk()
      ensures old(session.run.state) == Created ==>
                end == Finished && checkedOut == old(checkedOut) && mapped == old(mapped)
      ensures old(session.run.state) in {Testing, Verifying} && !e.kept ==> end == Aborted
      ensures HasEdits(old(session.run.state)) && !e.kept ==> end == Aborted
      ensures end == Aborted ==>
                (!e.kept && (HasEdits(old(session.run.state)) || !e.clones)) || !e.works
      ensures old(session.run.state) != Created && !e.kept && !e.clones ==> end == Aborted
      ensures old(session.run.state) != Created && !e.works ==> end != Finished && (e.kept ==> end == Aborted)
      ensures old(session.run.state) != Created && end == Finished ==>
                checkedOut && mapped && (planned <==> old(session.db.plans) != [])
    {
      if session.run.state == Created {
        return Finished;
      }
      var edited := HasEdits(session.run.state);
      var hasPlan := session.db.plans != [];
      var ok := true;
      if !e.kept {
        if edited || !e.clones {
          return Aborted;
        }
        ok := Note(Info);
      }
      if ok && !e.works {
        return Aborted;
      }
      if ok {
        checkedOut, mapped, planned := true, true, hasPlan;
        if edited {
          ok := Note(Info);
        }
      }
      end := if ok then Finished else Broken;
    }

    /** `_fail`: the aborted step's writes and the transition to FAILED go into one commit. */
    method Fail(ghost work: Work, ghost done: nat) returns (ok: bool, ghost c: Commitment)
      requires session.Valid() && !session.broken && Ended(Aborted, work, done) && !Parked(session.base.copy.state)
      modifies session
      ensures ok ==>
                && Allowed(search, c) && c.request == StepAborted(work, done)
                && c.copy == old(session.base.copy) && session.run.state == Failed
    {
      ok := Enter(Failed);
      c := Commitment(StepAborted(work, done), session.base.copy, session.base.db, session.ops);
    }

    /** The commit that follows a finished step, and the beginning of the next transaction. */
    method CommitStep(ghost work: Work, ghost done: nat, committed: Tables) returns (ghost c: Commitment)
      requires ToolsOk() && ScratchOk() && Ended(Finished, work, done)
      modifies session
      ensures Allowed(search, c) && c.request == StepDone(work) && c.copy == old(session.base.copy)
      ensures AtStep(session.run.state) && session.run == old(session.run)
      ensures LeavesCopy(c, session.base.copy)
    {
      c := Commitment(StepDone(work), session.base.copy, session.base.db, session.ops);
      session.Begin(committed);
    }

    /** The loop's checks before a step, and the step. */
    method TakeTurn(e: Surroundings) returns (end: End, ghost work: Work, ghost done: nat)
      requires AtStep(session.run.state) && OnTrack(session.run.state) && !Parked(session.run.state)
      modifies this, session, model, context, context.workspace
      ensures !e.timeLeft ==> end == Aborted && done == 0
      ensures session.base == old(session.base) && Ended(end, work, done) && Spends(end)
      ensures ToolsOk() && ScratchOk() && Evidenced(e, end, work) && Shown(end, work) && Reasoned(e, end)
      ensures end == Finished ==> Rank(session.run.state) < Rank(old(session.run.state))
    {
      work, done := NoDiff(e.rerun), 0;
      UntouchedFits(search, session.base.copy, work, session.run);
      if !e.timeLeft || !HasStep(session.run.state) {
        return Aborted, work, done;
      }
      StepDescends(session.run.state, session.run.requirePlanApproval);
      end, work, done := Step(e);
    }

    /** One turn and what follows it: the step's commit, or the commit that fails the run. */
    method TurnAndCommit(e: Surroundings) returns (end: End, ghost c: Commitment)
      requires AtStep(session.run.state) && OnTrack(session.run.state) && !Parked(session.run.state)
      modifies this, session, model, context, context.workspace
      ensures Spends(end) && Reasoned(e, end)
      ensures old(session.run.state) != Implementing ==> context.workspace.files == old(context.workspace.files)
      ensures end == Finished ==>
                && AtStep(session.run.state) && Rank(session.run.state) < Rank(old(session.run.state))
                && c.request.StepDone? && Evidenced(e, end, c.request.work) && Shown(end, c.request.work)
                && Allowed(search, c) && c.copy == old(session.base.copy) && LeavesCopy(c, session.base.copy)
      ensures end == Aborted ==>
                && c.request.StepAborted? && Allowed(search, c) && c.copy == old(session.base.copy)
                && session.run.state == Failed
    {
      ghost var work, done;
      end, work, done := TakeTurn(e);
      if end == Finished {
        c := CommitStep(work, done, e.committed);
      } else {
        end, c := FailUnlessBroken(end, work, done);
      }
    }

    method FailUnlessBroken(end: End, ghost work: Work, ghost done: nat) returns (result: End, ghost c: Commitment)
      requires end != Finished && Ended(end, work, done) && !Parked(session.base.copy.state)
      modifies session
      ensures result != Finished && (result == Aborted ==> end == Aborted)
      ensures result == Aborted ==>
                && c.request.StepAborted? && Allowed(search, c) && c.copy == old(session.base.copy)
                && session.run.state == Failed
    {
      c := Commitment(RecordFailure, session.base.copy, session.base.db, session.ops);
      if end == Broken {
        return Broken, c;
      }
      var ok;
      ok, c := Fail(work, done);
      result := if ok then Aborted else Broken;
    }

    /** The evidence at hand was run in the repair loop, or is run now. */
    lemma AtHandWasRun(e: nat -> Surroundings, turn: nat)
      requires ScratchOk()
      ensures EvidenceAtHand(e(turn).rerun) == [] || Ran(EvidenceAtHand(e(turn).rerun), tests, e)
    {
      if repair.Some? && repair.value.attempts != [] {
        var n := |repair.value.attempts| - 1;
        assert repair.value.attempts[n].outcomes == [] || repair.value.attempts[n].outcomes == tests(n).Outcomes();
      }
    }

    /** A turn of the drive: what it shows a human, and what it leaves in memory, it or the repair loop has run. */
    method NextTurn(e: nat -> Surroundings, turn: nat) returns (end: End, ghost c: Commitment)
      requires AtStep(session.run.state) && OnTrack(session.run.state) && !Parked(session.run.state)
      requires outcomes == [] || Ran(outcomes, tests, e)
      modifies this, session, model, context, context.workspace
      ensures Spends(end) && Reasoned(e(turn), end)
      ensures old(session.run.state) != Implementing ==> context.workspace.files == old(context.workspace.files)
      ensures end == Finished ==>
                && AtStep(session.run.state) && Rank(session.run.state) < Rank(old(session.run.state))
                && c.request.StepDone? && Witnessed(c, tests, e) && (outcomes == [] || Ran(outcomes, tests, e))
                && StoresChange(render, context.workspace.start, context.workspace.files, c)
                && Allowed(search, c) && c.copy == old(session.base.copy) && LeavesCopy(c, session.base.copy)
      ensures end == Aborted ==>
                && c.request.StepAborted? && Allowed(search, c) && c.copy == old(session.base.copy)
                && session.run.state == Failed
    {
      AtHandWasRun(e, turn);
      end, c := TurnAndCommit(e(turn));
    }

    /** How a drive that began on `first` has ended. */
    ghost predicate DriveEnded(result: Option<RunState>, log: seq<Commitment>, failure: Option<Commitment>,
                               first: RunRow)
      reads this, session
    {
      match result
      case None => failure.None? && exists copy: RunRow :: DriveLog(search, log, first, copy)
      case Some(state) =>
        && state == session.run.state && Parked(state)
        && if failure.None? then DriveLog(search, log, first, session.base.copy)
           else
             && state == Failed && failure.value.request.StepAborted? && Allowed(search, failure.value)
             && DriveLog(search, log, first, failure.value.copy)
    }

    /** The driver's loop over the stored state. */
    method DriveOn(e: nat -> Surroundings)
      returns (result: Option<RunState>, ghost log: seq<Commitment>, ghost failure: Option<Commitment>)
      requires AtStep(session.run.state) && OnTrack(session.run.state)
      requires outcomes == [] || Ran(outcomes, tests, e)
      modifies this, session, model, context, context.workspace
      ensures |log| <= Rank(old(session.run.state))
      ensures old(model.calls) <= model.calls
              <= old(model.calls) + CallsAhead(old(session.run.state), old(analysed), maxIterations)
      ensures DriveEnded(result, log, failure, old(session.base.copy))
      ensures old(Ready()) && failure.Some? ==> StuckSomewhere(e)
      ensures AllWitnessed(log, tests, e) && AllShow(render, context.workspace.start, context.workspace.files, log)
    {
      log, failure := [], None;
      var turn := 1;
      while !Parked(session.run.state)
        invariant AtStep(session.run.state) && OnTrack(session.run.state)
        invariant DriveLog(search, log, old(session.base.copy), session.base.copy)
        invariant outcomes == [] || Ran(outcomes, tests, e)
        invariant old(Ready()) ==> Ready()
        invariant AllWitnessed(log, tests, e)
        invariant ShowsSoFar(render, context.workspace.start, context.workspace.files, log, session.run.state)
        invariant |log| + Rank(session.run.state) <= Rank(old(session.run.state))
        invariant old(model.calls) <= model.calls
        invariant model.calls - old(model.calls) + CallsAhead(session.run.state, analysed, maxIterations)
                  <= CallsAhead(old(session.run.state), old(analysed), maxIterations)
        decreases Rank(session.run.state)
      {
        ghost var c;
        ghost var state, files := session.run.state, context.workspace.files;
        var end;
        end, c := NextTurn(e, turn);
        ShowsStill(render, context.workspace.start, files, context.workspace.files, log, state);
        if end == Broken {
          return None, log, None;
        }
        if end == Aborted {
          return Some(Failed), log, Some(c);
        }
        DriveLogGrows(search, log, old(session.base.copy), c, session.base.copy);
        WitnessedGrows(log, c, tests, e);
        ShowsOneMore(render, context.workspace.start, context.workspace.files, log, c, state, session.run.state);
        log := log + [c];
        turn := turn + 1;
      }
      result := Some(session.run.state);
    }

    /**
     `advance`: whatever the model answers and the world does, at most ten committed steps and a
     bounded number of model calls; every commit is one the protocol allows from the copy the
     previous one left; the run ends parked, failed by a last commit, or with an exception; a human
     is only ever shown outcomes of a test run this execution made, all passed, and the diff stored
     for review is exactly that of the files from the start to the end; and a run whose edits are
     lost does not get one step further.
     */
    method Advance(e: nat -> Surroundings)
      returns (result: Option<RunState>, ghost log: seq<Commitment>, ghost failure: Option<Commitment>)
      requires AtStep(session.run.state) && session.base.copy == session.run
      requires !analysed && outcomes == [] && repair.None?
      modifies this, session, model, context, context.workspace
      ensures |log| <= Rank(old(session.run.state)) <= 10
      ensures model.calls >= old(model.calls)
      ensures maxIterations >= 1 ==> model.calls - old(model.calls) <= 15 * maxIterations + 23
      ensures maxIterations == 0 ==> model.calls - old(model.calls) <= 26
      ensures DriveEnded(result, log, failure, old(session.run))
      ensures AllWitnessed(log, tests, e) && AllShow(render, context.workspace.start, context.workspace.files, log)
      ensures old(session.run.state) in {Testing, Verifying} && !e(0).kept ==>
                log == [] && (result.None? || result == Some(Failed))
      ensures failure.Some? && HasStep(old(session.run.state))
              && (NeedsPlan(old(session.run.state)) ==> old(session.db.plans) != [])
              ==> StuckSomewhere(e) || (!e(0).kept && old(session.run.state) in {Testing, Verifying})
    {
      log, failure := [], None;
      ghost var first := session.run;
      assert DriveLog(search, log, first, first);
      if Parked(session.run.state) {
        return Some(session.run.state), log, failure;
      }
      ghost var work := Work("", 0, NO_TESTS);
      var end := Rehydrate(e(0));
      if end != Finished {
        if end == Aborted {
          UntouchedFits(search, first, work, session.run);
        }
        ghost var c;
        end, c := FailUnlessBroken(end, work, 0);
        if end == Broken {
          return None, log, None;
        }
        assert !e(0).works || !e(0).clones ==> Stuck(e(0), Created);
        return Some(Failed), log, Some(c);
      }
      result, log, failure := DriveOn(e);
    }
  }
}
