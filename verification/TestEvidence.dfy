/**
 The pass verdict of backend/app/agent/testing.py. What the regular expressions find in the
 runner's output is given as `OutputFacts`; the branches over those facts are the source's.
 */
module TestEvidence {
  import opened Basics

  datatype ExecResult = ExecResult(exitCode: int, timedOut: bool) {
    predicate Ok() {
      exitCode == 0 && !timedOut
    }
  }

  datatype Framework = Pytest | Vitest | Jest | Playwright | GoTest | OtherFramework

  /** What the patterns match in stdout and stderr; a count of zero reads as absent. */
  datatype OutputFacts = OutputFacts(
    failed: nat, error: nat, errors: nat,
    runnerBroken: bool, collectError: bool, jsRunnerError: bool, saysNotFound: bool,
    goFailures: nat)

  datatype TestOutcome = TestOutcome(
    passed: bool, exitCode: int, timedOut: bool, testsFailed: nat, runnerError: bool)

  /** The first count that is not zero, else zero. */
  function FirstNonZero(a: nat, b: nat, c: nat): nat {
    if a != 0 then a else if b != 0 then b else c
  }

  function PytestRunnerError(result: ExecResult, facts: OutputFacts): bool {
    || result.exitCode == 5
    || (!result.Ok() && facts.runnerBroken)
    || (!result.Ok() && FirstNonZero(facts.failed, facts.error, facts.errors) == 0 && facts.collectError)
  }

  /**
   The structured outcome of one command. Although the parser inspects counts, runner errors
   and framework names, its verdict is exactly the exit status.
   */
  function ParseTestOutput(result: ExecResult, framework: Framework, facts: OutputFacts): (o: TestOutcome)
    ensures o.passed <==> result.exitCode == 0 && !result.timedOut
    ensures o.passed ==> !o.runnerError
    ensures o.exitCode == result.exitCode && o.timedOut == result.timedOut
  {
    if result.timedOut then
      TestOutcome(false, result.exitCode, true, 0, false)
    else
      var runnerError :=
        match framework
        case Pytest => PytestRunnerError(result, facts)
        case Vitest | Jest | Playwright => !result.Ok() && facts.jsRunnerError
        case GoTest => false
        case OtherFramework => !result.Ok() && facts.saysNotFound;
      var testsFailed :=
        match framework
        case Pytest => if runnerError then 0 else FirstNonZero(facts.failed, facts.error, facts.errors)
        case Vitest | Jest | Playwright => facts.failed
        case GoTest => facts.goFailures
        case OtherFramework => 0;
      TestOutcome(result.Ok() && !runnerError, result.exitCode, false, testsFailed, runnerError)
  }

  /**
   What an outcome says besides its verdict: a run that never got to the tests is a runner error, which is
   never a pass and, where the runner counts for itself, reports no failures; otherwise the failures are
   the first count the output has.
   */
  lemma WhatOutcomesSay(result: ExecResult, framework: Framework, facts: OutputFacts)
    ensures var o := ParseTestOutput(result, framework, facts);
            var failed := result.exitCode != 0;
            && (result.timedOut || framework.GoTest? ==> !o.runnerError)
            && (!result.timedOut && framework.Pytest? ==>
                  (o.runnerError <==>
                     || result.exitCode == 5
                     || (failed && (facts.runnerBroken
                                    || (facts.collectError && facts.failed == facts.error == facts.errors == 0)))))
            && (!result.timedOut && framework in {Vitest, Jest, Playwright} ==>
                  (o.runnerError <==> failed && facts.jsRunnerError) && o.testsFailed == facts.failed)
            && (!result.timedOut && framework.OtherFramework? ==> (o.runnerError <==> failed && facts.saysNotFound))
            && (!result.timedOut && framework.GoTest? ==> o.testsFailed == facts.goFailures)
            && (result.timedOut || framework.OtherFramework? || (framework.Pytest? && o.runnerError) ==>
                  o.testsFailed == 0)
            && (!result.timedOut && framework.Pytest? && !o.runnerError ==>
                  o.testsFailed == if facts.failed > 0 then facts.failed
                                   else if facts.error > 0 then facts.error else facts.errors)
  {
  }

  predicate AllPassed(outcomes: seq<TestOutcome>) {
    outcomes != [] && forall i :: 0 <= i < |outcomes| ==> outcomes[i].passed
  }

  /** Evidence a reader would accept: something ran, and nothing failed, hung or failed to start. */
  predicate CleanEvidence(outcomes: seq<TestOutcome>) {
    && outcomes != []
    && forall i :: 0 <= i < |outcomes| ==>
         outcomes[i].exitCode == 0 && !outcomes[i].timedOut && !outcomes[i].runnerError
  }

  /** Outcomes that some command produced, as opposed to arbitrary records. */
  ghost predicate Parsed(o: TestOutcome) {
    exists result, framework, facts :: o == ParseTestOutput(result, framework, facts)
  }

  ghost predicate AllParsed(outcomes: seq<TestOutcome>) {
    forall i :: 0 <= i < |outcomes| ==> Parsed(outcomes[i])
  }

  /** On outcomes the parser produced, the gate's verdict is exactly clean evidence. */
  lemma AllPassedIsCleanEvidence(outcomes: seq<TestOutcome>)
    requires AllParsed(outcomes)
    ensures AllPassed(outcomes) <==> CleanEvidence(outcomes)
  {
    forall i | 0 <= i < |outcomes|
      ensures outcomes[i].passed <==>
              outcomes[i].exitCode == 0 && !outcomes[i].timedOut && !outcomes[i].runnerError
    {
      assert Parsed(outcomes[i]);
      var result, framework, facts :| outcomes[i] == ParseTestOutput(result, framework, facts);
      PassedIsExitStatus(result, framework, facts);
    }
  }

  lemma PassedIsExitStatus(result: ExecResult, framework: Framework, facts: OutputFacts)
    ensures var o := ParseTestOutput(result, framework, facts);
            o.passed <==> o.exitCode == 0 && !o.timedOut && !o.runnerError
  {
  }

  /** One command the sandbox runs: its result and what its output shows. */
  datatype Command = Command(result: ExecResult, facts: OutputFacts)

  /**
   What `run_tests` is given: `full` is None when no test command was detected; `targeted` is
   None when nothing was named or the framework cannot target.
   */
  datatype Suite = Suite(framework: Framework, targeted: Option<Command>, full: Option<Command>) {
    function Outcome(c: Command): TestOutcome {
      ParseTestOutput(c.result, framework, c.facts)
    }

    function Outcomes(): seq<TestOutcome> {
      if full.None? then []
      else if targeted.None? then [Outcome(full.value)]
      else if !targeted.value.result.Ok() then [Outcome(targeted.value)]
      else [Outcome(targeted.value), Outcome(full.value)]
    }
  }

  /** Targeted tests first; the full suite only when they did not already fail. */
  method RunTests(suite: Suite) returns (outcomes: seq<TestOutcome>)
    ensures outcomes == suite.Outcomes()
  {
    if suite.full.None? {
      return [];
    }
    outcomes := [];
    if suite.targeted.Some? {
      var outcome := suite.Outcome(suite.targeted.value);
      outcomes := outcomes + [outcome];
      if !outcome.passed {
        return;
      }
    }
    outcomes := outcomes + [suite.Outcome(suite.full.value)];
  }

  /**
   The gate's verdict on a test run, in terms of exit statuses: it passes exactly when the full
   suite exists and succeeded and the targeted run, if there was one, succeeded too. A
   repository without a test command never passes, and the full suite is not run after a targeted failure.
   */
  lemma SuiteVerdict(suite: Suite)
    ensures AllParsed(suite.Outcomes())
    ensures AllPassed(suite.Outcomes()) <==>
            && suite.full.Some? && suite.full.value.result.Ok()
            && (suite.targeted.Some? ==> suite.targeted.value.result.Ok())
    ensures var os := suite.Outcomes();
            && |os| == (if suite.full.None? then 0
                        else if suite.targeted.Some? && suite.targeted.value.result.Ok() then 2 else 1)
            && (os != [] && suite.targeted.Some? ==> os[0].exitCode == suite.targeted.value.result.exitCode)
            && (os != [] && (suite.targeted.None? || |os| == 2) ==>
                  os[|os| - 1].exitCode == suite.full.value.result.exitCode)
  {
    var os := suite.Outcomes();
    forall i | 0 <= i < |os| ensures Parsed(os[i]) {
      var c := if i == 1 || suite.targeted.None? then suite.full.value else suite.targeted.value;
      assert os[i] == ParseTestOutput(c.result, suite.framework, c.facts);
    }
    if os != [] {
      assert AllPassed(os) <==> os[0].passed && (|os| == 2 ==> os[1].passed);
    }
  }
}
