/**
 The bounded loops around the model: structured output (backend/app/llm/base.py), the tool loop
 (backend/app/agent/loop.py), planning (backend/app/agent/planner.py) and the repair loop
 (backend/app/agent/repair.py). The model is an arbitrary sequence of responses.
 */
module AgentLoops {
  import opened Basics
  import opened TestEvidence
  import opened Editing
  import opened Tools

  datatype ProviderError = Quota | Unavailable

  /**
   One answer of the model. `judgement` is what validating its text against the requested schema
   yields: None if invalid, otherwise the verdict the caller acts on (actionable, recoverable).
   */
  datatype Response =
    | Raises(error: ProviderError)
    | Answer(blank: bool, toolCalls: seq<ToolCall>, tokens: nat, judgement: Option<bool>)

  datatype AgentError = Provider(error: ProviderError) | StructuredOutput

  datatype Outcome<+T> = Value(value: T) | Raised(error: AgentError)

  /** The model, whatever it answers, with a count of the calls made to it. */
  class LanguageModel {
    const script: nat -> Response
    var calls: nat

    constructor (script: nat -> Response)
      ensures this.script == script && calls == 0
    {
      this.script := script;
      calls := 0;
    }

    method Generate() returns (response: Response)
      modifies this
      ensures calls == old(calls) + 1 && response == script(old(calls))
    {
      response := script(calls);
      calls := calls + 1;
    }

    /** What the last response said, if it was a usable answer. */
    function LastAnswer(): Option<bool>
      reads this
    {
      if calls > 0 && Usable(script(calls - 1)) then script(calls - 1).judgement else None
    }
  }

  // ------------------------------------------------------------------ structured output

  const MAX_REPAIR_ATTEMPTS := 2

  /** Text that satisfies the schema. */
  predicate Usable(r: Response) {
    r.Answer? && !r.blank && r.judgement.Some?
  }

  /** An answer the loop asks to be corrected rather than giving up on. */
  predicate Correctable(r: Response) {
    r.Answer? && (if r.blank then r.toolCalls != [] else r.judgement.None?)
  }

  /**
   `generate_structured`: the first usable answer is returned; up to two correctable ones before
   it are sent back; anything else, or a third, is an error. At most three calls in all.
   */
  method GenerateStructured(model: LanguageModel) returns (result: Outcome<bool>)
    modifies model
    ensures 1 <= model.calls - old(model.calls) <= 3
    ensures forall i :: old(model.calls) <= i < model.calls - 1 ==> Correctable(model.script(i))
    ensures var last := model.script(model.calls - 1);
            match result
            case Value(v) => Usable(last) && last.judgement == Some(v)
            case Raised(Provider(e)) => last == Raises(e)
            case Raised(StructuredOutput) =>
              && last.Answer? && !Usable(last)
              && (Correctable(last) ==> model.calls - old(model.calls) == 3)
    ensures model.LastAnswer() == if result.Value? then Some(result.value) else None
  {
    for attempt := 1 to MAX_REPAIR_ATTEMPTS + 2
      invariant model.calls == old(model.calls) + attempt - 1
      invariant forall i :: old(model.calls) <= i < model.calls ==> Correctable(model.script(i))
    {
      var response := model.Generate();
      if response.Raises? {
        return Raised(Provider(response.error));
      }
      if response.blank {
        if response.toolCalls != [] && attempt <= MAX_REPAIR_ATTEMPTS {
          continue;
        }
        return Raised(StructuredOutput);
      }
      if response.judgement.Some? {
        return Value(response.judgement.value);
      }
      if attempt > MAX_REPAIR_ATTEMPTS {
        break;
      }
    }
    result := Raised(StructuredOutput);
  }

  // ------------------------------------------------------------------ the tool loop

  datatype Message = Prompt | FinalAnswer | RequestTurn | ToolMessage(id: string, name: string, result: ToolResult)

  datatype StopReason = ModelFinished | TokenBudget | ToolBudget | MaxSteps

  datatype Limits = Limits(maxSteps: nat, maxTokens: nat)

  const DEFAULT_LIMITS := Limits(12, 200_000)
  const VERIFY_LIMITS := Limits(5, 200_000)

  datatype LoopOutcome = LoopOutcome(
    transcript: seq<Message>, tokens: nat, steps: nat, toolCalls: seq<(string, ToolResult)>, stoppedBecause: StopReason)

  type Done = (ToolCall, ToolResult)

  /** A request turn, and the calls of it that were executed with their results. */
  datatype Turn = Turn(requested: seq<ToolCall>, executed: seq<Done>)

  function Calls(executed: seq<Done>): (r: seq<ToolCall>)
    ensures |r| == |executed|
  {
    seq(|executed|, i requires 0 <= i < |executed| => executed[i].0)
  }

  /** One tool message per executed call, in order. */
  function ToolMessages(executed: seq<Done>): seq<Message> {
    seq(|executed|, i requires 0 <= i < |executed| => ToolMessage(executed[i].0.id, executed[i].0.name, executed[i].1))
  }

  /** The entries of `outcome.tool_calls`. */
  function Names(executed: seq<Done>): seq<(string, ToolResult)> {
    seq(|executed|, i requires 0 <= i < |executed| => (executed[i].0.name, executed[i].1))
  }

  /** The conversation after some turns: each request turn, then a tool message for each call it executed. */
  function Conversation(messages: seq<Message>, turns: seq<Turn>): seq<Message> {
    if turns == [] then messages
    else Conversation(messages, turns[..|turns| - 1]) + [RequestTurn] + ToolMessages(turns[|turns| - 1].executed)
  }

  function AllExecuted(turns: seq<Turn>): seq<(string, ToolResult)> {
    if turns == [] then [] else AllExecuted(turns[..|turns| - 1]) + Names(turns[|turns| - 1].executed)
  }

  /** The executed calls of all turns, one after another. */
  ghost function AllCalls(turns: seq<Turn>): seq<ToolCall> {
    if turns == [] then [] else AllCalls(turns[..|turns| - 1]) + Calls(turns[|turns| - 1].executed)
  }

  ghost predicate NoBudgetRefusal(executed: seq<Done>) {
    forall i :: 0 <= i < |executed| ==> executed[i].1 != Some(BudgetExceeded)
  }

  /** A turn that ran to its end: every requested call was executed, and none met the budget. */
  ghost predicate Whole(turn: Turn) {
    Calls(turn.executed) == turn.requested && NoBudgetRefusal(turn.executed)
  }

  /** A turn cut short: its last executed call is the first to meet the budget. */
  ghost predicate CutShort(turn: Turn) {
    && turn.executed != [] && Calls(turn.executed) <= turn.requested
    && NoBudgetRefusal(turn.executed[..|turn.executed| - 1])
    && turn.executed[|turn.executed| - 1].1 == Some(BudgetExceeded)
  }

  /** The turn a response gives rise to. */
  ghost predicate TurnFits(r: Response, turn: Turn, cut: bool) {
    && r.Answer? && r.toolCalls != [] && turn.requested == r.toolCalls
    && if cut then CutShort(turn) else Whole(turn)
  }

  /** The turns follow the model's answers one for one, each whole except possibly a last one cut short. */
  ghost predicate Follows(script: nat -> Response, from: nat, turns: seq<Turn>, cut: bool) {
    if turns == [] then !cut
    else
      var n := |turns| - 1;
      TurnFits(script(from + n), turns[n], cut) && Follows(script, from, turns[..n], false)
  }

  /** The inner loop over one response's calls: stops at the first budget refusal. */
  method RunTurn(registry: ToolRegistry, context: ToolContext, calls: seq<ToolCall>, allowMutating: bool)
    returns (executed: seq<Done>, exhausted: bool)
    requires registry.Valid() && context.Valid()
    modifies context, context.workspace
    ensures context.Valid() && context.toolCallsUsed >= old(context.toolCallsUsed)
    ensures exhausted ==> CutShort(Turn(calls, executed)) && context.toolCallsUsed == context.maxToolCalls
    ensures !exhausted ==> Whole(Turn(calls, executed))
    ensures !allowMutating ==> context.workspace.View() == old(context.workspace.View())
    ensures context.ToBench() == CalledAll(context.ToPhase(registry.tools, allowMutating), old(context.ToBench()),
                                           Calls(executed))
  {
    executed := [];
    for i := 0 to |calls|
      invariant context.Valid() && context.toolCallsUsed >= old(context.toolCallsUsed)
      invariant Calls(executed) == calls[..i] && NoBudgetRefusal(executed)
      invariant context.ToBench() == CalledAll(context.ToPhase(registry.tools, allowMutating), old(context.ToBench()),
                                               calls[..i])
      invariant !allowMutating ==> context.workspace.View() == old(context.workspace.View())
    {
      var result := registry.Execute(context, calls[i], allowMutating);
      assert (executed + [(calls[i], result)])[..|executed|] == executed;
      executed := executed + [(calls[i], result)];
      assert Calls(executed) == calls[..i + 1] && calls[..i + 1][..i] == calls[..i];
      if result == Some(BudgetExceeded) {
        return executed, true;
      }
    }
    exhausted := false;
  }

  /** What the loop has gathered after some turns, the last of them possibly cut short. */
  ghost predicate Gathered(script: nat -> Response, from: nat, messages: seq<Message>, turns: seq<Turn>, cut: bool,
                           conversation: seq<Message>, executed: seq<(string, ToolResult)>) {
    && Follows(script, from, turns, cut)
    && conversation == Conversation(messages, turns)
    && executed == AllExecuted(turns)
  }

  lemma GathersTurn(script: nat -> Response, from: nat, messages: seq<Message>, turns: seq<Turn>,
                    conversation: seq<Message>, executed: seq<(string, ToolResult)>, turn: Turn, cut: bool)
    requires Gathered(script, from, messages, turns, false, conversation, executed)
    requires TurnFits(script(from + |turns|), turn, cut)
    ensures Gathered(script, from, messages, turns + [turn], cut,
                     conversation + [RequestTurn] + ToolMessages(turn.executed), executed + Names(turn.executed))
  {
  }

  /** The tokens of a number of responses. */
  ghost function Spent(script: nat -> Response, from: nat, count: nat): nat {
    if count == 0 then 0
    else
      var last := script(from + count - 1);
      Spent(script, from, count - 1) + (if last.Answer? then last.tokens else 0)
  }

  /** The calls of the turns so far have made of the bench what it is. */
  ghost predicate Worked(p: Phase, b: Bench, turns: seq<Turn>, now: Bench) {
    AllParse(p.tools) && now == CalledAll(p, b, AllCalls(turns))
  }

  lemma WorkedOneMore(p: Phase, b: Bench, turns: seq<Turn>, turn: Turn, before: Bench, now: Bench)
    requires Worked(p, b, turns, before) && now == CalledAll(p, before, Calls(turn.executed))
    ensures Worked(p, b, turns + [turn], now)
  {
    assert (turns + [turn])[..|turns|] == turns;
    CalledInParts(p, b, AllCalls(turns), Calls(turn.executed));
  }

  /** What a tool loop that ended on its own reports, in terms of the turns it took. */
  ghost predicate Reports(script: nat -> Response, from: nat, messages: seq<Message>, limits: Limits, turns: seq<Turn>,
                          o: LoopOutcome)
  {
    && Follows(script, from, turns, o.stoppedBecause == ToolBudget)
    && o.toolCalls == AllExecuted(turns)
    && o.transcript == Conversation(messages, turns) + (if o.stoppedBecause == ModelFinished then [FinalAnswer] else [])
    && o.steps == |turns| + (if o.stoppedBecause in {ModelFinished, TokenBudget} then 1 else 0)
    && o.steps <= limits.maxSteps
    && o.tokens == Spent(script, from, o.steps)
    && (o.stoppedBecause == ModelFinished ==> script(from + |turns|).Answer? && script(from + |turns|).toolCalls == [])
    && (o.stoppedBecause == TokenBudget <==> o.tokens > limits.maxTokens)
    && (o.stoppedBecause == MaxSteps ==> |turns| == limits.maxSteps)
  }

  lemma SpentOneMore(script: nat -> Response, from: nat, count: nat)
    requires script(from + count).Answer?
    ensures Spent(script, from, count + 1) == Spent(script, from, count) + script(from + count).tokens
  {
  }

  /** A loop that stops before the tools of its last response are called. */
  lemma StopsBetweenTurns(script: nat -> Response, from: nat, messages: seq<Message>, limits: Limits, turns: seq<Turn>,
                          conversation: seq<Message>, executed: seq<(string, ToolResult)>, tokens: nat,
                          stop: StopReason)
    requires Gathered(script, from, messages, turns, false, conversation, executed) && stop != ToolBudget
    requires stop == MaxSteps ==> |turns| == limits.maxSteps && tokens == Spent(script, from, |turns|)
    requires stop != MaxSteps ==> |turns| < limits.maxSteps && tokens == Spent(script, from, |turns| + 1)
    requires stop == ModelFinished ==> script(from + |turns|).Answer? && script(from + |turns|).toolCalls == []
    requires stop == TokenBudget <==> tokens > limits.maxTokens
    ensures Reports(script, from, messages, limits, turns,
                    LoopOutcome(conversation + if stop == ModelFinished then [FinalAnswer] else [], tokens,
                                |turns| + if stop == MaxSteps then 0 else 1, executed, stop))
  {
    assert conversation + [] == conversation;
  }

  lemma StopsInATurn(script: nat -> Response, from: nat, messages: seq<Message>, limits: Limits, turns: seq<Turn>,
                     conversation: seq<Message>, executed: seq<(string, ToolResult)>, tokens: nat)
    requires Gathered(script, from, messages, turns, true, conversation, executed)
    requires |turns| <= limits.maxSteps && tokens == Spent(script, from, |turns|) && tokens <= limits.maxTokens
    ensures Reports(script, from, messages, limits, turns,
                    LoopOutcome(conversation, tokens, |turns|, executed, ToolBudget))
  {
    assert conversation + [] == conversation;
  }

  /** A response with tool calls: they are run, and answered in the conversation. */
  method AnswerCalls(registry: ToolRegistry, context: ToolContext, calls: seq<ToolCall>, allowMutating: bool,
                     before: seq<Message>, calledBefore: seq<(string, ToolResult)>, ghost script: nat -> Response,
                     ghost from: nat, ghost messages: seq<Message>, ghost turns: seq<Turn>, ghost start: Bench)
    returns (conversation: seq<Message>, toolCalls: seq<(string, ToolResult)>, exhausted: bool, ghost now: seq<Turn>)
    requires registry.Valid() && context.Valid()
    requires script(from + |turns|).Answer? && script(from + |turns|).toolCalls == calls != []
    requires Gathered(script, from, messages, turns, false, before, calledBefore)
    requires Worked(context.ToPhase(registry.tools, allowMutating), start, turns, context.ToBench())
    modifies context, context.workspace
    ensures context.Valid() && context.toolCallsUsed >= old(context.toolCallsUsed)
    ensures !allowMutating ==> context.workspace.View() == old(context.workspace.View())
    ensures exhausted ==> context.toolCallsUsed == context.maxToolCalls
    ensures |now| == |turns| + 1 && Gathered(script, from, messages, now, exhausted, conversation, toolCalls)
    ensures Worked(context.ToPhase(registry.tools, allowMutating), start, now, context.ToBench())
  {
    ghost var bench := context.ToBench();
    var executed;
    executed, exhausted := RunTurn(registry, context, calls, allowMutating);
    ghost var turn := Turn(calls, executed);
    GathersTurn(script, from, messages, turns, before, calledBefore, turn, exhausted);
    WorkedOneMore(context.ToPhase(registry.tools, allowMutating), start, turns, turn, bench, context.ToBench());
    conversation := before + [RequestTurn] + ToolMessages(executed);
    toolCalls := calledBefore + Names(executed);
    now := turns + [turn];
  }

  /** The loop before its next response: everything gathered, and the token budget not used up. */
  ghost predicate GoesOn(script: nat -> Response, from: nat, messages: seq<Message>, limits: Limits, turns: seq<Turn>,
                         conversation: seq<Message>, executed: seq<(string, ToolResult)>, tokens: nat) {
    && Gathered(script, from, messages, turns, false, conversation, executed)
    && tokens <= limits.maxTokens && tokens == Spent(script, from, |turns|)
  }

  /** How the loop ends with a response: it raised, or the outcome reports it. */
  ghost predicate EndsWith(script: nat -> Response, from: nat, messages: seq<Message>, limits: Limits,
                           turns: seq<Turn>, calls: nat, ended: Outcome<LoopOutcome>) {
    match ended
    case Value(o) => Reports(script, from, messages, limits, turns, o) && calls == from + o.steps
    case Raised(error) =>
      calls > from && script(calls - 1).Raises? && error == Provider(script(calls - 1).error)
  }

  /** One turn of the loop: a response, the two budgets, and its tool calls. */
  method NextStep(model: LanguageModel, registry: ToolRegistry, context: ToolContext, limits: Limits,
                  allowMutating: bool, step: nat, before: seq<Message>, spent: nat,
                  called: seq<(string, ToolResult)>,
                  ghost from: nat, ghost messages: seq<Message>, ghost turns: seq<Turn>, ghost start: Bench)
    returns (ended: Option<Outcome<LoopOutcome>>, conversation: seq<Message>, tokens: nat,
             toolCalls: seq<(string, ToolResult)>, ghost now: seq<Turn>)
    requires registry.Valid() && context.Valid()
    requires model.calls == from + |turns| && |turns| == step - 1 < limits.maxSteps
    requires GoesOn(model.script, from, messages, limits, turns, before, called, spent)
    requires Worked(context.ToPhase(registry.tools, allowMutating), start, turns, context.ToBench())
    modifies model, context, context.workspace
    ensures context.Valid() && context.toolCallsUsed >= old(context.toolCallsUsed)
    ensures !allowMutating ==> context.workspace.View() == old(context.workspace.View())
    ensures model.calls == old(model.calls) + 1
    ensures Worked(context.ToPhase(registry.tools, allowMutating), start, now, context.ToBench())
    ensures ended.None? ==>
              |now| == |turns| + 1 && GoesOn(model.script, from, messages, limits, now, conversation, toolCalls, tokens)
    ensures ended.Some? ==> EndsWith(model.script, from, messages, limits, now, model.calls, ended.value)
    ensures ended.Some? && ended.value.Value? && ended.value.value.stoppedBecause == ToolBudget ==>
              context.toolCallsUsed == context.maxToolCalls
  {
    ghost var script := model.script;
    var response := model.Generate();
    ended, conversation, tokens, toolCalls, now := None, before, spent, called, turns;
    if response.Raises? {
      ended := Some(Raised(Provider(response.error)));
      return;
    }
    SpentOneMore(script, from, |turns|);
    tokens := spent + response.tokens;
    if tokens > limits.maxTokens || response.toolCalls == [] {
      var stop := if tokens > limits.maxTokens then TokenBudget else ModelFinished;
      StopsBetweenTurns(script, from, messages, limits, turns, before, called, tokens, stop);
      conversation := before + if stop == ModelFinished then [FinalAnswer] else [];
      ended := Some(Value(LoopOutcome(conversation, tokens, step, called, stop)));
      return;
    }
    var exhausted;
    conversation, toolCalls, exhausted, now :=
      AnswerCalls(registry, context, response.toolCalls, allowMutating, before, called, script, from, messages, turns,
                  start);
    if exhausted {
      StopsInATurn(script, from, messages, limits, now, conversation, toolCalls, tokens);
      ended := Some(Value(LoopOutcome(conversation, tokens, step, toolCalls, ToolBudget)));
    }
  }

  /**
   `run_tool_loop`: at most `maxSteps` model calls; every executed call has exactly one tool
   message, right after its request turn; the first budget refusal ends the loop; and without
   write access neither a file nor the change log is touched, whatever the model asks for.
   */
  method RunToolLoop(model: LanguageModel, registry: ToolRegistry, context: ToolContext, messages: seq<Message>,
                     limits: Limits, allowMutating: bool)
    returns (result: Outcome<LoopOutcome>, ghost turns: seq<Turn>)
    requires registry.Valid() && context.Valid()
    modifies model, context, context.workspace
    ensures context.Valid() && context.toolCallsUsed >= old(context.toolCallsUsed)
    ensures !allowMutating ==> context.workspace.View() == old(context.workspace.View())
    ensures old(model.calls) <= model.calls <= old(model.calls) + limits.maxSteps
    ensures limits.maxSteps > 0 ==> model.calls > old(model.calls)
    ensures result.Value? ==>
              && Reports(model.script, old(model.calls), messages, limits, turns, result.value)
              && model.calls == old(model.calls) + result.value.steps
              && (result.value.stoppedBecause == ToolBudget ==> context.toolCallsUsed == context.maxToolCalls)
    ensures Worked(context.ToPhase(registry.tools, allowMutating), old(context.ToBench()), turns, context.ToBench())
    ensures result.Raised? ==>
              && model.calls > old(model.calls) && model.script(model.calls - 1).Raises?
              && result.error == Provider(model.script(model.calls - 1).error)
  {
    var conversation := messages;
    var tokens: nat := 0;
    var toolCalls: seq<(string, ToolResult)> := [];
    turns := [];
    ghost var script, from := model.script, model.calls;
    ghost var start := context.ToBench();
    for step := 0 to limits.maxSteps
      invariant context.Valid() && context.toolCallsUsed >= old(context.toolCallsUsed)
      invariant !allowMutating ==> context.workspace.View() == old(context.workspace.View())
      invariant model.calls == from + step && |turns| == step
      invariant GoesOn(script, from, messages, limits, turns, conversation, toolCalls, tokens)
      invariant Worked(context.ToPhase(registry.tools, allowMutating), start, turns, context.ToBench())
    {
      var ended;
      ended, conversation, tokens, toolCalls, turns :=
        NextStep(model, registry, context, limits, allowMutating, step + 1, conversation, tokens, toolCalls,
                 from, messages, turns, start);
      if ended.Some? {
        return ended.value, turns;
      }
    }
    StopsBetweenTurns(script, from, messages, limits, turns, conversation, toolCalls, tokens, MaxSteps);
    assert conversation + [] == conversation;
    result := Value(LoopOutcome(conversation, tokens, limits.maxSteps, toolCalls, MaxSteps));
  }

  // ------------------------------------------------------------------ what the conversation holds

  lemma ConversationSnoc(messages: seq<Message>, turns: seq<Turn>, k: nat)
    requires k < |turns|
    ensures Conversation(messages, turns[..k + 1])
            == Conversation(messages, turns[..k]) + [RequestTurn] + ToolMessages(turns[k].executed)
  {
    assert turns[..k + 1][..k] == turns[..k];
  }

  /** Message by message: right after the request turn, each executed call is answered by one message of its own. */
  ghost predicate AnswersInOrder(conversation: seq<Message>, at: nat, turn: Turn) {
    && at + 1 + |turn.executed| <= |conversation| && conversation[at] == RequestTurn
    && forall i :: 0 <= i < |turn.executed| ==>
         conversation[at + 1 + i]
         == ToolMessage(turn.executed[i].0.id, turn.executed[i].0.name, turn.executed[i].1)
  }

  lemma {:induction false} ConversationGrows(messages: seq<Message>, turns: seq<Turn>, k: nat, n: nat)
    requires k <= n <= |turns|
    ensures Conversation(messages, turns[..k]) <= Conversation(messages, turns[..n])
    decreases n
  {
    if k < n {
      ConversationSnoc(messages, turns, n - 1);
      ConversationGrows(messages, turns, k, n - 1);
    }
  }

  /**
   The whole conversation, message by message: it starts with the messages given; each turn adds a
   request turn and then, in order, one tool message for each executed call, with the call's own id,
   name and result; and there is nothing else in it.
   */
  lemma EveryCallIsAnswered(messages: seq<Message>, turns: seq<Turn>, k: nat)
    requires k < |turns|
    ensures Conversation(messages, []) == messages <= Conversation(messages, turns)
    ensures var at, whole := |Conversation(messages, turns[..k])|, Conversation(messages, turns);
            && AnswersInOrder(whole, at, turns[k])
            && |Conversation(messages, turns[..k + 1])| == at + 1 + |turns[k].executed|
  {
    assert turns[..|turns|] == turns && turns[..0] == [];
    ConversationSnoc(messages, turns, k);
    ConversationGrows(messages, turns, k + 1, |turns|);
    ConversationGrows(messages, turns, 0, |turns|);
    AnsweredInPlace(Conversation(messages, turns[..k]), turns[k], Conversation(messages, turns));
  }

  lemma AnsweredInPlace(before: seq<Message>, turn: Turn, whole: seq<Message>)
    requires before + [RequestTurn] + ToolMessages(turn.executed) <= whole
    ensures AnswersInOrder(whole, |before|, turn)
  {
    var part := before + [RequestTurn] + ToolMessages(turn.executed);
    assert forall i :: 0 <= i < |part| ==> whole[i] == part[i];
  }

  /** The names and results among the tool messages of a conversation. */
  function Answered(conversation: seq<Message>): seq<(string, ToolResult)> {
    if conversation == [] then []
    else
      var last := conversation[|conversation| - 1];
      Answered(conversation[..|conversation| - 1]) + (if last.ToolMessage? then [(last.name, last.result)] else [])
  }

  lemma {:induction false} AnsweredAppends(a: seq<Message>, b: seq<Message>)
    ensures Answered(a + b) == Answered(a) + Answered(b)
  {
    if b == [] {
      assert a + b == a;
    } else {
      assert (a + b)[..|a + b| - 1] == a + b[..|b| - 1];
      AnsweredAppends(a, b[..|b| - 1]);
    }
  }

  lemma {:induction false} AnsweredMessages(executed: seq<Done>)
    ensures Answered(ToolMessages(executed)) == Names(executed)
  {
    if executed != [] {
      var n := |executed| - 1;
      assert ToolMessages(executed)[..n] == ToolMessages(executed[..n]);
      AnsweredMessages(executed[..n]);
      assert Names(executed) == Names(executed[..n]) + [(executed[n].0.name, executed[n].1)];
    }
  }

  /** The calls a loop reports are those the model has been answered, in order. */
  lemma {:induction false} ReportedCallsAreAnswered(messages: seq<Message>, turns: seq<Turn>)
    ensures Answered(Conversation(messages, turns)) == Answered(messages) + AllExecuted(turns)
  {
    if turns != [] {
      var n := |turns| - 1;
      var before, answers := Conversation(messages, turns[..n]), ToolMessages(turns[n].executed);
      ReportedCallsAreAnswered(messages, turns[..n]);
      AnsweredAppends(before + [RequestTurn], answers);
      AnsweredAppends(before, [RequestTurn]);
      AnsweredMessages(turns[n].executed);
      assert Answered([RequestTurn]) == [];
    }
  }

  // ------------------------------------------------------------------ planning and verification

  /** `build_plan` and `verify`: a read-only tool loop, then one structured answer. */
  method Investigate(model: LanguageModel, registry: ToolRegistry, context: ToolContext, limits: Limits)
    returns (result: Outcome<bool>)
    requires registry.Valid() && context.Valid()
    modifies model, context, context.workspace
    ensures context.Valid() && context.toolCallsUsed >= old(context.toolCallsUsed)
    ensures context.workspace.View() == old(context.workspace.View())
    ensures old(model.calls) < model.calls <= old(model.calls) + limits.maxSteps + MAX_REPAIR_ATTEMPTS + 1
    ensures result.Value? ==>
              && model.calls > old(model.calls)
              && Usable(model.script(model.calls - 1)) && model.script(model.calls - 1).judgement == Some(result.value)
    ensures result.Raised? ==> model.calls > old(model.calls) && model.LastAnswer().None?
  {
    var outcome, turns := RunToolLoop(model, registry, context, [Prompt, Prompt], limits, false);
    if outcome.Raised? {
      return Raised(outcome.error);
    }
    result := GenerateStructured(model);
  }

  // ------------------------------------------------------------------ the repair loop

  datatype Attempt = Attempt(outcomes: seq<TestOutcome>, recoverable: Option<bool>, toolCalls: nat)

  datatype RepairStop = TestsPassed | ToolBudgetExhausted | NoTestCommand | MaxIterations | Unrecoverable

  datatype RepairResult = RepairResult(succeeded: bool, attempts: seq<Attempt>, stoppedBecause: RepairStop)

  /** An attempt after which another one follows: it failed its tests and the analysis called that recoverable. */
  predicate Continues(a: Attempt) {
    a.outcomes != [] && !AllPassed(a.outcomes) && a.recoverable == Some(true)
  }

  /** What the last attempt looks like for each reason to stop. */
  predicate Stops(stop: RepairStop, last: Attempt, iteration: nat, maxIterations: nat) {
    match stop
    case TestsPassed => AllPassed(last.outcomes) && last.recoverable.None?
    case ToolBudgetExhausted => last.outcomes == [] && last.recoverable.None?
    case NoTestCommand => last.outcomes == [] && last.recoverable.None?
    case MaxIterations =>
      last.outcomes != [] && !AllPassed(last.outcomes) && last.recoverable.None? && iteration == maxIterations
    case Unrecoverable =>
      last.outcomes != [] && !AllPassed(last.outcomes) && last.recoverable == Some(false) && iteration < maxIterations
  }

  /** The tests run in each iteration, whatever the sandbox does with them. */
  type TestRuns = nat -> Suite

  ghost predicate TestedBy(tests: TestRuns, attempts: seq<Attempt>, untestedLast: bool) {
    forall i :: 0 <= i < |attempts| ==>
      attempts[i].outcomes == if untestedLast && i == |attempts| - 1 then [] else tests(i).Outcomes()
  }

  ghost predicate RepairOk(tests: TestRuns, maxIterations: nat, r: RepairResult) {
    && |r.attempts| <= maxIterations
    && (r.succeeded <==> r.stoppedBecause == TestsPassed)
    && (r.attempts == [] <==> maxIterations == 0)
    && (r.attempts == [] ==> r.stoppedBecause == MaxIterations)
    && (forall i :: 0 <= i < |r.attempts| - 1 ==> Continues(r.attempts[i]))
    && (r.attempts != [] ==> Stops(r.stoppedBecause, r.attempts[|r.attempts| - 1], |r.attempts|, maxIterations))
    && TestedBy(tests, r.attempts, r.stoppedBecause == ToolBudgetExhausted)
  }

  /** Attempts that all led to another one. */
  ghost predicate Underway(tests: TestRuns, attempts: seq<Attempt>) {
    forall i :: 0 <= i < |attempts| ==> Continues(attempts[i]) && attempts[i].outcomes == tests(i).Outcomes()
  }

  lemma EndsRepair(tests: TestRuns, maxIterations: nat, before: seq<Attempt>, last: Attempt, stop: RepairStop)
    requires Underway(tests, before) && |before| < maxIterations
    requires last.outcomes == if stop == ToolBudgetExhausted then [] else tests(|before|).Outcomes()
    requires Stops(stop, last, |before| + 1, maxIterations)
    ensures RepairOk(tests, maxIterations, RepairResult(stop == TestsPassed, before + [last], stop))
  {
  }

  /** How many model calls one attempt may make, and analysing its failure. */
  const CALLS_PER_ATTEMPT := DEFAULT_LIMITS.maxSteps
  const CALLS_PER_ANALYSIS := MAX_REPAIR_ATTEMPTS + 1

  /** Why the model's turns came to an end: twelve were made, it called no more tools, or a budget was gone. */
  ghost predicate EndedInTime(script: nat -> Response, from: nat, calls: nat, exhausted: bool) {
    && from < calls <= from + 12
    && (calls < from + 12 ==>
          exhausted || Spent(script, from, calls - from) > 200_000
          || (script(calls - 1).Answer? && script(calls - 1).toolCalls == []))
  }

  /** One iteration: apply changes, then run the tests unless the tool budget is gone. */
  method RunAttempt(model: LanguageModel, registry: ToolRegistry, context: ToolContext, suite: Suite)
    returns (attempt: Outcome<Attempt>, exhausted: bool, ghost turns: seq<Turn>)
    requires registry.Valid() && context.Valid()
    modifies model, context, context.workspace
    ensures Worked(context.ToPhase(registry.tools, true), old(context.ToBench()), turns, context.ToBench())
    ensures attempt.Value? ==>
              && attempt.value.toolCalls == |AllExecuted(turns)|
              && EndedInTime(model.script, old(model.calls), model.calls, exhausted)
    ensures context.Valid() && context.toolCallsUsed >= old(context.toolCallsUsed)
    ensures old(model.calls) < model.calls <= old(model.calls) + CALLS_PER_ATTEMPT
    ensures attempt.Raised? ==> model.LastAnswer().None?
    ensures attempt.Value? ==>
              && (exhausted <==> context.toolCallsUsed == context.maxToolCalls)
              && attempt.value.outcomes == (if exhausted then [] else suite.Outcomes())
              && attempt.value.recoverable.None?
  {
    exhausted := false;
    var outcome;
    outcome, turns := RunToolLoop(model, registry, context, [Prompt, Prompt], DEFAULT_LIMITS, true);
    if outcome.Raised? {
      return Raised(outcome.error), false, turns;
    }
    var calls := |outcome.value.toolCalls|;
    if context.toolCallsUsed >= context.maxToolCalls {
      return Value(Attempt([], None, calls)), true, turns;
    }
    var outcomes := RunTests(suite);
    attempt := Value(Attempt(outcomes, None, calls));
  }

  /**
   `implement_and_repair`: attempts go on while the tests fail and the analysis calls the failure
   recoverable; it ends for exactly the stated reason, and with n >= 1 iterations after at most
   12n + 3(n - 1) model calls, whatever the model answers.
   */
  method ImplementAndRepair(model: LanguageModel, registry: ToolRegistry, context: ToolContext, tests: TestRuns,
                            maxIterations: nat)
    returns (result: Outcome<RepairResult>)
    requires registry.Valid() && context.Valid()
    modifies model, context, context.workspace
    ensures context.Valid() && context.toolCallsUsed >= old(context.toolCallsUsed)
    ensures model.calls >= old(model.calls)
    ensures maxIterations == 0 ==> model.calls == old(model.calls)
    ensures maxIterations >= 1 ==>
              model.calls
              <= old(model.calls) + CALLS_PER_ATTEMPT * maxIterations + CALLS_PER_ANALYSIS * (maxIterations - 1)
    ensures result.Value? ==> RepairOk(tests, maxIterations, result.value)
    ensures result.Raised? ==> model.calls > old(model.calls) && model.LastAnswer().None?
    ensures result.Value? ==> model.calls - old(model.calls) >= |result.value.attempts|
    ensures result.Value? && result.value.stoppedBecause == ToolBudgetExhausted ==>
            context.toolCallsUsed == context.maxToolCalls
  {
    var attempts: seq<Attempt> := [];
    for iteration := 1 to maxIterations + 1
      invariant context.Valid() && context.toolCallsUsed >= old(context.toolCallsUsed)
      invariant old(model.calls) + iteration - 1 <= model.calls <= old(model.calls) + 15 * (iteration - 1)
      invariant iteration == maxIterations + 1 ==> maxIterations == 0
      invariant |attempts| == iteration - 1 && Underway(tests, attempts)
    {
      var ended;
      ended, attempts := NextAttempt(model, registry, context, tests, iteration, maxIterations, attempts);
      if ended.Some? {
        return ended.value;
      }
    }
    result := Value(RepairResult(false, attempts, MaxIterations));
  }

  /** One iteration and the analysis of its failure: how it ends the repair, or the attempts so far. */
  method NextAttempt(model: LanguageModel, registry: ToolRegistry, context: ToolContext, tests: TestRuns,
                     iteration: nat, maxIterations: nat, before: seq<Attempt>)
    returns (ended: Option<Outcome<RepairResult>>, attempts: seq<Attempt>)
    requires registry.Valid() && context.Valid()
    requires |before| == iteration - 1 < maxIterations && Underway(tests, before)
    modifies model, context, context.workspace
    ensures context.Valid() && context.toolCallsUsed >= old(context.toolCallsUsed)
    ensures old(model.calls) < model.calls <= old(model.calls) + (if iteration == maxIterations then 12 else 15)
    ensures ended.None? ==> |attempts| == iteration < maxIterations && Underway(tests, attempts)
    ensures ended.Some? ==>
              match ended.value
              case Raised(_) => model.LastAnswer().None?
              case Value(r) =>
                && RepairOk(tests, maxIterations, r) && |r.attempts| == iteration
                && (r.stoppedBecause == ToolBudgetExhausted ==> context.toolCallsUsed == context.maxToolCalls)
  {
    attempts := before;
    var attempt, exhausted, turns := RunAttempt(model, registry, context, tests(iteration - 1));
    if attempt.Raised? {
      return Some(Raised(attempt.error)), attempts;
    }
    var stop := StopNow(attempt.value, exhausted, iteration == maxIterations);
    if stop.Some? {
      EndsRepair(tests, maxIterations, before, attempt.value, stop.value);
      return Some(Value(RepairResult(stop.value == TestsPassed, before + [attempt.value], stop.value))), attempts;
    }
    var analysis := GenerateStructured(model);
    if analysis.Raised? {
      return Some(Raised(analysis.error)), attempts;
    }
    var analysed := attempt.value.(recoverable := Some(analysis.value));
    attempts := before + [analysed];
    if !analysis.value {
      EndsRepair(tests, maxIterations, before, analysed, Unrecoverable);
      return Some(Value(RepairResult(false, attempts, Unrecoverable))), attempts;
    }
    ended := None;
  }

  /** The checks made between running the tests and analysing a failure, in this order. */
  function StopNow(attempt: Attempt, exhausted: bool, lastIteration: bool): Option<RepairStop> {
    if exhausted then Some(ToolBudgetExhausted)
    else if AllPassed(attempt.outcomes) then Some(TestsPassed)
    else if attempt.outcomes == [] then Some(NoTestCommand)
    else if lastIteration then Some(MaxIterations)
    else None
  }

  /** The evidence a repair leaves behind: its verdict is clean evidence from real runs. */
  lemma SuccessIsCleanEvidence(tests: TestRuns, maxIterations: nat, r: RepairResult)
    requires RepairOk(tests, maxIterations, r)
    ensures r.succeeded <==> r.attempts != [] && AllPassed(r.attempts[|r.attempts| - 1].outcomes)
    ensures r.succeeded ==> CleanEvidence(r.attempts[|r.attempts| - 1].outcomes)
    ensures forall i :: 0 <= i < |r.attempts| - 1 ==>
              && r.attempts[i].outcomes != [] && !AllPassed(r.attempts[i].outcomes)
              && r.attempts[i].recoverable == Some(true)
  {
    if r.attempts != [] && r.stoppedBecause != ToolBudgetExhausted {
      var n := |r.attempts| - 1;
      SuiteVerdict(tests(n));
      AllPassedIsCleanEvidence(tests(n).Outcomes());
      assert r.attempts[n].outcomes == tests(n).Outcomes();
    }
  }
}
