/**
 The tool registry and its executor (backend/app/agent/tools/base.py), over the write tools of
 module Editing and read-only tools whose answers come from outside.
 */
module Tools {
  import opened Basics
  import opened Texts
  import opened Editing

  /** Raw arguments as the model wrote them; validating them is the tool's own function. */
  type Raw = string

  datatype Tool =
    | ReadTool(name: string, accepts: Raw -> bool)
    | WriteTool(name: string, parse: Raw -> Option<Edit>)
  {
    predicate Mutating() {
      WriteTool?
    }

    predicate Accepts(raw: Raw) {
      if ReadTool? then accepts(raw) else parse(raw).Some?
    }
  }

  datatype Code =
    | BudgetExceeded | UnknownTool | NotPermitted | InvalidArguments
    | Timeout | Refused | Crashed | EditFailed(error: ErrorCode) | ReadFailed

  /** None is success. */
  type ToolResult = Option<Code>

  datatype ToolCall = ToolCall(id: string, name: string, arguments: Raw)

  /** What the surroundings decide about one executed call. */
  datatype World = World(env: Env, answer: ToolResult)

  /** Schema validation: a snippet to search for is at least one character long. */
  ghost predicate ParsesEdits(t: Tool) {
    t.WriteTool? ==>
      forall raw: Raw :: t.parse(raw).Some? && t.parse(raw).value.Replace? ==> t.parse(raw).value.find != ""
  }

  /** Why a call is refused before its handler is asked; the checks are made in this order. */
  function Refuses(tools: map<string, Tool>, used: nat, max: nat, call: ToolCall, allowMutating: bool): Option<Code> {
    if used >= max then Some(BudgetExceeded)
    else if call.name !in tools then Some(UnknownTool)
    else if tools[call.name].Mutating() && !allowMutating then Some(NotPermitted)
    else if !tools[call.name].Accepts(call.arguments) then Some(InvalidArguments)
    else None
  }

  /**
   A call is carried out exactly when the budget is not used up, the tool exists, the phase permits it and
   its arguments are valid; and of the reasons against, the first in this order is reported.
   */
  lemma RefusedWhen(tools: map<string, Tool>, used: nat, max: nat, call: ToolCall, allowMutating: bool)
    ensures var code := Refuses(tools, used, max, call, allowMutating);
            var known := used < max && call.name in tools;
            var permitted := known && (tools[call.name].WriteTool? ==> allowMutating);
            && (code == Some(BudgetExceeded) <==> used >= max)
            && (code == Some(UnknownTool) <==> used < max && call.name !in tools)
            && (code == Some(NotPermitted) <==> known && tools[call.name].WriteTool? && !allowMutating)
            && (code == Some(InvalidArguments) <==> permitted && !IsValid(tools[call.name], call.arguments))
            && (code.None? <==> permitted && IsValid(tools[call.name], call.arguments))
  {
  }

  predicate IsValid(tool: Tool, arguments: Raw) {
    match tool
    case ReadTool(_, accepts) => accepts(arguments)
    case WriteTool(_, parse) => parse(arguments).Some?
  }

  // ------------------------------------------------------------------ what calls do to the workspace

  /** How many calls were executed so far, and what they have left of the workspace and its log. */
  datatype Bench = Bench(used: nat, desk: Desk)

  ghost predicate AllParse(tools: map<string, Tool>) {
    forall name :: name in tools ==> ParsesEdits(tools[name])
  }

  /** What a phase gives its calls: the tools, the budget, whether they may write, and the surroundings. */
  datatype Phase = Phase(tools: map<string, Tool>, max: nat, allowMutating: bool, outside: nat -> World)

  /** One call: refused without effect, or counted, and an edit is performed. */
  ghost function Called(p: Phase, b: Bench, call: ToolCall): Bench
    requires AllParse(p.tools)
  {
    if b.used >= p.max || call.name !in p.tools || !IsValid(p.tools[call.name], call.arguments) then b
    else
      match p.tools[call.name]
      case ReadTool(_, _) => Bench(b.used + 1, b.desk)
      case WriteTool(_, parse) =>
        assert ParsesEdits(p.tools[call.name]);
        if !p.allowMutating then b
        else Bench(b.used + 1, Perform(b.desk, parse(call.arguments).value, p.outside(b.used).env))
  }

  /** Calls one after another. */
  ghost function CalledAll(p: Phase, b: Bench, calls: seq<ToolCall>): Bench
    requires AllParse(p.tools)
  {
    if calls == [] then b else Called(p, CalledAll(p, b, calls[..|calls| - 1]), calls[|calls| - 1])
  }

  lemma {:induction false} CalledInParts(p: Phase, b: Bench, a: seq<ToolCall>, c: seq<ToolCall>)
    requires AllParse(p.tools)
    ensures CalledAll(p, b, a + c) == CalledAll(p, CalledAll(p, b, a), c)
  {
    if c == [] {
      assert a + c == a;
    } else {
      assert (a + c)[..|a + c| - 1] == a + c[..|c| - 1];
      CalledInParts(p, b, a, c[..|c| - 1]);
    }
  }

  /** What the calls leave is what some edits, one after another, leave of the same workspace. */
  lemma {:induction false} CallsAreEdits(p: Phase, b: Bench, calls: seq<ToolCall>) returns (edits: seq<Call>)
    requires AllParse(p.tools)
    ensures ValidCalls(edits) && CalledAll(p, b, calls).desk == PerformAll(b.desk, edits)
    ensures |edits| <= |calls| && (!p.allowMutating ==> edits == [])
    ensures CalledAll(p, b, calls).used <= b.used + |calls|
  {
    if calls == [] {
      edits := [];
    } else {
      var before, last := calls[..|calls| - 1], calls[|calls| - 1];
      edits := CallsAreEdits(p, b, before);
      var c := CalledAll(p, b, before);
      if Called(p, c, last).desk != c.desk {
        var edit := Call(p.tools[last.name].parse(last.arguments).value, p.outside(c.used).env);
        assert ParsesEdits(p.tools[last.name]);
        assert (edits + [edit])[..|edits|] == edits;
        edits := edits + [edit];
      }
    }
  }

  /** Everything a tool may know about the run. */
  class ToolContext {
    const workspace: Workspace
    var toolCallsUsed: nat
    const maxToolCalls: nat
    /** How the surroundings answer the n-th executed call. */
    const outside: nat -> World

    ghost predicate Valid()
      reads this, workspace
    {
      workspace.Valid() && toolCallsUsed <= maxToolCalls
    }

    /** How many calls were executed, and the workspace as they left it. */
    ghost function ToBench(): Bench
      reads this, workspace
    {
      Bench(toolCallsUsed, workspace.View())
    }

    ghost function ToPhase(tools: map<string, Tool>, allowMutating: bool): Phase {
      Phase(tools, maxToolCalls, allowMutating, outside)
    }

    constructor (workspace: Workspace, maxToolCalls: nat, outside: nat -> World)
      requires workspace.Valid()
      ensures Valid() && this.workspace == workspace && this.maxToolCalls == maxToolCalls && this.outside == outside
      ensures toolCallsUsed == 0
    {
      this.workspace := workspace;
      this.outside := outside;
      this.maxToolCalls := maxToolCalls;
      toolCallsUsed := 0;
    }
  }

  class ToolRegistry {
    var tools: map<string, Tool>

    ghost predicate Valid()
      reads this
    {
      AllParse(tools) && forall name :: name in tools ==> tools[name].name == name
    }

    constructor ()
      ensures Valid() && tools == map[]
    {
      tools := map[];
    }

    /** A second tool of the same name is an error, and changes nothing. */
    method Register(tool: Tool) returns (ok: bool)
      requires Valid() && ParsesEdits(tool)
      modifies this
      ensures Valid()
      ensures ok <==> tool.name !in old(tools)
      ensures tools == if ok then old(tools)[tool.name := tool] else old(tools)
    {
      ok := tool.name !in tools;
      if ok {
        tools := tools[tool.name := tool];
      }
    }

    /** `schemas`: the model is told of a tool exactly when `execute` would let this phase run it. */
    method Schemas(includeMutating: bool) returns (names: seq<string>)
      requires Valid()
      ensures forall i, j :: 0 <= i < j < |names| ==> Before(names[i], names[j])
      ensures forall n :: n in names <==> n in tools && (includeMutating || !tools[n].Mutating())
      ensures forall call: ToolCall, used: nat, max: nat :: used < max ==>
                (call.name in names <==>
                   Refuses(tools, used, max, call, includeMutating) !in {Some(UnknownTool), Some(NotPermitted)})
    {
      names := Sorted(set n | n in tools && (includeMutating || !tools[n].Mutating()));
    }

    /**
     `execute`: a refused call has no effect at all; any other counts against the budget, and only
     a permitted write tool can touch the workspace, by exactly its edit.
     */
    method Execute(context: ToolContext, call: ToolCall, allowMutating: bool) returns (result: ToolResult)
      requires Valid() && context.Valid()
      modifies context, context.workspace
      ensures context.Valid()
      ensures var refusal := Refuses(tools, old(context.toolCallsUsed), context.maxToolCalls, call, allowMutating);
              var env := context.outside(old(context.toolCallsUsed)).env;
              && (refusal.Some? ==> result == refusal)
              && context.toolCallsUsed == old(context.toolCallsUsed) + (if refusal.Some? then 0 else 1)
              && (result == Some(BudgetExceeded) <==> refusal == Some(BudgetExceeded))
              && (refusal.None? && tools[call.name].WriteTool? ==>
                    && context.workspace.View() == Perform(old(context.workspace.View()),
                                                           tools[call.name].parse(call.arguments).value, env)
                    && (result.None? <==> Refusal(old(context.workspace.files),
                                                  tools[call.name].parse(call.arguments).value, env).None?))
              && (refusal.None? && tools[call.name].ReadTool? ==>
                    var answer := context.outside(old(context.toolCallsUsed)).answer;
                    result == if answer == Some(BudgetExceeded) then Some(ReadFailed) else answer)
              && (refusal.Some? || tools[call.name].ReadTool? ==>
                  context.workspace.View() == old(context.workspace.View()))
      ensures !allowMutating ==> context.workspace.View() == old(context.workspace.View())
      ensures context.ToBench() == Called(context.ToPhase(tools, allowMutating), old(context.ToBench()), call)
    {
      if context.toolCallsUsed >= context.maxToolCalls {
        return Some(BudgetExceeded);
      }
      if call.name !in tools {
        return Some(UnknownTool);
      }
      var tool := tools[call.name];
      if tool.Mutating() && !allowMutating {
        return Some(NotPermitted);
      }
      if !tool.Accepts(call.arguments) {
        return Some(InvalidArguments);
      }
      var world := context.outside(context.toolCallsUsed);
      context.toolCallsUsed := context.toolCallsUsed + 1;
      match tool {
        case ReadTool(_, _) =>
          result := if world.answer == Some(BudgetExceeded) then Some(ReadFailed) else world.answer;
        case WriteTool(_, parse) =>
          assert ParsesEdits(tool);
          result := Apply(context.workspace, parse(call.arguments).value, world.env);
      }
    }

    static method Apply(workspace: Workspace, edit: Edit, env: Env) returns (result: ToolResult)
      requires workspace.Valid() && (edit.Replace? ==> edit.find != "")
      modifies workspace
      ensures workspace.Valid() && workspace.View() == Perform(old(workspace.View()), edit, env)
      ensures result.None? <==> Refusal(old(workspace.files), edit, env).None?
      ensures var code := Refusal(old(workspace.files), edit, env);
              && (result == Some(Refused) <==> code == Some(SafetyRefused))
              && (result == Some(Crashed) <==> code == Some(ToolError))
              && (result.Some? && result.value !in {Refused, Crashed} ==>
                    code.Some? && result == Some(EditFailed(code.value)))
    {
      var error;
      match edit {
        case Write(path, content) => error := workspace.WriteFile(path, content, env);
        case Replace(path, find, replacement) => error := workspace.ReplaceInFile(path, find, replacement, env);
        case Delete(path) => error := workspace.DeleteFile(path, env);
      }
      result := match error
        case None => None
        case Some(SafetyRefused) => Some(Refused)
        case Some(ToolError) => Some(Crashed)
        case Some(code) => Some(EditFailed(code));
    }
  }
}
