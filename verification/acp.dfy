/**
 * The Agent Client Protocol bridge (`MiniMaxACPAgent`): prompt text extraction, tool-argument
 * summaries, the session table, and the step-bounded turn loop `_run_turn`.
 *
 * The model, the tools and cancellation are oracles gathered in a `World`: the decoded reply
 * the model request of each step receives, the outcome of each tool execution, and whether a
 * cancel notification arrives while a step's model call or tool calls are in flight.
 * `_send` appends to the turn's update log.
 */
module Acp {
  import opened Wrappers
  import opened Strings
  import opened Schema
  import opened Wire
  import opened LlmClient

  /** A content block of a prompt request; `text` is absent on blocks that carry none. */
  datatype PromptBlock = PromptBlock(text: Option<string>)

  function BlockTexts(blocks: seq<PromptBlock>): (ts: seq<string>)
    ensures |ts| == |blocks|
  {
    seq(|blocks|, i requires 0 <= i < |blocks| => blocks[i].text.GetOr(""))
  }

  /** `acp_to_text`: the blocks' texts, "" for a block without text, joined by newlines. */
  function AcpToText(blocks: seq<PromptBlock>): string
  {
    Join("\n", BlockTexts(blocks))
  }

  /** Longest rendering of one argument value shown before it is cut. */
  const ValueLimit: nat := 48
  /** Characters of a long rendering kept before the "..." marker. */
  const ValueKeep: nat := 45
  /** At most this many arguments are shown. */
  const MaxShownArgs: nat := 3

  /** A value rendering, cut to its first 45 characters plus "..." when longer than 48. */
  function Clip(t: string): string
  {
    if |t| > ValueLimit then t[..ValueKeep] + "..." else t
  }

  /** `key=value` for one argument, the value rendered by `repr` and clipped. */
  function ArgPart(arg: (string, Value), repr: Value -> string): string
  {
    arg.0 + "=" + Clip(repr(arg.1))
  }

  function ArgParts(args: Args, repr: Value -> string): (ps: seq<string>)
    ensures |ps| == |args|
  {
    seq(|args|, i requires 0 <= i < |args| => ArgPart(args[i], repr))
  }

  function Min(a: int, b: int): int
  {
    if a <= b then a else b
  }

  /** The argument summary: the first three arguments' parts, joined by ", ". */
  function SummarizeArgs(args: Args, repr: Value -> string): string
  {
    Join(", ", ArgParts(args[..Min(MaxShownArgs, |args|)], repr))
  }

  /** `_format_tool_args`, as the source computes it: a loop that stops after the third part. */
  method FormatToolArgs(args: Args, repr: Value -> string) returns (r: string)
    ensures r == SummarizeArgs(args, repr)
    ensures r == "" <==> |args| == 0
  {
    if |args| == 0 {
      assert ArgParts(args[..0], repr) == [];
      return "";
    }
    var parts: seq<string> := [];
    var i := 0;
    while i < |args|
      invariant 0 <= i <= |args| && i < MaxShownArgs
      invariant parts == ArgParts(args[..i], repr)
    {
      parts := parts + [ArgPart(args[i], repr)];
      i := i + 1;
      assert args[..i] == args[..i - 1] + [args[i - 1]];
      if |parts| == MaxShownArgs {
        break;
      }
    }
    assert i == Min(MaxShownArgs, |args|);
    assert parts == ArgParts(args[..Min(MaxShownArgs, |args|)], repr);
    r := Join(", ", parts);
    JoinStartsWithFirst(", ", parts);
  }

  lemma JoinStartsWithFirst(sep: string, parts: seq<string>)
    requires |parts| > 0
    ensures StartsWith(Join(sep, parts), parts[0])
  {
    if |parts| > 1 {
      ConcatEnds(parts[0], sep + Join(sep, parts[1..]));
      assert Join(sep, parts) == parts[0] + (sep + Join(sep, parts[1..]));
    }
  }

  /** The label of a tool-call start update: `name(summary)`, or `name()` without a summary. */
  function Label(name: string, summary: string): string
  {
    if summary != "" then name + "(" + summary + ")" else name + "()"
  }

  /** Per-session state: the agent's conversation, its tools and step bound, and the cancel flag. */
  datatype Session = Session(messages: seq<Message>, tools: seq<ToolSchema>, maxSteps: nat, cancelled: bool)

  /** The bridge: the session table and the model client all sessions share. */
  datatype Bridge = Bridge(sessions: map<string, Session>, llm: Client)

  datatype ToolStatus = Completed | Failed

  /** A session update streamed to the client during a turn. */
  datatype Update =
    | AgentThought(text: string)
    | AgentMessage(text: string)
    | ToolCallStart(callId: string, title: string, rawInput: Args)
    | ToolCallProgress(callId: string, status: ToolStatus, text: string)

  datatype StopReason = EndTurn | Refusal | Cancelled | MaxTurnRequests

  datatype ToolResult = ToolResult(success: bool, content: string, error: Option<string>)

  /** What executing a tool did: it returned a result, or it raised with a message. */
  datatype ToolOutcome = Returned(result: ToolResult) | Raised(message: string)

  /** The oracles a turn consults; step and call numbers start at 0 within the turn. */
  datatype World = World(
    replies: nat -> Reply,                  // reply to the model request of step k
    toolOutcome: (nat, nat) -> ToolOutcome, // outcome of executing call j of step k
    cancelDuringCall: nat -> bool,          // a cancel arrives during step k's model call
    cancelDuringTools: nat -> bool,         // a cancel arrives during step k's tool calls
    repr: Value -> string)                  // Python's `repr` of an argument value

  function ToolNames(tools: seq<ToolSchema>): set<string>
  {
    set t | t in tools :: t.name
  }

  /** Status and result text of one call: unknown tools and failures are reported, never raised. */
  function Dispatch(known: bool, name: string, outcome: ToolOutcome): (ToolStatus, string)
  {
    if !known then (Failed, "Unknown tool: " + name)
    else
      match outcome
      case Raised(e) => (Failed, "Tool error: " + e)
      case Returned(res) =>
        if res.success then (Completed, res.content)
        else (Failed, if Present(res.error) then res.error.value else "Tool execution failed")
  }

  /** The state a turn threads through its steps. */
  datatype TurnState = TurnState(messages: seq<Message>, updates: seq<Update>, cancelled: bool, llm: Client)

  /** The tool messages and updates a batch of calls adds. */
  datatype ToolEffects = ToolEffects(messages: seq<Message>, updates: seq<Update>)

  /** What call `j` of step `step` adds: its tool message, and its start and result updates. */
  function CallEffects(w: World, tools: seq<ToolSchema>, step: nat, call: ToolCall, j: nat): (fx: ToolEffects)
    ensures |fx.messages| == 1 && |fx.updates| == 2
  {
    var d := Dispatch(call.name in ToolNames(tools), call.name, w.toolOutcome(step, j));
    ToolEffects(
      [ToolMessage(d.1, call.id, call.name)],
      [ToolCallStart(call.id, Label(call.name, SummarizeArgs(call.arguments, w.repr)), call.arguments),
       ToolCallProgress(call.id, d.0, d.1)])
  }

  /** Dispatches calls `j..` of step `step` in order; a failing call never stops the batch. */
  function RunCalls(w: World, tools: seq<ToolSchema>, step: nat, calls: seq<ToolCall>, j: nat): ToolEffects
    requires j <= |calls|
    decreases |calls| - j
  {
    if j == |calls| then ToolEffects([], [])
    else
      var fx := CallEffects(w, tools, step, calls[j], j);
      var rest := RunCalls(w, tools, step, calls, j + 1);
      ToolEffects(fx.messages + rest.messages, fx.updates + rest.updates)
  }

  /** The thought update if there is thinking, then the message update if there is content. */
  function ResponseUpdates(r: LLMResponse): seq<Update>
  {
    (if Present(r.thinking) then [AgentThought(r.thinking.value)] else [])
    + (if r.content != "" then [AgentMessage(r.content)] else [])
  }

  datatype StepResult = Continue(state: TurnState) | Stop(state: TurnState, reason: StopReason)

  /** One iteration of the turn loop. */
  function RunStep(w: World, tools: seq<ToolSchema>, step: nat, s: TurnState): StepResult
  {
    if s.cancelled then Stop(s, Cancelled)
    else
      var g := Generate(s.llm, s.messages, tools, w.replies(step));
      var flag := w.cancelDuringCall(step);
      match g.outcome
      case Failure(e) =>
        Stop(TurnState(s.messages, s.updates + [AgentMessage("Error: " + e)], flag, g.client), Refusal)
      case Success(resp) =>
        if flag then Stop(TurnState(s.messages, s.updates, true, g.client), Cancelled)
        else
          var msgs := s.messages + [AssistantMessage(resp)];
          var upd := s.updates + ResponseUpdates(resp);
          if !HasCalls(resp.toolCalls) then Stop(TurnState(msgs, upd, false, g.client), EndTurn)
          else
            var fx := RunCalls(w, tools, step, resp.toolCalls.value, 0);
            Continue(TurnState(msgs + fx.messages, upd + fx.updates, w.cancelDuringTools(step), g.client))
  }

  /** How a turn ended, and how many loop iterations it entered. */
  datatype TurnEnd = TurnEnd(state: TurnState, reason: StopReason, steps: nat)

  /** `_run_turn` from iteration `step` on: at most `maxSteps - step` more iterations. */
  function RunTurn(w: World, tools: seq<ToolSchema>, maxSteps: nat, step: nat, s: TurnState): (e: TurnEnd)
    requires step <= maxSteps
    ensures s.messages <= e.state.messages && s.updates <= e.state.updates
    ensures e.steps <= maxSteps - step
    ensures e.reason == MaxTurnRequests ==> step + e.steps == maxSteps
    ensures e.reason != MaxTurnRequests ==> e.steps >= 1
    decreases maxSteps - step
  {
    if step == maxSteps then TurnEnd(s, MaxTurnRequests, 0)
    else
      match RunStep(w, tools, step, s)
      case Stop(s', r) => TurnEnd(s', r, 1)
      case Continue(s') =>
        var e := RunTurn(w, tools, maxSteps, step + 1, s');
        TurnEnd(e.state, e.reason, e.steps + 1)
  }

  datatype PromptResult = PromptResult(bridge: Bridge, reason: StopReason, updates: seq<Update>)

  /**
   * `prompt`: an unknown session is refused and nothing changes; otherwise the cancel flag is
   * cleared, the prompt text is appended as a user message, and a turn runs on the session.
   */
  function Prompt(b: Bridge, sid: string, blocks: seq<PromptBlock>, w: World): (r: PromptResult)
    ensures sid !in b.sessions ==> r == PromptResult(b, Refusal, [])
    ensures r.bridge.sessions.Keys == b.sessions.Keys
    ensures forall id :: id in b.sessions && id != sid ==> r.bridge.sessions[id] == b.sessions[id]
    ensures sid in b.sessions ==>
              && b.sessions[sid].messages + [UserMessage(AcpToText(blocks))] <= r.bridge.sessions[sid].messages
              && r.bridge.sessions[sid].tools == b.sessions[sid].tools
              && r.bridge.sessions[sid].maxSteps == b.sessions[sid].maxSteps
  {
    if sid !in b.sessions then PromptResult(b, Refusal, [])
    else
      var sess := b.sessions[sid];
      var start := TurnState(sess.messages + [UserMessage(AcpToText(blocks))], [], false, b.llm);
      var e := RunTurn(w, sess.tools, sess.maxSteps, 0, start);
      var sess' := sess.(messages := e.state.messages, cancelled := e.state.cancelled);
      PromptResult(Bridge(b.sessions[sid := sess'], e.state.llm), e.reason, e.state.updates)
  }

  /** `cancel`: flags a known session; an unknown id changes nothing. */
  function Cancel(b: Bridge, sid: string): (r: Bridge)
    ensures sid !in b.sessions ==> r == b
    ensures r.llm == b.llm && r.sessions.Keys == b.sessions.Keys
    ensures sid in b.sessions ==> r.sessions[sid] == b.sessions[sid].(cancelled := true)
    ensures forall id :: id in b.sessions && id != sid ==> r.sessions[id] == b.sessions[id]
  {
    if sid in b.sessions then b.(sessions := b.sessions[sid := b.sessions[sid].(cancelled := true)]) else b
  }
}
