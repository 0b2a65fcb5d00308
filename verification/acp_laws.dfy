/**
 * Properties of the protocol bridge: prompt text, argument summaries, what one step and a
 * whole turn do to the conversation, and the offline scenarios of the stub model.
 */
module AcpLaws {
  import opened Wrappers
  import opened Strings
  import opened Schema
  import opened Wire
  import opened LlmClient
  import opened Acp

  // ---------------------------------------------------------------- prompt text

  /** Prompt text splits back into its blocks' texts when no text holds a newline. */
  lemma AcpToTextSplits(blocks: seq<PromptBlock>)
    requires |blocks| >= 1
    requires forall k :: 0 <= k < |blocks| && blocks[k].text.Some? ==> '\n' !in blocks[k].text.value
    ensures Split(AcpToText(blocks), '\n') == BlockTexts(blocks)
    ensures |Split(AcpToText(blocks), '\n')| == |blocks|
  {
    var ts := BlockTexts(blocks);
    forall k | 0 <= k < |ts|
      ensures '\n' !in ts[k]
    {
      assert ts[k] == blocks[k].text.GetOr("");
    }
    SplitJoin(ts, '\n');
  }

  /** A single text block is passed through unchanged; no blocks give the empty text. */
  lemma AcpToTextEdges(t: string)
    ensures AcpToText([PromptBlock(Some(t))]) == t
    ensures AcpToText([PromptBlock(None)]) == ""
    ensures AcpToText([]) == ""
  {
    assert BlockTexts([PromptBlock(Some(t))]) == [t];
    assert BlockTexts([PromptBlock(None)]) == [""];
  }

  // ---------------------------------------------------------------- argument summaries

  /** A clipped rendering is at most 48 long, and a cut one keeps a 45-character prefix. */
  lemma ClipBound(t: string)
    ensures |Clip(t)| <= ValueLimit
    ensures |t| <= ValueLimit ==> Clip(t) == t
    ensures |t| > ValueLimit ==>
              |Clip(t)| == ValueLimit && StartsWith(t, Clip(t)[..ValueKeep]) && EndsWith(Clip(t), "...")
  {
    if |t| > ValueLimit {
      assert Clip(t)[..ValueKeep] == t[..ValueKeep];
      ConcatEnds(t[..ValueKeep], "...");
    }
  }

  /** Each shown argument starts with its key and an equals sign, and is bounded in length. */
  lemma ArgPartShape(arg: (string, Value), repr: Value -> string)
    ensures StartsWith(ArgPart(arg, repr), arg.0 + "=")
    ensures |ArgPart(arg, repr)| <= |arg.0| + 1 + ValueLimit
  {
    ClipBound(repr(arg.1));
    ConcatEnds(arg.0 + "=", Clip(repr(arg.1)));
  }

  /** Arguments after the third never influence the summary. */
  lemma SummaryIgnoresLaterArgs(args: Args, more: Args, repr: Value -> string)
    requires |args| >= MaxShownArgs
    ensures SummarizeArgs(args + more, repr) == SummarizeArgs(args, repr)
  {
    assert (args + more)[..MaxShownArgs] == args[..MaxShownArgs];
  }

  /** The summary of up to three arguments shows every one of them, in order. */
  lemma SummaryShowsFirstArgs(args: Args, repr: Value -> string)
    requires 1 <= |args| <= MaxShownArgs
    ensures SummarizeArgs(args, repr) == Join(", ", ArgParts(args, repr))
    ensures StartsWith(SummarizeArgs(args, repr), args[0].0 + "=")
  {
    assert args[..|args|] == args;
    JoinStartsWithFirst(", ", ArgParts(args, repr));
    ArgPartShape(args[0], repr);
    var p := ArgParts(args, repr)[0];
    var j := SummarizeArgs(args, repr);
    assert j[..|p|] == p;
    assert j[..|args[0].0 + "="|] == p[..|args[0].0 + "="|];
  }

  /** Both label forms agree: a tool-call title is always `name(summary)`. */
  lemma LabelIsCallForm(name: string, summary: string)
    ensures Label(name, summary) == name + "(" + summary + ")"
  {
  }

  // ---------------------------------------------------------------- dispatch

  /**
   * A call completes exactly when the tool is known and returned success; every other case
   * is reported as a failed result with the matching text rather than raised.
   */
  lemma DispatchReports(known: bool, name: string, outcome: ToolOutcome)
    ensures Dispatch(known, name, outcome).0 == Completed <==>
              known && outcome.Returned? && outcome.result.success
    ensures !known ==> Dispatch(known, name, outcome).1 == "Unknown tool: " + name
    ensures known && outcome.Raised? ==> Dispatch(known, name, outcome).1 == "Tool error: " + outcome.message
    ensures known && outcome.Returned? && outcome.result.success ==>
              Dispatch(known, name, outcome).1 == outcome.result.content
    ensures known && outcome.Returned? && !outcome.result.success && !Present(outcome.result.error) ==>
              Dispatch(known, name, outcome).1 == "Tool execution failed"
    ensures known && outcome.Returned? && !outcome.result.success && Present(outcome.result.error) ==>
              Dispatch(known, name, outcome).1 == outcome.result.error.value
  {
  }

  /** Each call is answered by a tool message carrying its id, its name and its dispatch text. */
  lemma CallEffectsShape(w: World, tools: seq<ToolSchema>, step: nat, call: ToolCall, j: nat)
    ensures var fx := CallEffects(w, tools, step, call, j);
      var d := Dispatch(call.name in ToolNames(tools), call.name, w.toolOutcome(step, j));
      && fx.messages[0] == ToolMessage(d.1, call.id, call.name)
      && fx.updates[0].ToolCallStart? && fx.updates[0].callId == call.id
      && fx.updates[0].title == Label(call.name, SummarizeArgs(call.arguments, w.repr))
      && fx.updates[1] == ToolCallProgress(call.id, d.0, d.1)
  {
  }

  /** A batch adds one tool message per call, in call order. */
  lemma {:induction false} RunCallsMessages(w: World, tools: seq<ToolSchema>, step: nat, calls: seq<ToolCall>, j: nat)
    requires j <= |calls|
    ensures var fx := RunCalls(w, tools, step, calls, j);
      && |fx.messages| == |calls| - j
      && forall k :: 0 <= k < |fx.messages| ==>
           fx.messages[k] == CallEffects(w, tools, step, calls[j + k], j + k).messages[0]
    decreases |calls| - j
  {
    if j < |calls| {
      RunCallsMessages(w, tools, step, calls, j + 1);
      var rest := RunCalls(w, tools, step, calls, j + 1);
      var fx := RunCalls(w, tools, step, calls, j);
      forall k | 1 <= k < |fx.messages|
        ensures fx.messages[k] == rest.messages[k - 1]
      {
      }
    }
  }

  /** A batch adds a start update and then a result update per call, in call order. */
  lemma {:induction false} RunCallsUpdates(w: World, tools: seq<ToolSchema>, step: nat, calls: seq<ToolCall>, j: nat)
    requires j <= |calls|
    ensures var fx := RunCalls(w, tools, step, calls, j);
      && |fx.updates| == 2 * (|calls| - j)
      && forall i :: 0 <= i < |fx.updates| ==>
           fx.updates[i] == CallEffects(w, tools, step, calls[j + i / 2], j + i / 2).updates[i % 2]
    decreases |calls| - j
  {
    if j < |calls| {
      RunCallsUpdates(w, tools, step, calls, j + 1);
      var rest := RunCalls(w, tools, step, calls, j + 1);
      var fx := RunCalls(w, tools, step, calls, j);
      forall i | 2 <= i < |fx.updates|
        ensures fx.updates[i] == rest.updates[i - 2] && (i - 2) / 2 == i / 2 - 1 && (i - 2) % 2 == i % 2
      {
      }
    }
  }

  // ---------------------------------------------------------------- one step

  /** A step never ends the turn for running out of steps. */
  lemma StepNeverExhausts(w: World, tools: seq<ToolSchema>, step: nat, s: TurnState)
    ensures RunStep(w, tools, step, s).Stop? ==> RunStep(w, tools, step, s).reason != MaxTurnRequests
    ensures s.cancelled ==> RunStep(w, tools, step, s) == Stop(s, Cancelled)
  {
  }

  /**
   * A refusal comes only from a failed model call in online mode: the conversation is left
   * as it was and exactly one message update, starting with "Error: ", is streamed.
   */
  lemma StepRefusal(w: World, tools: seq<ToolSchema>, step: nat, s: TurnState)
    requires RunStep(w, tools, step, s) == Stop(RunStep(w, tools, step, s).state, Refusal)
    ensures !s.cancelled && !s.llm.offline
    ensures RunStep(w, tools, step, s).state.messages == s.messages
    ensures var u := RunStep(w, tools, step, s).state.updates;
      |u| == |s.updates| + 1 && u[..|s.updates|] == s.updates
      && u[|s.updates|].AgentMessage? && StartsWith(u[|s.updates|].text, "Error: ")
  {
    var g := Generate(s.llm, s.messages, tools, w.replies(step));
    var e := g.outcome.error;
    ConcatEnds("Error: ", e);
  }

  /** A cancelled step leaves the conversation and the streamed updates untouched. */
  lemma StepCancelled(w: World, tools: seq<ToolSchema>, step: nat, s: TurnState)
    requires RunStep(w, tools, step, s) == Stop(RunStep(w, tools, step, s).state, Cancelled)
    ensures RunStep(w, tools, step, s).state.messages == s.messages
    ensures RunStep(w, tools, step, s).state.updates == s.updates
    ensures RunStep(w, tools, step, s).state.cancelled
  {
  }

  /** A step ends the turn normally by recording one assistant message that asks for no tool. */
  lemma StepEndTurn(w: World, tools: seq<ToolSchema>, step: nat, s: TurnState)
    requires RunStep(w, tools, step, s) == Stop(RunStep(w, tools, step, s).state, EndTurn)
    ensures var m := RunStep(w, tools, step, s).state.messages;
      |m| == |s.messages| + 1 && m[..|s.messages|] == s.messages
      && m[|s.messages|].role == Assistant && !HasCalls(m[|s.messages|].toolCalls)
  {
  }

  /**
   * A step that continues recorded one assistant message with calls, followed by one tool
   * message per call, each answering that call's id.
   */
  lemma StepContinues(w: World, tools: seq<ToolSchema>, step: nat, s: TurnState)
    requires RunStep(w, tools, step, s).Continue?
    ensures var m := RunStep(w, tools, step, s).state.messages;
      var a := m[|s.messages|];
      && |s.messages| < |m| && m[..|s.messages|] == s.messages
      && a.role == Assistant && HasCalls(a.toolCalls)
      && |m| == |s.messages| + 1 + |a.toolCalls.value|
      && (forall k :: 0 <= k < |a.toolCalls.value| ==>
            m[|s.messages| + 1 + k].role == Tool
            && m[|s.messages| + 1 + k].toolCallId == Some(a.toolCalls.value[k].id)
            && m[|s.messages| + 1 + k].name == Some(a.toolCalls.value[k].name))
  {
    var g := Generate(s.llm, s.messages, tools, w.replies(step));
    var resp := g.outcome.value;
    var calls := resp.toolCalls.value;
    RunCallsMessages(w, tools, step, calls, 0);
    var fx := RunCalls(w, tools, step, calls, 0);
    var m := RunStep(w, tools, step, s).state.messages;
    assert m == s.messages + [AssistantMessage(resp)] + fx.messages;
    forall k | 0 <= k < |calls|
      ensures m[|s.messages| + 1 + k].role == Tool
      ensures m[|s.messages| + 1 + k].toolCallId == Some(calls[k].id)
      ensures m[|s.messages| + 1 + k].name == Some(calls[k].name)
    {
      assert m[|s.messages| + 1 + k] == fx.messages[k];
      CallEffectsShape(w, tools, step, calls[k], k);
    }
  }

  /**
   * A step from an uncancelled state, by what the model call did: a failed call is refused with
   * one "Error: " message and nothing recorded; a call that a cancel overtook is cancelled with
   * nothing recorded or streamed; a response without calls ends the turn with the response
   * recorded and streamed; a response with calls continues with the calls dispatched. Offline,
   * a step is never refused. This is the forward case split that the turn lemmas build on.
   */
  lemma StepOutcome(w: World, tools: seq<ToolSchema>, step: nat, s: TurnState)
    requires !s.cancelled
    ensures var g := Generate(s.llm, s.messages, tools, w.replies(step));
      var flag := w.cancelDuringCall(step);
      var r := RunStep(w, tools, step, s);
      && (g.outcome.Failure? ==>
            r == Stop(TurnState(s.messages, s.updates + [AgentMessage("Error: " + g.outcome.error)], flag, g.client), Refusal))
      && (g.outcome.Success? && flag ==> r == Stop(s.(cancelled := true, llm := g.client), Cancelled))
      && (g.outcome.Success? && !flag && !HasCalls(g.outcome.value.toolCalls) ==>
            r == Stop(TurnState(s.messages + [AssistantMessage(g.outcome.value)],
                                s.updates + ResponseUpdates(g.outcome.value), false, g.client), EndTurn))
      && (g.outcome.Success? && !flag && HasCalls(g.outcome.value.toolCalls) ==>
            r.Continue? && r.state.llm == g.client && r.state.cancelled == w.cancelDuringTools(step))
      && (s.llm.offline ==> !(r.Stop? && r.reason == Refusal))
  {
  }

  /** The thought update, when there is thinking, comes before the message update, when there is text. */
  lemma ResponseUpdatesOrder(r: LLMResponse)
    ensures |ResponseUpdates(r)| == (if Present(r.thinking) then 1 else 0) + (if r.content != "" then 1 else 0)
    ensures Present(r.thinking) ==> ResponseUpdates(r)[0] == AgentThought(r.thinking.value)
    ensures r.content != "" ==> ResponseUpdates(r)[|ResponseUpdates(r)| - 1] == AgentMessage(r.content)
    ensures forall k :: 0 <= k < |ResponseUpdates(r)| ==>
              ResponseUpdates(r)[k].AgentThought? || ResponseUpdates(r)[k].AgentMessage?
  {
  }

  /**
   * The updates a continuing step streams: the response's thought and message, then a start and
   * a progress update per call in call order, and nothing else.
   */
  lemma StepUpdates(w: World, tools: seq<ToolSchema>, step: nat, s: TurnState)
    requires RunStep(w, tools, step, s).Continue?
    ensures var g := Generate(s.llm, s.messages, tools, w.replies(step));
      && g.outcome.Success? && HasCalls(g.outcome.value.toolCalls)
      && RunStep(w, tools, step, s).state.updates
         == s.updates + ResponseUpdates(g.outcome.value)
            + RunCalls(w, tools, step, g.outcome.value.toolCalls.value, 0).updates
      && RunStep(w, tools, step, s).state.messages
         == s.messages + [AssistantMessage(g.outcome.value)]
            + RunCalls(w, tools, step, g.outcome.value.toolCalls.value, 0).messages
  {
  }

  /** A turn whose step continues is that step followed by the rest of the turn. */
  lemma TurnContinues(w: World, tools: seq<ToolSchema>, maxSteps: nat, step: nat, s: TurnState)
    requires step < maxSteps && RunStep(w, tools, step, s).Continue?
    ensures var e := RunTurn(w, tools, maxSteps, step + 1, RunStep(w, tools, step, s).state);
      RunTurn(w, tools, maxSteps, step, s) == TurnEnd(e.state, e.reason, e.steps + 1)
  {
  }

  /**
   * When every step `k` from a state satisfying `inv(k, _)` continues into a state satisfying
   * `inv(k + 1, _)`, the turn runs out of steps: it ends with `max_turn_requests` after every
   * remaining step, in a state satisfying `inv(maxSteps, _)`.
   */
  lemma {:induction false} TurnExhausts(w: World, tools: seq<ToolSchema>, maxSteps: nat, step: nat, s: TurnState,
                                        inv: (nat, TurnState) -> bool)
    requires step <= maxSteps && inv(step, s)
    requires forall k: nat, t {:trigger RunStep(w, tools, k, t)} :: step <= k < maxSteps && inv(k, t) ==>
               RunStep(w, tools, k, t).Continue? && inv(k + 1, RunStep(w, tools, k, t).state)
    ensures RunTurn(w, tools, maxSteps, step, s).reason == MaxTurnRequests
    ensures RunTurn(w, tools, maxSteps, step, s).steps == maxSteps - step
    ensures inv(maxSteps, RunTurn(w, tools, maxSteps, step, s).state)
    decreases maxSteps - step
  {
    if step < maxSteps {
      var r := RunStep(w, tools, step, s);
      TurnExhausts(w, tools, maxSteps, step + 1, r.state, inv);
      TurnContinues(w, tools, maxSteps, step, s);
    }
  }

  // ---------------------------------------------------------------- pairing across a turn

  lemma StepWellPaired(w: World, tools: seq<ToolSchema>, step: nat, s: TurnState)
    requires WellPaired(s.messages)
    ensures WellPaired(RunStep(w, tools, step, s).state.messages)
  {
    var r := RunStep(w, tools, step, s);
    var m := r.state.messages;
    var n := |s.messages|;
    if r.Continue? {
      StepContinues(w, tools, step, s);
      var a := m[n];
      forall i | 0 <= i < |m| && m[i].role == Tool
        ensures m[i].toolCallId.Some? && exists j :: 0 <= j < i && Issues(m[j], m[i].toolCallId.value)
      {
        if i < n {
          assert m[i] == s.messages[i];
          var j :| 0 <= j < i && Issues(s.messages[j], s.messages[i].toolCallId.value);
          assert m[j] == s.messages[j];
        } else {
          var k := i - n - 1;
          assert m[n + 1 + k].toolCallId == Some(a.toolCalls.value[k].id);
          assert Issues(m[n], m[i].toolCallId.value);
        }
      }
    } else if r.reason == EndTurn {
      StepEndTurn(w, tools, step, s);
      forall i | 0 <= i < |m| && m[i].role == Tool
        ensures m[i].toolCallId.Some? && exists j :: 0 <= j < i && Issues(m[j], m[i].toolCallId.value)
      {
        assert i < n && m[i] == s.messages[i];
        var j :| 0 <= j < i && Issues(s.messages[j], s.messages[i].toolCallId.value);
        assert m[j] == s.messages[j];
      }
    } else if r.reason == Refusal {
      StepRefusal(w, tools, step, s);
    } else {
      StepNeverExhausts(w, tools, step, s);
      StepCancelled(w, tools, step, s);
    }
  }

  /** Every tool message a turn records answers a call an earlier assistant message issued. */
  lemma {:induction false} TurnWellPaired(w: World, tools: seq<ToolSchema>, maxSteps: nat, step: nat, s: TurnState)
    requires step <= maxSteps && WellPaired(s.messages)
    ensures WellPaired(RunTurn(w, tools, maxSteps, step, s).state.messages)
    decreases maxSteps - step
  {
    if step < maxSteps {
      StepWellPaired(w, tools, step, s);
      if RunStep(w, tools, step, s).Continue? {
        TurnWellPaired(w, tools, maxSteps, step + 1, RunStep(w, tools, step, s).state);
      }
    }
  }

  /**
   * Prompting a session whose conversation is paired keeps it paired, so every later request
   * body answers each tool result with a call sent before it.
   */
  lemma PromptKeepsPairing(b: Bridge, sid: string, blocks: seq<PromptBlock>, w: World)
    requires sid in b.sessions && WellPaired(b.sessions[sid].messages)
    ensures WellPaired(Prompt(b, sid, blocks, w).bridge.sessions[sid].messages)
    ensures forall model :: ApiWellPaired(BuildPayload(model, Prompt(b, sid, blocks, w).bridge.sessions[sid].messages,
                                                       b.sessions[sid].tools).messages)
  {
    var sess := b.sessions[sid];
    var start := sess.messages + [UserMessage(AcpToText(blocks))];
    assert WellPaired(start) by {
      forall i | 0 <= i < |start| && start[i].role == Tool
        ensures start[i].toolCallId.Some? && exists j :: 0 <= j < i && Issues(start[j], start[i].toolCallId.value)
      {
        assert i < |sess.messages| && start[i] == sess.messages[i];
        var j :| 0 <= j < i && Issues(sess.messages[j], sess.messages[i].toolCallId.value);
        assert start[j] == sess.messages[j];
      }
    }
    TurnWellPaired(w, sess.tools, sess.maxSteps, 0, TurnState(start, [], false, b.llm));
    var msgs := Prompt(b, sid, blocks, w).bridge.sessions[sid].messages;
    RequestPairing(msgs);
    forall model
      ensures ApiWellPaired(BuildPayload(model, msgs, sess.tools).messages)
    {
      PayloadSystemAndTools(model, msgs, sess.tools);
    }
  }

  // ---------------------------------------------------------------- what a turn records

  /** The number of assistant messages in a conversation. */
  function AssistantCount(msgs: seq<Message>): nat
    decreases |msgs|
  {
    if |msgs| == 0 then 0
    else AssistantCount(msgs[..|msgs| - 1]) + (if msgs[|msgs| - 1].role == Assistant then 1 else 0)
  }

  lemma {:induction false} AssistantCountAppend(a: seq<Message>, b: seq<Message>)
    ensures AssistantCount(a + b) == AssistantCount(a) + AssistantCount(b)
    decreases |b|
  {
    if |b| == 0 {
      assert a + b == a;
    } else {
      assert (a + b)[..|a + b| - 1] == a + b[..|b| - 1];
      assert (a + b)[|a + b| - 1] == b[|b| - 1];
      AssistantCountAppend(a, b[..|b| - 1]);
    }
  }

  lemma {:induction false} NoAssistants(b: seq<Message>)
    requires forall k :: 0 <= k < |b| ==> b[k].role != Assistant
    ensures AssistantCount(b) == 0
    decreases |b|
  {
    if |b| > 0 {
      NoAssistants(b[..|b| - 1]);
    }
  }

  /** A step records one assistant message when its model call succeeds, none otherwise. */
  lemma StepAssistantCount(w: World, tools: seq<ToolSchema>, step: nat, s: TurnState)
    ensures var r := RunStep(w, tools, step, s);
      AssistantCount(r.state.messages)
      == AssistantCount(s.messages) + (if r.Stop? && r.reason in {Refusal, Cancelled} then 0 else 1)
  {
    var r := RunStep(w, tools, step, s);
    var m := r.state.messages;
    var n := |s.messages|;
    if r.Continue? {
      StepContinues(w, tools, step, s);
      var calls := m[n].toolCalls.value;
      var tail := m[n + 1..];
      assert |tail| == |calls|;
      assert m == s.messages + [m[n]] + tail;
      forall k | 0 <= k < |tail|
        ensures tail[k].role != Assistant
      {
        assert tail[k] == m[n + 1 + k];
        assert m[n + 1 + k].toolCallId == Some(calls[k].id);
      }
      NoAssistants(tail);
      AssistantCountAppend(s.messages + [m[n]], tail);
      AssistantCountAppend(s.messages, [m[n]]);
    } else if r.reason == EndTurn {
      StepEndTurn(w, tools, step, s);
      assert m == s.messages + [m[n]];
      AssistantCountAppend(s.messages, [m[n]]);
    } else if r.reason == Refusal {
      StepRefusal(w, tools, step, s);
    } else {
      StepNeverExhausts(w, tools, step, s);
      StepCancelled(w, tools, step, s);
    }
  }

  /**
   * A turn records one assistant message per loop iteration, except that the iteration that
   * is refused or cancelled records none.
   */
  lemma {:induction false} TurnAssistantCount(w: World, tools: seq<ToolSchema>, maxSteps: nat, step: nat, s: TurnState)
    requires step <= maxSteps
    ensures var e := RunTurn(w, tools, maxSteps, step, s);
      AssistantCount(e.state.messages) + (if e.reason in {Refusal, Cancelled} then 1 else 0)
      == AssistantCount(s.messages) + e.steps
    decreases maxSteps - step
  {
    if step < maxSteps {
      StepAssistantCount(w, tools, step, s);
      StepNeverExhausts(w, tools, step, s);
      if RunStep(w, tools, step, s).Continue? {
        TurnAssistantCount(w, tools, maxSteps, step + 1, RunStep(w, tools, step, s).state);
      }
    }
  }

  /** The response an assistant message records, with the given finish reason. */
  function ResponseOf(m: Message, finishReason: string): LLMResponse
  {
    LLMResponse(m.content, m.thinking, m.toolCalls, finishReason)
  }

  /** An assistant message recorded from a normalized response. */
  predicate Recorded(m: Message)
  {
    m.role == Assistant ==> m.toolCallId.None? && m.name.None? && Normalized(ResponseOf(m, ""))
  }

  /** A recorded assistant message, sent back to the model, parses to the response it came from. */
  lemma RecordedReplays(m: Message, finishReason: string)
    requires m.role == Assistant && Recorded(m)
    ensures ParseContent(EchoBlocks(Serialize(m)), Some(finishReason)) == ResponseOf(m, finishReason)
  {
    ResponseRoundTrip(ResponseOf(m, finishReason));
    assert AssistantMessage(ResponseOf(m, finishReason)) == m;
  }

  /** Every message of `m` from index `n` on is recorded. */
  predicate RecordedFrom(m: seq<Message>, n: nat)
  {
    forall i :: n <= i < |m| ==> Recorded(m[i])
  }

  lemma StepRecords(w: World, tools: seq<ToolSchema>, step: nat, s: TurnState)
    ensures |s.messages| <= |RunStep(w, tools, step, s).state.messages|
    ensures RecordedFrom(RunStep(w, tools, step, s).state.messages, |s.messages|)
  {
    var r := RunStep(w, tools, step, s);
    var m := r.state.messages;
    var n := |s.messages|;
    if r.Continue? || r.reason == EndTurn {
      var g := Generate(s.llm, s.messages, tools, w.replies(step));
      var resp := g.outcome.value;
      assert Normalized(resp);
      assert Recorded(AssistantMessage(resp));
      if r.Continue? {
        var calls := resp.toolCalls.value;
        RunCallsMessages(w, tools, step, calls, 0);
        var fx := RunCalls(w, tools, step, calls, 0);
        assert m == s.messages + [AssistantMessage(resp)] + fx.messages;
        forall i | n <= i < |m|
          ensures Recorded(m[i])
        {
          if i > n {
            assert m[i] == fx.messages[i - n - 1];
            CallEffectsShape(w, tools, step, calls[i - n - 1], i - n - 1);
          }
        }
      } else {
        assert m == s.messages + [AssistantMessage(resp)];
      }
    } else if r.reason == Refusal {
      StepRefusal(w, tools, step, s);
    } else {
      StepNeverExhausts(w, tools, step, s);
      StepCancelled(w, tools, step, s);
    }
  }

  /**
   * Every assistant message a turn adds is recorded from a normalized response, so the
   * model is later sent back exactly what it said.
   */
  lemma {:induction false} TurnRecords(w: World, tools: seq<ToolSchema>, maxSteps: nat, step: nat, s: TurnState)
    requires step <= maxSteps
    ensures RecordedFrom(RunTurn(w, tools, maxSteps, step, s).state.messages, |s.messages|)
    decreases maxSteps - step
  {
    if step < maxSteps {
      StepRecords(w, tools, step, s);
      var r := RunStep(w, tools, step, s);
      if r.Continue? {
        var e := RunTurn(w, tools, maxSteps, step + 1, r.state);
        TurnRecords(w, tools, maxSteps, step + 1, r.state);
        assert RunTurn(w, tools, maxSteps, step, s) == TurnEnd(e.state, e.reason, e.steps + 1);
        var m := e.state.messages;
        assert r.state.messages <= m;
        assert RecordedFrom(r.state.messages, |s.messages|);
        forall i | |s.messages| <= i < |m|
          ensures Recorded(m[i])
        {
          if i < |r.state.messages| {
            assert m[i] == r.state.messages[i];
          }
        }
      }
    }
  }

  // ---------------------------------------------------------------- prompt and cancel

  /**
   * A prompt to a known session runs one turn from the conversation extended by the prompt
   * text, with an empty update stream and the cancel flag cleared, and reports that turn's
   * stop reason and updates.
   */
  lemma PromptRunsTurn(b: Bridge, sid: string, blocks: seq<PromptBlock>, w: World)
    requires sid in b.sessions
    ensures var sess := b.sessions[sid];
      var e := RunTurn(w, sess.tools, sess.maxSteps, 0,
                       TurnState(sess.messages + [UserMessage(AcpToText(blocks))], [], false, b.llm));
      var r := Prompt(b, sid, blocks, w);
      && r.reason == e.reason && r.updates == e.state.updates
      && r.bridge.sessions[sid] == sess.(messages := e.state.messages, cancelled := e.state.cancelled)
      && r.bridge.llm == e.state.llm
  {
  }

  /** A session's cancel flag before a prompt has no effect on the prompt. */
  lemma PromptIgnoresStaleCancel(b: Bridge, sid: string, blocks: seq<PromptBlock>, w: World, flag: bool)
    requires sid in b.sessions
    ensures Prompt(b.(sessions := b.sessions[sid := b.sessions[sid].(cancelled := flag)]), sid, blocks, w)
         == Prompt(b, sid, blocks, w)
  {
    var b' := b.(sessions := b.sessions[sid := b.sessions[sid].(cancelled := flag)]);
    var r := Prompt(b, sid, blocks, w);
    var r' := Prompt(b', sid, blocks, w);
    assert r'.bridge.sessions == r.bridge.sessions;
  }

  /** A cancel between turns is forgotten by the next prompt: cancelling first changes nothing. */
  lemma CancelThenPrompt(b: Bridge, sid: string, blocks: seq<PromptBlock>, w: World)
    ensures Prompt(Cancel(b, sid), sid, blocks, w) == Prompt(b, sid, blocks, w)
  {
    if sid in b.sessions {
      PromptIgnoresStaleCancel(b, sid, blocks, w, true);
    }
  }
}
