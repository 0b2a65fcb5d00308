/**
 * Whole turns against the offline stub model: the greeting, the calculator request that the
 * stub answers with a fresh call on every step, and the file-writing request that takes two.
 */
module AcpScenarios {
  import opened Wrappers
  import opened Strings
  import opened Schema
  import opened Wire
  import opened LlmClient
  import opened Acp
  import opened AcpLaws

  /** Messages that are not user messages do not change the last user text. */
  lemma {:induction false} LastUserTextSkips(m: seq<Message>, n: nat)
    requires n <= |m|
    requires forall k :: n <= k < |m| ==> m[k].role != User
    ensures LastUserText(m) == LastUserText(m[..n])
    decreases |m| - n
  {
    if |m| > n {
      LastUserTextSkips(m[..|m| - 1], n);
      assert m[..|m| - 1][..n] == m[..n];
    } else {
      assert m[..n] == m;
    }
  }

  lemma LastUserTextOfPrompt(msgs: seq<Message>, text: string)
    ensures LastUserText(msgs + [UserMessage(text)]) == text
  {
  }

  /** A continuing step keeps the last user text and adds the tool messages of its calls. */
  lemma StepKeepsUserText(w: World, tools: seq<ToolSchema>, step: nat, s: TurnState)
    requires RunStep(w, tools, step, s).Continue?
    ensures LastUserText(RunStep(w, tools, step, s).state.messages) == LastUserText(s.messages)
  {
    StepContinues(w, tools, step, s);
    var m := RunStep(w, tools, step, s).state.messages;
    var n := |s.messages|;
    var calls := m[n].toolCalls.value;
    forall k | n <= k < |m|
      ensures m[k].role != User
    {
      if k > n {
        assert m[n + 1 + (k - n - 1)].toolCallId == Some(calls[k - n - 1].id);
      }
    }
    LastUserTextSkips(m, n);
  }

  /** Offline, a greeting is answered in one step with the fixed reply and no tool call. */
  lemma HelloTurn(w: World, tools: seq<ToolSchema>, maxSteps: nat, s: TurnState)
    requires s.llm.offline && !s.cancelled && 0 < maxSteps
    requires Contains(Lower(LastUserText(s.messages)), "hello, mini agent")
    requires !w.cancelDuringCall(0)
    ensures var e := RunTurn(w, tools, maxSteps, 0, s);
      && e.reason == EndTurn && e.steps == 1
      && e.state.messages == s.messages + [AssistantMessage(TextReply(HelloReply))]
      && e.state.updates == s.updates + [AgentMessage(HelloReply)]
      && e.state.llm == s.llm
  {
    StubGreets(s.llm, s.messages, tools);
  }

  lemma LowerSayHello()
    ensures Lower("Say 'Hello, Mini Agent!'") == "say 'hello, mini agent!'"
  {
    var t := "Say 'Hello, Mini Agent!'";
    var u := "say 'hello, mini agent!'";
    forall i | 0 <= i < |t|
      ensures Lower(t)[i] == u[i]
    {
    }
  }

  /**
   * The greeting prompt to an offline session ends the turn normally, streaming exactly the
   * fixed reply, and leaves the conversation with the prompt and that reply appended.
   */
  lemma PromptSaysHello(b: Bridge, sid: string, w: World)
    requires sid in b.sessions && b.llm.offline && b.sessions[sid].maxSteps > 0
    requires !w.cancelDuringCall(0)
    ensures var r := Prompt(b, sid, [PromptBlock(Some("Say 'Hello, Mini Agent!'"))], w);
      && r.reason == EndTurn
      && r.updates == [AgentMessage(HelloReply)]
      && r.bridge.sessions[sid].messages
         == b.sessions[sid].messages + [UserMessage("Say 'Hello, Mini Agent!'"), AssistantMessage(TextReply(HelloReply))]
      && !r.bridge.sessions[sid].cancelled
  {
    var text := "Say 'Hello, Mini Agent!'";
    AcpToTextEdges(text);
    var sess := b.sessions[sid];
    var start := sess.messages + [UserMessage(text)];
    LastUserTextOfPrompt(sess.messages, text);
    LowerSayHello();
    SayHelloContainsHello();
    HelloTurn(w, sess.tools, sess.maxSteps, TurnState(start, [], false, b.llm));
  }

  /** One offline step on the calculator request: a calculator call, and the loop goes on. */
  lemma CalculatorStep(w: World, tools: seq<ToolSchema>, step: nat, s: TurnState)
    requires s.llm.offline && !s.cancelled && |tools| > 0
    requires Contains(Lower(LastUserText(s.messages)), "calculate 123 + 456")
    requires !Contains(Lower(LastUserText(s.messages)), "hello, mini agent")
    requires !w.cancelDuringCall(step) && !w.cancelDuringTools(step)
    ensures var r := RunStep(w, tools, step, s);
      && r.Continue? && !r.state.cancelled
      && r.state.llm == s.llm.(counter := s.llm.counter + 1)
      && LastUserText(r.state.messages) == LastUserText(s.messages)
  {
    StubCalculates(s.llm, s.messages, tools);
    assert RunStep(w, tools, step, s).Continue?;
    StepKeepsUserText(w, tools, step, s);
  }

  /** The state of an offline turn on the calculator request with nothing cancelled. */
  predicate CalculatorPending(tools: seq<ToolSchema>, s: TurnState)
  {
    && s.llm.offline && !s.cancelled && |tools| > 0
    && Contains(Lower(LastUserText(s.messages)), "calculate 123 + 456")
    && !Contains(Lower(LastUserText(s.messages)), "hello, mini agent")
  }

  /**
   * Offline, the calculator request is answered with a new calculator call on every step, so
   * the turn uses up its step bound and ends with `max_turn_requests`, one call per step.
   */
  lemma CalculatorTurn(w: World, tools: seq<ToolSchema>, maxSteps: nat, s: TurnState)
    requires CalculatorPending(tools, s)
    requires forall k :: 0 <= k < maxSteps ==> !w.cancelDuringCall(k) && !w.cancelDuringTools(k)
    ensures var e := RunTurn(w, tools, maxSteps, 0, s);
      && e.reason == MaxTurnRequests
      && e.steps == maxSteps
      && e.state.llm.counter == s.llm.counter + maxSteps
  {
    var inv := (k: nat, t: TurnState) => CalculatorPending(tools, t) && t.llm.counter == s.llm.counter + k;
    forall k: nat, t | 0 <= k < maxSteps && inv(k, t)
      ensures RunStep(w, tools, k, t).Continue? && inv(k + 1, RunStep(w, tools, k, t).state)
    {
      CalculatorStep(w, tools, k, t);
    }
    TurnExhausts(w, tools, maxSteps, 0, s, inv);
  }

  /** The file-writing request as the offline stub sees it. */
  predicate WriteFileRequested(tools: seq<ToolSchema>, msgs: seq<Message>)
  {
    var t := Lower(LastUserText(msgs));
    && Contains(t, "test.txt") && Contains(t, "hello from agent")
    && !Contains(t, "hello, mini agent")
    && (!Contains(t, "calculate 123 + 456") || |tools| == 0)
  }

  /** The first offline step on the file-writing request runs one `write_file` call. */
  lemma WriteFileFirstStep(w: World, tools: seq<ToolSchema>, s: TurnState)
    requires s.llm.offline && !s.cancelled && WriteFileRequested(tools, s.messages)
    requires !HasToolResult(s.messages, "write_file")
    requires !w.cancelDuringCall(0) && !w.cancelDuringTools(0)
    ensures var r := RunStep(w, tools, 0, s);
      && r.Continue? && !r.state.cancelled
      && r.state.llm == s.llm.(counter := s.llm.counter + 1)
      && WriteFileRequested(tools, r.state.messages)
      && HasToolResult(r.state.messages, "write_file")
  {
    StubWritesFileOnce(s.llm, s.messages, tools);
    var r := RunStep(w, tools, 0, s);
    assert r.Continue?;
    StepKeepsUserText(w, tools, 0, s);
    StepContinues(w, tools, 0, s);
    var m := r.state.messages;
    var n := |s.messages|;
    assert m[n].toolCalls.value[0].name == "write_file";
    assert m[n + 1 + 0].name == Some("write_file");
  }

  /** Once the `write_file` result is in, the next offline step closes the turn with a text. */
  lemma WriteFileClosingStep(w: World, tools: seq<ToolSchema>, step: nat, s: TurnState)
    requires s.llm.offline && !s.cancelled && WriteFileRequested(tools, s.messages)
    requires HasToolResult(s.messages, "write_file")
    requires !w.cancelDuringCall(step)
    ensures var r := RunStep(w, tools, step, s);
      && r.Stop? && r.reason == EndTurn
      && r.state.messages
         == s.messages + [AssistantMessage(TextReply("Created test.txt with the requested content."))]
      && r.state.llm == s.llm
  {
    StubWritesFileOnce(s.llm, s.messages, tools);
  }

  /**
   * Offline, the file-writing request is answered with one `write_file` call and, once its
   * result is in the conversation, with a closing text: the turn ends normally in two steps.
   */
  lemma WriteFileTurn(w: World, tools: seq<ToolSchema>, maxSteps: nat, s: TurnState)
    requires 2 <= maxSteps
    requires s.llm.offline && !s.cancelled && WriteFileRequested(tools, s.messages)
    requires !HasToolResult(s.messages, "write_file")
    requires !w.cancelDuringCall(0) && !w.cancelDuringTools(0) && !w.cancelDuringCall(1)
    ensures var e := RunTurn(w, tools, maxSteps, 0, s);
      && e.reason == EndTurn && e.steps == 2
      && e.state.messages[|e.state.messages| - 1]
         == AssistantMessage(TextReply("Created test.txt with the requested content."))
      && e.state.llm.counter == s.llm.counter + 1
  {
    WriteFileFirstStep(w, tools, s);
    var t := RunStep(w, tools, 0, s).state;
    WriteFileClosingStep(w, tools, 1, t);
    assert RunTurn(w, tools, maxSteps, 1, t).state == RunStep(w, tools, 1, t).state;
  }
}
