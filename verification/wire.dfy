/**
 * The Anthropic-Messages wire format the model client speaks: how the canonical conversation
 * becomes a request body (`LLMClient.generate`, request half) and how the content blocks of a
 * reply become an `LLMResponse` (response half).
 */
module Wire {
  import opened Wrappers
  import opened Schema

  /** A typed content segment. Fields that a JSON block may lack are optional. */
  datatype Block =
    | TextBlock(text: Option<string>)
    | ThinkingBlock(thinking: Option<string>)
    | ToolUseBlock(id: string, name: string, input: Option<Args>)
    | ToolResultBlock(toolUseId: Option<string>, content: string)
    | OtherBlock(kind: Option<string>)

  /** The backend knows only these two roles. */
  datatype ApiRole = ApiUser | ApiAssistant

  datatype ApiContent = Plain(text: string) | Blocks(blocks: seq<Block>)

  datatype ApiMessage = ApiMessage(role: ApiRole, content: ApiContent)

  /** A tool's schema as presented to the model; only its name matters here. */
  datatype ToolSchema = ToolSchema(name: string)

  /** The request body. `system` and `tools` are absent keys when `None`. */
  datatype Payload = Payload(
    model: string,
    messages: seq<ApiMessage>,
    maxTokens: nat,
    system: Option<string>,
    tools: Option<seq<ToolSchema>>)

  const MaxTokens: nat := 16384

  /** One `tool_use` block per call, in call order. */
  function ToolUseBlocks(calls: seq<ToolCall>): (bs: seq<Block>)
    ensures |bs| == |calls|
  {
    seq(|calls|, i requires 0 <= i < |calls| => ToolUseBlock(calls[i].id, calls[i].name, Some(calls[i].arguments)))
  }

  /** An assistant message is sent as typed blocks when it carries thinking or tool calls. */
  predicate NeedsBlocks(m: Message)
  {
    Present(m.thinking) || HasCalls(m.toolCalls)
  }

  /** Thinking block if any, then text block if any, then the tool_use blocks. */
  function AssistantBlocks(m: Message): seq<Block>
  {
    (if Present(m.thinking) then [ThinkingBlock(m.thinking)] else [])
    + (if m.content != "" then [TextBlock(Some(m.content))] else [])
    + ToolUseBlocks(CallList(m.toolCalls))
  }

  /** The wire form of one non-system message. */
  function Serialize(m: Message): ApiMessage
    requires m.role != System
  {
    match m.role
    case User => ApiMessage(ApiUser, Plain(m.content))
    case Assistant =>
      if NeedsBlocks(m) then ApiMessage(ApiAssistant, Blocks(AssistantBlocks(m)))
      else ApiMessage(ApiAssistant, Plain(m.content))
    case Tool => ApiMessage(ApiUser, Blocks([ToolResultBlock(m.toolCallId, m.content)]))
  }

  /** The `messages` list of the request: every non-system message, serialised, in order. */
  function ApiMessages(msgs: seq<Message>): seq<ApiMessage>
    decreases |msgs|
  {
    if |msgs| == 0 then []
    else
      var last := msgs[|msgs| - 1];
      ApiMessages(msgs[..|msgs| - 1]) + (if last.role == System then [] else [Serialize(last)])
  }

  /** The content of the last system message, if there is one. */
  function LastSystem(msgs: seq<Message>): Option<string>
    decreases |msgs|
  {
    if |msgs| == 0 then None
    else if msgs[|msgs| - 1].role == System then Some(msgs[|msgs| - 1].content)
    else LastSystem(msgs[..|msgs| - 1])
  }

  /** The request body `generate` sends for a conversation and a tool list. */
  function BuildPayload(model: string, msgs: seq<Message>, tools: seq<ToolSchema>): Payload
  {
    var sys := LastSystem(msgs);
    Payload(
      model,
      ApiMessages(msgs),
      MaxTokens,
      if Present(sys) then sys else None,
      if |tools| > 0 then Some(tools) else None)
  }

  function TextOf(b: Block): string
  {
    if b.TextBlock? then b.text.GetOr("") else ""
  }

  function ThinkingOf(b: Block): string
  {
    if b.ThinkingBlock? then b.thinking.GetOr("") else ""
  }

  /** In-order concatenation of the text blocks' text. */
  function Texts(bs: seq<Block>): string
    decreases |bs|
  {
    if |bs| == 0 then "" else TextOf(bs[0]) + Texts(bs[1..])
  }

  /** In-order concatenation of the thinking blocks' text. */
  function Thinkings(bs: seq<Block>): string
    decreases |bs|
  {
    if |bs| == 0 then "" else ThinkingOf(bs[0]) + Thinkings(bs[1..])
  }

  /** The tool calls the tool_use blocks describe, in order; a missing input is `{}`. */
  function Calls(bs: seq<Block>): seq<ToolCall>
    decreases |bs|
  {
    if |bs| == 0 then []
    else
      (if bs[0].ToolUseBlock? then [ToolCall(bs[0].id, bs[0].name, bs[0].input.GetOr([]))] else [])
      + Calls(bs[1..])
  }

  /** The response `generate` returns for the content blocks and stop reason of a reply. */
  function ParseContent(bs: seq<Block>, stopReason: Option<string>): LLMResponse
  {
    LLMResponse(Texts(bs), TextOrNone(Thinkings(bs)), CallsOrNone(Calls(bs)), stopReason.GetOr("stop"))
  }

  /** What a backend echoing an API message back would return as content blocks. */
  function EchoBlocks(a: ApiMessage): seq<Block>
  {
    match a.content
    case Plain(t) => [TextBlock(Some(t))]
    case Blocks(bs) => bs
  }

  lemma {:induction false} TextsAppend(a: seq<Block>, b: seq<Block>)
    ensures Texts(a + b) == Texts(a) + Texts(b)
    decreases |a|
  {
    if |a| == 0 {
      assert a + b == b;
    } else {
      assert (a + b)[1..] == a[1..] + b;
      TextsAppend(a[1..], b);
    }
  }

  lemma {:induction false} ThinkingsAppend(a: seq<Block>, b: seq<Block>)
    ensures Thinkings(a + b) == Thinkings(a) + Thinkings(b)
    decreases |a|
  {
    if |a| == 0 {
      assert a + b == b;
    } else {
      assert (a + b)[1..] == a[1..] + b;
      ThinkingsAppend(a[1..], b);
    }
  }

  lemma {:induction false} CallsAppend(a: seq<Block>, b: seq<Block>)
    ensures Calls(a + b) == Calls(a) + Calls(b)
    decreases |a|
  {
    if |a| == 0 {
      assert a + b == b;
    } else {
      assert (a + b)[1..] == a[1..] + b;
      CallsAppend(a[1..], b);
    }
  }

  /** Parsing the tool_use blocks of a call list gives back exactly those calls and no text. */
  lemma {:induction false} ToolUseBlocksParse(calls: seq<ToolCall>)
    ensures Texts(ToolUseBlocks(calls)) == ""
    ensures Thinkings(ToolUseBlocks(calls)) == ""
    ensures Calls(ToolUseBlocks(calls)) == calls
    decreases |calls|
  {
    if |calls| > 0 {
      assert ToolUseBlocks(calls)[1..] == ToolUseBlocks(calls[1..]);
      ToolUseBlocksParse(calls[1..]);
      assert [calls[0]] + calls[1..] == calls;
    }
  }

  /**
   * Serialise-then-parse: the blocks an assistant message with thinking or tool calls is sent
   * as parse back to its content, its thinking (empty meaning absent) and its calls in order.
   */
  lemma SerializeParseRoundTrip(m: Message)
    requires m.role == Assistant && NeedsBlocks(m)
    ensures Serialize(m) == ApiMessage(ApiAssistant, Blocks(AssistantBlocks(m)))
    ensures ParseContent(AssistantBlocks(m), None)
         == LLMResponse(m.content, if Present(m.thinking) then m.thinking else None,
                        CallsOrNone(CallList(m.toolCalls)), "stop")
  {
    var th: seq<Block> := if Present(m.thinking) then [ThinkingBlock(m.thinking)] else [];
    var tx: seq<Block> := if m.content != "" then [TextBlock(Some(m.content))] else [];
    var tu := ToolUseBlocks(CallList(m.toolCalls));
    assert AssistantBlocks(m) == th + tx + tu;
    assert Texts(th) == "" && Calls(th) == [] by {
      if Present(m.thinking) { assert th[1..] == []; }
    }
    assert Thinkings(th) == (if Present(m.thinking) then m.thinking.value else "") by {
      if Present(m.thinking) { assert th[1..] == []; }
    }
    assert Texts(tx) == m.content && Thinkings(tx) == "" && Calls(tx) == [] by {
      if m.content != "" { assert tx[1..] == []; }
    }
    TextsAppend(th + tx, tu);
    TextsAppend(th, tx);
    ThinkingsAppend(th + tx, tu);
    ThinkingsAppend(th, tx);
    CallsAppend(th + tx, tu);
    CallsAppend(th, tx);
    ToolUseBlocksParse(CallList(m.toolCalls));
    var bs := AssistantBlocks(m);
    assert Texts(bs) == m.content;
    assert Thinkings(bs) == (if Present(m.thinking) then m.thinking.value else "");
    assert Calls(bs) == CallList(m.toolCalls);
  }

  /** The content blocks of a reply always parse to a response with empty-means-absent applied. */
  lemma ParseContentNormalized(bs: seq<Block>, stopReason: Option<string>)
    ensures Normalized(ParseContent(bs, stopReason))
    ensures ParseContent(bs, stopReason).finishReason == (if stopReason.Some? then stopReason.value else "stop")
  {
  }

  /**
   * Every response `generate` can return survives the trip into the conversation and back:
   * the wire form of its assistant message, echoed as reply content, parses to the response.
   */
  lemma ResponseRoundTrip(r: LLMResponse)
    requires Normalized(r)
    ensures ParseContent(EchoBlocks(Serialize(AssistantMessage(r))), Some(r.finishReason)) == r
  {
    var m := AssistantMessage(r);
    if NeedsBlocks(m) {
      SerializeParseRoundTrip(m);
    } else {
      var bs := [TextBlock(Some(r.content))];
      assert EchoBlocks(Serialize(m)) == bs;
      assert bs[1..] == [];
      assert Texts(bs) == r.content && Thinkings(bs) == "" && Calls(bs) == [];
    }
  }

  /** Indices of the messages the request keeps: all but the system messages. */
  ghost function NonSystemIndices(msgs: seq<Message>): set<int>
  {
    set i | 0 <= i < |msgs| && msgs[i].role != System
  }

  /** The request holds one API message per user, assistant or tool message. */
  lemma {:induction false} ApiMessagesCount(msgs: seq<Message>)
    ensures |ApiMessages(msgs)| == |NonSystemIndices(msgs)|
    decreases |msgs|
  {
    if |msgs| == 0 {
      assert NonSystemIndices(msgs) == {};
    } else {
      var n := |msgs| - 1;
      var p := msgs[..n];
      ApiMessagesCount(p);
      assert n !in NonSystemIndices(p);
      if msgs[n].role == System {
        assert NonSystemIndices(msgs) == NonSystemIndices(p);
      } else {
        assert NonSystemIndices(msgs) == NonSystemIndices(p) + {n};
      }
    }
  }

  /** Index `i` holds the last system message of the conversation. */
  ghost predicate IsLastSystemAt(msgs: seq<Message>, i: int)
  {
    0 <= i < |msgs| && msgs[i].role == System && forall j :: i < j < |msgs| ==> msgs[j].role != System
  }

  lemma {:induction false} LastSystemSpec(msgs: seq<Message>)
    ensures LastSystem(msgs).None? <==> forall i :: 0 <= i < |msgs| ==> msgs[i].role != System
    ensures forall i :: IsLastSystemAt(msgs, i) ==> LastSystem(msgs) == Some(msgs[i].content)
    decreases |msgs|
  {
    if |msgs| > 0 {
      var n := |msgs| - 1;
      var p := msgs[..n];
      LastSystemSpec(p);
      forall i | IsLastSystemAt(msgs, i)
        ensures LastSystem(msgs) == Some(msgs[i].content)
      {
        if i < n {
          assert IsLastSystemAt(p, i);
        }
      }
      if msgs[n].role != System {
        assert forall i :: 0 <= i < n ==> p[i] == msgs[i];
      }
    }
  }

  /**
   * The request's `system` field is the content of the last system message, and is present
   * only when there is one and its content is non-empty. `tools` is present only when the
   * list is non-empty.
   */
  lemma PayloadSystemAndTools(model: string, msgs: seq<Message>, tools: seq<ToolSchema>)
    ensures forall t :: BuildPayload(model, msgs, tools).system == Some(t) <==>
                t != "" && exists i :: IsLastSystemAt(msgs, i) && msgs[i].content == t
    ensures BuildPayload(model, msgs, tools).system.None? <==>
              forall i :: IsLastSystemAt(msgs, i) ==> msgs[i].content == ""
    ensures BuildPayload(model, msgs, tools).tools.Some? <==> |tools| > 0
    ensures BuildPayload(model, msgs, tools).messages == ApiMessages(msgs)
  {
    LastSystemSpec(msgs);
    var sys := LastSystem(msgs);
    if sys.Some? {
      var i := LastSystemIndex(msgs);
      assert IsLastSystemAt(msgs, i);
    }
  }

  /** The position of the last system message, when one exists. */
  ghost function LastSystemIndex(msgs: seq<Message>): (i: int)
    requires exists i :: 0 <= i < |msgs| && msgs[i].role == System
    ensures IsLastSystemAt(msgs, i)
    decreases |msgs|
  {
    var n := |msgs| - 1;
    if msgs[n].role == System then n
    else
      assert exists i :: 0 <= i < n && msgs[..n][i].role == System by {
        var i :| 0 <= i < |msgs| && msgs[i].role == System;
        assert msgs[..n][i] == msgs[i];
      }
      LastSystemIndex(msgs[..n])
  }

  /** API message `a` is an assistant turn holding a tool_use block with id `id`. */
  predicate SendsCall(a: ApiMessage, id: string)
  {
    a.role == ApiAssistant && a.content.Blocks?
    && exists k :: 0 <= k < |a.content.blocks| && a.content.blocks[k].ToolUseBlock? && a.content.blocks[k].id == id
  }

  /** Every tool_result block answers a tool_use block an earlier assistant turn sent. */
  ghost predicate ApiWellPaired(ams: seq<ApiMessage>)
  {
    forall i, k ::
      (0 <= i < |ams| && ams[i].content.Blocks? && 0 <= k < |ams[i].content.blocks|
       && ams[i].content.blocks[k].ToolResultBlock?) ==>
      ams[i].content.blocks[k].toolUseId.Some?
      && exists j :: 0 <= j < i && SendsCall(ams[j], ams[i].content.blocks[k].toolUseId.value)
  }

  /** A call an assistant message issued is sent as a tool_use block of the request. */
  lemma {:induction false} IssuedCallIsSent(msgs: seq<Message>, j: int, id: string)
    requires 0 <= j < |msgs| && Issues(msgs[j], id)
    ensures exists j' :: 0 <= j' < |ApiMessages(msgs)| && SendsCall(ApiMessages(msgs)[j'], id)
    decreases |msgs|
  {
    var n := |msgs| - 1;
    var p := msgs[..n];
    if j == n {
      var m := msgs[n];
      var calls := CallList(m.toolCalls);
      var k :| 0 <= k < |calls| && calls[k].id == id;
      var bs := AssistantBlocks(m);
      var off := |bs| - |calls|;
      assert bs[off + k] == ToolUseBlocks(calls)[k];
      assert SendsCall(Serialize(m), id);
      assert ApiMessages(msgs)[|ApiMessages(p)|] == Serialize(m);
    } else {
      assert p[j] == msgs[j];
      IssuedCallIsSent(p, j, id);
      var j' :| 0 <= j' < |ApiMessages(p)| && SendsCall(ApiMessages(p)[j'], id);
      assert ApiMessages(msgs)[j'] == ApiMessages(p)[j'];
    }
  }

  /** The blocks of an assistant message hold no tool_result block. */
  lemma AssistantBlocksHaveNoResult(m: Message)
    ensures forall k :: 0 <= k < |AssistantBlocks(m)| ==> !AssistantBlocks(m)[k].ToolResultBlock?
  {
    var calls := CallList(m.toolCalls);
    var bs := AssistantBlocks(m);
    var off := |bs| - |calls|;
    forall k | 0 <= k < |bs|
      ensures !bs[k].ToolResultBlock?
    {
      if k >= off {
        assert bs[k] == ToolUseBlocks(calls)[k - off];
      }
    }
  }

  /**
   * Call/result pairing survives serialisation: when every tool message of the conversation
   * answers an earlier call, every tool_result block of the request answers a tool_use block
   * of an earlier assistant turn.
   */
  lemma {:induction false} RequestPairing(msgs: seq<Message>)
    requires WellPaired(msgs)
    ensures ApiWellPaired(ApiMessages(msgs))
    decreases |msgs|
  {
    if |msgs| > 0 {
      var n := |msgs| - 1;
      var p := msgs[..n];
      assert WellPaired(p) by {
        forall i | 0 <= i < |p| && p[i].role == Tool
          ensures p[i].toolCallId.Some? && exists j :: 0 <= j < i && Issues(p[j], p[i].toolCallId.value)
        {
          assert p[i] == msgs[i];
          var j :| 0 <= j < i && Issues(msgs[j], msgs[i].toolCallId.value);
          assert p[j] == msgs[j];
        }
      }
      RequestPairing(p);
      var a := ApiMessages(p);
      var all := ApiMessages(msgs);
      var last := msgs[n];
      assert forall i :: 0 <= i < |a| ==> all[i] == a[i];
      if last.role != System {
        var x := Serialize(last);
        assert all == a + [x];
        if last.role == Tool {
          var id := last.toolCallId.value;
          var j :| 0 <= j < n && Issues(msgs[j], id);
          assert p[j] == msgs[j];
          IssuedCallIsSent(p, j, id);
        } else if last.role == Assistant {
          AssistantBlocksHaveNoResult(last);
        }
      }
    }
  }
}
