/**
 * `LLMClient`: the offline switch, the error-envelope check of `_make_api_request`, the
 * deterministic offline stub `_fake_response`, and `generate` tying them to the wire format.
 * The HTTP request itself is not modelled: the decoded JSON reply (or the transport failure)
 * is an input.
 */
module LlmClient {
  import opened Wrappers
  import opened Strings
  import opened Schema
  import opened Wire

  /** `status_code`/`status_msg` of MiniMax's `base_resp` object. */
  datatype BaseResp = BaseResp(statusCode: Option<int>, statusMsg: Option<string>)

  /** The decoded JSON reply of the backend, as far as the client reads it. */
  datatype RawResponse = RawResponse(
    kind: Option<string>,          // top-level "type"
    errorType: Option<string>,     // "error"."type"
    errorMessage: Option<string>,  // "error"."message"
    baseResp: Option<BaseResp>,    // "base_resp", when the key is present
    content: seq<Block>,           // "content", [] when absent
    stopReason: Option<string>)    // "stop_reason"

  /** What the HTTP round trip produced: a transport failure, or the decoded reply. */
  datatype Reply = TransportFailure(message: string) | Decoded(raw: RawResponse)

  /** The client's state; `counter` numbers the offline stub's tool calls. */
  datatype Client = Client(apiKey: string, model: string, offline: bool, counter: nat)

  /** Python's f-string rendering of an optional string: `None` prints as "None". */
  function PyStr(o: Option<string>): string
  {
    o.GetOr("None")
  }

  /** The status codes that do not signal an error: 0, 1000 and a missing code. */
  predicate StatusOk(code: Option<int>)
  {
    code.None? || code.value == 0 || code.value == 1000
  }

  /** The reply is an error envelope of either kind. */
  predicate IsErrorEnvelope(raw: RawResponse)
  {
    raw.kind == Some("error") || (raw.baseResp.Some? && !StatusOk(raw.baseResp.value.statusCode))
  }

  const BalanceHint: string :=
    "\n\n\U{26A0}\U{FE0F}  Insufficient account balance, please recharge on MiniMax platform"

  function UnsupportedModelHint(model: string): string
  {
    "\n\n\U{26A0}\U{FE0F}  Model '" + model + "' is not supported"
  }

  function GenericErrorText(raw: RawResponse): string
  {
    "API Error (" + PyStr(raw.errorType) + "): " + PyStr(raw.errorMessage)
  }

  function StatusErrorText(code: int, msg: Option<string>, model: string): string
  {
    StatusHead(code, msg) + StatusHint(code, model)
  }

  function StatusHead(code: int, msg: Option<string>): string
  {
    "MiniMax API Error (code " + (IntToString(code) + "): " + PyStr(msg))
  }

  /** The extra hint codes 1008 and 2013 get. */
  function StatusHint(code: int, model: string): string
  {
    if code == 1008 then BalanceHint else if code == 2013 then UnsupportedModelHint(model) else ""
  }

  /** The checks `_make_api_request` runs on the decoded reply before anything is parsed. */
  function CheckEnvelope(raw: RawResponse, model: string): (r: Result<RawResponse>)
    ensures r.Failure? <==> IsErrorEnvelope(raw)
    ensures r.Success? ==> r.value == raw
  {
    if raw.kind == Some("error") then Failure(GenericErrorText(raw))
    else if raw.baseResp.Some? && !StatusOk(raw.baseResp.value.statusCode) then
      Failure(StatusErrorText(raw.baseResp.value.statusCode.value, raw.baseResp.value.statusMsg, model))
    else Success(raw)
  }

  /** Offline mode: the explicit flag when given, else whether the upper-cased key starts with "TEST_". */
  function IsOffline(offlineMode: Option<bool>, apiKey: string): bool
  {
    match offlineMode
    case Some(b) => b
    case None => StartsWith(Upper(apiKey), "TEST_")
  }

  /** `LLMClient.__init__`: a fresh client, stub counter at zero. */
  function NewClient(apiKey: string, model: string, offlineMode: Option<bool>): Client
  {
    Client(apiKey, model, IsOffline(offlineMode, apiKey), 0)
  }

  /** The content of the last user message, "" when there is none. */
  function LastUserText(msgs: seq<Message>): string
    decreases |msgs|
  {
    if |msgs| == 0 then ""
    else if msgs[|msgs| - 1].role == User then msgs[|msgs| - 1].content
    else LastUserText(msgs[..|msgs| - 1])
  }

  /** Some tool message of the conversation came from the tool `name`. */
  predicate HasToolResult(msgs: seq<Message>, name: string)
  {
    exists i | 0 <= i < |msgs| :: msgs[i].role == Tool && msgs[i].name == Some(name)
  }

  /** The id of the stub's `n`-th tool call. */
  function StubId(n: nat): string
  {
    "stub-" + NatToString(n)
  }

  /** What `_fake_response` returns, and the client with its counter after the call. */
  datatype Stubbed = Stubbed(client: Client, response: LLMResponse)

  function TextReply(text: string): LLMResponse
  {
    LLMResponse(text, None, None, "stop")
  }

  /** A reply holding one stub tool call; the counter is advanced first and names the call. */
  function StubCall(c: Client, name: string, args: Args): Stubbed
  {
    var n := c.counter + 1;
    Stubbed(c.(counter := n), LLMResponse("", None, Some([ToolCall(StubId(n), name, args)]), "tool_use"))
  }

  const HelloReply: string := "Hello, Mini Agent!"
  const CalculatorArgs: Args := [("operation", JStr("add")), ("a", JInt(123)), ("b", JInt(456))]
  const WriteFileArgs: Args := [("path", JStr("test.txt")), ("content", JStr("Hello from Agent!"))]
  const BashArgs: Args := [("command", JStr("ls")), ("timeout", JInt(30)), ("run_in_background", JBool(false))]

  /** The deterministic offline stub: a rule table over the lower-cased last user text. */
  function FakeResponse(c: Client, msgs: seq<Message>, tools: seq<ToolSchema>): (s: Stubbed)
    ensures s.client == c.(counter := c.counter + |CallList(s.response.toolCalls)|)
    ensures |CallList(s.response.toolCalls)| <= 1
    ensures forall k :: 0 <= k < |CallList(s.response.toolCalls)| ==>
              CallList(s.response.toolCalls)[k].id == StubId(s.client.counter)
    ensures Normalized(s.response)
  {
    var text := Lower(LastUserText(msgs));
    if Contains(text, "say 'hello, mini agent!'") || Contains(text, "hello, mini agent") then
      Stubbed(c, TextReply(HelloReply))
    else if Contains(text, "calculate 123 + 456") && |tools| > 0 then
      StubCall(c, "calculator", CalculatorArgs)
    else if Contains(text, "test.txt") && Contains(text, "hello from agent") then
      if HasToolResult(msgs, "write_file") then Stubbed(c, TextReply("Created test.txt with the requested content."))
      else StubCall(c, "write_file", WriteFileArgs)
    else if Contains(text, "list all files") && Contains(text, "bash") then
      if HasToolResult(msgs, "bash") then Stubbed(c, TextReply("Listed the files in the workspace."))
      else StubCall(c, "bash", BashArgs)
    else
      var fallback := if LastUserText(msgs) == "" then "Hello!" else LastUserText(msgs);
      Stubbed(c, TextReply("Stub response: " + Strip(fallback)))
  }

  /** What `generate` produced: the client afterwards, the response or the raised error, and the request sent. */
  datatype Generated = Generated(client: Client, outcome: Result<LLMResponse>, request: Option<Payload>)

  /**
   * `LLMClient.generate`. Offline, the stub answers and nothing is sent. Online, the request
   * body is built, `reply` is what came back, error envelopes raise before any content is
   * parsed, and the content blocks are parsed otherwise. With retries enabled the same request
   * function is called through the retry wrapper; `reply` is then the final attempt's outcome.
   */
  function Generate(c: Client, msgs: seq<Message>, tools: seq<ToolSchema>, reply: Reply): (g: Generated)
    ensures g.client == c.(counter := g.client.counter) && g.client.counter >= c.counter
    ensures c.offline ==> g.request.None? && g.outcome.Success?
    ensures !c.offline ==> g.client == c && g.request == Some(BuildPayload(c.model, msgs, tools))
    ensures !c.offline ==> (g.outcome.Failure? <==> reply.TransportFailure? || IsErrorEnvelope(reply.raw))
    ensures g.outcome.Success? ==> Normalized(g.outcome.value)
  {
    if c.offline then
      var s := FakeResponse(c, msgs, tools);
      Generated(s.client, Success(s.response), None)
    else
      var payload := BuildPayload(c.model, msgs, tools);
      match reply
      case TransportFailure(e) => Generated(c, Failure(e), Some(payload))
      case Decoded(raw) =>
        match CheckEnvelope(raw, c.model)
        case Failure(e) => Generated(c, Failure(e), Some(payload))
        case Success(ok) => Generated(c, Success(ParseContent(ok.content, ok.stopReason)), Some(payload))
  }

  /**
   * What `generate` answers with. Offline, the stub's response and counter, whatever the reply.
   * Online, the transport error, the envelope's error, or the parse of the reply's content
   * blocks and stop reason, in that order of precedence. This is the forward case split that
   * the step lemmas build on.
   */
  lemma GenerateResult(c: Client, msgs: seq<Message>, tools: seq<ToolSchema>, reply: Reply)
    ensures var g := Generate(c, msgs, tools, reply);
      && (c.offline ==> g.outcome.Success? && Stubbed(g.client, g.outcome.value) == FakeResponse(c, msgs, tools))
      && (!c.offline && reply.TransportFailure? ==> g.outcome == Failure(reply.message))
      && (!c.offline && reply.Decoded? && IsErrorEnvelope(reply.raw) ==>
            g.outcome == Failure(CheckEnvelope(reply.raw, c.model).error))
      && (!c.offline && reply.Decoded? && !IsErrorEnvelope(reply.raw) ==>
            g.outcome == Success(ParseContent(reply.raw.content, reply.raw.stopReason)))
  {
  }

  /**
   * An error envelope raises whatever content and stop reason the reply carries: the outcome
   * is the envelope's error, decided before the content is looked at.
   */
  lemma EnvelopeRaisesBeforeParsing(c: Client, msgs: seq<Message>, tools: seq<ToolSchema>,
                                    raw: RawResponse, bs: seq<Block>, sr: Option<string>)
    requires !c.offline && IsErrorEnvelope(raw)
    ensures Generate(c, msgs, tools, Decoded(raw.(content := bs, stopReason := sr))).outcome
         == Failure(CheckEnvelope(raw, c.model).error)
  {
    var raw' := raw.(content := bs, stopReason := sr);
    assert IsErrorEnvelope(raw');
    assert CheckEnvelope(raw', c.model) == CheckEnvelope(raw, c.model);
  }

  /**
   * The message an error envelope raises with: a generic envelope wins over a status
   * envelope, and codes 1008 and 2013 get their hint appended.
   */
  lemma EnvelopeMessages(raw: RawResponse, model: string)
    requires IsErrorEnvelope(raw)
    ensures raw.kind == Some("error") ==> StartsWith(CheckEnvelope(raw, model).error, "API Error (")
    ensures raw.kind != Some("error") ==> StartsWith(CheckEnvelope(raw, model).error, "MiniMax API Error (code ")
    ensures raw.kind != Some("error") && raw.baseResp.value.statusCode == Some(1008) ==>
              EndsWith(CheckEnvelope(raw, model).error, BalanceHint)
    ensures raw.kind != Some("error") && raw.baseResp.value.statusCode == Some(2013) ==>
              EndsWith(CheckEnvelope(raw, model).error, UnsupportedModelHint(model))
  {
    if raw.kind == Some("error") {
      GenericErrorShape(raw);
    } else {
      StatusErrorShape(raw.baseResp.value.statusCode.value, raw.baseResp.value.statusMsg, model);
    }
  }

  lemma GenericErrorShape(raw: RawResponse)
    ensures StartsWith(GenericErrorText(raw), "API Error (")
  {
    var p := "API Error (";
    var rest := PyStr(raw.errorType) + "): " + PyStr(raw.errorMessage);
    assert GenericErrorText(raw) == p + rest;
    ConcatEnds(p, rest);
  }

  lemma StatusErrorShape(code: int, msg: Option<string>, model: string)
    ensures StartsWith(StatusErrorText(code, msg, model), "MiniMax API Error (code ")
    ensures code == 1008 ==> EndsWith(StatusErrorText(code, msg, model), BalanceHint)
    ensures code == 2013 ==> EndsWith(StatusErrorText(code, msg, model), UnsupportedModelHint(model))
  {
    ConcatEnds("MiniMax API Error (code ", IntToString(code) + "): " + PyStr(msg));
    StartsWithExtend(StatusHead(code, msg), "MiniMax API Error (code ", StatusHint(code, model));
    ConcatEnds(StatusHead(code, msg), StatusHint(code, model));
  }

  /**
   * An explicit flag decides offline mode by itself. Otherwise a key is offline exactly when
   * its first five characters upper-case to "TEST_", so every letter-case spelling of the
   * prefix counts, and shorter keys and keys not starting with t/T do not.
   */
  lemma OfflineSwitch(key: string, prefix: string, rest: string)
    ensures forall b :: IsOffline(Some(b), key) == b
    ensures IsOffline(None, key) <==> |key| >= 5 && forall i :: 0 <= i < 5 ==> UpperChar(key[i]) == "TEST_"[i]
    ensures |prefix| == 5 && Upper(prefix) == "TEST_" ==> IsOffline(None, prefix + rest)
    ensures IsOffline(None, "TEST_" + rest) && IsOffline(None, "test_" + rest) && IsOffline(None, "Test_" + rest)
    ensures |key| < 5 ==> !IsOffline(None, key)
    ensures |key| > 0 && UpperChar(key[0]) != 'T' ==> !IsOffline(None, key)
  {
    if |key| >= 5 && forall i :: 0 <= i < 5 ==> UpperChar(key[i]) == "TEST_"[i] {
      assert Upper(key)[..5] == "TEST_";
    }
    if |prefix| == 5 && Upper(prefix) == "TEST_" {
      assert Upper(prefix + rest)[..5] == Upper(prefix);
    }
    var u1 := Upper("TEST_" + rest);
    var u2 := Upper("test_" + rest);
    var u3 := Upper("Test_" + rest);
    assert u1[..5] == "TEST_";
    assert u2[..5] == "TEST_";
    assert u3[..5] == "TEST_";
    if |key| > 0 && UpperChar(key[0]) != 'T' {
      assert Upper(key)[0] != "TEST_"[0];
    }
  }

  /** A new client starts its stub counter at zero, so the first stub call is named "stub-1". */
  lemma FreshClientFirstCall(key: string, model: string, mode: Option<bool>, name: string, args: Args)
    ensures NewClient(key, model, mode).offline == IsOffline(mode, key)
    ensures StubCall(NewClient(key, model, mode), name, args).response.toolCalls == Some([ToolCall("stub-1", name, args)])
    ensures StubCall(NewClient(key, model, mode), name, args).client.counter == 1
  {
    assert NatToString(1) == [DigitChar(1)] == "1";
    assert StubId(1) == "stub-" + "1" == "stub-1";
  }

  /** Distinct counter values name distinct stub calls. */
  lemma StubIdInjective(m: nat, n: nat)
    requires StubId(m) == StubId(n)
    ensures m == n
  {
    assert StubId(m)[5..] == NatToString(m);
    assert StubId(n)[5..] == NatToString(n);
    NatToStringInjective(m, n);
  }

  lemma SayHelloContainsHello()
    ensures Contains("say 'hello, mini agent!'", "hello, mini agent")
  {
    ContainsAt("say 'hello, mini agent!'", "hello, mini agent", 5);
  }

  /** A last user text mentioning "hello, mini agent" in any letter case gets the fixed greeting. */
  lemma StubGreets(c: Client, msgs: seq<Message>, tools: seq<ToolSchema>)
    requires Contains(Lower(LastUserText(msgs)), "hello, mini agent")
    ensures FakeResponse(c, msgs, tools) == Stubbed(c, LLMResponse(HelloReply, None, None, "stop"))
  {
  }

  /** "say 'hello, mini agent!'" alone also triggers the greeting: the first test implies the second. */
  lemma StubGreetsOnSay(c: Client, msgs: seq<Message>, tools: seq<ToolSchema>)
    requires Contains(Lower(LastUserText(msgs)), "say 'hello, mini agent!'")
    ensures Contains(Lower(LastUserText(msgs)), "hello, mini agent")
    ensures FakeResponse(c, msgs, tools).response.content == HelloReply
  {
    SayHelloContainsHello();
    ContainsTrans(Lower(LastUserText(msgs)), "say 'hello, mini agent!'", "hello, mini agent");
  }

  /** With tools present, "calculate 123 + 456" gets one calculator call numbered by the advanced counter. */
  lemma StubCalculates(c: Client, msgs: seq<Message>, tools: seq<ToolSchema>)
    requires Contains(Lower(LastUserText(msgs)), "calculate 123 + 456")
    requires !Contains(Lower(LastUserText(msgs)), "hello, mini agent")
    requires |tools| > 0
    ensures FakeResponse(c, msgs, tools).client.counter == c.counter + 1
    ensures FakeResponse(c, msgs, tools).response.toolCalls
         == Some([ToolCall(StubId(c.counter + 1), "calculator",
                           [("operation", JStr("add")), ("a", JInt(123)), ("b", JInt(456))])])
  {
    var text := Lower(LastUserText(msgs));
    if Contains(text, "say 'hello, mini agent!'") {
      SayHelloContainsHello();
      ContainsTrans(text, "say 'hello, mini agent!'", "hello, mini agent");
    }
  }

  /**
   * The file-writing request asks for `write_file` until a `write_file` tool result is in the
   * conversation, and answers with text only from then on.
   */
  lemma StubWritesFileOnce(c: Client, msgs: seq<Message>, tools: seq<ToolSchema>)
    requires Contains(Lower(LastUserText(msgs)), "test.txt")
    requires Contains(Lower(LastUserText(msgs)), "hello from agent")
    requires !Contains(Lower(LastUserText(msgs)), "hello, mini agent")
    requires !Contains(Lower(LastUserText(msgs)), "calculate 123 + 456") || |tools| == 0
    ensures HasToolResult(msgs, "write_file") ==>
              FakeResponse(c, msgs, tools) == Stubbed(c, TextReply("Created test.txt with the requested content."))
    ensures !HasToolResult(msgs, "write_file") ==>
              FakeResponse(c, msgs, tools).response.toolCalls
              == Some([ToolCall(StubId(c.counter + 1), "write_file", WriteFileArgs)])
  {
    var text := Lower(LastUserText(msgs));
    if Contains(text, "say 'hello, mini agent!'") {
      SayHelloContainsHello();
      ContainsTrans(text, "say 'hello, mini agent!'", "hello, mini agent");
    }
  }
}
