/** Anthropic: the system prompt is a field of its own, tool results are user turns, calls keep their ids. */
module AnthropicDialect {
  import opened Wrappers
  import opened Domain
  import OpenApi

  /** A content block, each kind with the fields it owns. */
  datatype Block =
    | Text(text: string)
    | ToolUse(id: string, name: string, input: string)
    | ToolResult(toolUseId: string, content: string)
    | OtherBlock(kind: string)

  datatype AnthropicMessage = AnthropicMessage(role: string, content: seq<Block>)

  datatype AnthropicTool = AnthropicTool(name: string, description: string, inputSchema: string)

  datatype AnthropicToolChoice = AnthropicToolChoice(kind: string, name: string)

  datatype AnthropicRequest = AnthropicRequest(
    model: string, maxTokens: int, system: string, messages: seq<AnthropicMessage>,
    temperature: Option<real>, topP: Option<real>, stop: seq<string>,
    tools: seq<AnthropicTool>, toolChoice: Option<AnthropicToolChoice>)

  datatype AnthropicResponse = AnthropicResponse(content: seq<Block>, stopReason: string, inputTokens: int, outputTokens: int)

  // ---- specification ----

  const SEPARATOR := "\n\n"

  function Join(parts: seq<string>): string {
    if parts == [] then ""
    else if |parts| == 1 then parts[0]
    else Join(parts[..|parts| - 1]) + SEPARATOR + parts[|parts| - 1]
  }

  /** The turns that are not the system's, in order. */
  function Turns(messages: seq<Message>): (turns: seq<Message>)
    ensures forall i :: 0 <= i < |turns| ==> turns[i].role != System
  {
    if messages == [] then []
    else
      var last := messages[|messages| - 1];
      Turns(messages[..|messages| - 1]) + if last.role == System then [] else [last]
  }

  function Prompts(messages: seq<Message>): seq<string> {
    if messages == [] then []
    else
      var last := messages[|messages| - 1];
      Prompts(messages[..|messages| - 1]) + if last.role == System then [last.content] else []
  }

  function CallToBlock(tc: ToolCall): Block {
    ToolUse(tc.id, tc.name, tc.arguments)
  }

  function CallsToBlocks(calls: seq<ToolCall>): seq<Block> {
    if calls == [] then []
    else CallsToBlocks(calls[..|calls| - 1]) + [CallToBlock(calls[|calls| - 1])]
  }

  /** The text block an encoded turn starts with, if its content is not empty. */
  function Opening(content: string): seq<Block> {
    if content != "" then [Text(content)] else []
  }

  function Encode(m: Message): AnthropicMessage {
    if m.role == Tool then AnthropicMessage("user", [ToolResult(m.toolCallId, m.content)])
    else
      AnthropicMessage(OpenApi.RoleName(m.role), Opening(m.content) + CallsToBlocks(m.toolCalls))
  }

  function EncodeAll(turns: seq<Message>): seq<AnthropicMessage> {
    seq(|turns|, i requires 0 <= i < |turns| => Encode(turns[i]))
  }

  /** The text of a message's blocks, and its calls. */
  function TextOf(blocks: seq<Block>): string {
    if blocks == [] then ""
    else
      var last := blocks[|blocks| - 1];
      TextOf(blocks[..|blocks| - 1]) + if last.Text? then last.text else ""
  }

  function CallsOf(blocks: seq<Block>): seq<ToolCall> {
    if blocks == [] then []
    else
      var last := blocks[|blocks| - 1];
      CallsOf(blocks[..|blocks| - 1]) + if last.ToolUse? then [ToolCall(last.id, last.name, last.input)] else []
  }

  /** The turn a wire message stands for: one tool result, or text and calls. */
  function Decode(w: AnthropicMessage): Option<Message> {
    if w.role == "user" && |w.content| == 1 && w.content[0].ToolResult? then
      Some(Message(Tool, w.content[0].content, [], w.content[0].toolUseId))
    else
      match OpenApi.RoleNamed(w.role)
      case None => None
      case Some(role) => Some(Message(role, TextOf(w.content), CallsOf(w.content), ""))
  }

  /** A choice is named by its kind, and only a forced tool by its name too; no choice stays none. */
  predicate ChoiceKept(w: Option<AnthropicToolChoice>, c: Option<ToolChoice>) {
    && (w.Some? <==> c.Some?)
    && (c.Some? ==>
          && (w.value.kind == "none" <==> c.value.NoTools?)
          && (w.value.kind == "auto" <==> c.value.Auto?)
          && (w.value.kind == "tool" <==> c.value.Function?)
          && w.value.name == if c.value.Function? then c.value.name else "")
  }

  /** A stop reason this dialect knows. */
  function Finish(reason: string): Option<FinishReason> {
    if reason == "end_turn" || reason == "stop_sequence" then Some(Stop)
    else if reason == "max_tokens" then Some(Length)
    else if reason == "tool_use" then Some(ToolCallsMade)
    else None
  }

  /** One turn's blocks, each where it stands: a tool result alone, else the text if there is any, then the calls in order. */
  predicate Lays(w: AnthropicMessage, m: Message) {
    if m.role == Tool then w == AnthropicMessage("user", [ToolResult(m.toolCallId, m.content)])
    else
      var offset := if m.content == "" then 0 else 1;
      && w.role == (match m.role case System => "system" case User => "user" case _ => "assistant")
      && |w.content| == offset + |m.toolCalls|
      && (offset == 1 ==> w.content[0] == Text(m.content))
      && forall k :: 0 <= k < |m.toolCalls| ==>
           w.content[offset + k] == ToolUse(m.toolCalls[k].id, m.toolCalls[k].name, m.toolCalls[k].arguments)
  }

  lemma {:induction false} EncodeLays(m: Message)
    ensures Lays(Encode(m), m)
  {
    CallsAreToolUses(m.toolCalls);
  }

  /** How many of these turns are not the system's. */
  function Spoken(messages: seq<Message>): nat {
    if messages == [] then 0 else (if messages[0].role == System then 0 else 1) + Spoken(messages[1..])
  }

  lemma {:induction false} SpokenPush(messages: seq<Message>, m: Message)
    ensures Spoken(messages + [m]) == Spoken(messages) + if m.role == System then 0 else 1
  {
    if messages == [] {
      assert messages + [m] == [m] && [m][1..] == [];
    } else {
      assert (messages + [m])[1..] == messages[1..] + [m];
      SpokenPush(messages[1..], m);
    }
  }

  /** Every turn that is not the system's is sent behind exactly those before it, and nothing else is sent. */
  lemma {:induction false} EachTurnInPlace(messages: seq<Message>)
    ensures |Turns(messages)| == Spoken(messages)
    ensures forall i :: 0 <= i < |messages| && messages[i].role != System ==>
              Spoken(messages[..i]) < |Turns(messages)| && Turns(messages)[Spoken(messages[..i])] == messages[i]
  {
    if messages != [] {
      var front, last := messages[..|messages| - 1], messages[|messages| - 1];
      EachTurnInPlace(front);
      SpokenPush(front, last);
      assert front + [last] == messages;
      forall i | 0 <= i < |messages| && messages[i].role != System
        ensures Spoken(messages[..i]) < |Turns(messages)| && Turns(messages)[Spoken(messages[..i])] == messages[i]
      {
        assert messages[..i] == front[..i];
        if i == |front| {
          assert front[..i] == front;
        }
      }
    }
  }

  /** The messages sent: each turn that is not the system's, at its place among those. */
  ghost predicate LaysOut(wire: seq<AnthropicMessage>, messages: seq<Message>) {
    && |wire| == Spoken(messages)
    && forall i :: 0 <= i < |messages| && messages[i].role != System ==>
         Spoken(messages[..i]) < |wire| && Lays(wire[Spoken(messages[..i])], messages[i])
  }

  lemma {:induction false} TurnsLaidOut(messages: seq<Message>)
    ensures LaysOut(EncodeAll(Turns(messages)), messages)
  {
    EachTurnInPlace(messages);
    forall i | 0 <= i < |messages| && messages[i].role != System
      ensures Lays(EncodeAll(Turns(messages))[Spoken(messages[..i])], messages[i])
    {
      EncodeLays(messages[i]);
    }
  }

  // ---- the code ----

  method Request(model: string, req: ChatRequest) returns (wire: AnthropicRequest)
    ensures wire.model == model && wire.maxTokens == req.maxTokens && wire.stop == req.stop
    ensures wire.temperature == req.temperature && wire.topP == req.topP
    ensures wire.system == Join(Prompts(req.messages))
    ensures wire.messages == EncodeAll(Turns(req.messages))
    ensures LaysOut(wire.messages, req.messages)
    ensures |wire.tools| == |req.tools|
    ensures forall k :: 0 <= k < |req.tools| ==>
              wire.tools[k] == AnthropicTool(req.tools[k].name, req.tools[k].description, req.tools[k].parameters)
    ensures ChoiceKept(wire.toolChoice, req.toolChoice)
  {
    var system: seq<string> := [];
    var messages: seq<AnthropicMessage> := [];
    for i := 0 to |req.messages|
      invariant system == Prompts(req.messages[..i])
      invariant messages == EncodeAll(Turns(req.messages[..i]))
    {
      var m := req.messages[i];
      assert req.messages[..i + 1][..i] == req.messages[..i];
      if m.role == System {
        system := system + [m.content];
        continue;
      }
      var turn := RequestMessage(m);
      messages := messages + [turn];
    }
    assert req.messages[..|req.messages|] == req.messages;
    TurnsLaidOut(req.messages);
    var tools: seq<AnthropicTool> := [];
    for k := 0 to |req.tools|
      invariant |tools| == k
      invariant forall j :: 0 <= j < k ==> tools[j] == AnthropicTool(req.tools[j].name, req.tools[j].description, req.tools[j].parameters)
    {
      var t := req.tools[k];
      tools := tools + [AnthropicTool(t.name, t.description, t.parameters)];
    }
    var choice := None;
    if req.toolChoice.Some? {
      match req.toolChoice.value {
        case NoTools => choice := Some(AnthropicToolChoice("none", ""));
        case Auto => choice := Some(AnthropicToolChoice("auto", ""));
        case Function(name) => choice := Some(AnthropicToolChoice("tool", name));
      }
    }
    var prompt := StringsJoin(system);
    wire := AnthropicRequest(model, req.maxTokens, prompt, messages, req.temperature, req.topP, req.stop, tools, choice);
  }

  method StringsJoin(parts: seq<string>) returns (s: string)
    ensures s == Join(parts)
  {
    s := "";
    for i := 0 to |parts|
      invariant s == Join(parts[..i])
    {
      assert parts[..i + 1][..i] == parts[..i];
      s := if i == 0 then parts[0] else s + SEPARATOR + parts[i];
    }
    assert parts[..|parts|] == parts;
  }

  method RequestMessage(m: Message) returns (msg: AnthropicMessage)
    ensures msg == Encode(m) && Lays(msg, m)
  {
    EncodeLays(m);
    if m.role == Tool {
      return AnthropicMessage("user", [ToolResult(m.toolCallId, m.content)]);
    }
    var content: seq<Block> := [];
    if m.content != "" {
      content := content + [Text(m.content)];
    }
    ghost var text := content;
    for i := 0 to |m.toolCalls|
      invariant content == text + CallsToBlocks(m.toolCalls[..i])
    {
      var tc := m.toolCalls[i];
      assert m.toolCalls[..i + 1][..i] == m.toolCalls[..i];
      content := content + [ToolUse(tc.id, tc.name, tc.arguments)];
    }
    assert m.toolCalls[..|m.toolCalls|] == m.toolCalls;
    msg := AnthropicMessage(OpenApi.RoleName(m.role), content);
  }

  /** An unknown stop reason is a fault carrying what was counted. */
  method ToDomain(r: AnthropicResponse) returns (result: Result<Completion, Domain.Usage>)
    ensures
      var usage := Domain.Usage(r.inputTokens, r.outputTokens, r.inputTokens + r.outputTokens);
      result == match Finish(r.stopReason)
                case None => Err(usage)
                case Some(finish) => Ok(Completion(Message(Assistant, TextOf(r.content), CallsOf(r.content), ""), finish, usage))
    ensures result.Ok? <==> r.stopReason in {"end_turn", "stop_sequence", "max_tokens", "tool_use"}
    ensures result.Ok? ==>
      && (result.value.finish == ToolCallsMade <==> r.stopReason == "tool_use")
      && (result.value.finish == Length <==> r.stopReason == "max_tokens")
  {
    var usage := Domain.Usage(r.inputTokens, r.outputTokens, r.inputTokens + r.outputTokens);
    var msg := Message(Assistant, "", [], "");
    for i := 0 to |r.content|
      invariant msg == Message(Assistant, TextOf(r.content[..i]), CallsOf(r.content[..i]), "")
    {
      assert r.content[..i + 1][..i] == r.content[..i];
      match r.content[i] {
        case Text(text) => msg := msg.(content := msg.content + text);
        case ToolUse(id, name, input) => msg := msg.(toolCalls := msg.toolCalls + [ToolCall(id, name, input)]);
        case _ =>
      }
    }
    assert r.content[..|r.content|] == r.content;
    var finish := Finish(r.stopReason);
    if finish.None? {
      return Err(usage);
    }
    result := Ok(Completion(msg, finish.value, usage));
  }

  // ---- properties ----

  lemma {:induction false} OneMoreCall(blocks: seq<Block>, tc: ToolCall)
    ensures TextOf(blocks + [CallToBlock(tc)]) == TextOf(blocks)
    ensures CallsOf(blocks + [CallToBlock(tc)]) == CallsOf(blocks) + [tc]
  {
    assert (blocks + [CallToBlock(tc)])[..|blocks|] == blocks;
  }

  /** Text first, then calls, read back as they were. */
  lemma {:induction false} BlocksRoundTrip(text: seq<Block>, calls: seq<ToolCall>)
    requires CallsOf(text) == []
    ensures TextOf(text + CallsToBlocks(calls)) == TextOf(text)
    ensures CallsOf(text + CallsToBlocks(calls)) == calls
  {
    if calls == [] {
      assert text + CallsToBlocks(calls) == text;
    } else {
      var front, last := calls[..|calls| - 1], calls[|calls| - 1];
      BlocksRoundTrip(text, front);
      var whole := text + CallsToBlocks(front);
      OneMoreCall(whole, last);
      assert text + (CallsToBlocks(front) + [CallToBlock(last)]) == whole + [CallToBlock(last)];
      calc {
        CallsOf(text + CallsToBlocks(calls));
        CallsOf(whole) + [last];
        front + [last];
        calls;
      }
    }
  }

  lemma {:induction false} TextInOrder(a: seq<Block>, b: seq<Block>)
    ensures TextOf(a + b) == TextOf(a) + TextOf(b)
  {
    if b == [] {
      assert a + b == a;
    } else {
      TextInOrder(a, b[..|b| - 1]);
      assert (a + b)[..|a + b| - 1] == a + b[..|b| - 1];
    }
  }

  lemma {:induction false} CallsInOrder(a: seq<Block>, b: seq<Block>)
    ensures CallsOf(a + b) == CallsOf(a) + CallsOf(b)
  {
    if b == [] {
      assert a + b == a;
    } else {
      CallsInOrder(a, b[..|b| - 1]);
      assert (a + b)[..|a + b| - 1] == a + b[..|b| - 1];
    }
  }

  /** A reply's text is its text blocks put together in order, its calls are its tool uses in order; other blocks say nothing. */
  lemma {:induction false} RepliesReadInOrder(before: seq<Block>, b: Block, after: seq<Block>)
    ensures TextOf(before + [b] + after) == TextOf(before) + (if b.Text? then b.text else "") + TextOf(after)
    ensures CallsOf(before + [b] + after)
         == CallsOf(before) + (if b.ToolUse? then [ToolCall(b.id, b.name, b.input)] else []) + CallsOf(after)
  {
    TextInOrder(before + [b], after);
    CallsInOrder(before + [b], after);
    assert (before + [b])[..|before|] == before;
  }

  lemma {:induction false} OpeningRoundTrip(content: string)
    ensures TextOf(Opening(content)) == content && CallsOf(Opening(content)) == []
  {
    if content != "" {
      assert [Text(content)][..0] == [];
      assert TextOf([]) + content == content;
    }
  }

  lemma {:induction false} CallsAreToolUses(calls: seq<ToolCall>)
    ensures |CallsToBlocks(calls)| == |calls|
    ensures forall i :: 0 <= i < |calls| ==> CallsToBlocks(calls)[i] == CallToBlock(calls[i])
  {
    if calls != [] {
      CallsAreToolUses(calls[..|calls| - 1]);
    }
  }

  /** The only fields this dialect has no place for: calls on a tool's turn, an answered id on any other. */
  predicate Representable(m: Message) {
    if m.role == Tool then m.toolCalls == [] else m.toolCallId == ""
  }

  /** A turn reads back as itself but for the fields its role does not own. */
  lemma {:induction false} TurnRoundTrip(m: Message)
    ensures Decode(Encode(m)) == Some(if m.role == Tool then m.(toolCalls := []) else m.(toolCallId := ""))
    ensures Decode(Encode(m)) == Some(m) <==> Representable(m)
  {
    if m.role != Tool {
      OpeningRoundTrip(m.content);
      BlocksRoundTrip(Opening(m.content), m.toolCalls);
      NoResults(m);
      OpenApi.RoleRoundTrip(m.role);
    }
  }

  lemma {:induction false} NoResults(m: Message)
    requires m.role != Tool
    ensures forall i :: 0 <= i < |Encode(m).content| ==> !Encode(m).content[i].ToolResult?
  {
    CallsAreToolUses(m.toolCalls);
  }

  /** Every turn that is not the system's keeps its place and its content. */
  lemma {:induction false} TurnsSurviveInOrder(messages: seq<Message>, i: nat)
    requires i < |Turns(messages)| && Representable(Turns(messages)[i])
    ensures |EncodeAll(Turns(messages))| == |Turns(messages)|
    ensures Decode(EncodeAll(Turns(messages))[i]) == Some(Turns(messages)[i])
  {
    TurnRoundTrip(Turns(messages)[i]);
  }

  /** So two conversations sent as the same messages have the same turns. */
  lemma {:induction false} SameWireSameTurns(a: seq<Message>, b: seq<Message>)
    requires EncodeAll(Turns(a)) == EncodeAll(Turns(b))
    requires forall i :: 0 <= i < |Turns(a)| ==> Representable(Turns(a)[i])
    requires forall i :: 0 <= i < |Turns(b)| ==> Representable(Turns(b)[i])
    ensures Turns(a) == Turns(b)
  {
    assert |EncodeAll(Turns(a))| == |Turns(a)| && |EncodeAll(Turns(b))| == |Turns(b)|;
    forall i | 0 <= i < |Turns(a)| ensures Turns(a)[i] == Turns(b)[i] {
      TurnsSurviveInOrder(a, i);
      TurnsSurviveInOrder(b, i);
    }
  }

  /** Of the messages the public contract accepts, the ones that survive are the tools' and those naming no answered call. */
  lemma {:induction false} AcceptedSurvivesIff(m: OpenApi.MessageWire)
    requires OpenApi.MessageAcceptable(m)
    ensures Decode(Encode(OpenApi.FromWire(m))) == Some(OpenApi.FromWire(m)) <==> m.role == "tool" || m.toolCallId == ""
  {
    OpenApi.AcceptedMessagesAreOwned(m);
    TurnRoundTrip(OpenApi.FromWire(m));
  }

  /** The dialect reads its own assistant turns back: what was sent as history is what a reply with those blocks would have said. */
  lemma {:induction false} RepliesReadLikeHistory(m: Message)
    requires m.role == Assistant && m.toolCallId == ""
    ensures Message(Assistant, TextOf(Encode(m).content), CallsOf(Encode(m).content), "") == m
  {
    TurnRoundTrip(m);
    CallsAreToolUses(m.toolCalls);
    assert Decode(Encode(m)).value == m;
  }

  /** A result still names, by id, the call it answers: the pair matches on the wire exactly when it matched before. */
  lemma {:induction false} ToolIdentityKept(call: Message, k: nat, result: Message)
    requires call.role != Tool && result.role == Tool && k < |call.toolCalls|
    ensures
      var uses, offset := Encode(call).content, if call.content != "" then 1 else 0;
      && offset + k < |uses| && uses[offset + k].ToolUse?
      && Encode(result).content[0].ToolResult?
      && (Encode(result).content[0].toolUseId == uses[offset + k].id <==> result.toolCallId == call.toolCalls[k].id)
      && uses[offset + k].name == call.toolCalls[k].name
  {
    CallsAreToolUses(call.toolCalls);
  }

  // ---- nothing is lost between the two halves ----

  /** The system's turns, in order. */
  function SystemTurns(messages: seq<Message>): seq<Message> {
    if messages == [] then []
    else
      var last := messages[|messages| - 1];
      SystemTurns(messages[..|messages| - 1]) + if last.role == System then [last] else []
  }

  lemma {:induction false} HalvesMakeWhole(messages: seq<Message>)
    ensures multiset(messages) == multiset(Turns(messages)) + multiset(SystemTurns(messages))
  {
    if messages != [] {
      var front, last := messages[..|messages| - 1], messages[|messages| - 1];
      var turns, systems := Turns(front), SystemTurns(front);
      HalvesMakeWhole(front);
      assert messages == front + [last];
      if last.role == System {
        OneMoreSystem(front, turns, systems, last);
        assert Turns(messages) == turns && SystemTurns(messages) == systems + [last];
      } else {
        OneMoreTurn(front, turns, systems, last);
        assert Turns(messages) == turns + [last] && SystemTurns(messages) == systems;
      }
    }
  }

  lemma {:induction false} OneMoreTurn(whole: seq<Message>, turns: seq<Message>, systems: seq<Message>, m: Message)
    requires multiset(whole) == multiset(turns) + multiset(systems)
    ensures multiset(whole + [m]) == multiset(turns + [m]) + multiset(systems)
  {
    assert multiset(whole + [m]) == multiset(whole) + multiset{m};
    assert multiset(turns + [m]) == multiset(turns) + multiset{m};
  }

  lemma {:induction false} OneMoreSystem(whole: seq<Message>, turns: seq<Message>, systems: seq<Message>, m: Message)
    requires multiset(whole) == multiset(turns) + multiset(systems)
    ensures multiset(whole + [m]) == multiset(turns) + multiset(systems + [m])
  {
    assert multiset(whole + [m]) == multiset(whole) + multiset{m};
    assert multiset(systems + [m]) == multiset(systems) + multiset{m};
  }

  /** A prompt is joined behind exactly the system's turns before it. */
  lemma {:induction false} EachPromptInPlace(messages: seq<Message>, i: nat)
    requires i < |messages| && messages[i].role == System
    ensures i - Spoken(messages[..i]) < |Prompts(messages)| && |Prompts(messages)| == |messages| - Spoken(messages)
    ensures i >= Spoken(messages[..i]) && Prompts(messages)[i - Spoken(messages[..i])] == messages[i].content
  {
    var front, last := messages[..|messages| - 1], messages[|messages| - 1];
    PromptsCounted(messages);
    PromptsCounted(front);
    SpokenPush(front, last);
    assert front + [last] == messages && messages[..i] == front[..i];
    if i < |front| {
      EachPromptInPlace(front, i);
    } else {
      assert front[..i] == front;
    }
  }

  lemma {:induction false} PromptsCounted(messages: seq<Message>)
    ensures |Prompts(messages)| == |messages| - Spoken(messages)
  {
    if messages != [] {
      var front, last := messages[..|messages| - 1], messages[|messages| - 1];
      PromptsCounted(front);
      SpokenPush(front, last);
      assert front + [last] == messages;
    }
  }

  lemma {:induction false} PromptsAreSystemTurns(messages: seq<Message>)
    ensures |Prompts(messages)| == |SystemTurns(messages)|
    ensures forall i :: 0 <= i < |Prompts(messages)| ==> Prompts(messages)[i] == SystemTurns(messages)[i].content
  {
    if messages != [] {
      PromptsAreSystemTurns(messages[..|messages| - 1]);
    }
  }

  /** The two halves are the conversation, each message in exactly one, and none of the system's goes among the messages. */
  lemma {:induction false} Partitioned(messages: seq<Message>)
    ensures multiset(messages) == multiset(Turns(messages)) + multiset(SystemTurns(messages))
    ensures |Prompts(messages)| == |SystemTurns(messages)|
    ensures forall i :: 0 <= i < |Prompts(messages)| ==> Prompts(messages)[i] == SystemTurns(messages)[i].content
    ensures forall i :: 0 <= i < |EncodeAll(Turns(messages))| ==> EncodeAll(Turns(messages))[i].role != "system"
  {
    HalvesMakeWhole(messages);
    PromptsAreSystemTurns(messages);
    NeverSystem(messages);
  }

  lemma {:induction false} NeverSystem(messages: seq<Message>)
    ensures forall i :: 0 <= i < |EncodeAll(Turns(messages))| ==> EncodeAll(Turns(messages))[i].role != "system"
  {
    forall i | 0 <= i < |Turns(messages)| ensures Encode(Turns(messages)[i]).role != "system" {
      assert Turns(messages)[i].role != System;
    }
  }

  /** Joining is piecewise: the parts keep their order, with one blank line between any two. */
  lemma {:induction false} PromptsJoined(a: seq<string>, b: seq<string>)
    requires a != [] && b != []
    ensures Join(a + b) == Join(a) + "\n\n" + Join(b)
    ensures |a| == 1 ==> Join(a) == a[0]
  {
    var front, last := b[..|b| - 1], b[|b| - 1];
    assert (a + b)[..|a + b| - 1] == a + front;
    if front == [] {
      assert a + front == a;
    } else {
      PromptsJoined(a, front);
    }
  }
}
