/** Ollama: results are matched to calls by name, and calls come without ids. */
module OllamaDialect {
  import opened Wrappers
  import opened Domain
  import opened Decimal
  import OpenApi

  datatype FunctionCall = FunctionCall(name: string, arguments: string)

  datatype OllamaMessage = OllamaMessage(role: string, content: string, toolName: string, toolCalls: seq<FunctionCall>)

  datatype OllamaTool = OllamaTool(name: string, description: string, parameters: string)

  datatype OllamaOptions = OllamaOptions(temperature: Option<real>, topP: Option<real>, stop: seq<string>, numPredict: int)

  datatype OllamaRequest = OllamaRequest(
    model: string, messages: seq<OllamaMessage>, stream: bool, tools: seq<OllamaTool>, options: OllamaOptions)

  datatype OllamaResponse = OllamaResponse(
    content: string, toolCalls: seq<FunctionCall>, done: bool, doneReason: string, promptEvalCount: int, evalCount: int)

  // ---- specification ----

  /** Every call made in a conversation, in order. */
  function Calls(messages: seq<Message>): seq<ToolCall> {
    if messages == [] then [] else Calls(messages[..|messages| - 1]) + messages[|messages| - 1].toolCalls
  }

  /** The name of the last call with that id. */
  function LastNamed(calls: seq<ToolCall>, id: string): string {
    if calls == [] then ""
    else if calls[|calls| - 1].id == id then calls[|calls| - 1].name
    else LastNamed(calls[..|calls| - 1], id)
  }

  /** The tool a message answers: the last call with its id before it. */
  function Answered(messages: seq<Message>, i: nat): string
    requires i < |messages|
  {
    if messages[i].role == Tool then LastNamed(Calls(messages[..i]), messages[i].toolCallId) else ""
  }

  function CallToOllama(tc: ToolCall): FunctionCall {
    FunctionCall(tc.name, tc.arguments)
  }

  function CallsToOllama(calls: seq<ToolCall>): seq<FunctionCall> {
    seq(|calls|, k requires 0 <= k < |calls| => CallToOllama(calls[k]))
  }

  function Translated(messages: seq<Message>, i: nat): OllamaMessage
    requires i < |messages|
  {
    OllamaMessage(OpenApi.RoleName(messages[i].role), messages[i].content, Answered(messages, i), CallsToOllama(messages[i].toolCalls))
  }

  /** What a turn is on this wire, field by field: everything but the ids, which this dialect has no place for. */
  predicate Says(w: OllamaMessage, m: Message) {
    && w.role == (match m.role case System => "system" case User => "user" case Assistant => "assistant" case Tool => "tool")
    && w.content == m.content
    && (m.role != Tool ==> w.toolName == "")
    && |w.toolCalls| == |m.toolCalls|
    && forall k :: 0 <= k < |m.toolCalls| ==>
         w.toolCalls[k].name == m.toolCalls[k].name && w.toolCalls[k].arguments == m.toolCalls[k].arguments
  }

  /** Read back as a reply, a turn's calls are its own if they bear the ids a reply is given. */
  ghost predicate ReadsBack(w: OllamaMessage, m: Message) {
    MintedIn(m) ==> w.content == m.content && MintedCalls(w.toolCalls) == m.toolCalls
  }

  lemma {:induction false} TurnSaid(messages: seq<Message>, i: nat)
    requires i < |messages|
    ensures Says(Translated(messages, i), messages[i]) && ReadsBack(Translated(messages, i), messages[i])
  {
    var w, m := Translated(messages, i), messages[i];
    if MintedIn(m) {
      forall k | 0 <= k < |m.toolCalls| ensures MintedCalls(w.toolCalls)[k] == m.toolCalls[k] {
        assert w.toolCalls[k] == CallToOllama(m.toolCalls[k]);
      }
    }
  }

  /** The map holds the last name given to every id, and nothing else. */
  ghost predicate Remembers(names: map<string, string>, calls: seq<ToolCall>) {
    && (forall id :: id in names ==> names[id] == LastNamed(calls, id))
    && (forall id :: id !in names ==> LastNamed(calls, id) == "")
  }

  // ---- the code ----

  function Lookup(names: map<string, string>, id: string): string {
    if id in names then names[id] else ""
  }

  method Request(model: string, req: ChatRequest) returns (wire: OllamaRequest)
    ensures wire.model == model && !wire.stream
    ensures wire.options == OllamaOptions(req.temperature, req.topP, req.stop, req.maxTokens)
    ensures |wire.messages| == |req.messages|
    ensures forall i :: 0 <= i < |req.messages| ==> wire.messages[i] == Translated(req.messages, i)
    ensures forall i :: 0 <= i < |req.messages| ==>
              Says(wire.messages[i], req.messages[i]) && ReadsBack(wire.messages[i], req.messages[i])
    ensures req.toolChoice == Some(NoTools) ==> wire.tools == []
    ensures req.toolChoice != Some(NoTools) ==> |wire.tools| == |req.tools|
    ensures forall k :: 0 <= k < |wire.tools| ==>
              wire.tools[k] == OllamaTool(req.tools[k].name, req.tools[k].description, req.tools[k].parameters)
  {
    var messages := new OllamaMessage[|req.messages|](_ => OllamaMessage("", "", "", []));
    var toolNames: map<string, string> := map[];
    assert req.messages[..0] == [];
    for i := 0 to |req.messages|
      invariant Remembers(toolNames, Calls(req.messages[..i]))
      invariant forall k :: 0 <= k < i ==> messages[k] == Translated(req.messages, k)
    {
      messages[i], toolNames := TranslateNext(req.messages, i, toolNames);
    }
    var tools: seq<OllamaTool> := [];
    if req.toolChoice.None? || !req.toolChoice.value.NoTools? {
      for k := 0 to |req.tools|
        invariant |tools| == k
        invariant forall j :: 0 <= j < k ==> tools[j] == OllamaTool(req.tools[j].name, req.tools[j].description, req.tools[j].parameters)
      {
        var t := req.tools[k];
        tools := tools + [OllamaTool(t.name, t.description, t.parameters)];
      }
    }
    forall i | 0 <= i < |req.messages|
      ensures Says(messages[i], req.messages[i]) && ReadsBack(messages[i], req.messages[i])
    {
      TurnSaid(req.messages, i);
    }
    wire := OllamaRequest(model, messages[..], false, tools, OllamaOptions(req.temperature, req.topP, req.stop, req.maxTokens));
  }

  /** The body of the loop: the names are read before the message's own calls are added. */
  method TranslateNext(messages: seq<Message>, i: nat, known: map<string, string>)
    returns (msg: OllamaMessage, toolNames: map<string, string>)
    requires i < |messages| && Remembers(known, Calls(messages[..i]))
    ensures msg == Translated(messages, i) && Remembers(toolNames, Calls(messages[..i + 1]))
  {
    var m := messages[i];
    msg := OllamaMessage(OpenApi.RoleName(m.role), m.content, "", []);
    if m.role == Tool {
      msg := msg.(toolName := Lookup(known, m.toolCallId));
    }
    var calls;
    calls, toolNames := TranslateCalls(m.toolCalls, known, Calls(messages[..i]));
    msg := msg.(toolCalls := calls);
    assert messages[..i + 1][..i] == messages[..i];
  }

  /** A message's calls go out without their ids, which the map keeps. */
  method TranslateCalls(calls: seq<ToolCall>, known: map<string, string>, ghost before: seq<ToolCall>)
    returns (wire: seq<FunctionCall>, toolNames: map<string, string>)
    requires Remembers(known, before)
    ensures wire == CallsToOllama(calls) && Remembers(toolNames, before + calls)
  {
    wire, toolNames := [], known;
    ghost var seen := before;
    for j := 0 to |calls|
      invariant Remembers(toolNames, seen) && seen == before + calls[..j]
      invariant |wire| == j && forall k :: 0 <= k < j ==> wire[k] == CallToOllama(calls[k])
    {
      var tc := calls[j];
      RemembersOneMore(toolNames, seen, tc);
      toolNames := toolNames[tc.id := tc.name];
      seen := seen + [tc];
      wire := wire + [FunctionCall(tc.name, tc.arguments)];
    }
    assert seen == before + calls;
  }

  lemma {:induction false} RemembersOneMore(names: map<string, string>, calls: seq<ToolCall>, tc: ToolCall)
    requires Remembers(names, calls)
    ensures Remembers(names[tc.id := tc.name], calls + [tc])
  {
    assert (calls + [tc])[..|calls|] == calls;
  }

  /** The id given to call number `k`, counted from zero. */
  function Minted(k: nat): string {
    "call_" + FormatNat(k + 1)
  }

  function MintedCalls(calls: seq<FunctionCall>): seq<ToolCall> {
    seq(|calls|, k requires 0 <= k < |calls| => ToolCall(Minted(k), calls[k].name, calls[k].arguments))
  }

  /** The calls made, in order, the first called "call_1". */
  predicate Numbered(calls: seq<ToolCall>, made: seq<FunctionCall>) {
    && |calls| == |made|
    && forall k :: 0 <= k < |made| ==>
         calls[k].id == "call_" + FormatNat(k + 1) && calls[k].name == made[k].name && calls[k].arguments == made[k].arguments
  }

  /** A reply that is not done is a fault carrying what it counted. */
  method ToDomain(r: OllamaResponse) returns (result: Result<Completion, Domain.Usage>)
    ensures
      var usage := Domain.Usage(r.promptEvalCount, r.evalCount, r.promptEvalCount + r.evalCount);
      if !r.done then result == Err(usage)
      else
        && result.Ok? && result.value.usage == usage
        && result.value.message == Message(Assistant, r.content, MintedCalls(r.toolCalls), "")
        && Numbered(result.value.message.toolCalls, r.toolCalls)
        && (result.value.finish.ToolCallsMade? <==> r.toolCalls != [])
        && (result.value.finish.Length? <==> r.toolCalls == [] && r.doneReason == "length")
  {
    var usage := Domain.Usage(r.promptEvalCount, r.evalCount, r.promptEvalCount + r.evalCount);
    if !r.done {
      return Err(usage);
    }
    var msg := Message(Assistant, r.content, [], "");
    for i := 0 to |r.toolCalls|
      invariant msg == Message(Assistant, r.content, MintedCalls(r.toolCalls[..i]), "")
    {
      var tc := r.toolCalls[i];
      msg := msg.(toolCalls := msg.toolCalls + [ToolCall("call_" + FormatNat(i + 1), tc.name, tc.arguments)]);
    }
    assert r.toolCalls[..|r.toolCalls|] == r.toolCalls;
    var finish := if |msg.toolCalls| > 0 then ToolCallsMade else if r.doneReason == "length" then Length else Stop;
    result := Ok(Completion(msg, finish, usage));
  }

  // ---- tool identity ----

  predicate DistinctIds(calls: seq<ToolCall>) {
    forall j, k :: 0 <= j < k < |calls| ==> calls[j].id != calls[k].id
  }

  /** Minted ids tell the calls of one message apart, though every message mints the same ones. */
  lemma {:induction false} MintedIdsAreDistinct(calls: seq<FunctionCall>)
    ensures DistinctIds(MintedCalls(calls))
  {
    forall j, k | 0 <= j < k < |calls| ensures MintedCalls(calls)[j].id != MintedCalls(calls)[k].id {
      MintedInjective(j, k);
    }
  }

  lemma {:induction false} LastNamedInTail(before: seq<ToolCall>, calls: seq<ToolCall>, k: nat)
    requires k < |calls| && DistinctIds(calls)
    ensures LastNamed(before + calls, calls[k].id) == calls[k].name
  {
    var all, last := before + calls, |calls| - 1;
    assert all[|all| - 1] == calls[last];
    if k < last {
      var front := calls[..last];
      assert all[..|all| - 1] == before + front && front[k] == calls[k];
      LastNamedInTail(before, front, k);
    }
  }

  /** Messages without calls leave nothing to remember. */
  lemma {:induction false} QuietStretch(messages: seq<Message>, c: nat, i: nat)
    requires c <= i <= |messages| && forall j :: c <= j < i ==> messages[j].toolCalls == []
    ensures Calls(messages[..i]) == Calls(messages[..c])
  {
    if c < i {
      QuietStretch(messages, c, i - 1);
      assert messages[..i][..i - 1] == messages[..i - 1];
      assert Calls(messages[..i - 1]) + [] == Calls(messages[..i - 1]);
    }
  }

  lemma {:induction false} ClosestCallsComeLast(messages: seq<Message>, i: nat, c: nat)
    requires c < i <= |messages| && forall j :: c < j < i ==> messages[j].toolCalls == []
    ensures Calls(messages[..i]) == Calls(messages[..c]) + messages[c].toolCalls
  {
    QuietStretch(messages, c + 1, i);
    var upTo := messages[..c + 1];
    assert upTo[..|upTo| - 1] == messages[..c] && upTo[|upTo| - 1] == messages[c];
  }

  /** A result naming a call of the closest message with calls is sent under that call's name, whatever ids earlier turns used. */
  lemma {:induction false} ToolIdentity(messages: seq<Message>, i: nat, c: nat, k: nat)
    requires c < i < |messages| && messages[i].role == Tool
    requires forall j :: c < j < i ==> messages[j].toolCalls == []
    requires DistinctIds(messages[c].toolCalls)
    requires k < |messages[c].toolCalls| && messages[c].toolCalls[k].id == messages[i].toolCallId
    ensures Translated(messages, i).toolName == messages[c].toolCalls[k].name
  {
    ClosestCallsComeLast(messages, i, c);
    LastNamedInTail(Calls(messages[..c]), messages[c].toolCalls, k);
  }

  /** Some call has that id. */
  predicate Called(calls: seq<ToolCall>, id: string) {
    exists k :: 0 <= k < |calls| && calls[k].id == id
  }

  /** `k` is the last call with its id. */
  predicate Latest(calls: seq<ToolCall>, k: nat) {
    k < |calls| && forall j :: k < j < |calls| ==> calls[j].id != calls[k].id
  }

  lemma {:induction false} LastNamedIsLatest(calls: seq<ToolCall>, k: nat)
    requires Latest(calls, k)
    ensures LastNamed(calls, calls[k].id) == calls[k].name
  {
    var last := |calls| - 1;
    if k < last {
      assert calls[..last][k] == calls[k];
      LastNamedIsLatest(calls[..last], k);
    }
  }

  ghost function LatestWith(calls: seq<ToolCall>, id: string): (k: nat)
    requires Called(calls, id)
    ensures Latest(calls, k) && calls[k].id == id
  {
    var last := |calls| - 1;
    if calls[last].id == id then last
    else
      assert Called(calls[..last], id) by {
        var k :| 0 <= k < |calls| && calls[k].id == id;
        assert calls[..last][k].id == id;
      }
      var k := LatestWith(calls[..last], id);
      assert calls[..last][k] == calls[k];
      k
  }

  lemma {:induction false} NeverCalled(calls: seq<ToolCall>, id: string)
    requires !Called(calls, id)
    ensures LastNamed(calls, id) == ""
  {
    if calls != [] {
      var last := |calls| - 1;
      assert calls[last].id != id;
      assert forall k :: 0 <= k < last ==> calls[..last][k] == calls[k];
      NeverCalled(calls[..last], id);
    }
  }

  /**
   * Without the requirement that the call be in the closest turn: a result meant for call `k`
   * is sent under its name exactly when the latest call with that id bears the same name.
   */
  lemma {:induction false} NamedRightIff(messages: seq<Message>, i: nat, k: nat)
    requires i < |messages| && messages[i].role == Tool
    requires k < |Calls(messages[..i])| && Calls(messages[..i])[k].id == messages[i].toolCallId
    ensures
      var calls := Calls(messages[..i]);
      Translated(messages, i).toolName == calls[k].name
      <==> calls[LatestWith(calls, messages[i].toolCallId)].name == calls[k].name
  {
    var calls := Calls(messages[..i]);
    LastNamedIsLatest(calls, LatestWith(calls, messages[i].toolCallId));
  }

  // ---- with minted ids only ----

  /** Every message's calls bear the ids this adapter mints. */
  predicate AllMinted(messages: seq<Message>) {
    forall c :: 0 <= c < |messages| ==> MintedIn(messages[c])
  }

  predicate MintedIn(m: Message) {
    forall k :: 0 <= k < |m.toolCalls| ==> m.toolCalls[k].id == Minted(k)
  }

  /** The last message with a call at position `p`. */
  function LastWide(messages: seq<Message>, p: nat): (c: Option<nat>)
    ensures c.Some? ==> c.value < |messages| && p < |messages[c.value].toolCalls|
    ensures c.Some? ==> forall j :: c.value < j < |messages| ==> |messages[j].toolCalls| <= p
    ensures c.None? ==> forall j :: 0 <= j < |messages| ==> |messages[j].toolCalls| <= p
  {
    if messages == [] then None
    else if p < |messages[|messages| - 1].toolCalls| then Some(|messages| - 1)
    else LastWide(messages[..|messages| - 1], p)
  }

  lemma {:induction false} MintedAreDistinct(m: Message)
    requires MintedIn(m)
    ensures DistinctIds(m.toolCalls)
  {
    forall j, k | 0 <= j < k < |m.toolCalls| ensures m.toolCalls[j].id != m.toolCalls[k].id {
      MintedInjective(j, k);
    }
  }

  lemma {:induction false} MintedInjective(j: nat, k: nat)
    requires j != k
    ensures Minted(j) != Minted(k)
  {
    if Minted(j) == Minted(k) {
      assert FormatNat(j + 1) == Minted(j)[5..] == Minted(k)[5..] == FormatNat(k + 1);
      FormatNatInjective(j + 1, k + 1);
    }
  }

  lemma {:induction false} LastNamedSkips(before: seq<ToolCall>, calls: seq<ToolCall>, id: string)
    requires forall k :: 0 <= k < |calls| ==> calls[k].id != id
    ensures LastNamed(before + calls, id) == LastNamed(before, id)
  {
    if calls == [] {
      assert before + calls == before;
    } else {
      var all := before + calls;
      assert all[..|all| - 1] == before + calls[..|calls| - 1] && all[|all| - 1] == calls[|calls| - 1];
      LastNamedSkips(before, calls[..|calls| - 1], id);
    }
  }

  lemma {:induction false} MintedLookup(messages: seq<Message>, p: nat)
    requires AllMinted(messages)
    ensures LastNamed(Calls(messages), Minted(p)) ==
      match LastWide(messages, p)
      case None => ""
      case Some(c) => messages[c].toolCalls[p].name
  {
    if messages != [] {
      var front, last := messages[..|messages| - 1], messages[|messages| - 1];
      assert forall c :: 0 <= c < |front| ==> front[c] == messages[c];
      MintedLookup(front, p);
      assert MintedIn(last);
      if p < |last.toolCalls| {
        MintedAreDistinct(last);
        LastNamedInTail(Calls(front), last.toolCalls, p);
      } else {
        forall k | 0 <= k < |last.toolCalls| ensures last.toolCalls[k].id != Minted(p) {
          MintedInjective(k, p);
        }
        LastNamedSkips(Calls(front), last.toolCalls, Minted(p));
      }
    }
  }

  /**
   * In a conversation served by this adapter, a result for call `p` of turn `a` is misnamed exactly when
   * the last turn before it with a call at that position called another tool there.
   */
  lemma {:induction false} MisnamedIff(messages: seq<Message>, i: nat, a: nat, p: nat)
    requires a < i < |messages| && messages[i].role == Tool && AllMinted(messages[..i])
    requires p < |messages[a].toolCalls| && messages[i].toolCallId == Minted(p)
    ensures LastWide(messages[..i], p).Some?
    ensures
      var c := LastWide(messages[..i], p).value;
      && a <= c
      && (Translated(messages, i).toolName != messages[a].toolCalls[p].name
          <==> messages[c].toolCalls[p].name != messages[a].toolCalls[p].name)
  {
    assert messages[..i][a] == messages[a];
    MintedLookup(messages[..i], p);
  }

  /** A late result of an earlier turn goes out under the wrong tool when the same minted id was issued again in between. */
  lemma {:induction false} LateResultIsMisnamed(first: string, second: string)
    requires first != second
    ensures
      var turn := (name: string) => Message(Assistant, "", MintedCalls([FunctionCall(name, "{}")]), "");
      var messages := [turn(first), turn(second), Message(Tool, "late", [], Minted(0))];
      messages[0].toolCalls[0].id == messages[2].toolCallId && messages[0].toolCalls[0].name == first
      && Translated(messages, 2).toolName == second
  {
    var turn := (name: string) => Message(Assistant, "", MintedCalls([FunctionCall(name, "{}")]), "");
    var messages := [turn(first), turn(second), Message(Tool, "late", [], Minted(0))];
    ToolIdentity(messages, 2, 1, 0);
  }

  /** A result that comes before any call with its id, which nothing refuses, goes out with no name at all. */
  lemma {:induction false} ResultBeforeItsCallIsNameless(messages: seq<Message>, i: nat)
    requires i < |messages| && messages[i].role == Tool
    requires !Called(Calls(messages[..i]), messages[i].toolCallId)
    ensures Translated(messages, i).toolName == ""
  {
    NeverCalled(Calls(messages[..i]), messages[i].toolCallId);
  }

  /**
   * The whole trip of a multi-tool turn: Ollama's calls are given ids, the assistant message goes
   * out and comes back over the public wire, the caller appends one result per call it likes, and
   * every result reaches Ollama under the name of the call it answers, whatever came before.
   */
  lemma {:induction false} ToolIdentityEndToEnd(
    past: seq<Message>, r: OllamaResponse, results: seq<Message>, which: seq<nat>, j: nat)
    requires |which| == |results| && j < |results|
    requires forall i :: 0 <= i < |results| ==>
               results[i].role == Tool && results[i].toolCalls == []
               && which[i] < |r.toolCalls| && results[i].toolCallId == Minted(which[i])
    ensures
      var served := Message(Assistant, r.content, MintedCalls(r.toolCalls), "");
      && OpenApi.MessageAcceptable(OpenApi.ToWire(served))
      && var messages := past + [OpenApi.FromWire(OpenApi.ToWire(served))] + results;
      Translated(messages, |past| + 1 + j).toolName == r.toolCalls[which[j]].name
  {
    var served := Message(Assistant, r.content, MintedCalls(r.toolCalls), "");
    OpenApi.SentBackIsAccepted(served);
    OpenApi.MessageRoundTrip(served);
    var messages := past + [served] + results;
    MintedIdsAreDistinct(r.toolCalls);
    forall q | |past| < q < |past| + 1 + j ensures messages[q].toolCalls == [] {
      assert messages[q] == results[q - |past| - 1];
    }
    assert messages[|past|] == served && messages[|past| + 1 + j] == results[j];
    ToolIdentity(messages, |past| + 1 + j, |past|, which[j]);
  }
}
