/** The public contract's wire form: what is refused, and what crosses unchanged. */
module OpenApi {
  import opened Wrappers
  import opened Domain

  datatype ToolCallWire = ToolCallWire(id: string, kind: string, name: string, arguments: string)

  datatype MessageWire = MessageWire(role: string, content: Option<string>, toolCalls: seq<ToolCallWire>, toolCallId: string)

  datatype ToolWire = ToolWire(kind: string, name: string, description: string, parameters: string)

  datatype ChatRequestWire = ChatRequestWire(
    model: string, messages: seq<MessageWire>, maxTokens: int,
    temperature: Option<real>, topP: Option<real>, stop: seq<string>,
    tools: seq<ToolWire>, toolChoice: Option<ToolChoice>,
    n: Option<int>, stream: Option<bool>)

  datatype Rejection =
    | StreamUnsupported
    | ManyUnsupported
    | TemperatureOutOfRange
    | TopPOutOfRange
    | UnknownRole(index: nat)
    | ContentMissing(index: nat)
    | ToolCallIdMissing(index: nat)
    | ToolCallsMisplaced(index: nat)
    | ToolKindUnknown(index: nat)
    | ToolNameMissing(index: nat)

  // ---- specification ----

  function RoleName(r: Role): string {
    match r
    case System => "system"
    case User => "user"
    case Assistant => "assistant"
    case Tool => "tool"
  }

  function RoleNamed(name: string): (r: Option<Role>)
    ensures r.Some? ==> RoleName(r.value) == name
  {
    if name == "system" then Some(System)
    else if name == "user" then Some(User)
    else if name == "assistant" then Some(Assistant)
    else if name == "tool" then Some(Tool)
    else None
  }

  /** What each role must and may carry. */
  predicate MessageAcceptable(m: MessageWire) {
    match RoleNamed(m.role)
    case None => false
    case Some(Assistant) => m.content.Some? || m.toolCalls != []
    case Some(Tool) => m.content.Some? && m.toolCallId != "" && m.toolCalls == []
    case Some(_) => m.content.Some? && m.toolCalls == []
  }

  predicate ToolAcceptable(t: ToolWire) {
    t.kind == "function" && t.name != ""
  }

  predicate InRange(x: Option<real>, top: real) {
    x.None? || 0.0 <= x.value <= top
  }

  predicate HeadAcceptable(wr: ChatRequestWire) {
    && wr.stream != Some(true) && (wr.n.None? || wr.n == Some(1))
    && InRange(wr.temperature, 2.0) && InRange(wr.topP, 1.0)
  }

  predicate Acceptable(wr: ChatRequestWire) {
    && HeadAcceptable(wr)
    && (forall i :: 0 <= i < |wr.messages| ==> MessageAcceptable(wr.messages[i]))
    && (forall i :: 0 <= i < |wr.tools| ==> ToolAcceptable(wr.tools[i]))
  }

  /** The rejection points at the first offender: everything checked before it is in order. */
  predicate PointsAtFirst(wr: ChatRequestWire, r: Rejection) {
    match r
    case StreamUnsupported => wr.stream == Some(true)
    case ManyUnsupported => wr.stream != Some(true) && wr.n.Some? && wr.n.value != 1
    case TemperatureOutOfRange => !InRange(wr.temperature, 2.0)
    case TopPOutOfRange => InRange(wr.temperature, 2.0) && !InRange(wr.topP, 1.0)
    case ToolKindUnknown(i) => FirstBadTool(wr, i) && wr.tools[i].kind != "function"
    case ToolNameMissing(i) => FirstBadTool(wr, i) && wr.tools[i].kind == "function"
    case UnknownRole(i) => FirstBadMessage(wr, i) && MessageFault(wr.messages[i], i, r)
    case ContentMissing(i) => FirstBadMessage(wr, i) && MessageFault(wr.messages[i], i, r)
    case ToolCallIdMissing(i) => FirstBadMessage(wr, i) && MessageFault(wr.messages[i], i, r)
    case ToolCallsMisplaced(i) => FirstBadMessage(wr, i) && MessageFault(wr.messages[i], i, r)
  }

  /** Which complaint a message earns: the first that applies. */
  predicate MessageFault(m: MessageWire, i: nat, r: Rejection) {
    var known := RoleNamed(m.role).Some?;
    var contentMissing := m.content.None? && (m.role != "assistant" || m.toolCalls == []);
    var idMissing := m.role == "tool" && m.toolCallId == "";
    match r
    case UnknownRole(at) => at == i && !known
    case ContentMissing(at) => at == i && known && contentMissing
    case ToolCallIdMissing(at) => at == i && known && !contentMissing && idMissing
    case ToolCallsMisplaced(at) => at == i && known && !contentMissing && !idMissing && m.role != "assistant" && m.toolCalls != []
    case _ => false
  }

  predicate FirstBadMessage(wr: ChatRequestWire, i: nat) {
    && HeadAcceptable(wr) && i < |wr.messages| && !MessageAcceptable(wr.messages[i])
    && forall k :: 0 <= k < i ==> MessageAcceptable(wr.messages[k])
  }

  predicate FirstBadTool(wr: ChatRequestWire, i: nat) {
    && HeadAcceptable(wr) && (forall k :: 0 <= k < |wr.messages| ==> MessageAcceptable(wr.messages[k]))
    && i < |wr.tools| && !ToolAcceptable(wr.tools[i])
    && forall k :: 0 <= k < i ==> ToolAcceptable(wr.tools[k])
  }

  function CallFromWire(tc: ToolCallWire): ToolCall {
    ToolCall(tc.id, tc.name, tc.arguments)
  }

  function CallToWire(tc: ToolCall): ToolCallWire {
    ToolCallWire(tc.id, "function", tc.name, tc.arguments)
  }

  function CallsFromWire(calls: seq<ToolCallWire>): seq<ToolCall> {
    seq(|calls|, i requires 0 <= i < |calls| => CallFromWire(calls[i]))
  }

  function CallsToWire(calls: seq<ToolCall>): seq<ToolCallWire> {
    seq(|calls|, i requires 0 <= i < |calls| => CallToWire(calls[i]))
  }

  function FromWire(m: MessageWire): Message
    requires RoleNamed(m.role).Some?
  {
    Message(RoleNamed(m.role).value, if m.content.Some? then m.content.value else "", CallsFromWire(m.toolCalls), m.toolCallId)
  }

  /** Content is null only beside tool calls; the id of the call answered has no place in a response. */
  function ToWire(m: Message): MessageWire {
    MessageWire(RoleName(m.role), if m.content != "" || m.toolCalls == [] then Some(m.content) else None,
                CallsToWire(m.toolCalls), "")
  }

  // ---- the same, field by field ----

  predicate Named(name: string, r: Role) {
    match r
    case System => name == "system"
    case User => name == "user"
    case Assistant => name == "assistant"
    case Tool => name == "tool"
  }

  /** The message is the wire's, field by field; absent content is empty. */
  predicate Carries(m: Message, w: MessageWire) {
    && Named(w.role, m.role) && m.toolCallId == w.toolCallId
    && m.content == (match w.content case None => "" case Some(content) => content)
    && |m.toolCalls| == |w.toolCalls|
    && forall k :: 0 <= k < |w.toolCalls| ==>
         && m.toolCalls[k].id == w.toolCalls[k].id && m.toolCalls[k].name == w.toolCalls[k].name
         && m.toolCalls[k].arguments == w.toolCalls[k].arguments
  }

  /** The wire shows the message: content null exactly beside calls with no text, every call a function's. */
  predicate Displays(w: MessageWire, m: Message) {
    && Named(w.role, m.role) && w.toolCallId == ""
    && (w.content == None <==> m.content == "" && m.toolCalls != [])
    && (w.content.Some? ==> w.content.value == m.content)
    && |w.toolCalls| == |m.toolCalls|
    && forall k :: 0 <= k < |m.toolCalls| ==>
         && w.toolCalls[k].id == m.toolCalls[k].id && w.toolCalls[k].kind == "function"
         && w.toolCalls[k].name == m.toolCalls[k].name && w.toolCalls[k].arguments == m.toolCalls[k].arguments
  }

  lemma {:induction false} FromWireCarries(w: MessageWire)
    requires RoleNamed(w.role).Some?
    ensures Carries(FromWire(w), w)
  {
    forall k | 0 <= k < |w.toolCalls| ensures FromWire(w).toolCalls[k] == CallFromWire(w.toolCalls[k]) {
    }
  }

  lemma {:induction false} ToWireDisplays(m: Message)
    ensures Displays(ToWire(m), m)
  {
    forall k | 0 <= k < |m.toolCalls| ensures ToWire(m).toolCalls[k] == CallToWire(m.toolCalls[k]) {
    }
  }

  /** What each rejection says of the request. */
  predicate Wrong(wr: ChatRequestWire, r: Rejection) {
    match r
    case StreamUnsupported => wr.stream == Some(true)
    case ManyUnsupported => wr.n.Some? && wr.n.value != 1
    case TemperatureOutOfRange => wr.temperature.Some? && (wr.temperature.value < 0.0 || wr.temperature.value > 2.0)
    case TopPOutOfRange => wr.topP.Some? && (wr.topP.value < 0.0 || wr.topP.value > 1.0)
    case UnknownRole(i) => i < |wr.messages| && UnknownName(wr.messages[i].role)
    case ContentMissing(i) =>
      i < |wr.messages| && wr.messages[i].content.None? && (wr.messages[i].role != "assistant" || wr.messages[i].toolCalls == [])
    case ToolCallIdMissing(i) => i < |wr.messages| && wr.messages[i].role == "tool" && wr.messages[i].toolCallId == ""
    case ToolCallsMisplaced(i) => i < |wr.messages| && wr.messages[i].role != "assistant" && wr.messages[i].toolCalls != []
    case ToolKindUnknown(i) => i < |wr.tools| && wr.tools[i].kind != "function"
    case ToolNameMissing(i) => i < |wr.tools| && wr.tools[i].name == ""
  }

  predicate UnknownName(role: string) {
    role != "system" && role != "user" && role != "assistant" && role != "tool"
  }

  lemma {:induction false} RejectionIsTrue(wr: ChatRequestWire, r: Rejection)
    requires PointsAtFirst(wr, r)
    ensures Wrong(wr, r)
  {
  }

  lemma {:induction false} MessageAcceptableIff(wr: ChatRequestWire, i: nat)
    requires i < |wr.messages|
    ensures MessageAcceptable(wr.messages[i]) <==>
      !Wrong(wr, UnknownRole(i)) && !Wrong(wr, ContentMissing(i)) && !Wrong(wr, ToolCallIdMissing(i)) && !Wrong(wr, ToolCallsMisplaced(i))
  {
  }

  /** A request is accepted exactly when nothing the gateway names is wrong with it. */
  lemma {:induction false} AcceptedIffNothingWrong(wr: ChatRequestWire)
    ensures Acceptable(wr) <==> forall r :: !Wrong(wr, r)
  {
    if Acceptable(wr) {
      forall r ensures !Wrong(wr, r) {
        match r
        case UnknownRole(i) => if i < |wr.messages| { MessageAcceptableIff(wr, i); }
        case ContentMissing(i) => if i < |wr.messages| { MessageAcceptableIff(wr, i); }
        case ToolCallIdMissing(i) => if i < |wr.messages| { MessageAcceptableIff(wr, i); }
        case ToolCallsMisplaced(i) => if i < |wr.messages| { MessageAcceptableIff(wr, i); }
        case ToolKindUnknown(i) => assert i < |wr.tools| ==> ToolAcceptable(wr.tools[i]);
        case ToolNameMissing(i) => assert i < |wr.tools| ==> ToolAcceptable(wr.tools[i]);
        case _ =>
      }
    }
    if forall r :: !Wrong(wr, r) {
      assert !Wrong(wr, StreamUnsupported) && !Wrong(wr, ManyUnsupported);
      assert !Wrong(wr, TemperatureOutOfRange) && !Wrong(wr, TopPOutOfRange);
      forall i | 0 <= i < |wr.messages| ensures MessageAcceptable(wr.messages[i]) {
        MessageAcceptableIff(wr, i);
      }
      forall i | 0 <= i < |wr.tools| ensures ToolAcceptable(wr.tools[i]) {
        assert !Wrong(wr, ToolKindUnknown(i)) && !Wrong(wr, ToolNameMissing(i));
      }
    }
  }

  // ---- the code ----

  /** The checks on message `i`, in the order they are made. */
  method RejectMessage(m: MessageWire, i: nat) returns (r: Option<Rejection>)
    ensures r.None? <==> MessageAcceptable(m)
    ensures r.Some? ==> MessageFault(m, i, r.value)
  {
    if m.role !in ["system", "user", "assistant", "tool"] {
      return Some(UnknownRole(i));
    }
    if m.content.None? && !(m.role == "assistant" && |m.toolCalls| > 0) {
      return Some(ContentMissing(i));
    }
    if m.role == "tool" && m.toolCallId == "" {
      return Some(ToolCallIdMissing(i));
    }
    if m.role != "assistant" && |m.toolCalls| > 0 {
      return Some(ToolCallsMisplaced(i));
    }
    r := None;
  }

  method Reject(wr: ChatRequestWire) returns (r: Option<Rejection>)
    ensures r.None? <==> Acceptable(wr)
    ensures r.Some? ==> PointsAtFirst(wr, r.value) && Wrong(wr, r.value)
  {
    if wr.stream.Some? && wr.stream.value {
      return Some(StreamUnsupported);
    }
    if wr.n.Some? && wr.n.value != 1 {
      return Some(ManyUnsupported);
    }
    if wr.temperature.Some? && (wr.temperature.value < 0.0 || wr.temperature.value > 2.0) {
      return Some(TemperatureOutOfRange);
    }
    if wr.topP.Some? && (wr.topP.value < 0.0 || wr.topP.value > 1.0) {
      return Some(TopPOutOfRange);
    }
    for i := 0 to |wr.messages|
      invariant forall k :: 0 <= k < i ==> MessageAcceptable(wr.messages[k])
    {
      r := RejectMessage(wr.messages[i], i);
      if r.Some? {
        return;
      }
    }
    for i := 0 to |wr.tools|
      invariant forall k :: 0 <= k < i ==> ToolAcceptable(wr.tools[k])
    {
      if wr.tools[i].kind != "function" {
        return Some(ToolKindUnknown(i));
      }
      if wr.tools[i].name == "" {
        return Some(ToolNameMissing(i));
      }
    }
    r := None;
  }

  /** Runs on what `Reject` let through. */
  method ToDomain(wr: ChatRequestWire) returns (req: ChatRequest)
    requires forall i :: 0 <= i < |wr.messages| ==> RoleNamed(wr.messages[i].role).Some?
    ensures req.model == wr.model && req.maxTokens == wr.maxTokens && req.stop == wr.stop && req.toolChoice == wr.toolChoice
    ensures req.temperature == wr.temperature && req.topP == wr.topP
    ensures |req.messages| == |wr.messages| && forall i :: 0 <= i < |wr.messages| ==> req.messages[i] == FromWire(wr.messages[i])
    ensures forall i :: 0 <= i < |wr.messages| ==> Carries(req.messages[i], wr.messages[i])
    ensures |req.tools| == |wr.tools|
    ensures forall i :: 0 <= i < |wr.tools| ==>
              req.tools[i] == ToolSpec(wr.tools[i].name, wr.tools[i].description, wr.tools[i].parameters)
  {
    var messages: seq<Message> := [];
    for i := 0 to |wr.messages|
      invariant |messages| == i && forall k :: 0 <= k < i ==> messages[k] == FromWire(wr.messages[k])
    {
      var m := wr.messages[i];
      var msg := Message(RoleNamed(m.role).value, "", [], m.toolCallId);
      if m.content.Some? {
        msg := msg.(content := m.content.value);
      }
      for j := 0 to |m.toolCalls|
        invariant msg == Message(RoleNamed(m.role).value, if m.content.Some? then m.content.value else "", msg.toolCalls, m.toolCallId)
        invariant msg.toolCalls == CallsFromWire(m.toolCalls[..j])
      {
        msg := msg.(toolCalls := msg.toolCalls + [CallFromWire(m.toolCalls[j])]);
      }
      assert m.toolCalls[..|m.toolCalls|] == m.toolCalls;
      messages := messages + [msg];
    }
    var tools: seq<ToolSpec> := [];
    for i := 0 to |wr.tools|
      invariant |tools| == i
      invariant forall k :: 0 <= k < i ==>
                  tools[k] == ToolSpec(wr.tools[k].name, wr.tools[k].description, wr.tools[k].parameters)
    {
      var t := wr.tools[i];
      tools := tools + [ToolSpec(t.name, t.description, t.parameters)];
    }
    forall i | 0 <= i < |wr.messages| ensures Carries(messages[i], wr.messages[i]) {
      FromWireCarries(wr.messages[i]);
    }
    req := ChatRequest(wr.model, messages, wr.maxTokens, wr.temperature, wr.topP, wr.stop, tools, wr.toolChoice);
  }

  method MessageToWire(m: Message) returns (wire: MessageWire)
    ensures wire == ToWire(m) && Displays(wire, m)
  {
    ToWireDisplays(m);
    wire := MessageWire(RoleName(m.role), None, [], "");
    for i := 0 to |m.toolCalls|
      invariant wire == MessageWire(RoleName(m.role), None, CallsToWire(m.toolCalls[..i]), "")
    {
      wire := wire.(toolCalls := wire.toolCalls + [CallToWire(m.toolCalls[i])]);
    }
    assert m.toolCalls[..|m.toolCalls|] == m.toolCalls;
    if m.content != "" || |m.toolCalls| == 0 {
      wire := wire.(content := Some(m.content));
    }
  }

  // ---- properties ----

  lemma {:induction false} RoleRoundTrip(r: Role)
    ensures RoleNamed(RoleName(r)) == Some(r)
    ensures RoleName(r) == "user" <==> r == User
  {
    assert "user"[0] == 'u' && "tool"[0] == 't';
    assert |"system"| == 6 && |"user"| == 4 && |"assistant"| == 9 && |"tool"| == 4;
  }

  lemma {:induction false} CallsRoundTrip(calls: seq<ToolCall>)
    ensures CallsFromWire(CallsToWire(calls)) == calls
  {
    var back := CallsFromWire(CallsToWire(calls));
    forall i | 0 <= i < |calls| ensures back[i] == calls[i] {
      assert CallsToWire(calls)[i] == CallToWire(calls[i]);
    }
  }

  /** A message sent out and sent back is itself, but for the id of the call it answers. */
  lemma {:induction false} MessageRoundTrip(m: Message)
    ensures RoleNamed(ToWire(m).role).Some? && FromWire(ToWire(m)) == m.(toolCallId := "")
    ensures FromWire(ToWire(m)) == m <==> m.toolCallId == ""
  {
    CallsRoundTrip(m.toolCalls);
    RoleRoundTrip(m.role);
  }

  /** Which of the gateway's own messages a caller may send back as they are: every one but a tool's, and calls only on an assistant's. */
  lemma {:induction false} SentBackIsAccepted(m: Message)
    ensures MessageAcceptable(ToWire(m)) <==> m.role == Assistant || (m.role != Tool && m.toolCalls == [])
  {
    RoleRoundTrip(m.role);
    assert |CallsToWire(m.toolCalls)| == |m.toolCalls|;
  }

  /** What the domain may rely on once a request is through. */
  predicate Owned(m: Message) {
    (m.role != Assistant ==> m.toolCalls == []) && (m.role == Tool ==> m.toolCallId != "")
  }

  lemma {:induction false} AcceptedMessagesAreOwned(m: MessageWire)
    requires MessageAcceptable(m)
    ensures Owned(FromWire(m))
  {
    assert |CallsFromWire(m.toolCalls)| == |m.toolCalls|;
  }
}
