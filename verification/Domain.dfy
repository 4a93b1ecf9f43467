/** The gateway's own vocabulary. */
module Domain {
  import opened Wrappers

  /** One provider endpoint serves one model. */
  datatype ModelProvider = ModelProvider(model: string, provider: string, endpoint: string)

  datatype PolicyKind = SameModel | Allowlist | AnyModel | Unrecognised(kind: string)

  datatype FailoverPolicy = FailoverPolicy(kind: PolicyKind, allowlist: seq<string>)

  /** A deadline of zero leaves the gateway's own in force. */
  datatype App = App(name: string, policy: FailoverPolicy, totalDeadline: int)

  datatype Usage = Usage(prompt: int, completion: int, total: int)

  datatype Role = System | User | Assistant | Tool

  datatype ToolCall = ToolCall(id: string, name: string, arguments: string)

  datatype Message = Message(role: Role, content: string, toolCalls: seq<ToolCall>, toolCallId: string)

  datatype FinishReason = Stop | Length | ToolCallsMade

  datatype Completion = Completion(message: Message, finish: FinishReason, usage: Usage)

  datatype ToolChoice = NoTools | Auto | Function(name: string)

  datatype ToolSpec = ToolSpec(name: string, description: string, parameters: string)

  datatype ChatRequest = ChatRequest(
    model: string,
    messages: seq<Message>,
    maxTokens: int,
    temperature: Option<real>,
    topP: Option<real>,
    stop: seq<string>,
    tools: seq<ToolSpec>,
    toolChoice: Option<ToolChoice>)

  datatype ErrorCode =
    | InvalidRequest
    | Unauthorized
    | QuotaExceeded
    | ConcurrencyCeiling
    | UpstreamFailed
    | ModelUnavailable
    | GatewayTimeout

  datatype QuotaDetail = QuotaDetail(limit: int, windowSeconds: nat, used: int)

  /** A caller-visible failure; times are nanoseconds, zero when absent. */
  datatype Error = Error(
    code: ErrorCode,
    retryAfter: nat,
    quota: Option<QuotaDetail>,
    maxInFlight: int,
    requestedModel: string)

  datatype RateDecision = Admit | Refuse(retryAfter: nat, quota: QuotaDetail)
}
