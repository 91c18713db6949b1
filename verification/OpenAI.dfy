/** Wire types and failure classes (internal/openai/types.go, internal/openai/failure.go). */
module OpenAI {

  datatype ToolCallFunction = ToolCallFunction(name: string, arguments: string)

  datatype ToolCall = ToolCall(id: string, kind: string, function_: ToolCallFunction, thoughtSignature: string)

  datatype ProviderItem = ProviderItem(kind: string, id: string, encrypted: string, summary: string)

  datatype Role = System | User | Assistant | Tool | Other(name: string)

  datatype ChatMessage = ChatMessage(
    role: Role, content: string, images: seq<string>, toolCalls: seq<ToolCall>,
    toolCallID: string, name: string, providerItems: seq<ProviderItem>)

  datatype Usage = Usage(prompt: int, completion: int, total: int, cached: int, cacheWrite: int,
                         reasoning: int, costMicros: int)

  const NO_USAGE := Usage(0, 0, 0, 0, 0, 0, 0)

  function AddUsage(a: Usage, b: Usage): Usage {
    Usage(a.prompt + b.prompt, a.completion + b.completion, a.total + b.total, a.cached + b.cached,
          a.cacheWrite + b.cacheWrite, a.reasoning + b.reasoning, a.costMicros + b.costMicros)
  }

  // ---------------------------------------------------------------- failures

  /** What errors.Is and errors.As can learn about an error. */
  datatype Kind = Canceled | DeadlineExceeded | NetTimeout | Plain

  /** An error value: its kind, the upstream status if one was reached (0 otherwise), its text
      and the upstream's Retry-After in milliseconds (0 when absent). */
  datatype Failure = Failure(kind: Kind, status: int, message: string, retryAfterMS: int)

  datatype FailureClass =
    | Network | Timeout | ServerError | RateLimit | Auth | InvalidRequest
    | ContentRejected | Cancelled | Unknown | NoClass
  {
    predicate Retryable() { this in {Network, Timeout, ServerError, RateLimit} }

    predicate CountsAgainstBreaker() { this !in {InvalidRequest, Cancelled} }
  }

  /** Classify for a failure that carries an error, as every caller's does. */
  function Classify(f: Failure): FailureClass {
    if f.kind == Canceled then Cancelled
    else if f.kind == DeadlineExceeded || f.kind == NetTimeout then Timeout
    else if f.status == 0 then Network
    else if f.status == 429 then RateLimit
    else if f.status == 401 || f.status == 403 then Auth
    else if f.status == 400 || f.status == 404 || f.status == 422 then InvalidRequest
    else if f.status >= 500 then ServerError
    else Unknown
  }

  /** A timed-out call says so whatever status came with it. */
  predicate TimedOut(f: Failure) { f.kind == DeadlineExceeded || f.kind == NetTimeout }

  /** A call is worth retrying elsewhere when it timed out, reached no upstream, or met a busy or broken one. */
  lemma RetryableIff(f: Failure)
    ensures Classify(f).Retryable() <==>
            f.kind != Canceled && (TimedOut(f) || f.status == 0 || f.status == 429 || f.status >= 500)
  {
  }

  /** Only a cancelled call and a request that was itself at fault say nothing about the provider's health. */
  lemma CountsAgainstBreakerIff(f: Failure)
    ensures Classify(f).CountsAgainstBreaker() <==>
            f.kind != Canceled && (TimedOut(f) || f.status !in {400, 404, 422})
  {
  }

  /** The class a client is told: cancelled and timed-out calls by their kind, every other by its status. */
  lemma ClassOf(f: Failure)
    ensures (Classify(f) == Cancelled <==> f.kind == Canceled) && (Classify(f) == Timeout <==> TimedOut(f))
    ensures f.kind == Plain ==> ClassOfStatus(f.status, Classify(f))
  {
  }

  predicate ClassOfStatus(status: int, class_: FailureClass) {
    && (class_ == Network <==> status == 0) && (class_ == RateLimit <==> status == 429)
    && (class_ == Auth <==> status in {401, 403}) && (class_ == ServerError <==> status >= 500)
    && (class_ == InvalidRequest <==> status in {400, 404, 422})
  }
}
