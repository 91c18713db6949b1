/** What a client is told of each attempt of a request, and what it is charged. */
module Reports {
  import opened Options
  import opened OpenAI
  import opened Text
  import opened Streaming
  import opened Gateway
  import Requests

  // ---------------------------------------------------------------- the trail, entry by entry

  /** The entry of an attempt that failed with err. */
  predicate SaysError(a: AttemptInfo, err: Failure, status: int) {
    !a.ok && a.outcome == Error && a.reason == err.message && a.httpStatus == status && a.class_ == Classify(err) &&
    a.usage == None
  }

  predicate SaysRejected(a: AttemptInfo, reason: string, usage: Option<Usage>) {
    !a.ok && a.outcome == Rejected && a.reason == reason && a.httpStatus == 0 && a.class_ == ContentRejected &&
    a.usage == usage
  }

  predicate SaysSuccess(a: AttemptInfo, usage: Option<Usage>) {
    a.ok && a.outcome == Success && a.reason == "" && a.httpStatus == 0 && a.class_ == NoClass && a.usage == usage
  }

  /** The entry of a stream that was relayed: c are the events the client's stream was made of. */
  predicate SaysRelayed(a: AttemptInfo, provider: string, c: seq<Event>) {
    if c != [] && c[|c| - 1].err.Some? then SaysError(a, c[|c| - 1].err.value, 0)
    else if c != [] && c[|c| - 1].done then SaysSuccess(a, None)
    else
      !a.ok && a.outcome == Error && a.reason == provider + ": stream closed without a terminal completion" &&
      a.httpStatus == 0 && a.class_ == Network && a.usage == None
  }

  /** The entry of an attempt is what became of it. */
  ghost predicate Tells(req: Request, c: Contender, a: AttemptInfo) {
    && a.latencyMS == c.elapsed
    && match c.response
       case Refused(err) => SaysError(a, err, err.status)
       case Streams(script) =>
         if req.stream then
           if Peek(script).committed then SaysRelayed(a, c.provider, Consumed(Events(script)))
           else SaysRejected(a, Peek(script).reason, None)
         else match Drain(Events(script))
           case DrainError(err) => SaysError(a, err, err.status)
           case Drained(content, toolCalls, _, usage, saw) =>
             var g := Evaluate(req.gate, content, toolCalls, saw);
             if g.accepted then SaysSuccess(a, usage) else SaysRejected(a, g.reason, usage)
  }

  ghost predicate AllTold(req: Request, ranked: seq<Contender>, trail: seq<AttemptInfo>) {
    |trail| <= |ranked| && forall j | 0 <= j < |trail| :: Tells(req, ranked[j], trail[j])
  }

  lemma JudgeTells(req: Request, c: Contender, n: int)
    ensures var v := Judge(c, n, req.stream, req.gate);
            match v
            case Committed(info, buffered, rest) =>
              Tells(req, c, Finalized(info, EndingOf(info.provider, Consumed(buffered + Events(rest)))))
            case _ => Tells(req, c, v.info)
  {
    hide Peek, PeekEnd, Consumed, Drain, Evaluate, Events;
    if c.response.Streams? && req.stream && Peek(c.response.script).committed {
      var script := c.response.script;
      var buffered, rest := Peek(script).buffered, script[PeekEnd(script)..];
      Requests.SplitInvisible(script);
      EventsOfArrivals(buffered);
      EventsAppend(Arrivals(buffered), rest);
      assert buffered + Events(rest) == Events(script);
    }
  }

  lemma {:induction false} TrailTellsFrom(req: Request, ranked: seq<Contender>, i: nat, trail: seq<AttemptInfo>,
                                          usage: Usage, lastErr: Option<Failure>)
    requires i == |trail| <= |ranked| && AllTold(req, ranked, trail)
    ensures AllTold(req, ranked, ServeFrom(req, ranked, i, trail, usage, lastErr).trail)
    decreases |ranked| - i
  {
    hide ServeFrom, Judge, AttemptEffects, EndingEffects, EndingOf, Consumed, Events, Tells, Finalized;
    if i == |ranked| {
      Requests.NothingCommitted(req, ranked, trail, usage, lastErr);
    } else {
      var v := Requests.ServeNext(req, ranked, i, trail, usage, lastErr);
      JudgeTells(req, ranked[i], i + 1);
      if v.Fell? {
        TrailTellsFrom(req, ranked, i + 1, trail + [v.info], Plus(usage, v.usage), Some(v.err));
      }
    }
  }

  /** Every entry of a request's trail says what became of that attempt: its latency, outcome, status, class, reason
      and cost. */
  lemma TrailTells(req: Request, ranked: seq<Contender>)
    ensures AllTold(req, ranked, Serve(req, ranked).trail)
  {
    TrailTellsFrom(req, ranked, 0, [], NO_USAGE, None);
  }

  // ---------------------------------------------------------------- the error body

  /** The error a failed attempt leaves behind. */
  ghost function WhyFell(req: Request, c: Contender): Failure {
    match c.response
    case Refused(err) => err
    case Streams(script) =>
      if req.stream then Failure.Failure(Plain, 0, c.provider + ": " + Peek(script).reason, 0)
      else match Drain(Events(script))
        case DrainError(err) => err
        case Drained(content, toolCalls, _, _, saw) =>
          Failure.Failure(Plain, 0, c.provider + ": " + Evaluate(req.gate, content, toolCalls, saw).reason, 0)
  }

  /** The error body of a request none of whose attempts succeeded. */
  ghost predicate BodyTells(req: Request, ranked: seq<Contender>, trail: seq<AttemptInfo>, body: ErrorBody) {
    && body.combo == req.combo && body.attempts == trail && |trail| == |ranked|
    && (if trail == [] then body.lastError == None && body.cause == NoClass && body.retryAfterMS == 0
        else
          var err := WhyFell(req, ranked[|ranked| - 1]);
          && body.lastError == Some(err) && body.cause == trail[|trail| - 1].class_
          && body.retryAfterMS == if err.retryAfterMS > 0 then err.retryAfterMS else 0)
  }

  lemma FellBecause(req: Request, c: Contender, n: int)
    ensures var v := Judge(c, n, req.stream, req.gate); v.Fell? ==> v.err == WhyFell(req, c)
  {
    hide Peek, PeekEnd, Drain, Evaluate, Events;
  }

  lemma BodyOfAll(req: Request, ranked: seq<Contender>, trail: seq<AttemptInfo>, usage: Usage, lastErr: Option<Failure>)
    requires |trail| == |ranked| && lastErr == if ranked == [] then None else Some(WhyFell(req, ranked[|ranked| - 1]))
    ensures BodyTells(req, ranked, trail, GatewayError(req.combo, trail, usage, lastErr))
  {
    hide WhyFell, AnyRetryable;
  }

  lemma {:induction false} BodyTellsFrom(req: Request, ranked: seq<Contender>, i: nat, trail: seq<AttemptInfo>,
                                         usage: Usage, lastErr: Option<Failure>)
    requires i == |trail| <= |ranked| && lastErr == if i == 0 then None else Some(WhyFell(req, ranked[i - 1]))
    ensures var run := ServeFrom(req, ranked, i, trail, usage, lastErr);
            run.frames != [] &&
            (run.frames[0].ErrorReply? ==> BodyTells(req, ranked, run.trail, run.frames[0].body))
    decreases |ranked| - i
  {
    hide *;
    if i == |ranked| {
      Requests.NothingCommitted(req, ranked, trail, usage, lastErr);
      BodyOfAll(req, ranked, trail, usage, lastErr);
    } else {
      var v := Requests.ServeNext(req, ranked, i, trail, usage, lastErr);
      FellBecause(req, ranked[i], i + 1);
      match v {
        case Fell(info, err, used) => BodyTellsFrom(req, ranked, i + 1, trail + [info], Plus(usage, used), Some(err));
        case Committed(info, buffered, rest) =>
          Requests.RelayStartsWithRole(info, trail, Arrivals(buffered) + rest);
        case Accepted(info, answer) => Requests.ReplyIsNoError(info, answer, trail + [info], usage);
      }
    }
  }

  /** An error body names the combo, lists every attempt, and carries the last one's error, class and waiting time. */
  lemma ErrorBodyTells(req: Request, ranked: seq<Contender>)
    ensures var run := Serve(req, ranked);
            run.frames != [] &&
            (run.frames[0].ErrorReply? ==> BodyTells(req, ranked, run.trail, run.frames[0].body))
  {
    BodyTellsFrom(req, ranked, 0, [], NO_USAGE, None);
  }

  // ---------------------------------------------------------------- what a request is charged

  /** One of the meters of a usage report. */
  datatype Meter = Prompt | Completion | Total | Cached | CacheWrite | Reasoning | Cost

  function Reading(u: Usage, m: Meter): int {
    match m
    case Prompt => u.prompt
    case Completion => u.completion
    case Total => u.total
    case Cached => u.cached
    case CacheWrite => u.cacheWrite
    case Reasoning => u.reasoning
    case Cost => u.costMicros
  }

  function Readings(trail: seq<AttemptInfo>, m: Meter): int {
    if trail == [] then 0
    else (if trail[0].usage.Some? then Reading(trail[0].usage.value, m) else 0) + Readings(trail[1..], m)
  }

  lemma {:induction false} ReadingsNext(trail: seq<AttemptInfo>, a: AttemptInfo, m: Meter)
    ensures Readings(trail + [a], m)
         == Readings(trail, m) + (if a.usage.Some? then Reading(a.usage.value, m) else 0)
  {
    if trail == [] {
      assert trail + [a] == [a] && [a][1..] == [];
    } else {
      assert (trail + [a])[1..] == trail[1..] + [a];
      ReadingsNext(trail[1..], a, m);
      hide Reading;
    }
  }

  /** A reply's usage is, meter by meter, the sum over the attempts of its trail. */
  lemma {:induction false} UsageIsSum(trail: seq<AttemptInfo>, m: Meter)
    ensures Reading(Requests.TrailUsage(trail), m) == Readings(trail, m)
  {
    if trail != [] {
      var front, a := trail[..|trail| - 1], trail[|trail| - 1];
      assert front + [a] == trail;
      UsageIsSum(front, m);
      ReadingsNext(front, a, m);
      Requests.TrailUsageNext(front, a);
    }
  }

  // ---------------------------------------------------------------- the last chunk of a stream

  /** The last chunk of a stream that reached Done carries Done's calls, items and usage, and asks for the calls if
      there are any; any other stream ends in an abort that carries nothing. */
  lemma FinalTells(pending: AttemptInfo, prior: seq<AttemptInfo>, events: seq<Event>)
    ensures var c, f := Consumed(events), Direct(pending, prior, events)[|Direct(pending, prior, events)| - 2];
            f.FinalChunk? &&
            if Requests.ReachesDone(events) then
              c != [] && var last := c[|c| - 1];
              f.finish == (if last.toolCalls != [] then CallTools else Stop) && f.toolCalls == last.toolCalls &&
              f.providerItems == last.providerItems && f.usage == last.usage
            else f.finish == Aborted && f.toolCalls == [] && f.providerItems == [] && f.usage == None
  {
    Requests.DirectShape(pending, prior, events);
    Requests.ReachesDoneIsLast(events);
    var c := Consumed(events);
    var f := Final(pending, prior, EndingOf(pending.provider, c));
    assert Direct(pending, prior, events) == [RoleChunk] + Forwards(c) + [f, DoneMarker];
    hide Direct, Consumed, Forwards, Requests.ReachesDone, Classify;
  }

  // ---------------------------------------------------------------- the chunks in between

  /** The frame an event with something to say is sent as: its text, or its reasoning if it has no text. */
  function ChunkOf(e: Event): Frame { if e.delta != "" then ContentChunk(e.delta) else ReasoningChunk(e.reasoning) }

  predicate Speaks(e: Event) { e.err.None? && (e.delta != "" || e.reasoning != "") }

  /** frames are the chunks of the events that have something to say, which at lists in order. */
  ghost predicate TellsAll(events: seq<Event>, frames: seq<Frame>, at: seq<nat>) {
    && |at| == |frames|
    && (forall j, k | 0 <= j < k < |at| :: at[j] < at[k])
    && (forall k | 0 <= k < |at| :: at[k] < |events| && frames[k] == ChunkOf(events[at[k]]))
    && (forall i | 0 <= i < |events| :: i in at <==> Speaks(events[i]))
  }

  lemma TellsNext(events: seq<Event>, frames: seq<Frame>, at: seq<nat>, e: Event)
    requires TellsAll(events, frames, at)
    ensures TellsAll(events + [e], frames + (if Speaks(e) then [ChunkOf(e)] else []),
                     at + if Speaks(e) then [|events|] else [])
  {
    hide Speaks, ChunkOf;
    var next := at + if Speaks(e) then [|events|] else [];
    forall i | 0 <= i <= |events| ensures i in next <==> Speaks((events + [e])[i]) {
      assert i in next <==> i in at || (Speaks(e) && i == |events|);
    }
  }

  /** Every event with something to say is sent, in order, and nothing else is. */
  lemma {:induction false} ForwardsTell(events: seq<Event>) returns (at: seq<nat>)
    ensures TellsAll(events, Forwards(events), at)
  {
    at := [];
    if events != [] {
      var front, e := events[..|events| - 1], events[|events| - 1];
      assert front + [e] == events && Forwards(events) == Forwards(front) + if Speaks(e) then [ChunkOf(e)] else [];
      hide *;
      at := ForwardsTell(front);
      TellsNext(front, Forwards(front), at, e);
      at := at + if Speaks(e) then [|front|] else [];
    }
  }

  function KeepAlives(frames: seq<Frame>): nat {
    if frames == [] then 0
    else KeepAlives(frames[..|frames| - 1]) + (if frames[|frames| - 1] == KeepAlive then 1 else 0)
  }

  function Ticks(src: Script): nat {
    if src == [] then 0 else Ticks(src[..|src| - 1]) + (if src[|src| - 1] == KeepAliveTick then 1 else 0)
  }

  /** A relay sends one keep-alive for each tick. */
  lemma {:induction false} TicksAreSent(src: Script)
    ensures KeepAlives(SignalFrames(src)) == Ticks(src)
  {
    if src != [] {
      var front, last := SignalFrames(src[..|src| - 1]), FramesOf(src[|src| - 1]);
      TicksAreSent(src[..|src| - 1]);
      assert last == [] || (|last| == 1 && (front + last)[..|front + last| - 1] == front);
      assert front + [] == front;
    }
  }
}
