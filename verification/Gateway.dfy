/** The attempt executor (internal/server/chat.go): candidates are tried in ranked order, one is
    committed or accepted, and only a finished request reaches the router's memory.

    Provider answers, clock readings and measured latencies are inputs.  Everything the executor
    does to the shared registries is an Effect; the class below performs them on the registries,
    the functions say which effects and which client frames a request amounts to. */
module Gateway {
  import opened Options
  import opened OpenAI
  import opened Streaming
  import Breaker
  import Telemetry

  // ---------------------------------------------------------------- what the client sees

  datatype Outcome = Pending | Success | Error | Rejected

  datatype AttemptInfo = AttemptInfo(
    provider: string, ok: bool, latencyMS: int, outcome: Outcome, reason: string, httpStatus: int,
    score: real, attempt: int, class_: FailureClass, usage: Option<Usage>)

  datatype Finish = Stop | CallTools | Aborted

  datatype ErrorBody = ErrorBody(
    combo: string, lastError: Option<Failure>, attempts: seq<AttemptInfo>, usage: Usage,
    cause: FailureClass, retryable: bool, retryAfterMS: int)

  datatype Frame =
    | RoleChunk
    | ContentChunk(text: string)
    | ReasoningChunk(text: string)
    | FinalChunk(finish: Finish, toolCalls: seq<ToolCall>, providerItems: seq<ProviderItem>,
                 provider: string, attempts: seq<AttemptInfo>, usage: Option<Usage>)
    | KeepAlive
    | DoneMarker
    | BufferedReply(finish: Finish, content: string, toolCalls: seq<ToolCall>,
                    providerItems: seq<ProviderItem>, provider: string,
                    attempts: seq<AttemptInfo>, total: Usage)
    | ErrorReply(body: ErrorBody)

  function FinishOf(toolCalls: seq<ToolCall>): Finish { if |toolCalls| > 0 then CallTools else Stop }

  predicate AnyRetryable(trail: seq<AttemptInfo>) {
    exists a | a in trail :: a.class_.Retryable()
  }

  function GatewayError(combo: string, trail: seq<AttemptInfo>, usage: Usage, lastErr: Option<Failure>): ErrorBody {
    ErrorBody(combo, lastErr, trail, usage,
              if trail == [] then NoClass else trail[|trail| - 1].class_,
              AnyRetryable(trail),
              if lastErr.Some? && lastErr.value.retryAfterMS > 0 then lastErr.value.retryAfterMS else 0)
  }

  // ---------------------------------------------------------------- effects

  datatype Effect =
    | Told(call: Telemetry.Call)
    | Broke(id: string, event: Breaker.Event)
    | Recorded(winner: string, ok: bool)

  function MarkFailure(id: string, err: Failure, now: int): seq<Effect> {
    (if Classify(err).CountsAgainstBreaker() then [Broke(id, Breaker.Failed(now))] else [])
    + [Told(Telemetry.Failure(id))]
  }

  function MarkRejection(id: string, now: int): seq<Effect> {
    [Broke(id, Breaker.Failed(now)), Told(Telemetry.Failure(id))]
  }

  function Tokens(id: string, usage: Option<Usage>): seq<Effect> {
    if usage.Some? then [Told(Telemetry.Tokens(id, usage.value.prompt, usage.value.completion))] else []
  }

  // ---------------------------------------------------------------- relaying a committed stream

  /** What one event puts on the wire before any final chunk. */
  function Forward(e: Event): seq<Frame> {
    if e.err.Some? then []
    else if e.delta != "" then [ContentChunk(e.delta)]
    else if e.reasoning != "" then [ReasoningChunk(e.reasoning)]
    else []
  }

  function Forwards(events: seq<Event>): seq<Frame> {
    if events == [] then [] else Forwards(events[..|events| - 1]) + Forward(events[|events| - 1])
  }

  datatype Ending = Finished(last: Event) | Broken(err: Failure)

  function Truncated(provider: string): Failure {
    OpenAI.Failure(Plain, 0, provider + ": stream closed without a terminal completion", 0)
  }

  /** How a stream ended, given the events consumed from it. */
  function EndingOf(provider: string, c: seq<Event>): Ending {
    if c != [] && c[|c| - 1].err.Some? then Broken(c[|c| - 1].err.value)
    else if c != [] && c[|c| - 1].done then Finished(c[|c| - 1])
    else Broken(Truncated(provider))
  }

  function Finalized(pending: AttemptInfo, ending: Ending): AttemptInfo {
    match ending
    case Finished(_) => pending.(outcome := Success, ok := true, reason := "", class_ := NoClass)
    case Broken(err) => pending.(outcome := Error, ok := false, reason := err.message, class_ := Classify(err))
  }

  function Final(pending: AttemptInfo, prior: seq<AttemptInfo>, ending: Ending): Frame {
    var trail := prior + [Finalized(pending, ending)];
    match ending
    case Finished(e) =>
      FinalChunk(FinishOf(e.toolCalls), e.toolCalls, e.providerItems, pending.provider, trail, e.usage)
    case Broken(_) => FinalChunk(Aborted, [], [], pending.provider, trail, None)
  }

  function EndingEffects(provider: string, ending: Ending, now: int): seq<Effect> {
    match ending
    case Finished(e) =>
      [Broke(provider, Breaker.Succeeded(now))] + Tokens(provider, e.usage) + [Recorded(provider, true)]
    case Broken(err) => MarkFailure(provider, err, now)
  }

  /** The transcript of forwarding a provider's whole stream with nothing in between. */
  function Direct(pending: AttemptInfo, prior: seq<AttemptInfo>, events: seq<Event>): seq<Frame> {
    var c := Consumed(events);
    [RoleChunk] + Forwards(c) + [Final(pending, prior, EndingOf(pending.provider, c)), DoneMarker]
  }

  /** The relay consumes signals through the first terminal event. */
  function ConsumedSignals(src: Script): (c: Script)
    ensures c <= src
  {
    if src == [] then []
    else if IsTerminal(src[0]) then [src[0]]
    else [src[0]] + ConsumedSignals(src[1..])
  }

  function FramesOf(s: Signal): seq<Frame> {
    match s
    case Arrive(e) => Forward(e)
    case KeepAliveTick => [KeepAlive]
    case _ => []
  }

  /** What consumed signals put on the wire: events forwarded, ticks as keep-alive comments. */
  function SignalFrames(src: Script): seq<Frame> {
    if src == [] then [] else SignalFrames(src[..|src| - 1]) + FramesOf(src[|src| - 1])
  }

  predicate IsTerminal(s: Signal) { s.Arrive? && Terminal(s.event) }

  /** Signals consumed once a terminal event was found in place n - 1, or none at all. */
  lemma {:induction false} SignalsThrough(src: Script, n: nat)
    requires n <= |src| && forall j | 0 <= j < n - 1 :: !IsTerminal(src[j])
    requires n == |src| || (n > 0 && IsTerminal(src[n - 1]))
    ensures ConsumedSignals(src) == src[..n]
  {
    if n == 0 {
      assert src == [];
    } else if !IsTerminal(src[0]) {
      SignalsThrough(src[1..], n - 1);
      assert src[..n] == [src[0]] + src[1..][..n - 1];
    }
  }

  /** ... and the events among them are the events a consumer of the bare events reads. */
  lemma EventsThrough(src: Script, n: nat)
    requires n <= |src| && forall j | 0 <= j < n - 1 :: !IsTerminal(src[j])
    requires n == |src| || (n > 0 && IsTerminal(src[n - 1]))
    ensures Consumed(Events(src)) == Events(src[..n])
  {
    hide *;
    var all, read := Events(src), Events(src[..n]);
    ReadShape(src, n);
    assert src == src[..n] + src[n..];
    EventsAppend(src[..n], src[n..]);
    if n == |src| { assert src[..n] == src; }
    ConsumedThrough(all, |read|);
  }

  lemma ReadShape(src: Script, n: nat)
    requires n <= |src| && forall j | 0 <= j < n - 1 :: !IsTerminal(src[j])
    requires n == |src| || (n > 0 && IsTerminal(src[n - 1]))
    ensures var read := Events(src[..n]);
            (forall j | 0 <= j < |read| - 1 :: !Terminal(read[j])) &&
            (n < |src| ==> read != [] && Terminal(read[|read| - 1]))
  {
    if n > 0 {
      assert src[..n][..n - 1] == src[..n - 1];
      NoTerminal(src[..n - 1]);
      EventsButLast(src[..n]);
    }
  }

  lemma EventsButLast(src: Script)
    requires src != [] && forall e | e in Events(src[..|src| - 1]) :: !Terminal(e)
    ensures forall j | 0 <= j < |Events(src)| - 1 :: !Terminal(Events(src)[j])
    ensures IsTerminal(src[|src| - 1]) ==> Events(src) != [] && Terminal(Events(src)[|Events(src)| - 1])
  {
    var front := Events(src[..|src| - 1]);
    assert forall j | 0 <= j < |front| :: front[j] in front;
  }

  lemma {:induction false} NoTerminal(src: Script)
    requires forall j | 0 <= j < |src| :: !IsTerminal(src[j])
    ensures forall e | e in Events(src) :: !Terminal(e)
  {
    if src != [] { NoTerminal(src[..|src| - 1]); }
  }

  /** The wire transcript of a relayed stream, keep-alives included. */
  function Relayed(pending: AttemptInfo, prior: seq<AttemptInfo>, src: Script): seq<Frame> {
    [RoleChunk] + SignalFrames(ConsumedSignals(src))
    + [Final(pending, prior, EndingOf(pending.provider, Consumed(Events(src)))), DoneMarker]
  }

  // ---------------------------------------------------------------- one request

  datatype Response = Refused(err: Failure) | Streams(script: Script)

  /** One ranked candidate and what its attempt will meet: the measured latency, the clock when the
      attempt is judged and the clock when a committed stream ends. */
  datatype Contender = Contender(provider: string, score: real, elapsed: int, at: int, endsAt: int,
                                 response: Response)

  function ErrorAttempt(c: Contender, n: int, err: Failure): AttemptInfo {
    AttemptInfo(c.provider, false, c.elapsed, Error, err.message, err.status, c.score, n, Classify(err), None)
  }

  function RejectedAttempt(c: Contender, n: int, reason: string, usage: Option<Usage>): AttemptInfo {
    AttemptInfo(c.provider, false, c.elapsed, Rejected, reason, 0, c.score, n, ContentRejected, usage)
  }

  function PendingAttempt(c: Contender, n: int): AttemptInfo {
    AttemptInfo(c.provider, false, c.elapsed, Pending, "", 0, c.score, n, NoClass, None)
  }

  function RejectionError(id: string, reason: string): Failure {
    OpenAI.Failure(Plain, 0, id + ": " + reason, 0)
  }

  /** What one attempt comes to.  A committed stream is not settled yet: its attempt is pending. */
  datatype Verdict =
    | Fell(info: AttemptInfo, err: Failure, usage: Option<Usage>)
    | Committed(info: AttemptInfo, buffered: seq<Event>, rest: Script)
    | Accepted(info: AttemptInfo, answer: Drained)

  function Judge(c: Contender, n: int, stream: bool, gate: GateConfig): Verdict {
    match c.response
    case Refused(err) => Fell(ErrorAttempt(c, n, err), err, None)
    case Streams(script) =>
      if stream then
        var peek := Peek(script);
        if peek.committed then Committed(PendingAttempt(c, n), peek.buffered, script[PeekEnd(script)..])
        else Fell(RejectedAttempt(c, n, peek.reason, None), RejectionError(c.provider, peek.reason), None)
      else
        var d := Drain(Events(script));
        if d.DrainError? then Fell(ErrorAttempt(c, n, d.err), d.err, None)
        else
          var g := Evaluate(gate, d.content, d.toolCalls, d.sawTerminal);
          if g.accepted then
            Accepted(PendingAttempt(c, n).(ok := true, outcome := Success, usage := d.usage), d)
          else
            Fell(RejectedAttempt(c, n, g.reason, d.usage), RejectionError(c.provider, g.reason), d.usage)
  }

  /** What an attempt does to the registries until it falls through, is committed or is accepted. */
  function AttemptEffects(c: Contender, v: Verdict): seq<Effect> {
    [Told(Telemetry.Attempt(c.provider))] + Settlement(c, v)
  }

  function Settlement(c: Contender, v: Verdict): seq<Effect> {
    var id := c.provider;
    match v
    case Fell(info, err, usage) =>
      Tokens(id, usage) + (if info.outcome == Error then MarkFailure(id, err, c.at) else MarkRejection(id, c.at))
      + [Told(Telemetry.Latency(id, c.elapsed))]
    case Committed(_, _, _) => [Told(Telemetry.Latency(id, c.elapsed))]
    case Accepted(_, answer) =>
      (if answer.Drained? then Tokens(id, answer.usage) else [])
      + [Broke(id, Breaker.Succeeded(c.at)), Told(Telemetry.Latency(id, c.elapsed)), Recorded(id, true)]
  }

  datatype Request = Request(combo: string, stream: bool, gate: GateConfig)

  /** Frames written, effects performed and the trail at the end of a request. */
  datatype Run = Run(frames: seq<Frame>, effects: seq<Effect>, trail: seq<AttemptInfo>)

  /** The rest of a request whose first i candidates fell through, leaving trail behind. */
  function ServeFrom(req: Request, ranked: seq<Contender>, i: nat, trail: seq<AttemptInfo>, usage: Usage,
                     lastErr: Option<Failure>): Run
    requires i <= |ranked|
    decreases |ranked| - i
  {
    if i == |ranked| then
      Run([ErrorReply(GatewayError(req.combo, trail, usage, lastErr))], [Recorded("", false)], trail)
    else
      var v := Judge(ranked[i], i + 1, req.stream, req.gate);
      var effects := AttemptEffects(ranked[i], v);
      match v
      case Fell(info, err, used) =>
        var rest := ServeFrom(req, ranked, i + 1, trail + [info], Plus(usage, used), Some(err));
        rest.(effects := effects + rest.effects)
      case Committed(info, buffered, rest) =>
        var ending := EndingOf(info.provider, Consumed(buffered + Events(rest)));
        Run(Relayed(info, trail, Arrivals(buffered) + rest),
            effects + EndingEffects(info.provider, ending, ranked[i].endsAt),
            trail + [Finalized(info, ending)])
      case Accepted(info, answer) =>
        Run([Reply(info, answer, trail + [info], usage)], effects, trail + [info])
  }

  function Plus(total: Usage, used: Option<Usage>): Usage {
    if used.Some? then AddUsage(total, used.value) else total
  }

  function Reply(info: AttemptInfo, answer: Drained, trail: seq<AttemptInfo>, usage: Usage): Frame {
    match answer
    case Drained(content, toolCalls, providerItems, used, _) =>
      BufferedReply(FinishOf(toolCalls), content, toolCalls, providerItems, info.provider, trail, Plus(usage, used))
    case DrainError(_) =>
      BufferedReply(Stop, "", [], [], info.provider, trail, usage)
  }

  function Serve(req: Request, ranked: seq<Contender>): Run {
    ServeFrom(req, ranked, 0, [], NO_USAGE, None)
  }

  // ---------------------------------------------------------------- eligibility

  datatype Provider = Provider(id: string, supportsTools: bool, supportsImages: bool)

  datatype Needs = Needs(tools: bool, images: bool)

  predicate Capable(p: Provider, needs: Needs) {
    (needs.tools ==> p.supportsTools) && (needs.images ==> p.supportsImages)
  }

  /** A provider that may serve the request, with what a strategy ranks it by (internal/router/candidate.go). */
  datatype Candidate = Candidate(id: string, stats: Telemetry.Stats, halfOpen: bool, priority: int, qualityHint: real)

  /** Every declared provider is asked of its breaker, capable or not; clock[i] is read for the i-th. */
  function Polls(config: Breaker.Config, before: seq<Effect>, ps: seq<Provider>, clock: seq<int>): (polls: seq<Effect>)
    requires |ps| == |clock|
    ensures |polls| == |ps|
  {
    if ps == [] then []
    else
      var n := |ps| - 1;
      var earlier := Polls(config, before, ps[..n], clock[..n]);
      var granted := Breaker.Admits(config, BreakerEvents(before + earlier, ps[n].id), clock[n]);
      earlier + [Broke(ps[n].id, Breaker.Asked(clock[n], granted))]
  }

  /** The granted and capable ones, in declared order. */
  function Eligible(config: Breaker.Config, before: seq<Effect>, ps: seq<Provider>, clock: seq<int>, needs: Needs,
                    calls: seq<Telemetry.Call>, hints: map<string, real>): seq<Candidate>
    requires |ps| == |clock|
  {
    if ps == [] then []
    else
      var n := |ps| - 1;
      var polls := Polls(config, before, ps, clock);
      Eligible(config, before, ps[..n], clock[..n], needs, calls, hints) +
      if Granted(polls[|polls| - 1]) && Capable(ps[n], needs)
      then [Candidate(ps[n].id, Telemetry.StatsOf(Telemetry.CountersAfter(calls, ps[n].id)),
                      Breaker.StateOf(config, BreakerEvents(before + polls, ps[n].id)) == Breaker.HalfOpen,
                      n + 1, if ps[n].id in hints then hints[ps[n].id] else 0.0)]
      else []
  }

  predicate Granted(e: Effect) { e.Broke? && e.event.Asked? && e.event.granted }

  // ---------------------------------------------------------------- the executor

  function Calls(effects: seq<Effect>): seq<Telemetry.Call> {
    if effects == [] then []
    else Calls(effects[..|effects| - 1]) +
         (if effects[|effects| - 1].Told? then [effects[|effects| - 1].call] else [])
  }

  function BreakerEvents(effects: seq<Effect>, id: string): Breaker.History {
    if effects == [] then []
    else
      var e := effects[|effects| - 1];
      BreakerEvents(effects[..|effects| - 1], id) + (if e.Broke? && e.id == id then [e.event] else [])
  }

  function Outcomes(effects: seq<Effect>): seq<(string, bool)> {
    if effects == [] then []
    else
      var e := effects[|effects| - 1];
      Outcomes(effects[..|effects| - 1]) + (if e.Recorded? then [(e.winner, e.ok)] else [])
  }

  /** The registries hold exactly what the effects put there. */
  ghost predicate Reflects(effects: seq<Effect>, log: Breaker.Log, calls: seq<Telemetry.Call>,
                           outcomes: seq<(string, bool)>) {
    && calls == Calls(effects)
    && outcomes == Outcomes(effects)
    && forall id :: Breaker.LogOf(log, id) == BreakerEvents(effects, id)
  }

  function LogNext(log: Breaker.Log, e: Effect): Breaker.Log {
    if e.Broke? then log[e.id := Breaker.LogOf(log, e.id) + [e.event]] else log
  }

  lemma EffectNext(effects: seq<Effect>, e: Effect, id: string)
    ensures Calls(effects + [e]) == Calls(effects) + (if e.Told? then [e.call] else [])
    ensures Outcomes(effects + [e]) == Outcomes(effects) + (if e.Recorded? then [(e.winner, e.ok)] else [])
    ensures BreakerEvents(effects + [e], id)
         == BreakerEvents(effects, id) + (if e.Broke? && e.id == id then [e.event] else [])
  {
    assert (effects + [e])[..|effects|] == effects;
  }

  lemma ReflectsNext(effects: seq<Effect>, e: Effect, log: Breaker.Log, calls: seq<Telemetry.Call>,
                     outcomes: seq<(string, bool)>)
    requires Reflects(effects, log, calls, outcomes)
    ensures Reflects(effects + [e], LogNext(log, e), if e.Told? then calls + [e.call] else calls,
                     if e.Recorded? then outcomes + [(e.winner, e.ok)] else outcomes)
  {
    hide Calls, Outcomes, BreakerEvents;
    EffectNext(effects, e, "");
    forall id ensures Breaker.LogOf(LogNext(log, e), id) == BreakerEvents(effects + [e], id) {
      EffectNext(effects, e, id);
      assert Breaker.LogOf(log, id) == BreakerEvents(effects, id);
    }
  }

  lemma NobodyPolled(config: Breaker.Config, before: seq<Effect>, needs: Needs, calls: seq<Telemetry.Call>,
                     hints: map<string, real>)
    ensures before + Polls(config, before, [], []) == before &&
            Eligible(config, before, [], [], needs, calls, hints) == []
  {
  }

  lemma PollNext(config: Breaker.Config, before: seq<Effect>, ps: seq<Provider>, clock: seq<int>, i: nat, needs: Needs,
                 calls: seq<Telemetry.Call>, hints: map<string, real>)
    requires |ps| == |clock| && i < |ps|
    ensures var p, earlier := ps[i], before + Polls(config, before, ps[..i], clock[..i]);
            var granted := Breaker.Admits(config, BreakerEvents(earlier, p.id), clock[i]);
            var now := earlier + [Broke(p.id, Breaker.Asked(clock[i], granted))];
            before + Polls(config, before, ps[..i + 1], clock[..i + 1]) == now &&
            Eligible(config, before, ps[..i + 1], clock[..i + 1], needs, calls, hints) ==
              Eligible(config, before, ps[..i], clock[..i], needs, calls, hints) +
              if granted && Capable(p, needs) then
                [Candidate(p.id, Telemetry.StatsOf(Telemetry.CountersAfter(calls, p.id)),
                           Breaker.StateOf(config, BreakerEvents(now, p.id)) == Breaker.HalfOpen,
                           i + 1, if p.id in hints then hints[p.id] else 0.0)]
              else []
  {
    assert ps[..i + 1][..i] == ps[..i] && clock[..i + 1][..i] == clock[..i];
    hide Breaker.Admits, Breaker.StateOf, BreakerEvents, Capable, Telemetry.StatsOf, Telemetry.CountersAfter;
  }

  class ResponseWriter {
    var frames: seq<Frame>

    constructor ()
      ensures frames == []
    {
      frames := [];
    }

    method Write(f: Frame)
      modifies this
      ensures frames == old(frames) + [f]
    {
      frames := frames + [f];
    }
  }

  class Server {
    const breakers: Breaker.Registry
    const telemetry: Telemetry.Registry
    var outcomes: seq<(string, bool)>  // the calls to the router's RecordOutcome
    ghost var effects: seq<Effect>

    ghost predicate Valid()
      reads this, breakers, telemetry
    {
      && breakers.Valid() && telemetry.Valid()
      && Reflects(effects, breakers.log, telemetry.log, outcomes)
    }

    constructor (config: Breaker.Config)
      ensures Valid() && effects == [] && fresh(breakers) && fresh(telemetry)
    {
      breakers := new Breaker.Registry(config);
      telemetry := new Telemetry.Registry();
      outcomes := [];
      effects := [];
    }

    method Tell(call: Telemetry.Call)
      requires Valid()
      modifies this, breakers, telemetry
      ensures Valid() && effects == old(effects) + [Told(call)]
    {
      ReflectsNext(effects, Told(call), breakers.log, telemetry.log, outcomes);
      telemetry.Update(call);
      effects := effects + [Told(call)];
    }

    method ReportSuccess(id: string, now: int)
      requires Valid()
      modifies this, breakers, telemetry
      ensures Valid() && effects == old(effects) + [Broke(id, Breaker.Succeeded(now))]
    {
      ReflectsNext(effects, Broke(id, Breaker.Succeeded(now)), breakers.log, telemetry.log, outcomes);
      breakers.ReportSuccess(id, now);
      effects := effects + [Broke(id, Breaker.Succeeded(now))];
    }

    method ReportFailure(id: string, now: int)
      requires Valid()
      modifies this, breakers, telemetry
      ensures Valid() && effects == old(effects) + [Broke(id, Breaker.Failed(now))]
    {
      ReflectsNext(effects, Broke(id, Breaker.Failed(now)), breakers.log, telemetry.log, outcomes);
      breakers.ReportFailure(id, now);
      effects := effects + [Broke(id, Breaker.Failed(now))];
    }

    method RecordOutcome(winner: string, ok: bool)
      requires Valid()
      modifies this, breakers, telemetry
      ensures Valid() && effects == old(effects) + [Recorded(winner, ok)]
    {
      ReflectsNext(effects, Recorded(winner, ok), breakers.log, telemetry.log, outcomes);
      outcomes := outcomes + [(winner, ok)];
      effects := effects + [Recorded(winner, ok)];
    }

    method Allow(id: string, now: int) returns (granted: bool)
      requires Valid()
      modifies this, breakers, telemetry
      ensures Valid() && granted == Breaker.Admits(breakers.config, BreakerEvents(old(effects), id), now)
      ensures effects == old(effects) + [Broke(id, Breaker.Asked(now, granted))]
    {
      hide Breaker.Admits, Breaker.Explains;
      ghost var log, calls, outs := breakers.log, telemetry.log, outcomes;
      granted := breakers.Allow(id, now);
      ReflectsNext(effects, Broke(id, Breaker.Asked(now, granted)), log, calls, outs);
      assert Breaker.LogOf(log, id) == BreakerEvents(effects, id);
      effects := effects + [Broke(id, Breaker.Asked(now, granted))];
    }

    method IsHalfOpen(id: string) returns (r: bool)
      requires Valid()
      modifies breakers
      ensures Valid() && effects == old(effects)
      ensures r == (Breaker.StateOf(breakers.config, BreakerEvents(effects, id)) == Breaker.HalfOpen)
    {
      hide Breaker.StateOf, Breaker.Explains;
      ghost var log := breakers.log;
      assert Breaker.LogOf(log, id) == BreakerEvents(effects, id);
      r := breakers.IsHalfOpen(id);
      assert forall x :: Breaker.LogOf(breakers.log, x) == Breaker.LogOf(log, x);
    }

    /** eligibleCandidates: the breaker is asked first, capabilities are checked after. */
    method EligibleCandidates(ps: seq<Provider>, needs: Needs, hints: map<string, real>, clock: seq<int>)
      returns (out: seq<Candidate>)
      requires Valid() && |ps| == |clock|
      modifies this, breakers, telemetry
      ensures Valid()
      ensures effects == old(effects) + Polls(breakers.config, old(effects), ps, clock)
      ensures out == Eligible(breakers.config, old(effects), ps, clock, needs, Calls(old(effects)), hints)
    {
      hide Valid, Breaker.Admits, Breaker.StateOf, BreakerEvents, Polls, Eligible, Calls;
      hide Telemetry.StatsOf, Telemetry.CountersAfter;
      var snapshot := TelemetrySnapshot();
      ghost var calls := telemetry.log;
      ToldCalls();
      out := [];
      NobodyPolled(breakers.config, effects, needs, calls, hints);
      assert ps[..0] == [] && clock[..0] == [];
      for i := 0 to |ps|
        invariant Valid() && effects == old(effects) + Polls(breakers.config, old(effects), ps[..i], clock[..i])
        invariant out == Eligible(breakers.config, old(effects), ps[..i], clock[..i], needs, calls, hints)
      {
        PollNext(breakers.config, old(effects), ps, clock, i, needs, calls, hints);
        var p := ps[i];
        var granted := Allow(p.id, clock[i]);
        if granted && !(needs.tools && !p.supportsTools) && !(needs.images && !p.supportsImages) {
          var halfOpen := IsHalfOpen(p.id);
          var known := if p.id in snapshot then snapshot[p.id] else Telemetry.StatsOf(Telemetry.ZERO);
          out := out + [Candidate(p.id, known, halfOpen, i + 1, if p.id in hints then hints[p.id] else 0.0)];
        }
      }
      assert ps[..|ps|] == ps && clock[..|ps|] == clock;
    }

    lemma ToldCalls()
      requires Valid()
      ensures telemetry.log == Calls(effects)
    {
    }

    method TelemetrySnapshot() returns (out: map<string, Telemetry.Stats>)
      requires Valid()
      ensures forall id :: Telemetry.StatsOf(Telemetry.CountersAfter(telemetry.log, id))
                        == if id in out then out[id] else Telemetry.StatsOf(Telemetry.ZERO)
    {
      out := telemetry.Snapshot();
    }

    method RecordUsage(id: string, usage: Option<Usage>)
      requires Valid()
      modifies this, breakers, telemetry
      ensures Valid() && effects == old(effects) + Tokens(id, usage)
    {
      if usage.Some? {
        Tell(Telemetry.Tokens(id, usage.value.prompt, usage.value.completion));
      }
    }

    method DoMarkFailure(id: string, err: Failure, now: int)
      requires Valid()
      modifies this, breakers, telemetry
      ensures Valid() && effects == old(effects) + MarkFailure(id, err, now)
    {
      if Classify(err).CountsAgainstBreaker() {
        ReportFailure(id, now);
      }
      Tell(Telemetry.Failure(id));
    }

    method DoMarkRejection(id: string, now: int)
      requires Valid()
      modifies this, breakers, telemetry
      ensures Valid() && effects == old(effects) + MarkRejection(id, now)
    {
      ReportFailure(id, now);
      Tell(Telemetry.Failure(id));
    }

    /** Writes what one event of a committed stream calls for; a terminal event settles the attempt. */
    method HandleEvent(w: ResponseWriter, evt: Event, pending: AttemptInfo, prior: seq<AttemptInfo>, now: int)
      returns (keepGoing: bool)
      requires Valid()
      modifies this, breakers, telemetry, w
      ensures Valid() && keepGoing == !Terminal(evt)
      ensures keepGoing ==> w.frames == old(w.frames) + Forward(evt) && effects == old(effects)
      ensures !keepGoing ==>
                var ending := EndingOf(pending.provider, [evt]);
                w.frames == old(w.frames) + Forward(evt) + [Final(pending, prior, ending)] &&
                effects == old(effects) + EndingEffects(pending.provider, ending, now)
    {
      hide Valid;
      if evt.err.Some? {
        DoMarkFailure(pending.provider, evt.err.value, now);
        var trail := prior + [pending.(outcome := Error, ok := false, reason := evt.err.value.message,
                                       class_ := Classify(evt.err.value))];
        w.Write(FinalChunk(Aborted, [], [], pending.provider, trail, None));
        return false;
      }
      if evt.delta != "" {
        w.Write(ContentChunk(evt.delta));
      } else if evt.reasoning != "" {
        w.Write(ReasoningChunk(evt.reasoning));
      }
      if evt.done {
        ReportSuccess(pending.provider, now);
        RecordUsage(pending.provider, evt.usage);
        RecordOutcome(pending.provider, true);
        var trail := prior + [pending.(outcome := Success, ok := true, reason := "", class_ := NoClass)];
        var finish := if |evt.toolCalls| > 0 then CallTools else Stop;
        w.Write(FinalChunk(finish, evt.toolCalls, evt.providerItems, pending.provider, trail, evt.usage));
        return false;
      }
      keepGoing := true;
    }

    /** The channel closed on its own: an explicit error, never a bare end of stream. */
    method CloseTruncated(w: ResponseWriter, pending: AttemptInfo, prior: seq<AttemptInfo>, now: int)
      requires Valid()
      modifies this, breakers, telemetry, w
      ensures Valid()
      ensures w.frames == old(w.frames) + [Final(pending, prior, EndingOf(pending.provider, []))]
      ensures effects == old(effects) + EndingEffects(pending.provider, EndingOf(pending.provider, []), now)
    {
      hide Valid;
      var err := OpenAI.Failure(Plain, 0, pending.provider + ": stream closed without a terminal completion", 0);
      DoMarkFailure(pending.provider, err, now);
      var trail := prior + [pending.(outcome := Error, ok := false, reason := err.message, class_ := Classify(err))];
      w.Write(FinalChunk(Aborted, [], [], pending.provider, trail, None));
    }

    /** streamResponse: replay what the peek buffered, relay the rest, settle the attempt once. */
    method StreamResponse(w: ResponseWriter, pending: AttemptInfo, buffered: seq<Event>, rest: Script,
                          prior: seq<AttemptInfo>, endsAt: int)
      requires Valid()
      modifies this, breakers, telemetry, w
      ensures Valid()
      ensures w.frames == old(w.frames) + Relayed(pending, prior, Arrivals(buffered) + rest)
      ensures effects == old(effects) +
              EndingEffects(pending.provider, EndingOf(pending.provider, Consumed(buffered + Events(rest))), endsAt)
    {
      hide Valid, RelayedSoFar, Relayed, Final, EndingEffects, Forward;
      ghost var src := Arrivals(buffered) + rest;
      ghost var job := Job(pending, prior, endsAt, src);
      ghost var frames0 := w.frames;
      w.Write(RoleChunk);
      RelayStarts(job, frames0, effects);
      var keepGoing := true;
      var i := 0;
      while keepGoing && i < |buffered|
        invariant 0 <= i <= |buffered| && Valid()
        invariant RelayedSoFar(job, i, keepGoing, frames0, w.frames, old(effects), effects)
        decreases |buffered| - i
      {
        ghost var frames, done := w.frames, effects;
        keepGoing := HandleEvent(w, buffered[i], pending, prior, endsAt);
        RelayAdvances(job, i, frames0, frames, w.frames, old(effects), done, effects);
        i := i + 1;
      }
      ghost var n := i;
      var k := 0;
      while keepGoing && k < |rest|
        invariant 0 <= k <= |rest| && Valid() && n <= |src| && (keepGoing ==> n == |buffered| + k)
        invariant RelayedSoFar(job, n, keepGoing, frames0, w.frames, old(effects), effects)
        decreases |rest| - k
      {
        ghost var frames, done := w.frames, effects;
        match rest[k] {
          case Arrive(evt) => keepGoing := HandleEvent(w, evt, pending, prior, endsAt);
          case KeepAliveTick => w.Write(KeepAlive);
          case _ =>
        }
        RelayAdvances(job, n, frames0, frames, w.frames, old(effects), done, effects);
        k := k + 1;
        n := n + 1;
      }
      ghost var frames, settled := w.frames, effects;
      if keepGoing {
        CloseTruncated(w, pending, prior, endsAt);
      }
      w.Write(DoneMarker);
      RelayEnds(job, n, keepGoing, frames0, frames, w.frames, old(effects), settled, effects);
      EventsOfArrivals(buffered);
      EventsAppend(Arrivals(buffered), rest);
    }

    /** One attempt, up to the point where it falls through, is committed or is accepted. */
    method Try(c: Contender, n: int, stream: bool, gate: GateConfig) returns (v: Verdict)
      requires Valid()
      modifies this, breakers, telemetry
      ensures Valid() && v == Judge(c, n, stream, gate)
      ensures effects == old(effects) + AttemptEffects(c, v)
    {
      hide Valid, Peek, PeekEnd, Events, Drain, Evaluate, MarkFailure, MarkRejection;
      var id := c.provider;
      Tell(Telemetry.Attempt(id));
      if c.response.Refused? {
        var err := c.response.err;
        DoMarkFailure(id, err, c.at);
        Tell(Telemetry.Latency(id, c.elapsed));
        return Fell(ErrorAttempt(c, n, err), err, None);
      }
      if stream {
        var peek, used := BoundedPeek(c.response.script);
        if !peek.committed {
          DoMarkRejection(id, c.at);
          Tell(Telemetry.Latency(id, c.elapsed));
          return Fell(RejectedAttempt(c, n, peek.reason, None), RejectionError(id, peek.reason), None);
        }
        Tell(Telemetry.Latency(id, c.elapsed));
        return Committed(PendingAttempt(c, n), peek.buffered, c.response.script[used..]);
      }
      var d := DrainToBuffer(Events(c.response.script));
      v := Gated(c, n, gate, d);
    }

    /** The second half of a buffered attempt: d was drained. */
    method Gated(c: Contender, n: int, gate: GateConfig, d: Drained) returns (v: Verdict)
      requires Valid() && c.response.Streams? && d == Drain(Events(c.response.script))
      modifies this, breakers, telemetry
      ensures Valid() && v == Judge(c, n, false, gate)
      ensures effects == old(effects) + Settlement(c, v)
    {
      hide Valid, Events, Drain, Evaluate, MarkFailure, MarkRejection;
      var id := c.provider;
      if d.DrainError? {
        DoMarkFailure(id, d.err, c.at);
        Tell(Telemetry.Latency(id, c.elapsed));
        return Fell(ErrorAttempt(c, n, d.err), d.err, None);
      }
      RecordUsage(id, d.usage);
      var outcome := Evaluate(gate, d.content, d.toolCalls, d.sawTerminal);
      if !outcome.accepted {
        DoMarkRejection(id, c.at);
        Tell(Telemetry.Latency(id, c.elapsed));
        return Fell(RejectedAttempt(c, n, outcome.reason, d.usage), RejectionError(id, outcome.reason), d.usage);
      }
      ReportSuccess(id, c.at);
      Tell(Telemetry.Latency(id, c.elapsed));
      RecordOutcome(id, true);
      v := Accepted(PendingAttempt(c, n).(ok := true, outcome := Success, usage := d.usage), d);
    }

    /** handleChatCompletions, from the ranked candidates on. */
    method Handle(w: ResponseWriter, req: Request, ranked: seq<Contender>)
      requires Valid()
      modifies this, breakers, telemetry, w
      ensures Valid()
      ensures w.frames == old(w.frames) + Serve(req, ranked).frames
      ensures effects == old(effects) + Serve(req, ranked).effects
    {
      ServeStarts(req, ranked);
      hide *;
      var trail, totalUsage, lastErr := [], NO_USAGE, None;
      ghost var done: seq<Effect> := [];
      for i := 0 to |ranked|
        invariant Valid() && w.frames == old(w.frames) && effects == old(effects) + done
        invariant Serve(req, ranked) == Before(done, ServeFrom(req, ranked, i, trail, totalUsage, lastErr))
      {
        var c := ranked[i];
        var v := Try(c, i + 1, req.stream, req.gate);
        ServeStep(req, ranked, i, trail, totalUsage, lastErr, v, done);
        done := done + AttemptEffects(c, v);
        assert effects == old(effects) + done;
        match v {
          case Fell(info, err, usage) =>
            totalUsage := Plus(totalUsage, usage);
            lastErr := Some(err);
            trail := trail + [info];
          case Committed(pending, buffered, rest) =>
            StreamResponse(w, pending, buffered, rest, trail, c.endsAt);
            return;
          case Accepted(info, answer) =>
            trail := trail + [info];
            w.Write(Reply(info, answer, trail, totalUsage));
            return;
        }
      }
      ServeExhausted(req, ranked, trail, totalUsage, lastErr, done);
      RecordOutcome("", false);
      w.Write(ErrorReply(GatewayError(req.combo, trail, totalUsage, lastErr)));
    }
  }

  /** The run whose effects start with done. */
  function Before(done: seq<Effect>, run: Run): Run { run.(effects := done + run.effects) }

  lemma ServeStarts(req: Request, ranked: seq<Contender>)
    ensures Serve(req, ranked) == Before([], ServeFrom(req, ranked, 0, [], NO_USAGE, None))
  {
  }

  lemma ServeExhausted(req: Request, ranked: seq<Contender>, trail: seq<AttemptInfo>, usage: Usage,
                       lastErr: Option<Failure>, done: seq<Effect>)
    ensures Before(done, ServeFrom(req, ranked, |ranked|, trail, usage, lastErr))
         == Run([ErrorReply(GatewayError(req.combo, trail, usage, lastErr))], done + [Recorded("", false)], trail)
  {
  }

  lemma ServeStep(req: Request, ranked: seq<Contender>, i: nat, trail: seq<AttemptInfo>, usage: Usage,
                  lastErr: Option<Failure>, v: Verdict, done: seq<Effect>)
    requires i < |ranked| && v == Judge(ranked[i], i + 1, req.stream, req.gate)
    ensures var run := Before(done, ServeFrom(req, ranked, i, trail, usage, lastErr));
            var done' := done + AttemptEffects(ranked[i], v);
            match v
            case Fell(info, err, used) =>
              run == Before(done', ServeFrom(req, ranked, i + 1, trail + [info], Plus(usage, used), Some(err)))
            case Committed(info, buffered, rest) =>
              var ending := EndingOf(info.provider, Consumed(buffered + Events(rest)));
              run == Run(Relayed(info, trail, Arrivals(buffered) + rest),
                         done' + EndingEffects(info.provider, ending, ranked[i].endsAt),
                         trail + [Finalized(info, ending)])
            case Accepted(info, answer) =>
              run == Run([Reply(info, answer, trail + [info], usage)], done', trail + [info])
  {
    hide Judge, AttemptEffects, EndingEffects, Relayed, Finalized;
    assert v.Fell? ==>
      var rest := ServeFrom(req, ranked, i + 1, trail + [v.info], Plus(usage, v.usage), Some(v.err));
      done + (AttemptEffects(ranked[i], v) + rest.effects) == (done + AttemptEffects(ranked[i], v)) + rest.effects;
  }

  /** What a relay was given. */
  datatype Job = Job(pending: AttemptInfo, prior: seq<AttemptInfo>, endsAt: int, src: Script)
  {
    function EndAt(c: seq<Event>): Ending { EndingOf(pending.provider, c) }

    /** What a terminal event adds to the transcript and to the effects. */
    function LastFrame(c: seq<Event>): Frame { Final(pending, prior, EndAt(c)) }

    function LastEffects(c: seq<Event>): seq<Effect> { EndingEffects(pending.provider, EndAt(c), endsAt) }
  }

  /** The first n signals were relayed, the last of them terminal unless keepGoing. */
  ghost predicate RelayedSoFar(job: Job, n: nat, keepGoing: bool, frames0: seq<Frame>, frames: seq<Frame>,
                               effects0: seq<Effect>, effects: seq<Effect>)
    requires n <= |job.src|
  {
    && (forall j | 0 <= j < n - 1 :: !IsTerminal(job.src[j]))
    && (if n == 0 then keepGoing else keepGoing == !IsTerminal(job.src[n - 1]))
    && frames == frames0 + [RoleChunk] + SignalFrames(job.src[..n])
                 + (if keepGoing then [] else [job.LastFrame(Events(job.src[..n]))])
    && effects == effects0 + (if keepGoing then [] else job.LastEffects(Events(job.src[..n])))
  }

  lemma RelayStarts(job: Job, frames0: seq<Frame>, effects0: seq<Effect>)
    ensures RelayedSoFar(job, 0, true, frames0, frames0 + [RoleChunk], effects0, effects0)
  {
  }

  lemma RelayAdvances(job: Job, n: nat, frames0: seq<Frame>, frames: seq<Frame>, frames': seq<Frame>,
                      effects0: seq<Effect>, effects: seq<Effect>, effects': seq<Effect>)
    requires n < |job.src| && RelayedSoFar(job, n, true, frames0, frames, effects0, effects)
    requires var s := job.src[n];
             if IsTerminal(s) then
               frames' == frames + FramesOf(s) + [job.LastFrame([s.event])] &&
               effects' == effects + job.LastEffects([s.event])
             else frames' == frames + FramesOf(s) && effects' == effects
    ensures RelayedSoFar(job, n + 1, !IsTerminal(job.src[n]), frames0, frames', effects0, effects')
  {
    hide Final, EndingEffects, Forward;
    var done := job.src[..n + 1];
    assert done[..n] == job.src[..n];
    assert SignalFrames(done) == SignalFrames(job.src[..n]) + FramesOf(job.src[n]);
    assert IsTerminal(job.src[n]) ==> job.EndAt(Events(done)) == job.EndAt([job.src[n].event]);
    assert frames + FramesOf(job.src[n]) == frames0 + [RoleChunk] + SignalFrames(done);
  }

  lemma RelayEnds(job: Job, n: nat, keepGoing: bool, frames0: seq<Frame>, frames: seq<Frame>, frames': seq<Frame>,
                  effects0: seq<Effect>, effects: seq<Effect>, effects': seq<Effect>)
    requires n <= |job.src| && RelayedSoFar(job, n, keepGoing, frames0, frames, effects0, effects)
    requires keepGoing ==> n == |job.src|
    requires frames' == (if keepGoing then frames + [job.LastFrame([])] else frames) + [DoneMarker]
    requires effects' == if keepGoing then effects + job.LastEffects([]) else effects
    ensures frames' == frames0 + Relayed(job.pending, job.prior, job.src)
    ensures effects' == effects0 + job.LastEffects(Consumed(Events(job.src)))
  {
    hide *;
    RelayKnown(job, n, keepGoing, frames0, frames, effects0, effects);
    EndingKnown(job, n, keepGoing);
    var c := Events(job.src[..n]);
    RelayedKnown(job, n, keepGoing);
    Regroup(frames0, RoleChunk, SignalFrames(job.src[..n]), job.LastFrame(c), DoneMarker);
  }

  lemma RelayKnown(job: Job, n: nat, keepGoing: bool, frames0: seq<Frame>, frames: seq<Frame>, effects0: seq<Effect>,
                   effects: seq<Effect>)
    requires n <= |job.src| && RelayedSoFar(job, n, keepGoing, frames0, frames, effects0, effects)
    ensures forall j | 0 <= j < n - 1 :: !IsTerminal(job.src[j])
    ensures if n == 0 then keepGoing else keepGoing == !IsTerminal(job.src[n - 1])
    ensures frames == frames0 + [RoleChunk] + SignalFrames(job.src[..n])
                      + (if keepGoing then [] else [job.LastFrame(Events(job.src[..n]))])
    ensures effects == effects0 + (if keepGoing then [] else job.LastEffects(Events(job.src[..n])))
  {
    hide IsTerminal, SignalFrames, Events, Final, EndingEffects;
  }

  /** What the relay sends is known from the signals it consumed. */
  lemma RelayedKnown(job: Job, n: nat, keepGoing: bool)
    requires n <= |job.src| && ConsumedSignals(job.src) == job.src[..n]
    requires Consumed(Events(job.src)) == Events(job.src[..n])
    requires keepGoing ==> job.EndAt(Events(job.src[..n])) == job.EndAt([])
    ensures var c := Events(job.src[..n]);
            Relayed(job.pending, job.prior, job.src)
            == [RoleChunk] + SignalFrames(job.src[..n]) + [job.LastFrame(c), DoneMarker] &&
            (keepGoing ==> job.LastFrame(c) == job.LastFrame([]) && job.LastEffects(c) == job.LastEffects([]))
  {
    hide SignalFrames, ConsumedSignals, Consumed, Events, Final, EndingEffects, EndingOf;
  }

  lemma EndingKnown(job: Job, n: nat, keepGoing: bool)
    requires n <= |job.src| && forall j | 0 <= j < n - 1 :: !IsTerminal(job.src[j])
    requires if n == 0 then keepGoing else keepGoing == !IsTerminal(job.src[n - 1])
    requires keepGoing ==> n == |job.src|
    ensures ConsumedSignals(job.src) == job.src[..n] && Consumed(Events(job.src)) == Events(job.src[..n])
    ensures keepGoing ==> job.EndAt(Events(job.src[..n])) == job.EndAt([])
  {
    hide *;
    SignalsThrough(job.src, n);
    EventsThrough(job.src, n);
    if keepGoing {
      NoTerminal(job.src);
      OpenEnding(job, Events(job.src));
      assert job.src[..n] == job.src;
    }
  }

  lemma OpenEnding(job: Job, c: seq<Event>)
    requires forall e | e in c :: !Terminal(e)
    ensures job.EndAt(c) == job.EndAt([])
  {
    assert c != [] ==> c[|c| - 1] in c;
  }

  lemma Regroup<T>(x: seq<T>, a: T, s: seq<T>, l: T, d: T)
    ensures x + [a] + s + [l] + [d] == x + ([a] + s + [l, d])
  {
  }
}
