/** What the telemetry and the breakers are told of a request, said of its providers' responses alone. */
module Feedback {
  import opened Options
  import opened OpenAI
  import opened Streaming
  import opened Gateway
  import Breaker
  import Telemetry
  import Requests

  // ---------------------------------------------------------------- latencies and tokens

  /** What an attempt cost, as its provider reported it: a drained answer's usage, or that of the Done of a stream that
      was relayed. */
  ghost function Spent(req: Request, c: Contender): Option<Usage> {
    match c.response
    case Refused(_) => None
    case Streams(script) =>
      if !req.stream then match Drain(Events(script)) { case DrainError(_) => None case Drained(_, _, _, u, _) => u }
      else
        var events := Consumed(Events(script));
        if Peek(script).committed && events != [] && events[|events| - 1].err.None? && events[|events| - 1].done
        then events[|events| - 1].usage else None
  }

  /** The latencies of id's attempts. */
  function LatenciesOf(tried: seq<Contender>, id: string): seq<int> {
    if tried == [] then []
    else (if tried[0].provider == id then [tried[0].elapsed] else []) + LatenciesOf(tried[1..], id)
  }

  ghost function PromptsOf(req: Request, tried: seq<Contender>, id: string): int {
    if tried == [] then 0
    else
      var u := Spent(req, tried[0]);
      (if tried[0].provider == id && u.Some? then u.value.prompt else 0) + PromptsOf(req, tried[1..], id)
  }

  ghost function CompletionsOf(req: Request, tried: seq<Contender>, id: string): int {
    if tried == [] then 0
    else
      var u := Spent(req, tried[0]);
      (if tried[0].provider == id && u.Some? then u.value.completion else 0) + CompletionsOf(req, tried[1..], id)
  }

  /** effects tell telemetry of the attempts tried: their latencies in order, and their tokens. */
  ghost predicate Informs(req: Request, tried: seq<Contender>, effects: seq<Effect>, id: string) {
    var calls := Calls(effects);
    && Telemetry.LatenciesFor(calls, id) == LatenciesOf(tried, id)
    && Telemetry.PromptsFor(calls, id) == PromptsOf(req, tried, id)
    && Telemetry.CompletionsFor(calls, id) == CompletionsOf(req, tried, id)
  }

  lemma {:induction false} CallsAppend(a: seq<Effect>, b: seq<Effect>)
    ensures Calls(a + b) == Calls(a) + Calls(b)
  {
    if b == [] {
      assert a + b == a;
    } else {
      assert (a + b)[..|a + b| - 1] == a + b[..|b| - 1];
      CallsAppend(a, b[..|b| - 1]);
    }
  }

  lemma CallsOne(e: Effect)
    ensures Calls([e]) == if e.Told? then [e.call] else []
  {
    assert [e][..0] == [];
  }

  /** What the call of one effect adds. */
  lemma OneInforms(e: Effect, id: string)
    ensures var calls := Calls([e]);
            && Telemetry.LatenciesFor(calls, id)
               == (if e.Told? && e.call.Latency? && e.call.id == id then [e.call.ms] else [])
            && Telemetry.PromptsFor(calls, id)
               == (if e.Told? && e.call.Tokens? && e.call.id == id then e.call.prompt else 0)
            && Telemetry.CompletionsFor(calls, id)
               == (if e.Told? && e.call.Tokens? && e.call.id == id then e.call.completion else 0)
  {
    CallsOne(e);
    if e.Told? { Telemetry.TotalsOfOne(e.call, id); }
  }

  /** The sums over two stretches of effects. */
  lemma InformsAppend(a: seq<Effect>, b: seq<Effect>, id: string)
    ensures var x, y, z := Calls(a), Calls(b), Calls(a + b);
            && Telemetry.LatenciesFor(z, id) == Telemetry.LatenciesFor(x, id) + Telemetry.LatenciesFor(y, id)
            && Telemetry.PromptsFor(z, id) == Telemetry.PromptsFor(x, id) + Telemetry.PromptsFor(y, id)
            && Telemetry.CompletionsFor(z, id) == Telemetry.CompletionsFor(x, id) + Telemetry.CompletionsFor(y, id)
  {
    CallsAppend(a, b);
    Telemetry.TotalsAppend(Calls(a), Calls(b), id);
  }

  lemma TokensInform(provider: string, usage: Option<Usage>, id: string)
    ensures var calls := Calls(Tokens(provider, usage));
            && Telemetry.LatenciesFor(calls, id) == []
            && Telemetry.PromptsFor(calls, id) == (if provider == id && usage.Some? then usage.value.prompt else 0)
            && Telemetry.CompletionsFor(calls, id)
               == (if provider == id && usage.Some? then usage.value.completion else 0)
  {
    if usage.Some? { OneInforms(Tokens(provider, usage)[0], id); }
  }

  /** No latency and no tokens in these effects. */
  ghost predicate SaysNothing(effects: seq<Effect>, id: string) {
    var calls := Calls(effects);
    Telemetry.LatenciesFor(calls, id) == [] && Telemetry.PromptsFor(calls, id) == 0 &&
    Telemetry.CompletionsFor(calls, id) == 0
  }

  lemma MarksSayNothing(provider: string, err: Failure, now: int, id: string)
    ensures SaysNothing(MarkFailure(provider, err, now), id) && SaysNothing(MarkRejection(provider, now), id)
  {
    var broke, told := Broke(provider, Breaker.Failed(now)), Told(Telemetry.Failure(provider));
    OneInforms(broke, id);
    OneInforms(told, id);
    InformsAppend([broke], [told], id);
    assert [broke] + [told] == [broke, told] && [] + [told] == [told];
    hide Classify, Calls;
  }

  /** effects tell of one latency of c, if any, and of the tokens of usage. */
  ghost predicate InformsOne(c: Contender, timed: bool, usage: Option<Usage>, effects: seq<Effect>, id: string) {
    var calls := Calls(effects);
    && Telemetry.LatenciesFor(calls, id) == (if timed && c.provider == id then [c.elapsed] else [])
    && Telemetry.PromptsFor(calls, id) == (if c.provider == id && usage.Some? then usage.value.prompt else 0)
    && Telemetry.CompletionsFor(calls, id) == (if c.provider == id && usage.Some? then usage.value.completion else 0)
  }

  lemma InformsTogether(c: Contender, timed: bool, also: bool, usage: Option<Usage>, more: Option<Usage>,
                        a: seq<Effect>, b: seq<Effect>, id: string)
    requires InformsOne(c, timed, usage, a, id) && InformsOne(c, also, more, b, id)
    requires (!timed || !also) && (usage.None? || more.None?)
    ensures InformsOne(c, timed || also, if usage.Some? then usage else more, a + b, id)
  {
    InformsAppend(a, b, id);
    hide Calls;
  }

  lemma EffectInforms(c: Contender, e: Effect, id: string)
    requires e.Told? ==> e.call.id == c.provider && !e.call.Tokens? && (e.call.Latency? ==> e.call.ms == c.elapsed)
    ensures InformsOne(c, e.Told? && e.call.Latency?, None, [e], id)
  {
    OneInforms(e, id);
    hide Calls;
  }

  /** Tokens, then effects that say nothing, then a latency. */
  lemma SettlementInforms(c: Contender, usage: Option<Usage>, quiet: seq<Effect>, id: string)
    requires InformsOne(c, false, None, quiet, id)
    ensures InformsOne(c, true, usage,
                       Tokens(c.provider, usage) + quiet + [Told(Telemetry.Latency(c.provider, c.elapsed))], id)
  {
    var tokens, latency := Tokens(c.provider, usage), Told(Telemetry.Latency(c.provider, c.elapsed));
    TokensInform(c.provider, usage, id);
    EffectInforms(c, latency, id);
    hide Calls, Tokens;
    assert InformsOne(c, false, usage, tokens, id);
    InformsTogether(c, false, false, usage, None, tokens, quiet, id);
    InformsTogether(c, false, true, usage, None, tokens + quiet, [latency], id);
  }

  lemma QuietMarks(c: Contender, err: Failure, now: int, id: string)
    ensures InformsOne(c, false, None, MarkFailure(c.provider, err, now), id)
    ensures InformsOne(c, false, None, MarkRejection(c.provider, now), id)
  {
    MarksSayNothing(c.provider, err, now, id);
    hide Calls, MarkFailure, MarkRejection;
  }

  /** What a failed attempt does, piece by piece. */
  lemma FellIs(c: Contender, v: Verdict)
    requires v.Fell?
    ensures AttemptEffects(c, v)
         == [Told(Telemetry.Attempt(c.provider))]
            + (Tokens(c.provider, v.usage)
               + (if v.info.outcome == Error then MarkFailure(c.provider, v.err, c.at)
                  else MarkRejection(c.provider, c.at))
               + [Told(Telemetry.Latency(c.provider, c.elapsed))])
  {
    hide Tokens, MarkFailure, MarkRejection;
  }

  lemma FellInforms(c: Contender, v: Verdict, id: string)
    requires v.Fell?
    ensures InformsOne(c, true, v.usage, AttemptEffects(c, v), id)
  {
    var attempt, latency := Told(Telemetry.Attempt(c.provider)), Told(Telemetry.Latency(c.provider, c.elapsed));
    var tokens := Tokens(c.provider, v.usage);
    var marks :=
      if v.info.outcome == Error then MarkFailure(c.provider, v.err, c.at) else MarkRejection(c.provider, c.at);
    FellIs(c, v);
    hide *;
    EffectInforms(c, attempt, id);
    QuietMarks(c, v.err, c.at, id);
    SettlementInforms(c, v.usage, marks, id);
    InformsTogether(c, false, true, None, v.usage, [attempt], tokens + marks + [latency], id);
  }

  lemma CommittedInforms(c: Contender, v: Verdict, id: string)
    requires v.Committed?
    ensures InformsOne(c, true, None, AttemptEffects(c, v), id)
  {
    var attempt, latency := Told(Telemetry.Attempt(c.provider)), Told(Telemetry.Latency(c.provider, c.elapsed));
    assert AttemptEffects(c, v) == [attempt] + [latency];
    hide *;
    EffectInforms(c, attempt, id);
    EffectInforms(c, latency, id);
    InformsTogether(c, false, true, None, None, [attempt], [latency], id);
  }

  lemma AcceptedInforms(c: Contender, v: Verdict, id: string)
    requires v.Accepted? && v.answer.Drained?
    ensures InformsOne(c, true, v.answer.usage, AttemptEffects(c, v), id)
  {
    var attempt, latency := Told(Telemetry.Attempt(c.provider)), Told(Telemetry.Latency(c.provider, c.elapsed));
    var good, won := Broke(c.provider, Breaker.Succeeded(c.at)), Recorded(c.provider, true);
    var usage := v.answer.usage;
    var tokens := Tokens(c.provider, usage);
    assert AttemptEffects(c, v) == [attempt] + (tokens + [good] + [latency] + [won]);
    hide *;
    EffectInforms(c, attempt, id);
    EffectInforms(c, good, id);
    EffectInforms(c, won, id);
    SettlementInforms(c, usage, [good], id);
    InformsTogether(c, true, false, usage, None, tokens + [good] + [latency], [won], id);
    InformsTogether(c, false, true, None, usage, [attempt], tokens + [good] + [latency] + [won], id);
  }

  /** What one verdict's effects tell of. */
  lemma VerdictInforms(c: Contender, v: Verdict, id: string)
    requires v.Accepted? ==> v.answer.Drained?
    ensures InformsOne(c, true, if v.Fell? then v.usage else if v.Accepted? then v.answer.usage else None,
                       AttemptEffects(c, v), id)
  {
    hide *;
    match v {
      case Fell(_, _, _) => FellInforms(c, v, id);
      case Committed(_, _, _) => CommittedInforms(c, v, id);
      case Accepted(_, _) => AcceptedInforms(c, v, id);
    }
  }

  lemma EndingInforms(c: Contender, ending: Ending, id: string)
    ensures InformsOne(c, false, UsageAtEnd(ending), EndingEffects(c.provider, ending, c.endsAt), id)
  {
    match ending {
      case Broken(err) =>
        assert EndingEffects(c.provider, ending, c.endsAt) == MarkFailure(c.provider, err, c.endsAt);
        assert UsageAtEnd(ending) == None;
        hide *;
        QuietMarks(c, err, c.endsAt, id);
      case Finished(e) =>
        var good, won := Broke(c.provider, Breaker.Succeeded(c.endsAt)), Recorded(c.provider, true);
        var tokens := Tokens(c.provider, e.usage);
        TokensInform(c.provider, e.usage, id);
        assert InformsOne(c, false, e.usage, tokens, id) by { hide Calls, Tokens; }
        assert EndingEffects(c.provider, ending, c.endsAt) == [good] + tokens + [won];
        assert UsageAtEnd(ending) == e.usage;
        hide *;
        EffectInforms(c, good, id);
        EffectInforms(c, won, id);
        InformsTogether(c, false, false, None, e.usage, [good], tokens, id);
        InformsTogether(c, false, false, e.usage, None, [good] + tokens, [won], id);
    }
  }

  /** All effects of an attempt, its stream's end included. */
  ghost function WholeAttempt(c: Contender, v: Verdict): seq<Effect> {
    match v
    case Committed(info, buffered, rest) =>
      AttemptEffects(c, v)
      + EndingEffects(info.provider, EndingOf(info.provider, Consumed(buffered + Events(rest))), c.endsAt)
    case _ => AttemptEffects(c, v)
  }

  /** What the verdict on an attempt says it cost. */
  lemma SpentIs(req: Request, c: Contender, n: int)
    ensures var v := Judge(c, n, req.stream, req.gate);
            (v.Accepted? ==> v.answer.Drained?) && v.info.provider == c.provider &&
            Spent(req, c) == if v.Fell? then v.usage
                             else if v.Accepted? then v.answer.usage
                             else UsageAtEnd(EndingOf(c.provider, Consumed(v.buffered + Events(v.rest))))
  {
    var v := Judge(c, n, req.stream, req.gate);
    hide Peek, PeekEnd, Consumed, Drain, Evaluate, Events;
    if v.Committed? {
      var script := c.response.script;
      Requests.SplitInvisible(script);
      EventsOfArrivals(v.buffered);
      EventsAppend(Arrivals(v.buffered), v.rest);
      assert v.buffered + Events(v.rest) == Events(script);
    }
  }

  function UsageAtEnd(ending: Ending): Option<Usage> { if ending.Finished? then ending.last.usage else None }

  lemma AttemptInforms(req: Request, c: Contender, n: int, id: string)
    ensures InformsOne(c, true, Spent(req, c), WholeAttempt(c, Judge(c, n, req.stream, req.gate)), id)
  {
    var v := Judge(c, n, req.stream, req.gate);
    SpentIs(req, c, n);
    VerdictInforms(c, v, id);
    Whole(c, v);
    hide *;
    if v.Committed? {
      var ending := EndingOf(c.provider, Consumed(v.buffered + Events(v.rest)));
      EndingInforms(c, ending, id);
      InformsTogether(c, true, false, None, UsageAtEnd(ending),
                      AttemptEffects(c, v), EndingEffects(c.provider, ending, c.endsAt), id);
    }
  }

  lemma SumsNext(req: Request, c: Contender, tried: seq<Contender>, id: string)
    ensures LatenciesOf([c] + tried, id) == (if c.provider == id then [c.elapsed] else []) + LatenciesOf(tried, id)
    ensures var u := Spent(req, c);
            PromptsOf(req, [c] + tried, id)
            == (if c.provider == id && u.Some? then u.value.prompt else 0) + PromptsOf(req, tried, id) &&
            CompletionsOf(req, [c] + tried, id)
            == (if c.provider == id && u.Some? then u.value.completion else 0) + CompletionsOf(req, tried, id)
  {
    assert ([c] + tried)[1..] == tried;
    hide Spent;
  }

  lemma InformsNext(req: Request, c: Contender, tried: seq<Contender>, a: seq<Effect>, b: seq<Effect>, id: string)
    requires InformsOne(c, true, Spent(req, c), a, id) && Informs(req, tried, b, id)
    ensures Informs(req, [c] + tried, a + b, id)
  {
    InformsAppend(a, b, id);
    SumsNext(req, c, tried, id);
    hide Calls, Spent, LatenciesOf, PromptsOf, CompletionsOf;
    hide Telemetry.LatenciesFor, Telemetry.PromptsFor, Telemetry.CompletionsFor;
  }

  lemma NothingMore(req: Request, effects: seq<Effect>, id: string)
    requires effects == [] || effects == [Recorded("", false)]
    ensures Informs(req, [], effects, id)
  {
    OneInforms(Recorded("", false), id);
  }

  lemma {:induction false} InformsFrom(req: Request, ranked: seq<Contender>, i: nat, trail: seq<AttemptInfo>,
                                       usage: Usage, lastErr: Option<Failure>, id: string)
    requires i == |trail| <= |ranked|
    ensures var run := ServeFrom(req, ranked, i, trail, usage, lastErr);
            i <= |run.trail| <= |ranked| && Informs(req, ranked[i..|run.trail|], run.effects, id)
    decreases |ranked| - i
  {
    hide *;
    if i == |ranked| {
      Requests.NothingCommitted(req, ranked, trail, usage, lastErr);
      NothingMore(req, [Recorded("", false)], id);
      assert ranked[i..i] == [];
    } else {
      var c := ranked[i];
      var v := Requests.ServeNext(req, ranked, i, trail, usage, lastErr);
      AttemptInforms(req, c, i + 1, id);
      Whole(c, v);
      if v.Fell? {
        InformsFrom(req, ranked, i + 1, trail + [v.info], Plus(usage, v.usage), Some(v.err), id);
        var rest := ServeFrom(req, ranked, i + 1, trail + [v.info], Plus(usage, v.usage), Some(v.err));
        InformsNext(req, c, ranked[i + 1..|rest.trail|], AttemptEffects(c, v), rest.effects, id);
        assert ranked[i..|rest.trail|] == [c] + ranked[i + 1..|rest.trail|];
      } else {
        NothingMore(req, [], id);
        InformsNext(req, c, [], WholeAttempt(c, v), [], id);
        assert ranked[i..i + 1] == [c] + [] && WholeAttempt(c, v) + [] == WholeAttempt(c, v);
      }
    }
  }

  lemma Whole(c: Contender, v: Verdict)
    ensures WholeAttempt(c, v) ==
              if v.Committed? then
                var ending := EndingOf(v.info.provider, Consumed(v.buffered + Events(v.rest)));
                AttemptEffects(c, v) + EndingEffects(v.info.provider, ending, c.endsAt)
              else AttemptEffects(c, v)
  {
    hide AttemptEffects, EndingEffects, EndingOf, Consumed, Events;
  }

  /** Telemetry is told of every attempt's latency, once and in order, and of every token some provider reported for a
      drained answer or for a stream it finished. */
  lemma TelemetryIsTold(req: Request, ranked: seq<Contender>, id: string)
    ensures var run := Serve(req, ranked);
            |run.trail| <= |ranked| && Informs(req, ranked[..|run.trail|], run.effects, id)
  {
    InformsFrom(req, ranked, 0, [], NO_USAGE, None, id);
    var n := |Serve(req, ranked).trail|;
    assert ranked[0..n] == ranked[..n];
    hide Informs;
  }

  // ---------------------------------------------------------------- what the breakers are told

  function FailedAt(err: Failure, at: int): Breaker.History {
    if Classify(err).CountsAgainstBreaker() then [Breaker.Failed(at)] else []
  }

  /** What an attempt tells its provider's breaker. */
  ghost function Heard(req: Request, c: Contender): Breaker.History {
    match c.response
    case Refused(err) => FailedAt(err, c.at)
    case Streams(script) =>
      if req.stream then
        if !Peek(script).committed then [Breaker.Failed(c.at)]
        else
          var events := Consumed(Events(script));
          if events != [] && events[|events| - 1].err.Some? then FailedAt(events[|events| - 1].err.value, c.endsAt)
          else if events != [] && events[|events| - 1].done then [Breaker.Succeeded(c.endsAt)]
          else [Breaker.Failed(c.endsAt)]
      else match Drain(Events(script))
        case DrainError(err) => FailedAt(err, c.at)
        case Drained(content, toolCalls, _, _, saw) =>
          if Evaluate(req.gate, content, toolCalls, saw).accepted then [Breaker.Succeeded(c.at)]
          else [Breaker.Failed(c.at)]
  }

  ghost function HeardOf(req: Request, tried: seq<Contender>, id: string): Breaker.History {
    if tried == [] then []
    else (if tried[0].provider == id then Heard(req, tried[0]) else []) + HeardOf(req, tried[1..], id)
  }

  lemma EventsOfOne(e: Effect, id: string)
    ensures BreakerEvents([e], id) == if e.Broke? && e.id == id then [e.event] else []
  {
    assert [e][..0] == [];
  }

  lemma EventsOfThree(a: Effect, b: Effect, c: Effect, id: string)
    ensures BreakerEvents([a, b, c], id)
         == BreakerEvents([a], id) + BreakerEvents([b], id) + BreakerEvents([c], id)
  {
    Requests.EventsSplit([a], [b], id);
    Requests.EventsSplit([a] + [b], [c], id);
    assert [a] + [b] + [c] == [a, b, c];
  }

  lemma EventsOfTokens(provider: string, usage: Option<Usage>, id: string)
    ensures BreakerEvents(Tokens(provider, usage), id) == []
  {
    if usage.Some? { EventsOfOne(Tokens(provider, usage)[0], id); }
  }

  lemma EventsOfMarks(provider: string, err: Failure, now: int, id: string)
    ensures BreakerEvents(MarkFailure(provider, err, now), id) == if provider == id then FailedAt(err, now) else []
    ensures BreakerEvents(MarkRejection(provider, now), id) == if provider == id then [Breaker.Failed(now)] else []
  {
    var broke, told := Broke(provider, Breaker.Failed(now)), Told(Telemetry.Failure(provider));
    EventsOfOne(broke, id);
    EventsOfOne(told, id);
    Requests.EventsSplit([broke], [told], id);
    assert [broke] + [told] == [broke, told] && [] + [told] == [told];
    hide Classify;
  }

  /** What one verdict's effects tell the breaker. */
  ghost function VerdictHeard(c: Contender, v: Verdict): Breaker.History {
    match v
    case Fell(info, err, _) => if info.outcome == Error then FailedAt(err, c.at) else [Breaker.Failed(c.at)]
    case Committed(_, _, _) => []
    case Accepted(_, _) => [Breaker.Succeeded(c.at)]
  }

  /** Whatever surrounds the marks of a failed attempt says nothing to a breaker. */
  lemma OnlyMarksTell(c: Contender, usage: Option<Usage>, marks: seq<Effect>, id: string)
    ensures BreakerEvents([Told(Telemetry.Attempt(c.provider))]
                          + (Tokens(c.provider, usage) + marks + [Told(Telemetry.Latency(c.provider, c.elapsed))]), id)
         == BreakerEvents(marks, id)
  {
    var attempt, latency := Told(Telemetry.Attempt(c.provider)), Told(Telemetry.Latency(c.provider, c.elapsed));
    var tokens, heard := Tokens(c.provider, usage), BreakerEvents(marks, id);
    hide *;
    EventsOfOne(attempt, id);
    EventsOfOne(latency, id);
    EventsOfTokens(c.provider, usage, id);
    Requests.EventsSplit(tokens, marks, id);
    Requests.EventsSplit(tokens + marks, [latency], id);
    Requests.EventsSplit([attempt], tokens + marks + [latency], id);
    assert [] + ([] + heard + []) == heard;
  }

  lemma FellTells(c: Contender, v: Verdict, id: string)
    requires v.Fell?
    ensures BreakerEvents(AttemptEffects(c, v), id) == if c.provider == id then VerdictHeard(c, v) else []
  {
    FellIs(c, v);
    EventsOfMarks(c.provider, v.err, c.at, id);
    hide AttemptEffects, BreakerEvents, Tokens, MarkFailure, MarkRejection, FailedAt;
    OnlyMarksTell(c, v.usage, if v.info.outcome == Error then MarkFailure(c.provider, v.err, c.at)
                              else MarkRejection(c.provider, c.at), id);
  }

  lemma AcceptedTells(c: Contender, v: Verdict, id: string)
    requires v.Accepted? && v.answer.Drained?
    ensures BreakerEvents(AttemptEffects(c, v), id) == if c.provider == id then VerdictHeard(c, v) else []
  {
    var attempt, latency := Told(Telemetry.Attempt(c.provider)), Told(Telemetry.Latency(c.provider, c.elapsed));
    var good, won := Broke(c.provider, Breaker.Succeeded(c.at)), Recorded(c.provider, true);
    var tokens := Tokens(c.provider, v.answer.usage);
    assert AttemptEffects(c, v) == [attempt] + (tokens + [good, latency, won]);
    assert VerdictHeard(c, v) == [Breaker.Succeeded(c.at)];
    hide *;
    EventsOfOne(attempt, id);
    EventsOfOne(latency, id);
    EventsOfOne(good, id);
    EventsOfOne(won, id);
    EventsOfThree(good, latency, won, id);
    EventsOfTokens(c.provider, v.answer.usage, id);
    Requests.EventsSplit(tokens, [good, latency, won], id);
    Requests.EventsSplit([attempt], tokens + [good, latency, won], id);
  }

  lemma CommittedTells(c: Contender, v: Verdict, id: string)
    requires v.Committed?
    ensures BreakerEvents(AttemptEffects(c, v), id) == [] == VerdictHeard(c, v)
  {
    var attempt, latency := Told(Telemetry.Attempt(c.provider)), Told(Telemetry.Latency(c.provider, c.elapsed));
    assert AttemptEffects(c, v) == [attempt] + [latency] && VerdictHeard(c, v) == [];
    hide *;
    EventsOfOne(attempt, id);
    EventsOfOne(latency, id);
    Requests.EventsSplit([attempt], [latency], id);
  }

  lemma VerdictTells(c: Contender, v: Verdict, id: string)
    requires v.Accepted? ==> v.answer.Drained?
    ensures BreakerEvents(AttemptEffects(c, v), id) == if c.provider == id then VerdictHeard(c, v) else []
  {
    hide *;
    match v {
      case Fell(_, _, _) => FellTells(c, v, id);
      case Committed(_, _, _) => CommittedTells(c, v, id);
      case Accepted(_, _) => AcceptedTells(c, v, id);
    }
  }

  ghost function EndingHeard(c: Contender, ending: Ending): Breaker.History {
    match ending
    case Finished(_) => [Breaker.Succeeded(c.endsAt)]
    case Broken(err) => FailedAt(err, c.endsAt)
  }

  lemma EndingTells(c: Contender, ending: Ending, id: string)
    ensures BreakerEvents(EndingEffects(c.provider, ending, c.endsAt), id)
         == if c.provider == id then EndingHeard(c, ending) else []
  {
    hide BreakerEvents, Tokens, MarkFailure, FailedAt;
    match ending {
      case Broken(err) => EventsOfMarks(c.provider, err, c.endsAt, id);
      case Finished(e) =>
        var good, won := Broke(c.provider, Breaker.Succeeded(c.endsAt)), Recorded(c.provider, true);
        EventsOfOne(good, id);
        EventsOfOne(won, id);
        EventsOfTokens(c.provider, e.usage, id);
        Requests.EventsSplit([good], Tokens(c.provider, e.usage), id);
        Requests.EventsSplit([good] + Tokens(c.provider, e.usage), [won], id);
    }
  }

  lemma HeardIs(req: Request, c: Contender, n: int)
    ensures var v := Judge(c, n, req.stream, req.gate);
            (v.Accepted? ==> v.answer.Drained?) && v.info.provider == c.provider &&
            Heard(req, c) == if v.Committed?
                             then EndingHeard(c, EndingOf(c.provider, Consumed(v.buffered + Events(v.rest))))
                             else VerdictHeard(c, v)
  {
    var v := Judge(c, n, req.stream, req.gate);
    hide Peek, PeekEnd, Consumed, Drain, Evaluate, Events;
    if v.Committed? {
      var script := c.response.script;
      Requests.SplitInvisible(script);
      EventsOfArrivals(v.buffered);
      EventsAppend(Arrivals(v.buffered), v.rest);
      assert v.buffered + Events(v.rest) == Events(script);
    }
  }

  lemma AttemptTells(req: Request, c: Contender, n: int, id: string)
    ensures BreakerEvents(WholeAttempt(c, Judge(c, n, req.stream, req.gate)), id)
         == if c.provider == id then Heard(req, c) else []
  {
    var v := Judge(c, n, req.stream, req.gate);
    HeardIs(req, c, n);
    VerdictTells(c, v, id);
    Whole(c, v);
    assert v.Committed? ==> VerdictHeard(c, v) == [];
    hide *;
    if v.Committed? {
      var ending := EndingOf(c.provider, Consumed(v.buffered + Events(v.rest)));
      EndingTells(c, ending, id);
      Requests.EventsSplit(AttemptEffects(c, v), EndingEffects(c.provider, ending, c.endsAt), id);
    }
  }

  lemma HeardNext(req: Request, c: Contender, tried: seq<Contender>, id: string)
    ensures HeardOf(req, [c] + tried, id) == (if c.provider == id then Heard(req, c) else []) + HeardOf(req, tried, id)
  {
    assert ([c] + tried)[1..] == tried;
    hide Heard;
  }

  lemma {:induction false} BreakerIsToldFrom(req: Request, ranked: seq<Contender>, i: nat, trail: seq<AttemptInfo>,
                                             usage: Usage, lastErr: Option<Failure>, id: string)
    requires i == |trail| <= |ranked|
    ensures var run := ServeFrom(req, ranked, i, trail, usage, lastErr);
            i <= |run.trail| <= |ranked| &&
            BreakerEvents(run.effects, id) == HeardOf(req, ranked[i..|run.trail|], id)
    decreases |ranked| - i
  {
    hide *;
    if i == |ranked| {
      Requests.NothingCommitted(req, ranked, trail, usage, lastErr);
      EventsOfOne(Recorded("", false), id);
      NobodyHeard(req, id);
      assert ranked[i..i] == [];
    } else {
      var c := ranked[i];
      var v := Requests.ServeNext(req, ranked, i, trail, usage, lastErr);
      AttemptTells(req, c, i + 1, id);
      Whole(c, v);
      if v.Fell? {
        BreakerIsToldFrom(req, ranked, i + 1, trail + [v.info], Plus(usage, v.usage), Some(v.err), id);
        var rest := ServeFrom(req, ranked, i + 1, trail + [v.info], Plus(usage, v.usage), Some(v.err));
        Requests.EventsSplit(AttemptEffects(c, v), rest.effects, id);
        HeardNext(req, c, ranked[i + 1..|rest.trail|], id);
        assert ranked[i..|rest.trail|] == [c] + ranked[i + 1..|rest.trail|];
      } else {
        HeardNext(req, c, [], id);
        NobodyHeard(req, id);
        assert ranked[i..i + 1] == [c] + [];
      }
    }
  }

  lemma NobodyHeard(req: Request, id: string)
    ensures HeardOf(req, [], id) == []
  {
  }

  /** A provider's breaker is told of its attempts in the order they were made, each when it failed or ended: of a
      success, of a failure that counts, of any failure to commit, or of nothing. */
  lemma BreakerIsTold(req: Request, ranked: seq<Contender>, id: string)
    ensures var run := Serve(req, ranked);
            |run.trail| <= |ranked| && BreakerEvents(run.effects, id) == HeardOf(req, ranked[..|run.trail|], id)
  {
    BreakerIsToldFrom(req, ranked, 0, [], NO_USAGE, None, id);
    var n := |Serve(req, ranked).trail|;
    assert ranked[0..n] == ranked[..n];
    hide HeardOf, BreakerEvents;
  }
}
