/** Accounts: a request's trail, its effects on the registries and the router's memory agree, and
    they keep agreeing while requests run concurrently (internal/server/chat.go,
    internal/telemetry/telemetry.go). */
module Accounting {
  import opened Options
  import opened OpenAI
  import opened Streaming
  import opened Gateway
  import Requests
  import Breaker
  import Telemetry

  // ---------------------------------------------------------------- one request's accounts

  /** The accounts kept of one provider. */
  datatype Account = Attempts | Failures | Wins | BreakerFailures | BreakerSuccesses

  function One(b: bool): int { if b then 1 else 0 }

  predicate Books(e: Effect, k: Account, id: string) {
    match k
    case Attempts => e == Told(Telemetry.Attempt(id))
    case Failures => e == Told(Telemetry.Failure(id))
    case Wins => e == Recorded(id, true)
    case BreakerFailures => e.Broke? && e.id == id && e.event.Failed?
    case BreakerSuccesses => e.Broke? && e.id == id && e.event.Succeeded?
  }

  /** How often effects book k for id. */
  function Booked(effects: seq<Effect>, k: Account, id: string): int {
    if effects == [] then 0 else Booked(effects[..|effects| - 1], k, id) + One(Books(effects[|effects| - 1], k, id))
  }

  /** Whether a settled attempt of id's should have been booked under k. */
  predicate Due(info: AttemptInfo, k: Account, id: string) {
    info.provider == id &&
    match k
    case Attempts => true
    case Failures => !info.ok
    case Wins => info.ok
    case BreakerFailures => !info.ok && info.class_.CountsAgainstBreaker()
    case BreakerSuccesses => info.ok
  }

  function TrailDue(trail: seq<AttemptInfo>, k: Account, id: string): int {
    if trail == [] then 0 else TrailDue(trail[..|trail| - 1], k, id) + One(Due(trail[|trail| - 1], k, id))
  }

  lemma {:induction false} BookedAppend(a: seq<Effect>, b: seq<Effect>, k: Account, id: string)
    ensures Booked(a + b, k, id) == Booked(a, k, id) + Booked(b, k, id)
  {
    if b == [] {
      assert a + b == a;
    } else {
      assert (a + b)[..|a + b| - 1] == a + b[..|b| - 1];
      BookedAppend(a, b[..|b| - 1], k, id);
    }
  }

  lemma BookedOne(e: Effect, k: Account, id: string)
    ensures Booked([e], k, id) == One(Books(e, k, id))
  {
    assert [e][..0] == [];
  }

  lemma BookedPair(x: Effect, y: Effect, k: Account, id: string)
    ensures Booked([x, y], k, id) == One(Books(x, k, id)) + One(Books(y, k, id))
  {
    hide *;
    BookedOne(x, k, id);
    BookedOne(y, k, id);
    BookedAppend([x], [y], k, id);
    assert [x, y] == [x] + [y];
  }

  lemma BookedTokens(p: string, usage: Option<Usage>, k: Account, id: string)
    ensures Booked(Tokens(p, usage), k, id) == 0
  {
    if usage.Some? { BookedOne(Tokens(p, usage)[0], k, id); }
  }

  lemma BookedFailure(p: string, err: Failure, now: int, k: Account, id: string)
    ensures Booked(MarkFailure(p, err, now), k, id) ==
            One(p == id && (k == Failures || (k == BreakerFailures && Classify(err).CountsAgainstBreaker())))
  {
    hide Booked, Classify;
    var x, y := Broke(p, Breaker.Failed(now)), Told(Telemetry.Failure(p));
    BookedOne(y, k, id);
    BookedPair(x, y, k, id);
    assert [x] + [y] == [x, y];
    assert [] + [y] == [y];
  }

  lemma BookedRejection(p: string, now: int, k: Account, id: string)
    ensures Booked(MarkRejection(p, now), k, id) == One(p == id && (k == Failures || k == BreakerFailures))
  {
    hide Booked;
    BookedPair(Broke(p, Breaker.Failed(now)), Told(Telemetry.Failure(p)), k, id);
  }

  lemma BookedWin(p: string, now: int, between: seq<Effect>, k: Account, id: string)
    requires Booked(between, k, id) == 0
    ensures Booked([Broke(p, Breaker.Succeeded(now))] + between + [Recorded(p, true)], k, id) ==
            One(p == id && (k == Wins || k == BreakerSuccesses))
  {
    hide Booked;
    var x, z := Broke(p, Breaker.Succeeded(now)), Recorded(p, true);
    BookedOne(x, k, id);
    BookedOne(z, k, id);
    BookedAppend([x] + between, [z], k, id);
    BookedAppend([x], between, k, id);
  }

  /** An attempt that fell through or was accepted is booked as its trail entry says. */
  lemma AttemptBooked(c: Contender, n: int, stream: bool, gate: GateConfig, k: Account, id: string)
    ensures var v := Judge(c, n, stream, gate);
            v.info.provider == c.provider &&
            Booked(AttemptEffects(c, v), k, id) ==
              One(if v.Committed? then c.provider == id && k == Attempts else Due(v.info, k, id))
  {
    var v := Judge(c, n, stream, gate);
    JudgeShape(c, n, stream, gate);
    SettlementBooked(c, v, k, id);
    var asked := Told(Telemetry.Attempt(c.provider));
    BookedOne(asked, k, id);
    BookedAppend([asked], Settlement(c, v), k, id);
    hide Booked, Judge, Settlement, Classify;
  }

  lemma JudgeShape(c: Contender, n: int, stream: bool, gate: GateConfig)
    ensures var v := Judge(c, n, stream, gate);
            v.info.provider == c.provider && v.info.attempt == n && v.info.score == c.score &&
            match v
            case Fell(info, err, _) =>
              !info.ok && info.class_ == if info.outcome == Error then Classify(err) else ContentRejected
            case Committed(_, _, _) => !v.info.ok
            case Accepted(info, answer) => info.ok && answer.Drained?
  {
    hide Classify, Peek, PeekEnd, Drain, Evaluate, Events;
  }

  /** What an attempt's effects book beyond the attempt itself. */
  predicate SettledAs(v: Verdict, k: Account) {
    match v
    case Fell(info, err, _) =>
      k == Failures || (k == BreakerFailures && (info.outcome != Error || Classify(err).CountsAgainstBreaker()))
    case Committed(_, _, _) => false
    case Accepted(_, _) => k == Wins || k == BreakerSuccesses
  }

  lemma SettlementBooked(c: Contender, v: Verdict, k: Account, id: string)
    requires v.Accepted? ==> v.answer.Drained?
    ensures Booked(Settlement(c, v), k, id) == One(c.provider == id && SettledAs(v, k))
  {
    hide Booked, MarkFailure, MarkRejection, Tokens, Classify;
    var p, timed := c.provider, Told(Telemetry.Latency(c.provider, c.elapsed));
    BookedOne(timed, k, id);
    match v {
      case Fell(info, err, usage) =>
        var mark := if info.outcome == Error then MarkFailure(p, err, c.at) else MarkRejection(p, c.at);
        BookedFailure(p, err, c.at, k, id);
        BookedRejection(p, c.at, k, id);
        BookedTokens(p, usage, k, id);
        BookedAppend(Tokens(p, usage) + mark, [timed], k, id);
        BookedAppend(Tokens(p, usage), mark, k, id);
      case Committed(_, _, _) =>
      case Accepted(info, answer) =>
        var won := [Broke(p, Breaker.Succeeded(c.at)), timed, Recorded(p, true)];
        BookedWin(p, c.at, [timed], k, id);
        assert won == [Broke(p, Breaker.Succeeded(c.at))] + [timed] + [Recorded(p, true)];
        BookedTokens(p, answer.usage, k, id);
        BookedAppend(Tokens(p, answer.usage), won, k, id);
    }
  }

  /** The ending of a committed stream completes its booking. */
  lemma EndingBooked(pending: AttemptInfo, ending: Ending, now: int, k: Account, id: string)
    ensures One(pending.provider == id && k == Attempts)
            + Booked(EndingEffects(pending.provider, ending, now), k, id) == One(Due(Finalized(pending, ending), k, id))
  {
    hide Booked, MarkFailure, Tokens, Classify;
    match ending {
      case Broken(err) => BookedFailure(pending.provider, err, now, k, id);
      case Finished(e) =>
        BookedTokens(pending.provider, e.usage, k, id);
        BookedWin(pending.provider, now, Tokens(pending.provider, e.usage), k, id);
    }
  }

  /** Telemetry, the breakers and the router are told exactly what the trail shows, provider by
      provider: as many requests as attempts, a failure for each attempt that is not ok, one recorded
      win and one breaker success for an ok one, and a breaker failure exactly for the classes that
      count. */
  lemma TrailIsBooked(req: Request, ranked: seq<Contender>, k: Account, id: string)
    ensures Booked(Serve(req, ranked).effects, k, id) == TrailDue(Serve(req, ranked).trail, k, id)
  {
    BookedFrom(req, ranked, 0, [], NO_USAGE, None, k, id);
    assert TrailDue([], k, id) == 0;
    hide ServeFrom, Booked, TrailDue;
  }

  lemma {:induction false} BookedFrom(req: Request, ranked: seq<Contender>, i: nat, trail: seq<AttemptInfo>,
                                      usage: Usage, lastErr: Option<Failure>, k: Account, id: string)
    requires i <= |ranked|
    ensures var run := ServeFrom(req, ranked, i, trail, usage, lastErr);
            TrailDue(trail, k, id) + Booked(run.effects, k, id) == TrailDue(run.trail, k, id)
    decreases |ranked| - i
  {
    hide ServeFrom, Judge, AttemptEffects, EndingEffects, Booked, Due, TrailDue, EndingOf, Consumed, Events, Finalized;
    if i == |ranked| {
      Requests.NothingCommitted(req, ranked, trail, usage, lastErr);
      BookedOne(Recorded("", false), k, id);
    } else {
      var v := Requests.ServeNext(req, ranked, i, trail, usage, lastErr);
      var effects := AttemptEffects(ranked[i], v);
      AttemptBooked(ranked[i], i + 1, req.stream, req.gate, k, id);
      match v {
        case Fell(info, err, used) =>
          var rest := ServeFrom(req, ranked, i + 1, trail + [info], Gateway.Plus(usage, used), Some(err));
          BookedFrom(req, ranked, i + 1, trail + [info], Gateway.Plus(usage, used), Some(err), k, id);
          BookedAppend(effects, rest.effects, k, id);
          TrailDueNext(trail, info, k, id);
        case Committed(info, buffered, rest) =>
          var ending := EndingOf(info.provider, Consumed(buffered + Events(rest)));
          EndingBooked(info, ending, ranked[i].endsAt, k, id);
          BookedAppend(effects, EndingEffects(info.provider, ending, ranked[i].endsAt), k, id);
          TrailDueNext(trail, Finalized(info, ending), k, id);
        case Accepted(info, answer) =>
          TrailDueNext(trail, info, k, id);
      }
    }
  }

  lemma TrailDueNext(trail: seq<AttemptInfo>, info: AttemptInfo, k: Account, id: string)
    ensures TrailDue(trail + [info], k, id) == TrailDue(trail, k, id) + One(Due(info, k, id))
  {
    assert (trail + [info])[..|trail|] == trail;
  }

  // ---------------------------------------------------------------- the trail

  /** The trail numbers a prefix of the ranking and nobody but its last entry succeeded. */
  predicate Numbered(ranked: seq<Contender>, trail: seq<AttemptInfo>) {
    && |trail| <= |ranked|
    && (forall j | 0 <= j < |trail| ::
          trail[j].provider == ranked[j].provider && trail[j].score == ranked[j].score && trail[j].attempt == j + 1)
    && (forall j | 0 <= j < |trail| - 1 :: !trail[j].ok)
  }

  predicate WonBy(trail: seq<AttemptInfo>, id: string) {
    trail != [] && trail[|trail| - 1].ok && trail[|trail| - 1].provider == id
  }

  /** Each request's trail is a numbered prefix of its ranking with a success only in last place, and the
      router hears of a win at most once, and exactly when that last entry is the winner's success. */
  lemma TrailIsTruthful(req: Request, ranked: seq<Contender>, id: string)
    ensures Numbered(ranked, Serve(req, ranked).trail)
    ensures Booked(Serve(req, ranked).effects, Wins, id) == One(WonBy(Serve(req, ranked).trail, id))
  {
    hide ServeFrom, Booked;
    NumberedFrom(req, ranked, 0, [], NO_USAGE, None);
    TrailIsBooked(req, ranked, Wins, id);
    WinsInTrail(Serve(req, ranked).trail, id);
  }

  lemma {:induction false} NumberedFrom(req: Request, ranked: seq<Contender>, i: nat, trail: seq<AttemptInfo>,
                                        usage: Usage, lastErr: Option<Failure>)
    requires i == |trail| <= |ranked| && Numbered(ranked, trail) && forall j | 0 <= j < i :: !trail[j].ok
    ensures Numbered(ranked, ServeFrom(req, ranked, i, trail, usage, lastErr).trail)
    decreases |ranked| - i
  {
    hide ServeFrom, Judge, AttemptEffects, EndingEffects, EndingOf, Consumed, Events;
    if i == |ranked| {
      Requests.NothingCommitted(req, ranked, trail, usage, lastErr);
    } else {
      var v := Requests.ServeNext(req, ranked, i, trail, usage, lastErr);
      JudgeShape(ranked[i], i + 1, req.stream, req.gate);
      if v.Fell? {
        NumberedFrom(req, ranked, i + 1, trail + [v.info], Plus(usage, v.usage), Some(v.err));
      }
    }
  }

  lemma {:induction false} WinsInTrail(trail: seq<AttemptInfo>, id: string)
    requires forall j | 0 <= j < |trail| - 1 :: !trail[j].ok
    ensures TrailDue(trail, Wins, id) == One(WonBy(trail, id))
  {
    if trail != [] { WinsInTrail(trail[..|trail| - 1], id); }
  }

  // ---------------------------------------------------------------- attempts in flight

  /** Whether a request has an attempt in flight: told to telemetry, neither failed nor won yet. */
  datatype Flight = Grounded | Flying(id: string) | Confused

  function Fly(f: Flight, e: Effect): Flight {
    match e
    case Told(call) =>
      if call.Attempt? then (if f == Grounded then Flying(call.id) else Confused)
      else if call.Failure? then (if f == Flying(call.id) then Grounded else Confused)
      else f
    case Recorded(winner, ok) => if !ok then f else if f == Flying(winner) then Grounded else Confused
    case Broke(_, _) => f
  }

  function FlyAll(f: Flight, effects: seq<Effect>): Flight {
    if effects == [] then f else Fly(FlyAll(f, effects[..|effects| - 1]), effects[|effects| - 1])
  }

  predicate Neutral(e: Effect) {
    e.Broke? || (e.Told? && (e.call.Tokens? || e.call.Latency?)) || (e.Recorded? && !e.ok)
  }

  lemma {:induction false} FlyAppend(f: Flight, a: seq<Effect>, b: seq<Effect>)
    ensures FlyAll(f, a + b) == FlyAll(FlyAll(f, a), b)
  {
    if b == [] {
      assert a + b == a;
    } else {
      assert (a + b)[..|a + b| - 1] == a + b[..|b| - 1];
      FlyAppend(f, a, b[..|b| - 1]);
    }
  }

  lemma {:induction false} FlyNeutral(f: Flight, effects: seq<Effect>)
    requires forall i | 0 <= i < |effects| :: Neutral(effects[i])
    ensures FlyAll(f, effects) == f
  {
    if effects != [] { FlyNeutral(f, effects[..|effects| - 1]); }
  }

  /** A single landing or take-off between neutral effects. */
  lemma FlyOnce(f: Flight, a: seq<Effect>, e: Effect, b: seq<Effect>)
    requires forall i | 0 <= i < |a| :: Neutral(a[i])
    requires forall i | 0 <= i < |b| :: Neutral(b[i])
    ensures FlyAll(f, a + [e] + b) == Fly(f, e)
  {
    FlyAppend(f, a + [e], b);
    FlyNeutral(Fly(f, e), b);
    FlyAppend(f, a, [e]);
    FlyNeutral(f, a);
    assert [e][..0] == [];
  }

  lemma AttemptFlies(c: Contender, n: int, stream: bool, gate: GateConfig)
    ensures var v := Judge(c, n, stream, gate);
            FlyAll(Grounded, AttemptEffects(c, v)) == if v.Committed? then Flying(c.provider) else Grounded
  {
    var v, p := Judge(c, n, stream, gate), c.provider;
    JudgeShape(c, n, stream, gate);
    hide FlyAll, Judge, Classify;
    var asked := Told(Telemetry.Attempt(p));
    FlyOnce(Grounded, [], asked, []);
    assert [] + [asked] + [] == [asked];
    FlyAppend(Grounded, [asked], Settlement(c, v));
    SettlementLands(c, v);
  }

  lemma SettlementLands(c: Contender, v: Verdict)
    requires v.Accepted? ==> v.answer.Drained?
    ensures FlyAll(Flying(c.provider), Settlement(c, v)) == if v.Committed? then Flying(c.provider) else Grounded
  {
    var p, late := c.provider, [Told(Telemetry.Latency(c.provider, c.elapsed))];
    assert Neutral(late[0]);
    FlyNeutral(Flying(p), late);
    FlyNeutral(Grounded, late);
    hide *;
    match v {
      case Fell(info, err, usage) =>
        FellIs(c, info, err, usage);
        MarksLand(p, err, c.at);
        var marks := if info.outcome == Error then MarkFailure(p, err, c.at) else MarkRejection(p, c.at);
        FlyAppend(Flying(p), Tokens(p, usage) + marks, late);
        FlyAppend(Flying(p), Tokens(p, usage), marks);
        FlyTokens(Flying(p), p, usage);
      case Committed(info, buffered, rest) => CommittedIs(c, info, buffered, rest);
      case Accepted(info, answer) => AcceptedLands(c, info, answer);
    }
  }

  lemma FellIs(c: Contender, info: AttemptInfo, err: Failure, usage: Option<Usage>)
    ensures Settlement(c, Fell(info, err, usage)) ==
            Tokens(c.provider, usage) +
            (if info.outcome == Error then MarkFailure(c.provider, err, c.at) else MarkRejection(c.provider, c.at)) +
            [Told(Telemetry.Latency(c.provider, c.elapsed))]
  {
    hide Tokens, MarkFailure, MarkRejection;
  }

  lemma CommittedIs(c: Contender, info: AttemptInfo, buffered: seq<Event>, rest: Script)
    ensures Settlement(c, Committed(info, buffered, rest)) == [Told(Telemetry.Latency(c.provider, c.elapsed))]
  {
  }

  lemma FlyTokens(f: Flight, p: string, usage: Option<Usage>)
    ensures FlyAll(f, Tokens(p, usage)) == f
  {
    FlyNeutral(f, Tokens(p, usage));
  }

  lemma MarksLand(p: string, err: Failure, now: int)
    ensures FlyAll(Flying(p), MarkFailure(p, err, now)) == Grounded
    ensures FlyAll(Flying(p), MarkRejection(p, now)) == Grounded
  {
    hide FlyAll, Classify;
    var landed, broke := Told(Telemetry.Failure(p)), [Broke(p, Breaker.Failed(now))];
    FlyOnce(Flying(p), [], landed, []);
    FlyOnce(Flying(p), broke, landed, []);
    assert [] + [landed] + [] == [landed] == [] + [landed] && broke + [landed] + [] == broke + [landed];
    assert MarkRejection(p, now) == broke + [landed];
  }

  lemma AcceptedLands(c: Contender, info: AttemptInfo, answer: Drained)
    requires answer.Drained?
    ensures FlyAll(Flying(c.provider), Settlement(c, Accepted(info, answer))) == Grounded
  {
    var p := c.provider;
    var middle := [Broke(p, Breaker.Succeeded(c.at)), Told(Telemetry.Latency(p, c.elapsed))];
    hide FlyAll;
    FlyNeutral(Flying(p), middle);
    FlyOnce(Flying(p), middle, Recorded(p, true), []);
    assert Settlement(c, Accepted(info, answer)) == Tokens(p, answer.usage) + (middle + [Recorded(p, true)] + []);
    FlyTokens(Flying(p), p, answer.usage);
    hide Tokens;
    FlyAppend(Flying(p), Tokens(p, answer.usage), middle + [Recorded(p, true)] + []);
  }

  lemma EndingLands(p: string, ending: Ending, now: int)
    ensures FlyAll(Flying(p), EndingEffects(p, ending, now)) == Grounded
  {
    hide FlyAll, Classify;
    match ending {
      case Broken(err) =>
        var marks := MarkFailure(p, err, now);
        assert marks == marks[..|marks| - 1] + [Told(Telemetry.Failure(p))] + [];
        FlyOnce(Flying(p), marks[..|marks| - 1], Told(Telemetry.Failure(p)), []);
      case Finished(e) =>
        var before := [Broke(p, Breaker.Succeeded(now))] + Tokens(p, e.usage);
        assert before + [Recorded(p, true)] == before + [Recorded(p, true)] + [];
        FlyOnce(Flying(p), before, Recorded(p, true), []);
    }
  }

  /** A request has at most one attempt in flight at any time, and none when it ends. */
  lemma {:induction false} RequestLands(req: Request, ranked: seq<Contender>, i: nat, trail: seq<AttemptInfo>,
                                        usage: Usage, lastErr: Option<Failure>)
    requires i <= |ranked|
    ensures FlyAll(Grounded, ServeFrom(req, ranked, i, trail, usage, lastErr).effects) == Grounded
    decreases |ranked| - i
  {
    hide ServeFrom, Judge, AttemptEffects, EndingEffects, EndingOf, Consumed, Events, FlyAll;
    if i == |ranked| {
      Requests.NothingCommitted(req, ranked, trail, usage, lastErr);
      FlyNeutral(Grounded, [Recorded("", false)]);
    } else {
      var c := ranked[i];
      var v := Requests.ServeNext(req, ranked, i, trail, usage, lastErr);
      var effects := AttemptEffects(c, v);
      AttemptFlies(c, i + 1, req.stream, req.gate);
      JudgeShape(c, i + 1, req.stream, req.gate);
      match v {
        case Fell(info, err, used) =>
          RequestLands(req, ranked, i + 1, trail + [info], Plus(usage, used), Some(err));
          FlyAppend(Grounded, effects,
                    ServeFrom(req, ranked, i + 1, trail + [info], Plus(usage, used), Some(err)).effects);
        case Committed(info, buffered, rest) =>
          var ending := EndingOf(info.provider, Consumed(buffered + Events(rest)));
          EndingLands(c.provider, ending, c.endsAt);
          FlyAppend(Grounded, effects, EndingEffects(info.provider, ending, c.endsAt));
        case Accepted(_, _) =>
      }
    }
  }

  /** Attempts told so far are failures, wins, or the one in flight. */
  lemma {:induction false} InFlightBalance(effects: seq<Effect>, id: string)
    requires FlyAll(Grounded, effects) != Confused
    ensures Booked(effects, Attempts, id) ==
            Booked(effects, Failures, id) + Booked(effects, Wins, id) + One(FlyAll(Grounded, effects) == Flying(id))
  {
    if effects != [] { InFlightBalance(effects[..|effects| - 1], id); }
  }

  lemma {:induction false} NeverConfused(effects: seq<Effect>, prefix: seq<Effect>)
    requires prefix <= effects && FlyAll(Grounded, effects) != Confused
    ensures FlyAll(Grounded, prefix) != Confused
  {
    FlyAppend(Grounded, prefix, effects[|prefix|..]);
    assert prefix + effects[|prefix|..] == effects;
    if FlyAll(Grounded, prefix) == Confused { StaysConfused(effects[|prefix|..]); }
  }

  lemma {:induction false} StaysConfused(effects: seq<Effect>)
    ensures FlyAll(Confused, effects) == Confused
  {
    if effects != [] { StaysConfused(effects[..|effects| - 1]); }
  }

  // ---------------------------------------------------------------- concurrent requests

  /** A step of an interleaving: request job performs its next effect. */
  datatype Step = Step(job: nat, effect: Effect)

  function Effects(steps: seq<Step>): seq<Effect> {
    if steps == [] then [] else Effects(steps[..|steps| - 1]) + [steps[|steps| - 1].effect]
  }

  /** What request i has performed so far. */
  function PerformedBy(steps: seq<Step>, i: nat): seq<Effect> {
    if steps == [] then []
    else PerformedBy(steps[..|steps| - 1], i) +
         (if steps[|steps| - 1].job == i then [steps[|steps| - 1].effect] else [])
  }

  datatype Job = Job(req: Request, ranked: seq<Contender>)
  {
    /** Everything the request will do to the registries. */
    function Plan(): seq<Effect> { Serve(req, ranked).effects }
  }

  lemma PlanLands(job: Job)
    ensures FlyAll(Grounded, job.Plan()) == Grounded
  {
    hide FlyAll, ServeFrom;
    RequestLands(job.req, job.ranked, 0, [], NO_USAGE, None);
  }

  /** Any moment of any concurrent execution: every request has performed some prefix of its effects. */
  ghost predicate Interleaves(jobs: seq<Job>, steps: seq<Step>) {
    && (forall s | s in steps :: s.job < |jobs|)
    && (forall i | 0 <= i < |jobs| :: PerformedBy(steps, i) <= jobs[i].Plan())
  }

  /** How many of the first n requests have an attempt at id in flight. */
  function InFlight(steps: seq<Step>, n: nat, id: string): int {
    if n == 0 then 0 else InFlight(steps, n - 1, id) + One(FlyAll(Grounded, PerformedBy(steps, n - 1)) == Flying(id))
  }

  /** The accounts of all requests' steps add up to the shared account. */
  function Total(steps: seq<Step>, n: nat, k: Account, id: string): int {
    if n == 0 then 0 else Total(steps, n - 1, k, id) + Booked(PerformedBy(steps, n - 1), k, id)
  }

  lemma {:induction false} TotalStep(steps: seq<Step>, s: Step, n: nat, k: Account, id: string)
    ensures Total(steps + [s], n, k, id) == Total(steps, n, k, id) + One(s.job < n && Books(s.effect, k, id))
  {
    hide Booked, Books, PerformedBy, Total, InFlight;
    FleetStart(steps, id);
    FleetStart(steps + [s], id);
    if n > 0 {
      var done := PerformedBy(steps, n - 1);
      PerformedNext(steps, s, n - 1);
      FleetSteps(steps, n - 1, k, id);
      FleetSteps(steps + [s], n - 1, k, id);
      TotalStep(steps, s, n - 1, k, id);
      BookedAppend(done, [s.effect], k, id);
      BookedOne(s.effect, k, id);
    }
  }

  lemma PerformedNext(steps: seq<Step>, s: Step, i: nat)
    ensures PerformedBy(steps + [s], i)
         == if s.job == i then PerformedBy(steps, i) + [s.effect] else PerformedBy(steps, i)
  {
    assert (steps + [s])[..|steps|] == steps;
  }

  lemma {:induction false} TotalZero(n: nat, k: Account, id: string)
    ensures Total([], n, k, id) == 0
  {
    if n > 0 { TotalZero(n - 1, k, id); }
  }

  lemma {:induction false} SharedIsTotal(steps: seq<Step>, n: nat, k: Account, id: string)
    requires forall s | s in steps :: s.job < n
    ensures Booked(Effects(steps), k, id) == Total(steps, n, k, id)
  {
    if steps == [] {
      TotalZero(n, k, id);
    } else {
      var front, s := steps[..|steps| - 1], steps[|steps| - 1];
      assert steps == front + [s] && s in steps;
      SharedIsTotal(front, n, k, id);
      TotalStep(front, s, n, k, id);
      BookedAppend(Effects(front), [s.effect], k, id);
      BookedOne(s.effect, k, id);
      hide Booked, Books, Total;
    }
  }

  lemma FleetSteps(steps: seq<Step>, n: nat, k: Account, id: string)
    ensures InFlight(steps, n + 1, id)
         == InFlight(steps, n, id) + One(FlyAll(Grounded, PerformedBy(steps, n)) == Flying(id))
    ensures Total(steps, n + 1, k, id) == Total(steps, n, k, id) + Booked(PerformedBy(steps, n), k, id)
  {
  }

  lemma {:induction false} FleetBalance(jobs: seq<Job>, steps: seq<Step>, n: nat, id: string)
    requires Interleaves(jobs, steps) && n <= |jobs|
    ensures Total(steps, n, Attempts, id) ==
            Total(steps, n, Failures, id) + Total(steps, n, Wins, id) + InFlight(steps, n, id)
    ensures 0 <= InFlight(steps, n, id) && 0 <= Total(steps, n, Failures, id) && 0 <= Total(steps, n, Wins, id)
  {
    hide *;
    if n == 0 {
      FleetStart(steps, id);
    } else {
      var done := PerformedBy(steps, n - 1);
      FleetBalance(jobs, steps, n - 1, id);
      FleetSteps(steps, n - 1, Attempts, id);
      FleetSteps(steps, n - 1, Failures, id);
      FleetSteps(steps, n - 1, Wins, id);
      MemberBalance(jobs, steps, n - 1, id);
    }
  }

  lemma FleetStart(steps: seq<Step>, id: string)
    ensures InFlight(steps, 0, id) == 0 && forall k :: Total(steps, 0, k, id) == 0
  {
  }

  lemma MemberBalance(jobs: seq<Job>, steps: seq<Step>, i: nat, id: string)
    requires Interleaves(jobs, steps) && i < |jobs|
    ensures var done := PerformedBy(steps, i);
            var flying := One(FlyAll(Grounded, done) == Flying(id));
            Booked(done, Attempts, id) == Booked(done, Failures, id) + Booked(done, Wins, id) + flying &&
            0 <= flying && 0 <= Booked(done, Failures, id) && 0 <= Booked(done, Wins, id)
  {
    hide FlyAll, Booked, PerformedBy, Job.Plan;
    var done := PerformedBy(steps, i);
    PlanLands(jobs[i]);
    NeverConfused(jobs[i].Plan(), done);
    InFlightBalance(done, id);
    BookedNatural(done, Failures, id);
    BookedNatural(done, Wins, id);
  }

  lemma {:induction false} BookedNatural(effects: seq<Effect>, k: Account, id: string)
    ensures Booked(effects, k, id) >= 0
  {
    if effects != [] { BookedNatural(effects[..|effects| - 1], k, id); }
  }

  /** The shared counters' reading of an account. */
  lemma {:induction false} CountersAreBooked(effects: seq<Effect>, id: string)
    ensures var c := Telemetry.CountersAfter(Calls(effects), id);
            c.requests == Booked(effects, Attempts, id) && c.failures == Booked(effects, Failures, id)
  {
    if effects == [] {
      assert Telemetry.CountersAfter(Calls(effects), id) == Telemetry.ZERO;
    } else {
      var front, e := effects[..|effects| - 1], effects[|effects| - 1];
      CountersAreBooked(front, id);
      assert Booked(effects, Attempts, id) == Booked(front, Attempts, id) + One(Books(e, Attempts, id));
      assert Booked(effects, Failures, id) == Booked(front, Failures, id) + One(Books(e, Failures, id));
      if e.Told? {
        assert Calls(effects) == Calls(front) + [e.call];
        hide Booked, Calls;
        CountersNext(Calls(front), e.call, id);
      } else {
        assert Calls(effects) == Calls(front);
      }
    }
  }

  lemma CountersNext(calls: seq<Telemetry.Call>, call: Telemetry.Call, id: string)
    ensures Telemetry.CountersAfter(calls + [call], id) ==
            var c := Telemetry.CountersAfter(calls, id);
            if call.id == id then Telemetry.Apply(c, call) else c
  {
    assert (calls + [call])[..|calls|] == calls;
  }

  /** At every moment of every interleaving of concurrent requests, each provider's request counter is its
      failures plus its wins plus its attempts in flight; so a snapshot's success rate is a rate. */
  lemma CountersBalance(jobs: seq<Job>, steps: seq<Step>, id: string)
    requires Interleaves(jobs, steps)
    ensures var c := Telemetry.CountersAfter(Calls(Effects(steps)), id);
            c.requests == c.failures + Booked(Effects(steps), Wins, id) + InFlight(steps, |jobs|, id) &&
            0 <= c.failures <= c.requests && 0.0 <= Telemetry.StatsOf(c).successRate <= 1.0
  {
    hide Booked, Total, InFlight, Telemetry.CountersAfter, Effects, PerformedBy, ServeFrom;
    CountersAreBooked(Effects(steps), id);
    FleetBalance(jobs, steps, |jobs|, id);
    SharedIsTotal(steps, |jobs|, Attempts, id);
    SharedIsTotal(steps, |jobs|, Failures, id);
    SharedIsTotal(steps, |jobs|, Wins, id);
    var c := Telemetry.CountersAfter(Calls(Effects(steps)), id);
    if c.requests > 0 { Telemetry.RateInRange(c); }
  }

  /** When no request is under way every attempt has been booked as a failure or a win. */
  lemma {:induction false} QuietMeansSettled(jobs: seq<Job>, steps: seq<Step>, n: nat, id: string)
    requires n <= |jobs| && forall i | 0 <= i < |jobs| :: PerformedBy(steps, i) == jobs[i].Plan()
    ensures InFlight(steps, n, id) == 0
  {
    hide *;
    FleetStart(steps, id);
    if n > 0 {
      FleetSteps(steps, n - 1, Attempts, id);
      QuietMeansSettled(jobs, steps, n - 1, id);
      PlanLands(jobs[n - 1]);
      NotFlying(id);
    }
  }

  lemma NotFlying(id: string)
    ensures One(Grounded == Flying(id)) == 0
  {
  }

  // ---------------------------------------------------------------- failures nobody is to blame for

  /** The attempt fell through because the call, or its stream before anything was committed, failed with err. */
  predicate FailedWith(c: Contender, stream: bool, err: Failure) {
    match c.response
    case Refused(e) => e == err
    case Streams(script) =>
      if stream then
        var used := PeekEnd(script);
        used > 0 && script[used - 1].Arrive? && script[used - 1].event.err == Some(err)
      else Drain(Events(script)) == DrainError(err)
  }

  /** A peek that does not commit counts against the breaker, whatever ended it: silence, cancellation, an error. */
  lemma UncommittedPeekCounts(c: Contender, n: int, gate: GateConfig)
    requires c.response.Streams? && !Peek(c.response.script).committed
    ensures var v := Judge(c, n, true, gate);
            v.Fell? && Booked(AttemptEffects(c, v), BreakerFailures, c.provider) == 1
  {
    hide Peek, Booked, Classify;
    AttemptBooked(c, n, true, gate, BreakerFailures, c.provider);
  }

  lemma ErrorEndsPeek(script: Script, err: Failure)
    requires PeekEnd(script) > 0 && script[PeekEnd(script) - 1].Arrive?
    requires script[PeekEnd(script) - 1].event.err == Some(err)
    ensures !Peek(script).committed
  {
    PeekDecides(script);
    hide Peek, PeekEnd;
  }

  /** A failed attempt counts against the breaker exactly when the failure's own class does, or when it arrived on a
      stream that was being peeked: there a cancelled request, or one the provider rightly refused, counts as well. */
  lemma BreakerHearsIff(c: Contender, n: int, stream: bool, gate: GateConfig, err: Failure)
    requires FailedWith(c, stream, err)
    ensures var v := Judge(c, n, stream, gate);
            v.Fell? && Booked(AttemptEffects(c, v), BreakerFailures, c.provider)
                       == One(Classify(err).CountsAgainstBreaker() || (stream && c.response.Streams?))
  {
    if stream && c.response.Streams? {
      ErrorEndsPeek(c.response.script, err);
      UncommittedPeekCounts(c, n, gate);
    } else {
      AttemptBooked(c, n, stream, gate, BreakerFailures, c.provider);
      hide Booked, Classify, Drain, Events;
    }
  }

  lemma OneAttempt(req: Request, c: Contender, k: Account, id: string)
    requires Judge(c, 1, req.stream, req.gate).Fell? && k != Wins
    ensures Booked(Serve(req, [c]).effects, k, id)
         == Booked(AttemptEffects(c, Judge(c, 1, req.stream, req.gate)), k, id)
  {
    var end := [Recorded("", false)];
    BookedOne(Recorded("", false), k, id);
    hide Booked, Judge, AttemptEffects, GatewayError;
    var v := Requests.ServeNext(req, [c], 0, [], NO_USAGE, None);
    Requests.NothingCommitted(req, [c], [v.info], Plus(NO_USAGE, v.usage), Some(v.err));
    BookedAppend(AttemptEffects(c, v), end, k, id);
  }

  const CANCELLED := Failure.Failure(Canceled, 0, "context canceled", 0)

  const CUT_SHORT :=
    Contender("a", 1.0, 5, 1, 1, Streams([Arrive(Event("", "", false, false, None, [], [], Some(CANCELLED)))]))

  /** The same cancelled call counts against the provider's breaker when the client streams and not when it does not. */
  lemma CancellationCountsWhenStreaming()
    ensures !Classify(CANCELLED).CountsAgainstBreaker()
    ensures Booked(Serve(Request("c", true, REJECT_EMPTY), [CUT_SHORT]).effects, BreakerFailures, "a") == 1
    ensures Booked(Serve(Request("c", false, REJECT_EMPTY), [CUT_SHORT]).effects, BreakerFailures, "a") == 0
  {
    var c, script := CUT_SHORT, CUT_SHORT.response.script;
    assert script[..0] == [] && Events(script) == [script[0].event];
    assert Consumed(Events(script)) == Events(script);
    assert FailedWith(c, false, CANCELLED);
    assert PeekEnd(script) == 1 by { PeekDecides(script); }
    assert FailedWith(c, true, CANCELLED);
    hide Booked, Serve, Judge, FailedWith, Peek, PeekEnd;
    BreakerHearsIff(c, 1, true, REJECT_EMPTY, CANCELLED);
    BreakerHearsIff(c, 1, false, REJECT_EMPTY, CANCELLED);
    OneAttempt(Request("c", true, REJECT_EMPTY), c, BreakerFailures, "a");
    OneAttempt(Request("c", false, REJECT_EMPTY), c, BreakerFailures, "a");
  }
}
