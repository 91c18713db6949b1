/** Per-provider counters (internal/telemetry/telemetry.go). */
module Telemetry {

  datatype Call =
    | Attempt(id: string)
    | Failure(id: string)
    | Tokens(id: string, prompt: int, completion: int)
    | Latency(id: string, ms: int)

  datatype Counters = Counters(requests: int, failures: int, prompt: int, completion: int,
                               latencySum: int, latencyCount: int)

  const ZERO := Counters(0, 0, 0, 0, 0, 0)

  datatype Stats = Stats(requests: int, failures: int, prompt: int, completion: int,
                         avgLatencyMS: int, successRate: real)

  function Count<T(==)>(s: seq<T>, x: T): nat {
    if s == [] then 0 else Count(s[..|s| - 1], x) + (if s[|s| - 1] == x then 1 else 0)
  }

  lemma {:induction false} CountAppend<T>(a: seq<T>, b: seq<T>, x: T)
    ensures Count(a + b, x) == Count(a, x) + Count(b, x)
  {
    if b == [] {
      assert a + b == a;
    } else {
      assert (a + b)[..|a + b| - 1] == a + b[..|b| - 1];
      CountAppend(a, b[..|b| - 1], x);
    }
  }

  function Apply(c: Counters, call: Call): Counters {
    match call
    case Attempt(_) => c.(requests := c.requests + 1)
    case Failure(_) => c.(failures := c.failures + 1)
    case Tokens(_, p, q) => c.(prompt := c.prompt + p, completion := c.completion + q)
    case Latency(_, ms) => c.(latencySum := c.latencySum + ms, latencyCount := c.latencyCount + 1)
  }

  /** id's counters after a sequence of calls. */
  function CountersAfter(log: seq<Call>, id: string): Counters {
    if log == [] then ZERO
    else
      var c := CountersAfter(log[..|log| - 1], id);
      if log[|log| - 1].id == id then Apply(c, log[|log| - 1]) else c
  }

  /** What the two counters behind the success rate count. */
  lemma {:induction false} CountersCount(log: seq<Call>, id: string)
    ensures CountersAfter(log, id).requests == Count(log, Attempt(id))
    ensures CountersAfter(log, id).failures == Count(log, Failure(id))
  {
    if log != [] { CountersCount(log[..|log| - 1], id); }
  }

  /** Go's integer division: toward zero. */
  function Quotient(a: int, b: int): int
    requires b > 0
  {
    if a >= 0 then a / b else -((-a) / b)
  }

  function StatsOf(c: Counters): Stats {
    Stats(c.requests, c.failures, c.prompt, c.completion,
          if c.latencyCount > 0 then Quotient(c.latencySum, c.latencyCount) else 0,
          if c.requests > 0 then (c.requests - c.failures) as real / c.requests as real else 0.0)
  }

  /** The success rate is a rate exactly when no failure is counted without its request. */
  lemma RateInRange(c: Counters)
    requires c.requests > 0
    ensures 0.0 <= StatsOf(c).successRate <= 1.0 <==> 0 <= c.failures <= c.requests
  {
    var n, d := (c.requests - c.failures) as real, c.requests as real;
    assert n / d * d == n;
    if 0 <= c.failures <= c.requests {
      assert 0.0 <= n <= d;
      assert 0.0 <= n / d <= 1.0;
    } else if c.failures < 0 {
      assert n > d;
      assert n / d > 1.0;
    } else {
      assert n < 0.0;
      assert n / d < 0.0;
    }
  }

  /** The tokens recorded for id. */
  function PromptsFor(log: seq<Call>, id: string): int {
    if log == [] then 0
    else
      PromptsFor(log[1..], id) + match log[0] { case Tokens(who, p, _) => if who == id then p else 0 case _ => 0 }
  }

  function CompletionsFor(log: seq<Call>, id: string): int {
    if log == [] then 0
    else
      CompletionsFor(log[1..], id) + match log[0] { case Tokens(who, _, q) => if who == id then q else 0 case _ => 0 }
  }

  /** The latencies recorded for id. */
  function LatenciesFor(log: seq<Call>, id: string): seq<int> {
    if log == [] then []
    else
      (match log[0] { case Latency(who, ms) => if who == id then [ms] else [] case _ => [] })
      + LatenciesFor(log[1..], id)
  }

  function Sum(s: seq<int>): int { if s == [] then 0 else s[0] + Sum(s[1..]) }

  lemma {:induction false} TotalsAppend(a: seq<Call>, b: seq<Call>, id: string)
    ensures PromptsFor(a + b, id) == PromptsFor(a, id) + PromptsFor(b, id)
    ensures CompletionsFor(a + b, id) == CompletionsFor(a, id) + CompletionsFor(b, id)
    ensures LatenciesFor(a + b, id) == LatenciesFor(a, id) + LatenciesFor(b, id)
  {
    if a == [] {
      assert a + b == b;
    } else {
      assert (a + b)[1..] == a[1..] + b && (a + b)[0] == a[0];
      TotalsAppend(a[1..], b, id);
    }
  }

  lemma {:induction false} SumAppend(a: seq<int>, b: seq<int>)
    ensures Sum(a + b) == Sum(a) + Sum(b)
  {
    if a == [] {
      assert a + b == b;
    } else {
      assert (a + b)[1..] == a[1..] + b;
      SumAppend(a[1..], b);
    }
  }

  lemma TotalsOfOne(call: Call, id: string)
    ensures PromptsFor([call], id) == (if call.Tokens? && call.id == id then call.prompt else 0)
    ensures CompletionsFor([call], id) == (if call.Tokens? && call.id == id then call.completion else 0)
    ensures LatenciesFor([call], id) == (if call.Latency? && call.id == id then [call.ms] else [])
    ensures call.Latency? ==> Sum([call.ms]) == call.ms
  {
    assert [call][1..] == [];
    assert call.Latency? ==> [call.ms][1..] == [];
  }

  lemma {:induction false} CountersTotal(log: seq<Call>, id: string)
    ensures var c := CountersAfter(log, id);
            c.prompt == PromptsFor(log, id) && c.completion == CompletionsFor(log, id) &&
            c.latencyCount == |LatenciesFor(log, id)| && c.latencySum == Sum(LatenciesFor(log, id))
  {
    if log != [] {
      var front, last := log[..|log| - 1], log[|log| - 1];
      CountersTotal(front, id);
      TotalsAppend(front, [last], id);
      TotalsOfOne(last, id);
      assert front + [last] == log;
      SumAppend(LatenciesFor(front, id), LatenciesFor([last], id));
      hide PromptsFor, CompletionsFor, LatenciesFor;
    }
  }

  /** A snapshot says what happened: the success rate is the share of recorded attempts without a recorded failure, the
      token counters are the totals, and the average latency is the mean rounded toward zero. */
  lemma SnapshotSays(log: seq<Call>, id: string)
    ensures var s, n, latencies := StatsOf(CountersAfter(log, id)), Count(log, Attempt(id)), LatenciesFor(log, id);
            && s.requests == n && s.failures == Count(log, Failure(id))
            && s.prompt == PromptsFor(log, id) && s.completion == CompletionsFor(log, id)
            && (if n > 0 then s.successRate * n as real == (n - s.failures) as real else s.successRate == 0.0)
            && (if latencies == [] then s.avgLatencyMS == 0
                else if Sum(latencies) >= 0
                then 0 <= Sum(latencies) - s.avgLatencyMS * |latencies| < |latencies|
                else -|latencies| < Sum(latencies) - s.avgLatencyMS * |latencies| <= 0)
  {
    CountersCount(log, id);
    CountersTotal(log, id);
    var c := CountersAfter(log, id);
    hide CountersAfter, Sum, LatenciesFor, PromptsFor, CompletionsFor, Count;
    if c.requests > 0 { QuotientTimes((c.requests - c.failures) as real, c.requests as real); }
    if c.latencyCount > 0 { QuotientRounds(c.latencySum, c.latencyCount); }
  }

  lemma QuotientTimes(a: real, b: real)
    requires b > 0.0
    ensures a / b * b == a
  {
  }

  lemma QuotientRounds(a: int, b: int)
    requires b > 0
    ensures if a >= 0 then 0 <= a - Quotient(a, b) * b < b else -b < a - Quotient(a, b) * b <= 0
  {
    if a >= 0 {
      assert a == a / b * b + a % b;
    } else {
      assert -a == (-a) / b * b + (-a) % b;
      assert Quotient(a, b) * b == -((-a) / b * b);
    }
  }

  class Registry {
    var byID: map<string, Counters>
    ghost var log: seq<Call>

    ghost predicate Valid()
      reads this
    {
      && (forall id | id in byID :: byID[id] == CountersAfter(log, id))
      && (forall id | id !in byID :: CountersAfter(log, id) == ZERO)
    }

    constructor ()
      ensures Valid() && log == []
    {
      byID := map[];
      log := [];
    }

    /** Every recording method finds or creates id's counters and updates them under their lock. */
    method Update(call: Call)
      requires Valid()
      modifies this
      ensures Valid() && log == old(log) + [call]
    {
      var c := if call.id in byID then byID[call.id] else ZERO;
      match call {
        case Attempt(_) => c := c.(requests := c.requests + 1);
        case Failure(_) => c := c.(failures := c.failures + 1);
        case Tokens(_, p, q) => c := c.(prompt := c.prompt + p, completion := c.completion + q);
        case Latency(_, ms) => c := c.(latencySum := c.latencySum + ms, latencyCount := c.latencyCount + 1);
      }
      byID := byID[call.id := c];
      log := log + [call];
      assert log[..|log| - 1] == old(log);
    }

    /** A copy of all providers' current statistics. */
    method Snapshot() returns (out: map<string, Stats>)
      requires Valid()
      ensures out.Keys == byID.Keys
      ensures forall id | id in out :: out[id] == StatsOf(CountersAfter(log, id))
      ensures forall id | id !in out :: CountersAfter(log, id) == ZERO
    {
      out := map[];
      var todo := byID.Keys;
      while todo != {}
        invariant todo <= byID.Keys && out.Keys == byID.Keys - todo
        invariant forall id | id in out :: out[id] == StatsOf(byID[id])
      {
        var id :| id in todo;
        out := out[id := StatsOf(byID[id])];
        todo := todo - {id};
      }
    }
  }
}
