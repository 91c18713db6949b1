/** Weights and factors of the scoring strategies (internal/router/normalize.go, factors.go, weighted.go),
    over the reals. */
module Scoring {
  import opened Gateway
  import opened Ranking

  const FACTORS: seq<Factor> := [Health, Reliability, Latency, Quality, CacheAffinity, Priority]

  type Weights = map<Factor, real>

  function Get(w: Weights, f: Factor): real { if f in w then w[f] else 0.0 }

  function NonNegative(v: real): real { if v < 0.0 then 0.0 else v }

  function Raw(raw: Weights, f: Factor): real { NonNegative(Get(raw, f)) }

  function Total(raw: Weights): real {
    Raw(raw, Health) + Raw(raw, Reliability) + Raw(raw, Latency) + Raw(raw, Quality) + Raw(raw, CacheAffinity)
    + Raw(raw, Priority)
  }

  /** normalizeWeights, factor by factor. */
  function Share(raw: Weights, f: Factor): real {
    if Total(raw) <= 0.0 then 1.0 / 6.0 else Raw(raw, f) / Total(raw)
  }

  function Normalized(raw: Weights): Weights { map f: Factor | f in FACTORS :: Share(raw, f) }

  /** Sum of the first n factors' raw weights. */
  function PartialTotal(raw: Weights, n: nat): real
    requires n <= 6
  {
    if n == 0 then 0.0 else PartialTotal(raw, n - 1) + Raw(raw, FACTORS[n - 1])
  }

  lemma PartialIsTotal(raw: Weights)
    ensures PartialTotal(raw, 6) == Total(raw)
  {
    assert PartialTotal(raw, 0) == 0.0;
    assert PartialTotal(raw, 1) == Raw(raw, Health);
    assert PartialTotal(raw, 2) == Raw(raw, Health) + Raw(raw, Reliability);
    assert PartialTotal(raw, 3) == Raw(raw, Health) + Raw(raw, Reliability) + Raw(raw, Latency);
    assert PartialTotal(raw, 4) == Raw(raw, Health) + Raw(raw, Reliability) + Raw(raw, Latency) + Raw(raw, Quality);
    assert PartialTotal(raw, 5) == PartialTotal(raw, 4) + Raw(raw, CacheAffinity);
  }

  /** A factor's place in the presentation order. */
  function Place(f: Factor): (n: nat)
    ensures n < 6 && FACTORS[n] == f
  {
    match f
    case Health => 0
    case Reliability => 1
    case Latency => 2
    case Quality => 3
    case CacheAffinity => 4
    case Priority => 5
  }

  lemma PlaceOf(n: nat)
    requires n < 6
    ensures forall f: Factor :: f == FACTORS[n] <==> Place(f) == n
  {
  }

  method NormalizeWeights(raw: Weights) returns (out: Weights)
    ensures out == Normalized(raw)
  {
    hide Total, Share, Place;
    out := map[];
    var total := 0.0;
    for i := 0 to 6
      invariant total == PartialTotal(raw, i)
      invariant forall f: Factor :: (f in out <==> Place(f) < i) && (f in out ==> out[f] == Raw(raw, f))
    {
      PlaceOf(i);
      var w := Get(raw, FACTORS[i]);
      if w < 0.0 {
        w := 0.0;
      }
      out := out[FACTORS[i] := w];
      total := total + w;
    }
    PartialIsTotal(raw);
    AllFactors();
    ShareIs(raw);
    hide PartialTotal, Raw;
    if total <= 0.0 {
      var equal := 1.0 / 6.0;
      for i := 0 to 6
        invariant forall f: Factor :: f in out && (Place(f) < i ==> out[f] == equal)
      {
        PlaceOf(i);
        out := out[FACTORS[i] := equal];
      }
      return;
    }
    for i := 0 to 6
      invariant forall f: Factor :: f in out && out[f] == if Place(f) < i then Raw(raw, f) / total else Raw(raw, f)
    {
      PlaceOf(i);
      out := out[FACTORS[i] := out[FACTORS[i]] / total];
    }
  }

  lemma ShareIs(raw: Weights)
    ensures Total(raw) <= 0.0 ==> forall f: Factor :: Share(raw, f) == 1.0 / 6.0
    ensures Total(raw) > 0.0 ==> forall f: Factor :: Share(raw, f) == Raw(raw, f) / Total(raw)
  {
    hide Total, Raw;
  }

  lemma AllFactors()
    ensures forall f: Factor :: f in FACTORS
  {
    forall f: Factor ensures f in FACTORS { assert FACTORS[Place(f)] == f; }
  }

  // ---------------------------------------------------------------- what normalizing achieves

  /** The sum of complete weights. */
  function SumOf(w: Weights): real {
    Get(w, Health) + Get(w, Reliability) + Get(w, Latency) + Get(w, Quality) + Get(w, CacheAffinity) + Get(w, Priority)
  }

  ghost predicate IsDistribution(w: Weights) { (forall f: Factor :: f in w && w[f] >= 0.0) && SumOf(w) == 1.0 }

  lemma DivideSum(a: real, b: real, c: real, d: real, e: real, f: real, t: real)
    requires t > 0.0 && a + b + c + d + e + f == t
    ensures a / t + b / t + c / t + d / t + e / t + f / t == 1.0
  {
    var u := 1.0 / t;
    Inverse(a, t);
    Inverse(b, t);
    Inverse(c, t);
    Inverse(d, t);
    Inverse(e, t);
    Inverse(f, t);
    Inverse(t, t);
    Distribute(u, a, b, c, d, e, f);
  }

  lemma Inverse(a: real, t: real)
    requires t > 0.0
    ensures a / t == 1.0 / t * a && t / t == 1.0
  {
  }

  lemma Divided(a: real, t: real)
    requires t > 0.0
    ensures a / t * t == a && (a >= 0.0 ==> a / t >= 0.0)
  {
  }

  /** Whatever the input, the result is a complete set of non-negative weights summing to one. */
  lemma NormalizedSumsToOne(raw: Weights)
    ensures IsDistribution(Normalized(raw))
  {
    AllFactors();
    var t, n := Total(raw), Normalized(raw);
    forall f: Factor ensures f in n && Get(n, f) == Share(raw, f) >= 0.0 {
      if t > 0.0 { Divided(Raw(raw, f), t); }
    }
    if t > 0.0 {
      DivideSum(Raw(raw, Health), Raw(raw, Reliability), Raw(raw, Latency), Raw(raw, Quality),
                Raw(raw, CacheAffinity), Raw(raw, Priority), t);
      assert forall f: Factor :: Share(raw, f) == Raw(raw, f) / t;
    }
    hide Raw, Total, Normalized;
  }

  function Times(c: real, v: real): real { c * v }

  ghost predicate Scales(raw: Weights, scaled: Weights, c: real) {
    forall f: Factor :: Get(scaled, f) == Times(c, Get(raw, f))
  }

  /** Proportions survive: weights summing to 100 work exactly like fractions. */
  lemma ScaleInvariant(raw: Weights, scaled: Weights, c: real)
    requires c > 0.0 && Scales(raw, scaled, c)
    ensures Normalized(scaled) == Normalized(raw)
  {
    forall f: Factor ensures Share(scaled, f) == Share(raw, f) { ScaleShare(raw, scaled, c, f); }
    hide Share, Scales;
  }

  lemma ScaleTotal(raw: Weights, scaled: Weights, c: real)
    requires c > 0.0 && Scales(raw, scaled, c)
    ensures Total(scaled) == Times(c, Total(raw))
  {
    hide Raw, Get, Scales, Times;
    ScaleRaw(raw, scaled, c, Health);
    ScaleRaw(raw, scaled, c, Reliability);
    ScaleRaw(raw, scaled, c, Latency);
    ScaleRaw(raw, scaled, c, Quality);
    ScaleRaw(raw, scaled, c, CacheAffinity);
    ScaleRaw(raw, scaled, c, Priority);
    TimesDistributes(c, Raw(raw, Health), Raw(raw, Reliability), Raw(raw, Latency), Raw(raw, Quality),
                     Raw(raw, CacheAffinity), Raw(raw, Priority));
  }

  lemma ScaleShare(raw: Weights, scaled: Weights, c: real, f: Factor)
    requires c > 0.0 && Scales(raw, scaled, c)
    ensures Share(scaled, f) == Share(raw, f)
  {
    hide Total, Raw, Get, Scales, Times;
    ScaleTotal(raw, scaled, c);
    ScaleRaw(raw, scaled, c, f);
    ScaleSign(c, Total(raw));
    if Total(raw) > 0.0 { CancelScale(c, Raw(raw, f), Total(raw)); }
  }

  lemma ScaleRaw(raw: Weights, scaled: Weights, c: real, f: Factor)
    requires c > 0.0 && Scales(raw, scaled, c)
    ensures Raw(scaled, f) == Times(c, Raw(raw, f))
  {
    assert Get(scaled, f) == Times(c, Get(raw, f));
    ScaleSign(c, Get(raw, f));
    assert Times(c, 0.0) == 0.0;
    hide Times, Scales, Get;
  }

  lemma TimesDistributes(x: real, a: real, b: real, c: real, d: real, e: real, f: real)
    ensures Times(x, a) + Times(x, b) + Times(x, c) + Times(x, d) + Times(x, e) + Times(x, f)
         == Times(x, a + b + c + d + e + f)
  {
    Distribute(x, a, b, c, d, e, f);
  }

  lemma Distribute(x: real, a: real, b: real, c: real, d: real, e: real, f: real)
    ensures x * a + x * b + x * c + x * d + x * e + x * f == x * (a + b + c + d + e + f)
  {
  }

  lemma ScaleSign(c: real, v: real)
    requires c > 0.0
    ensures (Times(c, v) < 0.0 <==> v < 0.0) && (Times(c, v) > 0.0 <==> v > 0.0)
  {
    if v > 0.0 { assert c * v > 0.0; }
    if v < 0.0 { assert c * -v > 0.0; assert c * v == -(c * -v); }
  }

  lemma CancelScale(c: real, a: real, t: real)
    requires c > 0.0 && t > 0.0
    ensures Times(c, t) > 0.0 && Times(c, a) / Times(c, t) == a / t
  {
    var q, u := a / t, c * t;
    Divided(a, t);
    assert c * a == c * (q * t);
    assert c * (q * t) == q * u;
    assert u > 0.0;
    Divided(q * u, u);
    SameQuotient(q * u / u, q, u);
  }

  lemma SameQuotient(p: real, q: real, u: real)
    requires u > 0.0 && p * u == q * u
    ensures p == q
  {
    assert (p - q) * u == 0.0;
  }

  /** Normalizing weights that are a distribution already changes nothing; so normalizing twice is normalizing once. */
  lemma NormalizedIsFixed(w: Weights)
    requires IsDistribution(w)
    ensures Normalized(w) == w
  {
    AllFactors();
    assert Total(w) == 1.0;
    forall f: Factor ensures Share(w, f) == w[f] { assert w[f] / 1.0 == w[f]; }
  }

  /** Shares are proportional to the positive parts of the weights; with no positive weight all six are equal. */
  lemma SharesAreProportional(raw: Weights, f: Factor, g: Factor)
    ensures var n := Normalized(raw);
            var posF, posG := if Get(raw, f) > 0.0 then Get(raw, f) else 0.0,
                              if Get(raw, g) > 0.0 then Get(raw, g) else 0.0;
            f in n && g in n &&
            if exists h: Factor :: Get(raw, h) > 0.0 then n[f] * posG == n[g] * posF else n[f] == n[g] == 1.0 / 6.0
  {
    SomePositive(raw);
    NormalizedShare(raw, f);
    NormalizedShare(raw, g);
    hide *;
    if Total(raw) > 0.0 { CrossMultiply(Raw(raw, f), Raw(raw, g), Total(raw)); }
  }

  lemma NormalizedShare(raw: Weights, f: Factor)
    ensures f in Normalized(raw) && Raw(raw, f) == if Get(raw, f) > 0.0 then Get(raw, f) else 0.0
    ensures Normalized(raw)[f] == if Total(raw) > 0.0 then Raw(raw, f) / Total(raw) else 1.0 / 6.0
  {
    AllFactors();
    hide Total, Get;
  }

  lemma SomePositive(raw: Weights)
    ensures Total(raw) > 0.0 <==> exists h: Factor :: Get(raw, h) > 0.0
  {
    hide Get;
    if h: Factor :| Get(raw, h) > 0.0 { RawWithin(raw, h); }
    if forall h: Factor :: Get(raw, h) <= 0.0 { assert forall h: Factor :: Raw(raw, h) == 0.0; }
  }

  lemma RawWithin(raw: Weights, f: Factor)
    ensures 0.0 <= Raw(raw, f) <= Total(raw)
  {
    hide Get;
    match f case Health => case Reliability => case Latency => case Quality => case CacheAffinity => case Priority =>
  }

  lemma CrossMultiply(a: real, b: real, t: real)
    requires t > 0.0
    ensures a / t * b == b / t * a
  {
    Inverse(a, t);
    Inverse(b, t);
    var u := 1.0 / t;
    assert u * a * b == u * b * a;
  }

  // ---------------------------------------------------------------- presets and custom weights

  /** A custom block starts from the preset, so a factor it does not mention keeps the preset's weight. */
  function Merge(preset: Weights, custom: Weights): (w: Weights)
    ensures forall f: Factor :: Get(w, f) == if f in custom then custom[f] else Get(preset, f)
  {
    if custom == map[] then preset else preset + custom
  }

  // ---------------------------------------------------------------- latency

  predicate Measured(c: Candidate) { c.stats.requests != 0 && c.stats.avgLatencyMS > 0 }

  /** Indices of measured candidates with the least and the greatest latency, once there is one. */
  datatype Range = Empty | Range(min: int, max: int)

  function Widen(r: Range, c: Candidate): Range {
    if !Measured(c) then r
    else
      var l := c.stats.avgLatencyMS;
      match r
      case Empty => Range.Range(l, l)
      case Range(lo, hi) => Range.Range(if l < lo then l else lo, if l > hi then l else hi)
  }

  function RangeOf(cs: seq<Candidate>): Range {
    if cs == [] then Empty else Widen(RangeOf(cs[..|cs| - 1]), cs[|cs| - 1])
  }

  /** The range is attained and bounds every measured candidate. */
  lemma {:induction false} RangeBounds(cs: seq<Candidate>)
    ensures var r := RangeOf(cs);
            (r.Empty? <==> forall i | 0 <= i < |cs| :: !Measured(cs[i])) &&
            (r.Range? ==>
               (forall i | 0 <= i < |cs| && Measured(cs[i]) :: r.min <= cs[i].stats.avgLatencyMS <= r.max) &&
               (exists i | 0 <= i < |cs| :: Measured(cs[i]) && cs[i].stats.avgLatencyMS == r.min) &&
               (exists i | 0 <= i < |cs| :: Measured(cs[i]) && cs[i].stats.avgLatencyMS == r.max))
  {
    if cs != [] {
      var front, last := cs[..|cs| - 1], cs[|cs| - 1];
      RangeBounds(front);
      var r, s := RangeOf(front), RangeOf(cs);
      if r.Range? {
        var i :| 0 <= i < |front| && Measured(front[i]) && front[i].stats.avgLatencyMS == r.min;
        var j :| 0 <= j < |front| && Measured(front[j]) && front[j].stats.avgLatencyMS == r.max;
        assert cs[i] == front[i] && cs[j] == front[j];
      }
      assert forall i | 0 <= i < |front| :: cs[i] == front[i];
    }
  }

  /** The latency factor of c among cs: fastest 1, slowest 0, proportional between, neutral without data. */
  function LatencyFactor(r: Range, c: Candidate): real {
    if !Measured(c) || r.Empty? then 0.5
    else Proportion(r.min, r.max, c.stats.avgLatencyMS)
  }

  function Proportion(min: int, max: int, l: int): real {
    if max == min then 1.0 else 1.0 - (l - min) as real / (max - min) as real
  }

  /** The last candidate with an id decides its entry in the table. */
  function LastWith(cs: seq<Candidate>, id: string): (i: int)
    ensures -1 <= i < |cs| && (forall k | i < k < |cs| :: cs[k].id != id) && (i >= 0 ==> cs[i].id == id)
  {
    if cs == [] then -1 else if cs[|cs| - 1].id == id then |cs| - 1 else LastWith(cs[..|cs| - 1], id)
  }

  method LatencyFactors(cs: seq<Candidate>) returns (out: map<string, real>)
    ensures forall id :: id in out <==> LastWith(cs, id) >= 0
    ensures forall id | id in out :: out[id] == LatencyFactor(RangeOf(cs), cs[LastWith(cs, id)])
  {
    var haveAny, min, max := LatencyRange(cs);
    out := map[];
    for i := 0 to |cs|
      invariant forall id :: id in out <==> LastWith(cs[..i], id) >= 0
      invariant forall id | id in out :: out[id] == LatencyFactor(RangeOf(cs), cs[LastWith(cs[..i], id)])
    {
      var c := cs[i];
      LastWithNext(cs, i);
      hide LastWith;
      var factor := 0.5;
      if c.stats.requests == 0 || c.stats.avgLatencyMS <= 0 || !haveAny {
        factor := 0.5;
      } else if max == min {
        factor := 1.0;
      } else {
        factor := 1.0 - (c.stats.avgLatencyMS - min) as real / (max - min) as real;
      }
      assert factor == LatencyFactor(RangeOf(cs), c);
      hide LatencyFactor, RangeOf;
      out := out[c.id := factor];
    }
    assert cs[..|cs|] == cs;
  }

  lemma LastWithNext(cs: seq<Candidate>, i: nat)
    requires i < |cs|
    ensures forall id :: LastWith(cs[..i + 1], id) == if id == cs[i].id then i else LastWith(cs[..i], id)
  {
    forall id ensures LastWith(cs[..i + 1], id) == if id == cs[i].id then i else LastWith(cs[..i], id) {
      assert cs[..i + 1][..i] == cs[..i];
    }
  }

  method LatencyRange(cs: seq<Candidate>) returns (haveAny: bool, min: int, max: int)
    ensures RangeOf(cs) == (if haveAny then Range.Range(min, max) else Empty) && (haveAny ==> min <= max)
  {
    min, max, haveAny := 0, 0, false;
    for i := 0 to |cs|
      invariant RangeOf(cs[..i]) == (if haveAny then Range.Range(min, max) else Empty) && (haveAny ==> min <= max)
    {
      assert cs[..i + 1][..i] == cs[..i];
      var c := cs[i];
      if c.stats.requests == 0 || c.stats.avgLatencyMS <= 0 {
        continue;
      }
      if !haveAny || c.stats.avgLatencyMS < min {
        min := c.stats.avgLatencyMS;
      }
      if !haveAny || c.stats.avgLatencyMS > max {
        max := c.stats.avgLatencyMS;
      }
      haveAny := true;
    }
    assert cs[..|cs|] == cs;
  }

  lemma FractionInRange(a: int, b: int)
    requires 0 <= a <= b && b > 0
    ensures 0.0 <= a as real / b as real <= 1.0
    ensures a == 0 ==> a as real / b as real == 0.0
    ensures a == b ==> a as real / b as real == 1.0
  {
  }

  lemma FractionMonotone(a: int, a': int, b: int)
    requires a <= a' && b > 0
    ensures a as real / b as real <= a' as real / b as real
  {
  }

  lemma LatencyInRange(cs: seq<Candidate>, i: nat)
    requires i < |cs|
    ensures 0.0 <= LatencyFactor(RangeOf(cs), cs[i]) <= 1.0
  {
    RangeBounds(cs);
    var r := RangeOf(cs);
    if Measured(cs[i]) && r.Range? && r.max != r.min {
      FractionInRange(cs[i].stats.avgLatencyMS - r.min, r.max - r.min);
    }
  }

  /** cs with candidate i's average latency replaced. */
  function WithLatency(cs: seq<Candidate>, i: nat, l: int): seq<Candidate>
    requires i < |cs|
  {
    cs[i := cs[i].(stats := cs[i].stats.(avgLatencyMS := l))]
  }

  /** Getting faster never costs: lowering one measured candidate's latency, all else fixed, never lowers its
      own factor, even though the range everybody is measured against moves with it. */
  lemma FasterIsNeverWorse(cs: seq<Candidate>, i: nat, l: int)
    requires i < |cs| && Measured(cs[i]) && 0 < l <= cs[i].stats.avgLatencyMS
    ensures LatencyFactor(RangeOf(WithLatency(cs, i, l)), WithLatency(cs, i, l)[i]) >= LatencyFactor(RangeOf(cs), cs[i])
  {
    var ds := WithLatency(cs, i, l);
    var L, r, s := cs[i].stats.avgLatencyMS, RangeOf(cs), RangeOf(ds);
    assert Measured(ds[i]) && ds[i].stats.avgLatencyMS == l;
    RangeBounds(cs);
    RangeBounds(ds);
    if l != s.min { RangeMoves(cs, i, l); }
    hide RangeOf;
    ProportionGrows(r.min, r.max, L, s.min, s.max, l);
  }

  lemma ProportionGrows(lo: int, hi: int, L: int, lo': int, hi': int, l: int)
    requires lo <= L <= hi && lo' <= l <= hi' && l <= L
    requires l != lo' ==> lo == lo' && hi != lo && (L != hi ==> hi == hi')
    ensures Proportion(lo', hi', l) >= Proportion(lo, hi, L)
  {
    if lo != hi { FractionInRange(L - lo, hi - lo); }
    if lo' != hi' { FractionInRange(l - lo', hi' - lo'); }
    if l != lo' && L != hi { FractionMonotone(l - lo, L - lo, hi - lo); }
  }

  /** When the faster candidate is still not the fastest, the range's bottom stays, and so does its top
      unless the candidate was the slowest. */
  lemma RangeMoves(cs: seq<Candidate>, i: nat, l: int)
    requires i < |cs| && Measured(cs[i]) && 0 < l <= cs[i].stats.avgLatencyMS
    requires RangeOf(WithLatency(cs, i, l)).Range? && l != RangeOf(WithLatency(cs, i, l)).min
    ensures RangeOf(cs).Range? && RangeOf(cs).min == RangeOf(WithLatency(cs, i, l)).min
    ensures cs[i].stats.avgLatencyMS != RangeOf(cs).max ==> RangeOf(cs).max == RangeOf(WithLatency(cs, i, l)).max
    ensures RangeOf(cs).max != RangeOf(cs).min
  {
    var ds := WithLatency(cs, i, l);
    var r, s := RangeOf(cs), RangeOf(ds);
    RangeBounds(cs);
    RangeBounds(ds);
    assert Measured(ds[i]) && forall k | 0 <= k < |cs| && k != i :: ds[k] == cs[k];
    var a :| 0 <= a < |ds| && Measured(ds[a]) && ds[a].stats.avgLatencyMS == s.min;
    assert a != i && Measured(cs[a]);
    var b :| 0 <= b < |cs| && Measured(cs[b]) && cs[b].stats.avgLatencyMS == r.min;
    assert b != i && Measured(ds[b]);
    var c :| 0 <= c < |cs| && Measured(cs[c]) && cs[c].stats.avgLatencyMS == r.max;
    var d :| 0 <= d < |ds| && Measured(ds[d]) && ds[d].stats.avgLatencyMS == s.max;
    assert c != i ==> Measured(ds[c]);
    assert d != i ==> Measured(cs[d]);
  }

  // ---------------------------------------------------------------- scores

  function QualityFactor(hint: real): real { if hint <= 0.0 then 0.5 else Clamp01(hint) }

  function PriorityFactor(c: Candidate, total: nat): real {
    if total <= 1 then 1.0 else 1.0 - (c.priority - 1) as real / (total - 1) as real
  }

  /** A declared position gives a factor between 0 and 1 exactly while it is one of the ranked candidates' positions;
      once providers have been filtered out, later ones can fall below 0 and only the clamp keeps their score. */
  lemma PriorityInRange(c: Candidate, total: nat)
    requires total > 1
    ensures 0.0 <= PriorityFactor(c, total) <= 1.0 <==> 1 <= c.priority <= total
  {
    var r := (c.priority - 1) as real / (total - 1) as real;
    if 1 <= c.priority <= total {
      FractionInRange(c.priority - 1, total - 1);
    } else {
      OutOfRange(c.priority - 1, total - 1);
    }
  }

  lemma OutOfRange(a: int, b: int)
    requires b > 0 && (a < 0 || a > b)
    ensures a as real / b as real < 0.0 || a as real / b as real > 1.0
  {
    var q := a as real / b as real;
    Divided(a as real, b as real);
    if 0.0 <= q <= 1.0 {
      WeighMonotone(b as real, 0.0, q);
      WeighMonotone(b as real, q, 1.0);
    }
  }

  function Scored(w: Weights, f: Factor, value: real): ScoreFactor {
    ScoreFactor(f, Get(w, f), Clamp01(value), Times(Get(w, f), Clamp01(value)))
  }

  /** The sum of contributions, as the scoring loop adds them up. */
  function Base(factors: seq<ScoreFactor>): real {
    if factors == [] then 0.0 else Base(factors[..|factors| - 1]) + factors[|factors| - 1].contribution
  }

  /** The six factors of one candidate, in presentation order. */
  function FactorsFor(w: Weights, values: Factor -> real): seq<ScoreFactor> {
    [Scored(w, Health, values(Health)), Scored(w, Reliability, values(Reliability)),
     Scored(w, Latency, values(Latency)),
     Scored(w, Quality, values(Quality)), Scored(w, CacheAffinity, values(CacheAffinity)),
     Scored(w, Priority, values(Priority))]
  }

  function Term(w: Weights, values: Factor -> real, f: Factor): real { Times(Get(w, f), Clamp01(values(f))) }

  /** The same sum, factor by factor. */
  function Weighed(w: Weights, values: Factor -> real): real {
    Term(w, values, Health) + Term(w, values, Reliability) + Term(w, values, Latency) + Term(w, values, Quality)
    + Term(w, values, CacheAffinity) + Term(w, values, Priority)
  }

  lemma BaseOfSix(a: ScoreFactor, b: ScoreFactor, c: ScoreFactor, d: ScoreFactor, e: ScoreFactor, f: ScoreFactor)
    ensures Base([a, b, c, d, e, f])
         == a.contribution + b.contribution + c.contribution + d.contribution + e.contribution + f.contribution
  {
    BaseNext([], a);
    BaseNext([a], b);
    BaseNext([a, b], c);
    BaseNext([a, b, c], d);
    BaseNext([a, b, c, d], e);
    BaseNext([a, b, c, d, e], f);
    assert Base([]) == 0.0;
    hide Base;
    assert [] + [a] == [a] && [a] + [b] == [a, b] && [a, b] + [c] == [a, b, c] && [a, b, c] + [d] == [a, b, c, d];
    assert [a, b, c, d] + [e] == [a, b, c, d, e] && [a, b, c, d, e] + [f] == [a, b, c, d, e, f];
  }

  lemma BaseNext(fs: seq<ScoreFactor>, f: ScoreFactor)
    ensures Base(fs + [f]) == Base(fs) + f.contribution
  {
    assert (fs + [f])[..|fs|] == fs;
  }

  lemma BaseIsWeighed(w: Weights, values: Factor -> real)
    ensures Base(FactorsFor(w, values)) == Weighed(w, values)
  {
    hide Times, Clamp01, Get;
    var fs := FactorsFor(w, values);
    hide Base;
    BaseOfSix(fs[0], fs[1], fs[2], fs[3], fs[4], fs[5]);
    assert fs == [fs[0], fs[1], fs[2], fs[3], fs[4], fs[5]];
  }

  lemma WeighMonotone(w: real, a: real, b: real)
    requires w >= 0.0 && a <= b
    ensures Times(w, a) <= Times(w, b)
  {
  }

  lemma TermInRange(w: Weights, values: Factor -> real, f: Factor)
    requires Get(w, f) >= 0.0
    ensures 0.0 <= Term(w, values, f) <= Get(w, f)
  {
    hide Times;
    ProductInRange(Get(w, f), Clamp01(values(f)));
  }

  lemma ProductInRange(w: real, v: real)
    requires w >= 0.0 && 0.0 <= v <= 1.0
    ensures 0.0 <= Times(w, v) <= w
  {
    WeighMonotone(w, 0.0, v);
    WeighMonotone(w, v, 1.0);
    assert Times(w, 0.0) == 0.0 && Times(w, 1.0) == w;
    hide Times;
  }

  lemma TermMonotone(w: Weights, low: Factor -> real, high: Factor -> real, f: Factor)
    requires Get(w, f) >= 0.0 && low(f) <= high(f)
    ensures Term(w, low, f) <= Term(w, high, f)
  {
    hide Times;
    WeighMonotone(Get(w, f), Clamp01(low(f)), Clamp01(high(f)));
  }

  lemma IsDistributionOf(w: Weights)
    requires IsDistribution(w)
    ensures Get(w, Health) + Get(w, Reliability) + Get(w, Latency) + Get(w, Quality) + Get(w, CacheAffinity)
          + Get(w, Priority) == 1.0
    ensures Get(w, Health) >= 0.0 && Get(w, Reliability) >= 0.0 && Get(w, Latency) >= 0.0 && Get(w, Quality) >= 0.0
    ensures Get(w, CacheAffinity) >= 0.0 && Get(w, Priority) >= 0.0
  {
  }

  lemma WeighedIs(w: Weights, values: Factor -> real)
    ensures Weighed(w, values)
         == Term(w, values, Health) + Term(w, values, Reliability) + Term(w, values, Latency)
          + Term(w, values, Quality) + Term(w, values, CacheAffinity) + Term(w, values, Priority)
  {
    hide Term;
  }

  /** Every score is between 0 and 1, out-of-range factors included. */
  lemma ScoreInRange(w: Weights, values: Factor -> real)
    requires IsDistribution(w)
    ensures 0.0 <= Base(FactorsFor(w, values)) <= 1.0
  {
    BaseIsWeighed(w, values);
    IsDistributionOf(w);
    WeighedIs(w, values);
    hide *;
    TermInRange(w, values, Health);
    TermInRange(w, values, Reliability);
    TermInRange(w, values, Latency);
    TermInRange(w, values, Quality);
    TermInRange(w, values, CacheAffinity);
    TermInRange(w, values, Priority);
  }

  /** A candidate at least as good in every factor never scores lower, before the last-known-good boost. */
  lemma BetterNeverScoresLower(w: Weights, low: Factor -> real, high: Factor -> real)
    requires IsDistribution(w) && forall f: Factor :: low(f) <= high(f)
    ensures Base(FactorsFor(w, low)) <= Base(FactorsFor(w, high))
  {
    BaseIsWeighed(w, low);
    BaseIsWeighed(w, high);
    IsDistributionOf(w);
    WeighedIs(w, low);
    WeighedIs(w, high);
    hide *;
    TermMonotone(w, low, high, Health);
    TermMonotone(w, low, high, Reliability);
    TermMonotone(w, low, high, Latency);
    TermMonotone(w, low, high, Quality);
    TermMonotone(w, low, high, CacheAffinity);
    TermMonotone(w, low, high, Priority);
  }
}
