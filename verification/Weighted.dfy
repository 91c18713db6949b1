/** The scoring strategy with Smart Sticky (internal/router/weighted.go). */
module Weighted {
  import opened Gateway
  import opened Ranking
  import opened Scoring
  import opened Sticky

  datatype Route = Route(combo: string, affinityKey: string, runKey: string)

  /** Everything a candidate's score depends on besides the candidates. */
  datatype Scorer = Scorer(weights: Weights, boost: real, hash: Hash, affinityKey: string, good: string)

  // ---------------------------------------------------------------- scoring one candidate

  /** A candidate's entry in the latency table; a missing entry would read as zero. */
  function LatencyOf(cs: seq<Candidate>, id: string): real {
    var i := LastWith(cs, id);
    if i < 0 then 0.0 else LatencyFactor(RangeOf(cs), cs[i])
  }

  function ValueOf(s: Scorer, cs: seq<Candidate>, c: Candidate, f: Factor): real {
    match f
    case Health => HealthFactor(c)
    case Reliability => ReliabilityFactor(c)
    case Latency => LatencyOf(cs, c.id)
    case Quality => QualityFactor(c.qualityHint)
    case CacheAffinity => CacheAffinityFactor(s.hash, s.affinityKey, c, cs)
    case Priority => PriorityFactor(c, |cs|)
  }

  function FactorsOf(s: Scorer, cs: seq<Candidate>, c: Candidate): seq<ScoreFactor> {
    FactorsFor(s.weights, f => ValueOf(s, cs, c, f))
  }

  predicate LastKnownGood(s: Scorer, c: Candidate) { s.good != "" && s.good == c.id }

  function ScoreOf(s: Scorer, cs: seq<Candidate>, c: Candidate): real {
    var base := Base(FactorsOf(s, cs, c));
    if LastKnownGood(s, c) then Clamp01(base + s.boost) else base
  }

  function ReasonsOf(s: Scorer, cs: seq<Candidate>, c: Candidate): seq<string> {
    (if LastKnownGood(s, c) then ["last-known-good"] else [])
    + (if CacheAffinityFactor(s.hash, s.affinityKey, c, cs) == 1.0 then ["cache-affinity"] else [])
  }

  function ScoredOne(s: Scorer, cs: seq<Candidate>, c: Candidate): Ranked {
    Ranked(c, ScoreOf(s, cs, c), FactorsOf(s, cs, c), ReasonsOf(s, cs, c))
  }

  function ScoredAll(s: Scorer, cs: seq<Candidate>): seq<Ranked> {
    seq(|cs|, i requires 0 <= i < |cs| => ScoredOne(s, cs, cs[i]))
  }

  // ---------------------------------------------------------------- the ranking

  function ByScore(r: Ranked): real { -r.score }

  function Order(s: Scorer, cs: seq<Candidate>): seq<Ranked> { StableSort(ScoredAll(s, cs), ByScore) }

  /** The pinned provider is among the eligible ones. */
  predicate Sticks(ranked: seq<Ranked>, pinned: string) { pinned != "" && Find(ranked, pinned) < |ranked| }

  /** The ranking for a pin and the two random draws. */
  function RankOf(s: Scorer, cs: seq<Candidate>, pinned: string, exploration: real, roll: real, pick: nat): seq<Ranked>
    requires pick < |cs|
  {
    var sorted := Order(s, cs);
    if Sticks(sorted, pinned) then Promote(sorted, Find(sorted, pinned), "sticky")
    else if exploration > 0.0 && |sorted| > 1 && roll < exploration && pick < |sorted| then
      Promote(sorted, pick, "explore")
    else sorted
  }

  // ---------------------------------------------------------------- what a ranking is

  lemma OrderSorts(s: Scorer, cs: seq<Candidate>)
    ensures var sorted := Order(s, cs);
            Ordered(sorted, ByScore) && |sorted| == |cs| &&
            multiset(sorted) == multiset(ScoredAll(s, cs)) && multiset(Candidates(sorted)) == multiset(cs) &&
            forall v :: WithKey(sorted, ByScore, v) == WithKey(ScoredAll(s, cs), ByScore, v)
  {
    var all := ScoredAll(s, cs);
    assert Candidates(all) == cs;
    StableSortSorts(all, ByScore);
    hide StableSort, ScoredAll, WithKey, Ordered;
    CandidatesOf(Order(s, cs), all);
    SameLength(Order(s, cs), all);
  }

  /** Score order behind at most one promoted head: the rest keeps its order. */
  ghost predicate OneHeadPromoted(out: seq<Candidate>, sorted: seq<Candidate>) {
    out == sorted || exists i | 0 <= i < |sorted| :: out == MoveToFront(sorted, i)
  }

  /** Whatever the pin and the draws, a ranking holds exactly the eligible candidates: by descending score, ties in
      declared order, except for at most one promoted head. */
  lemma RankingShape(s: Scorer, cs: seq<Candidate>, pinned: string, exploration: real, roll: real, pick: nat)
    requires pick < |cs|
    ensures var out := RankOf(s, cs, pinned, exploration, roll, pick);
            multiset(Candidates(out)) == multiset(cs) && OneHeadPromoted(Candidates(out), Candidates(Order(s, cs)))
  {
    var sorted := Order(s, cs);
    OrderSorts(s, cs);
    var i := if Sticks(sorted, pinned) then Find(sorted, pinned) else pick;
    PromoteKeepsCandidates(sorted, i, "sticky");
    PromoteKeepsCandidates(sorted, i, "explore");
    hide Order, Promote, Find, Candidates;
    assert |Candidates(sorted)| == |sorted| by { SameLength(Candidates(sorted), cs); }
  }

  // ---------------------------------------------------------------- best first, said of the scores themselves

  /** Element i comes before element j by right: a higher score, or the same and declared first. */
  ghost predicate Beats(out: seq<Ranked>, at: seq<int>, i: nat, j: nat)
    requires i < |out| == |at| && j < |out|
  {
    out[i].score > out[j].score || (out[i].score == out[j].score && at[i] < at[j])
  }

  /** Element k is the candidate declared at at[k]; everything is in its rightful place except the head, which
      belongs behind the p elements that follow it. */
  ghost predicate BestFirst(out: seq<Ranked>, cs: seq<Candidate>, at: seq<int>, p: nat) {
    && |at| == |out| == |cs| && p < |out|
    && (forall k | 0 <= k < |at| :: 0 <= at[k] < |cs| && out[k].candidate == cs[at[k]])
    && (forall i, j | 0 <= i < j < |at| :: at[i] != at[j])
    && (forall i, j | 1 <= i < j < |at| :: Beats(out, at, i, j))
    && (forall k | 1 <= k < |at| :: if k <= p then Beats(out, at, k, 0) else Beats(out, at, 0, k))
  }

  /** Someone eligible holds the pin. */
  ghost predicate PinEligible(cs: seq<Candidate>, pinned: string) {
    pinned != "" && exists c :: c in cs && c.id == pinned
  }

  /** Best first but for the head: it is the best of the pinned provider's entries if that is eligible, else the
      entry drawn if the ranking explores, else in its rightful place. */
  ghost predicate BestFirstButHead(out: seq<Ranked>, cs: seq<Candidate>, pinned: string, explores: bool, pick: nat) {
    exists p, at | BestFirst(out, cs, at, p) ::
      if PinEligible(cs, pinned)
      then out[0].candidate.id == pinned && forall k | 1 <= k <= p :: out[k].candidate.id != pinned
      else p == if explores && |cs| > 1 then pick else 0
  }

  lemma OrderIsBestFirst(s: Scorer, cs: seq<Candidate>) returns (at: seq<int>)
    requires cs != []
    ensures BestFirst(Order(s, cs), cs, at, 0)
  {
    var all, sorted := ScoredAll(s, cs), Order(s, cs);
    at := SortPositions(all, ByScore);
    hide StableSort, ScoreOf, FactorsOf, ReasonsOf;
    assert forall k | 0 <= k < |cs| :: all[k].candidate == cs[k];
    forall i, j | 0 <= i < j < |at| ensures Beats(sorted, at, i, j) {
      assert ByScore(sorted[i]) == -sorted[i].score && ByScore(sorted[j]) == -sorted[j].score;
    }
  }

  /** out is sorted with element p moved to the front, as far as candidates and scores go. */
  ghost predicate Moved(sorted: seq<Ranked>, at: seq<int>, out: seq<Ranked>, to: seq<int>, p: nat) {
    && |out| == |to| == |sorted| == |at| && p < |out|
    && forall k | 0 <= k < |out| ::
         out[k].candidate == sorted[Origin(p, k)].candidate && out[k].score == sorted[Origin(p, k)].score &&
         to[k] == at[Origin(p, k)]
  }

  lemma MovedBeats(sorted: seq<Ranked>, at: seq<int>, out: seq<Ranked>, to: seq<int>, p: nat, i: nat, j: nat)
    requires Moved(sorted, at, out, to, p) && i < |out| && j < |out|
    ensures Beats(out, to, i, j) <==> Beats(sorted, at, Origin(p, i), Origin(p, j))
  {
  }

  lemma SortedBeats(sorted: seq<Ranked>, cs: seq<Candidate>, at: seq<int>, i: nat, j: nat)
    requires BestFirst(sorted, cs, at, 0) && i < j < |sorted|
    ensures Beats(sorted, at, i, j) && at[i] != at[j]
  {
  }

  lemma MovedIsBestFirst(sorted: seq<Ranked>, cs: seq<Candidate>, at: seq<int>, out: seq<Ranked>, to: seq<int>, p: nat)
    requires BestFirst(sorted, cs, at, 0) && Moved(sorted, at, out, to, p)
    ensures BestFirst(out, cs, to, p)
  {
    forall k | 0 <= k < |to| ensures 0 <= to[k] < |cs| && out[k].candidate == cs[to[k]] {
      assert 0 <= Origin(p, k) < |at|;
    }
    hide Beats;
    forall i, j | 0 <= i < j < |to| ensures to[i] != to[j] && (1 <= i ==> Beats(out, to, i, j)) {
      var a, b := Origin(p, i), Origin(p, j);
      if a < b { SortedBeats(sorted, cs, at, a, b); } else { SortedBeats(sorted, cs, at, b, a); }
      MovedBeats(sorted, at, out, to, p, i, j);
    }
    forall k | 1 <= k < |to| ensures if k <= p then Beats(out, to, k, 0) else Beats(out, to, 0, k) {
      if k <= p { SortedBeats(sorted, cs, at, k - 1, p); } else { SortedBeats(sorted, cs, at, p, k); }
      MovedBeats(sorted, at, out, to, p, k, 0);
      MovedBeats(sorted, at, out, to, p, 0, k);
    }
  }

  lemma PromotedHead(sorted: seq<Ranked>, p: nat, reason: string, cs: seq<Candidate>, at: seq<int>)
    requires p < |sorted| && BestFirst(sorted, cs, at, 0)
    ensures var out := Promote(sorted, p, reason);
            |out| == |sorted| && BestFirst(out, cs, MoveToFront(at, p), p) &&
            out[0].candidate == sorted[p].candidate && forall k | 1 <= k <= p :: out[k] == sorted[k - 1]
  {
    PromoteKeepsTheRest(sorted, p, reason);
    MovedFrom(at, p);
    assert |at| == |sorted|;
    hide Promote, MoveToFront, BestFirst;
    MovedIsBestFirst(sorted, cs, at, Promote(sorted, p, reason), MoveToFront(at, p), p);
  }

  lemma EligibleIsFound(sorted: seq<Ranked>, cs: seq<Candidate>, at: seq<int>, pinned: string)
    requires BestFirst(sorted, cs, at, 0) && multiset(Candidates(sorted)) == multiset(cs)
    ensures Sticks(sorted, pinned) <==> PinEligible(cs, pinned)
  {
    if PinEligible(cs, pinned) {
      var c :| c in cs && c.id == pinned;
      assert c in multiset(Candidates(sorted));
      var k :| 0 <= k < |sorted| && sorted[k].candidate == c;
      assert Find(sorted, pinned) <= k;
    }
    if Sticks(sorted, pinned) {
      var k := Find(sorted, pinned);
      assert sorted[k].candidate == cs[at[k]] && cs[at[k]] in cs;
    }
  }

  /** For every pin and draw: higher scores come first, ties in declared order, but for the one head that the pin or
      the exploration put there. */
  lemma RankingIsBestFirst(s: Scorer, cs: seq<Candidate>, pinned: string, exploration: real, roll: real, pick: nat)
    requires pick < |cs|
    ensures BestFirstButHead(RankOf(s, cs, pinned, exploration, roll, pick), cs, pinned,
                             exploration > 0.0 && roll < exploration, pick)
  {
    var sorted, out := Order(s, cs), RankOf(s, cs, pinned, exploration, roll, pick);
    OrderSorts(s, cs);
    var at := OrderIsBestFirst(s, cs);
    EligibleIsFound(sorted, cs, at, pinned);
    hide Order, Promote, Candidates, PinEligible;
    if Sticks(sorted, pinned) {
      var p := Find(sorted, pinned);
      PromotedHead(sorted, p, "sticky", cs, at);
      assert BestFirst(out, cs, MoveToFront(at, p), p) && forall k | 1 <= k <= p :: out[k].candidate.id != pinned;
    } else if exploration > 0.0 && |sorted| > 1 && roll < exploration {
      PromotedHead(sorted, pick, "explore", cs, at);
      assert BestFirst(out, cs, MoveToFront(at, pick), pick);
    } else {
      assert BestFirst(out, cs, at, 0);
    }
  }

  // ---------------------------------------------------------------- what a score is made of

  function Clip(v: real): real { if v < 0.0 then 0.0 else if 1.0 < v then 1.0 else v }

  /** The values behind the six factors, as far as they count. */
  lemma ValuesAre(s: Scorer, cs: seq<Candidate>, c: Candidate)
    ensures Clamp01(ValueOf(s, cs, c, Health)) == if c.halfOpen then 0.5 else 1.0
    ensures Clamp01(ValueOf(s, cs, c, Reliability)) == if c.stats.requests == 0 then 0.5 else Clip(c.stats.successRate)
    ensures Clamp01(ValueOf(s, cs, c, Latency)) == Clip(LatencyOf(cs, c.id))
    ensures Clamp01(ValueOf(s, cs, c, Quality)) == if c.qualityHint <= 0.0 then 0.5 else Clip(c.qualityHint)
    ensures Clamp01(ValueOf(s, cs, c, CacheAffinity))
         == if |cs| == 0 || s.affinityKey == "" then 0.5
            else if cs[s.hash(s.affinityKey) % |cs|].id == c.id then 1.0 else 0.0
    ensures Clamp01(ValueOf(s, cs, c, Priority))
         == if |cs| <= 1 then 1.0 else Clip(1.0 - (c.priority - 1) as real / (|cs| - 1) as real)
  {
    hide LatencyOf;
  }

  lemma UnboostedScore(s: Scorer, cs: seq<Candidate>, c: Candidate)
    requires IsDistribution(s.weights) && s.good == ""
    ensures ScoreOf(s, cs, c)
         == Contribution(s, Health, Clamp01(ValueOf(s, cs, c, Health)))
          + Contribution(s, Reliability, Clamp01(ValueOf(s, cs, c, Reliability)))
          + Contribution(s, Latency, Clamp01(ValueOf(s, cs, c, Latency)))
          + Contribution(s, Quality, Clamp01(ValueOf(s, cs, c, Quality)))
          + Contribution(s, CacheAffinity, Clamp01(ValueOf(s, cs, c, CacheAffinity)))
          + Contribution(s, Priority, Clamp01(ValueOf(s, cs, c, Priority)))
  {
    var values := f => ValueOf(s, cs, c, f);
    BaseIsWeighed(s.weights, values);
    assert ScoreOf(s, cs, c) == Weighed(s.weights, values);
    hide Base, FactorsFor, ScoreOf, ValueOf, Clamp01, Scoring.Times;
  }

  /** A factor's share of the score. */
  function Contribution(s: Scorer, f: Factor, value: real): real
    requires IsDistribution(s.weights)
  {
    Scoring.Times(s.weights[f], value)
  }

  /** The whole score of a candidate nobody remembers, from its own fields: half health on trial, half reliability
      untried, half quality unrated, all or nothing for the affine provider, and position counted from 1. */
  lemma ScoreFormula(s: Scorer, cs: seq<Candidate>, c: Candidate)
    requires IsDistribution(s.weights) && s.good == ""
    ensures var n := |cs|;
            ScoreOf(s, cs, c)
            == Contribution(s, Health, if c.halfOpen then 0.5 else 1.0)
             + Contribution(s, Reliability, if c.stats.requests == 0 then 0.5 else Clip(c.stats.successRate))
             + Contribution(s, Latency, Clip(LatencyOf(cs, c.id)))
             + Contribution(s, Quality, if c.qualityHint <= 0.0 then 0.5 else Clip(c.qualityHint))
             + Contribution(s, CacheAffinity, if n == 0 || s.affinityKey == "" then 0.5
                                              else if cs[s.hash(s.affinityKey) % n].id == c.id then 1.0 else 0.0)
             + Contribution(s, Priority,
                            if n <= 1 then 1.0 else Clip(1.0 - (c.priority - 1) as real / (n - 1) as real))
  {
    UnboostedScore(s, cs, c);
    ValuesAre(s, cs, c);
    hide *;
  }

  /** The provider that last won for the combo gets the boost, up to the top of the scale; nobody else does. */
  lemma BoostFormula(s: Scorer, cs: seq<Candidate>, c: Candidate)
    ensures var base := ScoreOf(s.(good := ""), cs, c);
            ScoreOf(s, cs, c) == if s.good != "" && c.id == s.good then Clip(base + s.boost) else base
  {
    assert FactorsOf(s, cs, c) == FactorsOf(s.(good := ""), cs, c) by {
      assert forall f: Factor :: ValueOf(s, cs, c, f) == ValueOf(s.(good := ""), cs, c, f);
    }
    hide FactorsOf, Base;
  }

  /** The reasons a scored candidate shows: the combo's last winner, and the provider its prefix belongs to. */
  lemma ReasonsSay(s: Scorer, cs: seq<Candidate>, c: Candidate)
    requires cs != []
    ensures ScoredOne(s, cs, c).reasons
         == (if s.good != "" && c.id == s.good then ["last-known-good"] else [])
          + (if s.affinityKey != "" && cs[s.hash(s.affinityKey) % |cs|].id == c.id then ["cache-affinity"] else [])
  {
    hide ScoreOf, FactorsOf;
  }

  predicate HasLatency(c: Candidate) { c.stats.requests != 0 && c.stats.avgLatencyMS > 0 }

  /** A candidate's latency value, by its distance between the fastest a and the slowest z with any measurement. */
  lemma LatencyFormula(cs: seq<Candidate>, i: nat, a: nat, z: nat)
    requires i < |cs| && a < |cs| && z < |cs| && forall k | i < k < |cs| :: cs[k].id != cs[i].id
    requires HasLatency(cs[a]) && HasLatency(cs[z])
    requires forall k | 0 <= k < |cs| && HasLatency(cs[k]) ::
               cs[a].stats.avgLatencyMS <= cs[k].stats.avgLatencyMS <= cs[z].stats.avgLatencyMS
    ensures var fast, own, slow := cs[a].stats.avgLatencyMS, cs[i].stats.avgLatencyMS, cs[z].stats.avgLatencyMS;
            var v := LatencyOf(cs, cs[i].id);
            if !HasLatency(cs[i]) then v == 0.5
            else if fast == slow then v == 1.0
            else (slow - fast) as real * v == (slow - own) as real
  {
    RangeBounds(cs);
    assert forall c :: Measured(c) <==> HasLatency(c);
    var r := RangeOf(cs);
    assert Measured(cs[a]) && r.Range?;
    assert r.min == cs[a].stats.avgLatencyMS && r.max == cs[z].stats.avgLatencyMS;
    assert LastWith(cs, cs[i].id) == i;
    hide RangeOf, LastWith;
    if HasLatency(cs[i]) && r.min != r.max {
      ProportionTimes(r.min, r.max, cs[i].stats.avgLatencyMS);
    }
  }

  lemma ProportionTimes(min: int, max: int, l: int)
    requires min < max
    ensures (max - min) as real * Proportion(min, max, l) == (max - l) as real
  {
    var d := (max - min) as real;
    Divided((l - min) as real, d);
    assert d * (1.0 - (l - min) as real / d) == d - (l - min) as real / d * d;
  }

  /** Without any measurement every latency value is neutral. */
  lemma NoLatency(cs: seq<Candidate>, id: string)
    requires (exists k :: 0 <= k < |cs| && cs[k].id == id) && forall k | 0 <= k < |cs| :: !HasLatency(cs[k])
    ensures LatencyOf(cs, id) == 0.5
  {
    RangeBounds(cs);
    var i := LastWith(cs, id);
    assert !HasLatency(cs[i]);
  }

  /** Every score in a ranking is between 0 and 1, whatever the boost and however far out of range a factor is. */
  lemma ScoresInRange(s: Scorer, cs: seq<Candidate>, c: Candidate)
    requires IsDistribution(s.weights)
    ensures 0.0 <= ScoreOf(s, cs, c) <= 1.0
  {
    ScoreInRange(s.weights, f => ValueOf(s, cs, c, f));
  }

  ghost predicate AllScored(ranked: seq<Ranked>, s: Scorer, cs: seq<Candidate>) {
    forall k | 0 <= k < |ranked| :: ranked[k].score == ScoreOf(s, cs, ranked[k].candidate)
  }

  lemma OrderScored(s: Scorer, cs: seq<Candidate>)
    ensures AllScored(Order(s, cs), s, cs)
  {
    var sorted, all := Order(s, cs), ScoredAll(s, cs);
    OrderSorts(s, cs);
    hide Order;
    forall k | 0 <= k < |sorted| ensures sorted[k].score == ScoreOf(s, cs, sorted[k].candidate) {
      assert sorted[k] in multiset(sorted);
      assert sorted[k] in all;
      hide ScoreOf;
    }
  }

  lemma PromoteScored(ranked: seq<Ranked>, i: nat, reason: string, s: Scorer, cs: seq<Candidate>)
    requires i < |ranked| && AllScored(ranked, s, cs)
    ensures AllScored(Promote(ranked, i, reason), s, cs)
  {
    hide ScoreOf;
  }

  /** The sticky and exploration promotions change no score. */
  lemma RankedScores(s: Scorer, cs: seq<Candidate>, pinned: string, exploration: real, roll: real, pick: nat)
    requires pick < |cs|
    ensures AllScored(RankOf(s, cs, pinned, exploration, roll, pick), s, cs)
  {
    var sorted := Order(s, cs);
    SameSize(s, cs);
    OrderScored(s, cs);
    hide Order, AllScored, Promote, Find;
    PromoteScored(sorted, if Sticks(sorted, pinned) then Find(sorted, pinned) else pick, "sticky", s, cs);
    PromoteScored(sorted, pick, "explore", s, cs);
  }

  /** The pinned provider leads for every draw as long as it is eligible; no exploration displaces it. */
  lemma PinnedLeads(s: Scorer, cs: seq<Candidate>, pinned: string, exploration: real, roll: real, pick: nat)
    requires pick < |cs| && pinned != "" && exists c :: c in cs && c.id == pinned
    ensures RankOf(s, cs, pinned, exploration, roll, pick)[0].candidate.id == pinned
  {
    var sorted := Order(s, cs);
    OrderSorts(s, cs);
    var c :| c in cs && c.id == pinned;
    assert c in multiset(Candidates(sorted));
    hide Order;
    var k :| 0 <= k < |sorted| && sorted[k].candidate == c;
    assert Find(sorted, pinned) <= k;
    PromoteKeepsCandidates(sorted, Find(sorted, pinned), "sticky");
  }

  /** The history, on a strictly increasing clock, pins the run to a provider that is eligible now. */
  ghost predicate HeldBy(log: seq<Event>, runKey: string, cs: seq<Candidate>) {
    Clocked(log) && Holds(log, runKey) != "" && exists c :: c in cs && c.id == Holds(log, runKey)
  }

  /** Smart Sticky over a whole run: while the history says a run key holds a provider, and that provider is eligible,
      every ranking for the key is led by it, for all draws. */
  lemma SmartSticky(log: seq<Event>, t: Table, runKey: string, s: Scorer, cs: seq<Candidate>, exploration: real,
                    roll: real, pick: nat)
    requires Reaches(log, t) && HeldBy(log, runKey, cs) && pick < |cs|
    ensures RankOf(s, cs, Lookup(t, runKey), exploration, roll, pick)[0].candidate.id == Holds(log, runKey)
  {
    TableIsHistory(log, t);
    assert Agrees(log, t, runKey);
    hide *;
    PinnedLeads(s, cs, Holds(log, runKey), exploration, roll, pick);
  }

  // ---------------------------------------------------------------- the strategy

  class WeightedStrategy {
    const weights: Weights
    const boost: real
    const exploration: real
    const sticky: StickyStore?
    var byCombo: map<string, string>

    ghost predicate Valid()
      reads this, sticky
    {
      IsDistribution(weights) && (sticky != null ==> sticky.Valid())
    }

    constructor (preset: Weights, custom: Weights, stickyRuns: bool, boost: real, exploration: real)
      ensures Valid() && byCombo == map[] && (sticky != null <==> stickyRuns) && (sticky != null ==> fresh(sticky))
      ensures weights == Normalized(Merge(preset, custom)) && this.boost == boost && this.exploration == exploration
      ensures sticky != null ==> sticky.log == []
    {
      var normalized := NormalizeWeights(Merge(preset, custom));
      NormalizedSumsToOne(Merge(preset, custom));
      weights := normalized;
      this.boost := boost;
      this.exploration := exploration;
      byCombo := map[];
      var store: StickyStore? := null;
      if stickyRuns {
        store := new StickyStore();
      }
      sticky := store;
    }

    function ScorerFor(hash: Hash, route: Route): Scorer
      reads this
    {
      Scorer(weights, boost, hash, route.affinityKey, if route.combo in byCombo then byCombo[route.combo] else "")
    }

    /** The provider pinned to a run. */
    function PinFor(runKey: string): string
      reads this, sticky
    {
      if sticky == null then "" else Lookup(sticky.entries, runKey)
    }

    /** Ranks the eligible candidates; now is the clock, roll and pick the random draws. */
    method Rank(hash: Hash, route: Route, cs: seq<Candidate>, now: int, roll: real, pick: nat)
      returns (out: seq<Ranked>)
      requires Valid() && (cs != [] ==> pick < |cs|)
      modifies sticky
      ensures Valid()
      ensures out == if cs == [] then []
                     else RankOf(old(ScorerFor(hash, route)), cs, old(PinFor(route.runKey)), exploration, roll, pick)
      ensures sticky != null ==>
                sticky.log == old(sticky.log) + if cs == [] then [] else UseOf(old(sticky.entries), route.runKey, now)
      ensures sticky != null && HeldBy(old(sticky.log), route.runKey, cs) ==>
                out[0].candidate.id == Holds(old(sticky.log), route.runKey)
      ensures cs != [] ==>
                BestFirstButHead(out, cs, old(PinFor(route.runKey)), exploration > 0.0 && roll < exploration, pick)
    {
      if sticky != null && HeldBy(sticky.log, route.runKey, cs) {
        SmartSticky(sticky.log, sticky.entries, route.runKey, ScorerFor(hash, route), cs, exploration, roll, pick);
      }
      if cs != [] {
        RankingIsBestFirst(ScorerFor(hash, route), cs, PinFor(route.runKey), exploration, roll, pick);
      }
      hide HeldBy, RankOf, Holds, BestFirstButHead;
      out := RankEligible(hash, route, cs, now, roll, pick);
    }

    method RankEligible(hash: Hash, route: Route, cs: seq<Candidate>, now: int, roll: real, pick: nat)
      returns (out: seq<Ranked>)
      requires Valid() && (cs != [] ==> pick < |cs|)
      modifies sticky
      ensures Valid()
      ensures out == if cs == [] then []
                     else RankOf(old(ScorerFor(hash, route)), cs, old(PinFor(route.runKey)), exploration, roll, pick)
      ensures sticky != null ==>
                sticky.log == old(sticky.log) + if cs == [] then [] else UseOf(old(sticky.entries), route.runKey, now)
    {
      if cs == [] {
        return [];
      }
      ghost var scorer, pin := ScorerFor(hash, route), PinFor(route.runKey);
      out := ScoreCandidates(hash, route, cs);
      out := StableSort(out, ByScore);
      var applied := false;
      if sticky != null {
        var pinned := sticky.Get(route.runKey, now);
        if pinned != "" {
          var i := FindLoop(out, pinned);
          if i < |out| {
            out := Promote(out, i, "sticky");
            applied := true;
          }
        }
      }
      SameSize(scorer, cs);
      if !applied && exploration > 0.0 && |out| > 1 && roll < exploration {
        out := Promote(out, pick, "explore");
      }
    }

    method ScoreCandidates(hash: Hash, route: Route, cs: seq<Candidate>) returns (ranked: seq<Ranked>)
      ensures ranked == ScoredAll(ScorerFor(hash, route), cs)
    {
      hide *;
      ghost var s := ScorerFor(hash, route);
      var latency := LatencyFactors(cs);
      ranked := [];
      for i := 0 to |cs|
        invariant |ranked| == i && forall k | 0 <= k < i :: ranked[k] == ScoredOne(s, cs, cs[k])
      {
        InTable(cs, i, latency);
        var r := Score(hash, route, cs, cs[i], latency[cs[i].id]);
        ranked := ranked + [r];
      }
      OneByOne(ranked, s, cs);
    }

    /** Scores one candidate from its latency factor, boosting the combo's last known good provider. */
    method Score(hash: Hash, route: Route, cs: seq<Candidate>, c: Candidate, latency: real) returns (r: Ranked)
      requires latency == LatencyOf(cs, c.id)
      ensures r == ScoredOne(ScorerFor(hash, route), cs, c)
    {
      ghost var s := ScorerFor(hash, route);
      hide LatencyOf, CacheAffinityFactor, PriorityFactor, QualityFactor, HealthFactor, ReliabilityFactor, Scored;
      var affinity := CacheAffinityFactor(hash, route.affinityKey, c, cs);
      var factors := [Scored(weights, Health, HealthFactor(c)), Scored(weights, Reliability, ReliabilityFactor(c)),
                      Scored(weights, Latency, latency), Scored(weights, Quality, QualityFactor(c.qualityHint)),
                      Scored(weights, CacheAffinity, affinity), Scored(weights, Priority, PriorityFactor(c, |cs|))];
      assert factors == FactorsOf(s, cs, c);
      hide FactorsOf;
      var score := Total(factors);
      var reasons := [];
      var good := if route.combo in byCombo then byCombo[route.combo] else "";
      if good != "" && good == c.id {
        score := Clamp01(score + boost);
        reasons := reasons + ["last-known-good"];
      }
      if affinity == 1.0 {
        reasons := reasons + ["cache-affinity"];
      }
      return Ranked(c, score, factors, reasons);
    }

    static method Total(factors: seq<ScoreFactor>) returns (base: real)
      ensures base == Base(factors)
    {
      base := 0.0;
      for k := 0 to |factors|
        invariant base == Base(factors[..k])
      {
        assert factors[..k + 1][..k] == factors[..k];
        base := base + factors[k].contribution;
      }
      assert factors[..|factors|] == factors;
    }

    /** Only a success with a winner changes anything. */
    method RecordOutcome(route: Route, winner: string, ok: bool, now: int)
      requires Valid()
      modifies this, sticky
      ensures Valid()
      ensures byCombo == if ok && winner != "" then old(byCombo)[route.combo := winner] else old(byCombo)
      ensures sticky != null ==>
                sticky.log == old(sticky.log) +
                  if ok && winner != "" && route.runKey != "" then [Pinned(route.runKey, winner, now)] else []
    {
      if !ok || winner == "" {
        return;
      }
      byCombo := byCombo[route.combo := winner];
      if sticky != null {
        sticky.Set(route.runKey, winner, now);
      }
    }
  }

  lemma OneByOne(ranked: seq<Ranked>, s: Scorer, cs: seq<Candidate>)
    requires |ranked| == |cs| && forall k | 0 <= k < |cs| :: ranked[k] == ScoredOne(s, cs, cs[k])
    ensures ranked == ScoredAll(s, cs)
  {
    hide ScoredOne;
  }

  lemma InTable(cs: seq<Candidate>, i: nat, latency: map<string, real>)
    requires i < |cs|
    requires forall id :: id in latency <==> LastWith(cs, id) >= 0
    requires forall id | id in latency :: latency[id] == LatencyFactor(RangeOf(cs), cs[LastWith(cs, id)])
    ensures cs[i].id in latency && latency[cs[i].id] == LatencyOf(cs, cs[i].id)
  {
    assert LastWith(cs, cs[i].id) >= i;
  }

  lemma SameSize(s: Scorer, cs: seq<Candidate>)
    ensures |Order(s, cs)| == |cs|
  {
    OrderSorts(s, cs);
  }
}
