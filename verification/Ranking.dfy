/** Orders of candidates: stable sorting, promotion to the front and the strategies that do not score
    (internal/router/priority.go, lkgp.go, p2c.go, roundrobin.go, affinity.go). */
module Ranking {
  import opened Telemetry
  import opened Gateway

  datatype Factor = Health | Reliability | Latency | Quality | CacheAffinity | Priority

  datatype ScoreFactor = ScoreFactor(name: Factor, weight: real, value: real, contribution: real)

  datatype Ranked = Ranked(candidate: Candidate, score: real, factors: seq<ScoreFactor>, reasons: seq<string>)

  function Candidates(ranked: seq<Ranked>): seq<Candidate> {
    seq(|ranked|, i requires 0 <= i < |ranked| => ranked[i].candidate)
  }

  function Unscored(candidates: seq<Candidate>): seq<Ranked> {
    seq(|candidates|, i requires 0 <= i < |candidates| => Ranked(candidates[i], 0.0, [], []))
  }

  // ---------------------------------------------------------------- stable sorting

  predicate Ordered<T>(s: seq<T>, key: T -> real) { forall i, j | 0 <= i < j < |s| :: key(s[i]) <= key(s[j]) }

  /** The elements with key v, in order. */
  function WithKey<T>(s: seq<T>, key: T -> real, v: real): seq<T> {
    if s == [] then []
    else WithKey(s[..|s| - 1], key, v) + (if key(s[|s| - 1]) == v then [s[|s| - 1]] else [])
  }

  function Insert<T>(s: seq<T>, key: T -> real, x: T): seq<T> {
    if s != [] && key(s[|s| - 1]) > key(x) then Insert(s[..|s| - 1], key, x) + [s[|s| - 1]] else s + [x]
  }

  /** sort.SliceStable by ascending key. */
  function StableSort<T>(s: seq<T>, key: T -> real): seq<T> {
    if s == [] then [] else Insert(StableSort(s[..|s| - 1], key), key, s[|s| - 1])
  }

  lemma {:induction false} WithKeyAppend<T>(a: seq<T>, b: seq<T>, key: T -> real, v: real)
    ensures WithKey(a + b, key, v) == WithKey(a, key, v) + WithKey(b, key, v)
  {
    if b == [] {
      assert a + b == a;
    } else {
      assert (a + b)[..|a + b| - 1] == a + b[..|b| - 1];
      WithKeyAppend(a, b[..|b| - 1], key, v);
    }
  }

  lemma {:induction false} InsertKeeps<T>(s: seq<T>, key: T -> real, x: T)
    ensures multiset(Insert(s, key, x)) == multiset(s) + multiset{x}
  {
    if s != [] && key(s[|s| - 1]) > key(x) {
      assert s == s[..|s| - 1] + [s[|s| - 1]];
      InsertKeeps(s[..|s| - 1], key, x);
    }
  }

  lemma {:induction false} InsertSorts<T>(s: seq<T>, key: T -> real, x: T)
    requires Ordered(s, key)
    ensures Ordered(Insert(s, key, x), key)
    ensures multiset(Insert(s, key, x)) == multiset(s) + multiset{x}
  {
    InsertKeeps(s, key, x);
    if s != [] && key(s[|s| - 1]) > key(x) {
      var front, last := s[..|s| - 1], s[|s| - 1];
      InsertSorts(front, key, x);
      var r := Insert(front, key, x);
      assert Insert(s, key, x) == r + [last];
      forall i | 0 <= i < |r| ensures key(r[i]) <= key(last) {
        assert r[i] in multiset(r);
        assert r[i] in front || r[i] == x;
      }
      hide Insert;
    }
  }

  lemma {:induction false} InsertIsStable<T>(s: seq<T>, key: T -> real, x: T, v: real)
    requires Ordered(s, key)
    ensures WithKey(Insert(s, key, x), key, v) == WithKey(s + [x], key, v)
  {
    if s != [] && key(s[|s| - 1]) > key(x) {
      var front, last := s[..|s| - 1], s[|s| - 1];
      assert Insert(s, key, x) == Insert(front, key, x) + [last];
      hide *;
      assert s == front + [last];
      InsertIsStable(front, key, x, v);
      WithKeyAppend(Insert(front, key, x), [last], key, v);
      WithKeyAppend(front, [x], key, v);
      WithKeyAppend(front, [last], key, v);
      WithKeyAppend(s, [x], key, v);
      OneWithKey(last, key, v);
      OneWithKey(x, key, v);
      Commute(WithKey(front, key, v), WithKey([x], key, v), WithKey([last], key, v));
    } else {
      assert Insert(s, key, x) == s + [x];
    }
  }

  lemma Commute<T>(a: seq<T>, b: seq<T>, c: seq<T>)
    ensures b == [] || c == [] ==> a + b + c == a + c + b
  {
    assert b == [] ==> a + b == a && a + c + b == a + c;
    assert c == [] ==> a + c == a && a + b + c == a + b;
  }

  lemma OneWithKey<T>(x: T, key: T -> real, v: real)
    ensures WithKey([x], key, v) == if key(x) == v then [x] else []
  {
    assert [x][..0] == [];
  }

  /** The sort orders by key, keeps every element, and keeps the order among equal keys. */
  lemma {:induction false} StableSortSorts<T>(s: seq<T>, key: T -> real)
    ensures Ordered(StableSort(s, key), key) && multiset(StableSort(s, key)) == multiset(s)
    ensures forall v :: WithKey(StableSort(s, key), key, v) == WithKey(s, key, v)
  {
    if s != [] {
      var front, x := s[..|s| - 1], s[|s| - 1];
      assert s == front + [x];
      StableSortSorts(front, key);
      InsertSorts(StableSort(front, key), key, x);
      forall v ensures WithKey(StableSort(s, key), key, v) == WithKey(s, key, v) {
        InsertIsStable(StableSort(front, key), key, x, v);
        WithKeyAppend(StableSort(front, key), [x], key, v);
        WithKeyAppend(front, [x], key, v);
      }
    }
  }

  /** Order and stability leave only one result. */
  lemma {:induction false} StableOrderIsUnique<T>(a: seq<T>, b: seq<T>, key: T -> real)
    requires Ordered(a, key) && Ordered(b, key) && forall v :: WithKey(a, key, v) == WithKey(b, key, v)
    ensures a == b
  {
    hide *;
    if a == [] {
      if b != [] { NoneThere(a, b, key, |b| - 1); }
    } else if b == [] {
      NoneThere(b, a, key, |a| - 1);
    } else {
      var a', x, b', y := a[..|a| - 1], a[|a| - 1], b[..|b| - 1], b[|b| - 1];
      SameLast(a, b, key);
      SameLast(b, a, key);
      FrontOrdered(a, key);
      FrontOrdered(b, key);
      forall v ensures WithKey(a', key, v) == WithKey(b', key, v) {
        LastWithKey(a, key, v);
        LastWithKey(b, key, v);
        assert WithKey(a, key, v) == WithKey(b, key, v);
        if v == key(x) {
          assert WithKey(a, key, v)[..|WithKey(a, key, v)| - 1] == WithKey(a', key, v);
          assert WithKey(b, key, v)[..|WithKey(b, key, v)| - 1] == WithKey(b', key, v);
        }
      }
      LastWithKey(a, key, key(x));
      LastWithKey(b, key, key(x));
      assert WithKey(a, key, key(x)) == WithKey(b, key, key(x));
      assert WithKey(a, key, key(x))[|WithKey(a, key, key(x))| - 1] == x;
      assert WithKey(b, key, key(x))[|WithKey(b, key, key(x))| - 1] == y;
      StableOrderIsUnique(a', b', key);
      assert a == a' + [x] && b == b' + [y];
    }
  }

  lemma FrontOrdered<T>(s: seq<T>, key: T -> real)
    requires Ordered(s, key) && s != []
    ensures Ordered(s[..|s| - 1], key)
  {
  }

  lemma LastWithKey<T>(s: seq<T>, key: T -> real, v: real)
    requires s != []
    ensures WithKey(s, key, v) ==
            if key(s[|s| - 1]) == v then WithKey(s[..|s| - 1], key, v) + [s[|s| - 1]] else WithKey(s[..|s| - 1], key, v)
  {
  }

  /** Sequences with the same elements per key are not one empty and one not. */
  lemma NoneThere<T>(a: seq<T>, b: seq<T>, key: T -> real, i: nat)
    requires i < |b| && forall v :: WithKey(a, key, v) == WithKey(b, key, v)
    ensures a != []
  {
    HasKey(b, key, key(b[i]));
    assert WithKey(a, key, key(b[i])) == WithKey(b, key, key(b[i]));
  }

  lemma SameLast<T>(a: seq<T>, b: seq<T>, key: T -> real)
    requires a != [] && b != [] && Ordered(b, key) && forall v :: WithKey(a, key, v) == WithKey(b, key, v)
    ensures key(a[|a| - 1]) <= key(b[|b| - 1])
  {
    var v := key(a[|a| - 1]);
    HasKey(a, key, v);
    HasKey(b, key, v);
    assert WithKey(a, key, v) == WithKey(b, key, v);
  }

  /** An element with key v exists when WithKey finds one. */
  lemma {:induction false} HasKey<T>(s: seq<T>, key: T -> real, v: real)
    ensures WithKey(s, key, v) != [] <==> exists i | 0 <= i < |s| :: key(s[i]) == v
  {
    if s != [] {
      HasKey(s[..|s| - 1], key, v);
      if key(s[|s| - 1]) != v && exists i | 0 <= i < |s| :: key(s[i]) == v {
        var i :| 0 <= i < |s| && key(s[i]) == v;
        assert s[..|s| - 1][i] == s[i];
      }
    }
  }

  /** Element k of out is element at[k] of s; smaller keys come first, equal keys in the order of s. */
  ghost predicate SortedAt<T>(out: seq<T>, s: seq<T>, key: T -> real, at: seq<int>) {
    && |at| == |out| == |s|
    && (forall k | 0 <= k < |at| :: 0 <= at[k] < |s| && out[k] == s[at[k]])
    && (forall i, j | 0 <= i < j < |at| :: at[i] != at[j])
    && (forall i, j | 0 <= i < j < |at| ::
          key(out[i]) < key(out[j]) || (key(out[i]) == key(out[j]) && at[i] < at[j]))
  }

  /** Where Insert puts x: behind every key that is not greater. */
  lemma {:induction false} InsertPlace<T>(s: seq<T>, key: T -> real, x: T) returns (p: nat)
    requires Ordered(s, key)
    ensures p <= |s| && Insert(s, key, x) == s[..p] + [x] + s[p..]
    ensures (forall i | 0 <= i < p :: key(s[i]) <= key(x)) && forall i | p <= i < |s| :: key(s[i]) > key(x)
  {
    if s != [] && key(s[|s| - 1]) > key(x) {
      var front := s[..|s| - 1];
      p := InsertPlace(front, key, x);
      assert s[..p] == front[..p] && s[p..] == front[p..] + [s[|s| - 1]];
    } else {
      p := |s|;
    }
  }

  /** A new last element of s, put in at its place p. */
  lemma PutInPlace<T>(sorted: seq<T>, s: seq<T>, key: T -> real, at: seq<int>, x: T, p: nat)
    requires SortedAt(sorted, s, key, at) && p <= |sorted|
    requires (forall i | 0 <= i < p :: key(sorted[i]) <= key(x)) && forall i | p <= i < |s| :: key(sorted[i]) > key(x)
    ensures SortedAt(sorted[..p] + [x] + sorted[p..], s + [x], key, at[..p] + [|s|] + at[p..])
  {
    var out, all, to := sorted[..p] + [x] + sorted[p..], s + [x], at[..p] + [|s|] + at[p..];
    forall k | 0 <= k < |to|
      ensures k < p ==> to[k] == at[k] && out[k] == sorted[k]
      ensures k == p ==> to[k] == |s| && out[k] == x
      ensures k > p ==> to[k] == at[k - 1] && out[k] == sorted[k - 1]
    {
    }
    assert forall k | 0 <= k < |to| :: 0 <= to[k] < |all| && out[k] == all[to[k]];
  }

  /** Where the sort takes each element from. */
  lemma {:induction false} SortPositions<T>(s: seq<T>, key: T -> real) returns (at: seq<int>)
    ensures SortedAt(StableSort(s, key), s, key, at)
  {
    hide *;
    at := [];
    if s == [] {
      SortNothing(s, key);
    } else {
      var front, x := s[..|s| - 1], s[|s| - 1];
      at := SortPositions(front, key);
      StableSortSorts(front, key);
      SortStep(s, key);
      var p := InsertPlace(StableSort(front, key), key, x);
      SortedSize(StableSort(front, key), front, key, at);
      PutInPlace(StableSort(front, key), front, key, at, x, p);
      assert front + [x] == s;
      at := at[..p] + [|front|] + at[p..];
    }
  }

  lemma SortedSize<T>(out: seq<T>, s: seq<T>, key: T -> real, at: seq<int>)
    requires SortedAt(out, s, key, at)
    ensures |at| == |out| == |s|
  {
  }

  lemma SortNothing<T>(s: seq<T>, key: T -> real)
    requires s == []
    ensures SortedAt(StableSort(s, key), s, key, [])
  {
  }

  lemma SortStep<T>(s: seq<T>, key: T -> real)
    requires s != []
    ensures StableSort(s, key) == Insert(StableSort(s[..|s| - 1], key), key, s[|s| - 1])
  {
  }

  // ---------------------------------------------------------------- promotion

  /** A copy with element i in front and the others in order behind it. */
  function MoveToFront<T>(s: seq<T>, i: nat): seq<T>
    requires i < |s|
  {
    [s[i]] + s[..i] + s[i + 1..]
  }

  lemma MovedIsPermutation<T>(s: seq<T>, i: nat)
    requires i < |s|
    ensures multiset(MoveToFront(s, i)) == multiset(s) && MoveToFront(s, i)[0] == s[i]
  {
    assert s == s[..i] + [s[i]] + s[i + 1..];
  }

  /** The first ranked candidate with the given id, if any. */
  function Find(ranked: seq<Ranked>, id: string): (i: nat)
    ensures i <= |ranked| && (forall k | 0 <= k < i :: ranked[k].candidate.id != id)
    ensures i < |ranked| ==> ranked[i].candidate.id == id
  {
    if ranked == [] || ranked[0].candidate.id == id then 0 else 1 + Find(ranked[1..], id)
  }

  function Because(r: Ranked, reason: string): Ranked { r.(reasons := r.reasons + [reason]) }

  /** Element i promoted, with the reason noted. */
  function Promote(ranked: seq<Ranked>, i: nat, reason: string): seq<Ranked>
    requires i < |ranked|
  {
    MoveToFront(ranked[i := Because(ranked[i], reason)], i)
  }

  /** Where element k was before element p moved to the front. */
  function Origin(p: nat, k: nat): nat { if k == 0 then p else if k <= p then k - 1 else k }

  lemma MovedFrom<T>(s: seq<T>, p: nat)
    requires p < |s|
    ensures |MoveToFront(s, p)| == |s| && forall k | 0 <= k < |s| :: MoveToFront(s, p)[k] == s[Origin(p, k)]
  {
  }

  /** The promoted element leads, its reasons grown by one; those it overtook follow in their order, then the rest
      where it was. */
  lemma PromoteKeepsTheRest(ranked: seq<Ranked>, p: nat, reason: string)
    requires p < |ranked|
    ensures var out := Promote(ranked, p, reason);
            |out| == |ranked| && out[0] == ranked[p].(reasons := ranked[p].reasons + [reason]) &&
            (forall k | 1 <= k <= p :: out[k] == ranked[k - 1]) &&
            (forall k | p < k < |ranked| :: out[k] == ranked[k])
  {
  }

  lemma PromoteKeepsCandidates(ranked: seq<Ranked>, i: nat, reason: string)
    requires i < |ranked|
    ensures var out := Promote(ranked, i, reason);
            multiset(Candidates(out)) == multiset(Candidates(ranked)) && out[0].candidate == ranked[i].candidate &&
            Candidates(out) == MoveToFront(Candidates(ranked), i)
  {
    var out := Promote(ranked, i, reason);
    assert Candidates(out) == MoveToFront(Candidates(ranked), i);
    MovedIsPermutation(Candidates(ranked), i);
  }

  // ---------------------------------------------------------------- strategies without scores

  function ByPriority(r: Ranked): real { r.candidate.priority as real }

  function PriorityRank(candidates: seq<Candidate>): seq<Ranked> { StableSort(Unscored(candidates), ByPriority) }

  lemma {:induction false} CandidatesOf(a: seq<Ranked>, b: seq<Ranked>)
    requires multiset(a) == multiset(b)
    ensures multiset(Candidates(a)) == multiset(Candidates(b))
  {
    if a == [] {
      assert |b| == |multiset(b)| == 0;
    } else {
      hide Candidates;
      var x := a[0];
      assert a == [x] + a[1..] && x in multiset(a);
      assert x in multiset(b);
      var i :| 0 <= i < |b| && b[i] == x;
      var front, back := b[..i], b[i + 1..];
      assert b == front + [x] + back;
      WithoutOne(x, a[1..], front, back);
      CandidatesOf(a[1..], front + back);
      CandidatesAppend([x], a[1..]);
      CandidatesAppend(front + [x], back);
      CandidatesAppend(front, [x]);
      CandidatesAppend(front, back);
    }
  }

  lemma CandidatesAppend(a: seq<Ranked>, b: seq<Ranked>)
    ensures Candidates(a + b) == Candidates(a) + Candidates(b)
  {
  }

  lemma WithoutOne<T>(x: T, a: seq<T>, b: seq<T>, c: seq<T>)
    requires multiset([x] + a) == multiset(b + [x] + c)
    ensures multiset(a) == multiset(b + c)
  {
    assert multiset([x] + a) == multiset{x} + multiset(a);
    assert multiset(b + [x] + c) == multiset(b + c) + multiset{x};
    assert multiset(a) == multiset([x] + a) - multiset{x};
    assert multiset(b + c) == multiset(b + [x] + c) - multiset{x};
  }

  lemma PriorityIsPermutation(candidates: seq<Candidate>)
    ensures multiset(Candidates(PriorityRank(candidates))) == multiset(candidates)
    ensures Ordered(PriorityRank(candidates), ByPriority)
  {
    StableSortSorts(Unscored(candidates), ByPriority);
    CandidatesOf(PriorityRank(candidates), Unscored(candidates));
    assert Candidates(Unscored(candidates)) == candidates;
  }

  /** Candidates come in the order of their declared positions, those of one position in the order given. */
  lemma PriorityIsByPosition(candidates: seq<Candidate>) returns (at: seq<int>)
    ensures var out := PriorityRank(candidates);
            |at| == |out| == |candidates| &&
            (forall k | 0 <= k < |at| :: 0 <= at[k] < |candidates| && out[k].candidate == candidates[at[k]]) &&
            forall i, j | 0 <= i < j < |at| ::
              at[i] != at[j] &&
              (out[i].candidate.priority < out[j].candidate.priority ||
               (out[i].candidate.priority == out[j].candidate.priority && at[i] < at[j]))
  {
    at := SortPositions(Unscored(candidates), ByPriority);
    hide StableSort;
    var out := PriorityRank(candidates);
    forall k | 0 <= k < |at| ensures ByPriority(out[k]) == out[k].candidate.priority as real {}
  }

  class LkgpStrategy {
    var byCombo: map<string, string>

    constructor ()
      ensures byCombo == map[]
    {
      byCombo := map[];
    }

    /** Priority order, behind the combo's last known good provider while it is eligible. */
    method Rank(combo: string, candidates: seq<Candidate>) returns (out: seq<Ranked>)
      ensures var base := PriorityRank(candidates);
              var good := if combo in byCombo then byCombo[combo] else "";
              out == if good != "" && Find(base, good) < |base|
                     then Promote(base, Find(base, good), "last-known-good") else base
      ensures multiset(Candidates(out)) == multiset(candidates)
    {
      PriorityIsPermutation(candidates);
      out := PriorityRank(candidates);
      hide PriorityRank, Promote, Candidates, Find;
      var good := if combo in byCombo then byCombo[combo] else "";
      if good != "" {
        var i := FindLoop(out, good);
        if i < |out| {
          PromoteKeepsCandidates(out, i, "last-known-good");
          out := Promote(out, i, "last-known-good");
        }
      }
    }

    method RecordOutcome(combo: string, winner: string, ok: bool)
      modifies this
      ensures byCombo == if ok && winner != "" then old(byCombo)[combo := winner] else old(byCombo)
    {
      if ok && winner != "" {
        byCombo := byCombo[combo := winner];
      }
    }
  }

  method FindLoop(ranked: seq<Ranked>, id: string) returns (i: nat)
    ensures i == Find(ranked, id)
  {
    i := 0;
    while i < |ranked|
      invariant i <= |ranked| && Find(ranked, id) == i + Find(ranked[i..], id)
    {
      if ranked[i].candidate.id == id {
        return;
      }
      assert ranked[i..][1..] == ranked[i + 1..];
      i := i + 1;
    }
  }

  function HealthFactor(c: Candidate): real { if c.halfOpen then 0.5 else 1.0 }

  function Clamp01(v: real): real { if v < 0.0 then 0.0 else if v > 1.0 then 1.0 else v }

  function ReliabilityFactor(c: Candidate): real {
    if c.stats.requests == 0 then 0.5 else Clamp01(c.stats.successRate)
  }

  function P2CScore(c: Candidate): real { HealthFactor(c) * 0.6 + ReliabilityFactor(c) * 0.4 }

  /** Between two of the same health the one with more successes wins; a provider on trial beats a healthy one only by
      a success rate more than three quarters higher.  An untried provider counts as half successful. */
  lemma P2CPrefers(a: Candidate, b: Candidate)
    ensures var rate := (c: Candidate) =>
              if c.stats.requests == 0 then 0.5
              else if c.stats.successRate < 0.0 then 0.0 else if c.stats.successRate > 1.0 then 1.0
              else c.stats.successRate;
            if a.halfOpen == b.halfOpen then P2CScore(a) > P2CScore(b) <==> rate(a) > rate(b)
            else if a.halfOpen then P2CScore(a) > P2CScore(b) <==> rate(a) - rate(b) > 0.75
            else P2CScore(a) > P2CScore(b) <==> rate(b) - rate(a) < 0.75
  {
  }

  /** Two distinct samples, the better in front of the priority order;
      draws i and j come from Intn(n) and Intn(n - 1). */
  method P2CRank(candidates: seq<Candidate>, i: nat, j: nat) returns (out: seq<Ranked>)
    requires |candidates| >= 2 ==> i < |candidates| && j < |candidates| - 1
    ensures multiset(Candidates(out)) == multiset(candidates)
    ensures |candidates| < 2 ==> out == PriorityRank(candidates)
    ensures |candidates| >= 2 ==>
              var base, k := PriorityRank(candidates), if j >= i then j + 1 else j;
              |base| == |candidates| && k != i && k < |base| &&
              exists w | w == i || w == k ::
                out == Promote(base, w, "p2c") &&
                P2CScore(base[w].candidate) >= P2CScore(base[i].candidate) &&
                P2CScore(base[w].candidate) >= P2CScore(base[k].candidate) &&
                (P2CScore(base[i].candidate) >= P2CScore(base[k].candidate) ==> w == i)
  {
    out := PriorityRank(candidates);
    PriorityIsPermutation(candidates);
    SameLength(Candidates(out), candidates);
    if |out| < 2 {
      return;
    }
    var base := out;
    var k := j;
    if k >= i {
      k := k + 1;
    }
    var winner := i;
    if P2CScore(out[k].candidate) > P2CScore(out[i].candidate) {
      winner := k;
    }
    PromoteKeepsCandidates(out, winner, "p2c");
    out := Promote(out, winner, "p2c");
    assert winner == i || winner == k;
  }

  lemma SameLength<T>(a: seq<T>, b: seq<T>)
    requires multiset(a) == multiset(b)
    ensures |a| == |b|
  {
    assert |multiset(a)| == |a| && |multiset(b)| == |b|;
  }

  // ---------------------------------------------------------------- rotation

  function Rotate<T>(s: seq<T>, offset: nat): seq<T>
    requires offset <= |s|
  {
    s[offset..] + s[..offset]
  }

  lemma RotationIsPermutation<T>(s: seq<T>, offset: nat)
    requires offset <= |s|
    ensures multiset(Rotate(s, offset)) == multiset(s)
  {
    assert s == s[..offset] + s[offset..];
  }

  /** The order starts at offset and goes round. */
  lemma RotatesFrom<T>(s: seq<T>, offset: nat, k: nat)
    requires offset <= |s| && k < |s|
    ensures |Rotate(s, offset)| == |s|
    ensures Rotate(s, offset)[k] == if offset + k < |s| then s[offset + k] else s[offset + k - |s|]
  {
  }

  const TWO_TO_64 := 0x1_0000_0000_0000_0000

  /** The shared 64-bit cursor after a ranking of n candidates; with nothing to choose it stays. */
  function Next(cursor: nat, n: nat): nat { if n <= 1 then cursor else (cursor + 1) % TWO_TO_64 }

  /** The order a ranking that left the cursor there returned. */
  function OrderAt(cs: seq<Candidate>, cursor: nat): seq<Candidate> {
    if |cs| <= 1 then cs else Rotate(cs, cursor % |cs|)
  }

  class RoundRobin {
    var cursor: nat

    constructor ()
      ensures cursor == 0
    {
      cursor := 0;
    }

    /** One ranking: advance the cursor and rotate, unless there is nothing to choose. */
    method Rank(candidates: seq<Candidate>) returns (out: seq<Ranked>)
      requires cursor < TWO_TO_64
      modifies this
      ensures cursor == Next(old(cursor), |candidates|) < TWO_TO_64
      ensures Candidates(out) == OrderAt(candidates, cursor)
      ensures multiset(Candidates(out)) == multiset(candidates)
    {
      out := Unscored(candidates);
      if |out| <= 1 {
        assert Candidates(out) == candidates;
        return;
      }
      cursor := (cursor + 1) % TWO_TO_64;
      var offset := cursor % |out|;
      out := out[offset..] + out[..offset];
      RotationIsPermutation(candidates, offset);
      assert Candidates(out) == Rotate(candidates, offset);
    }
  }

  /** What m rankings of the same candidates in a row return, from a cursor on. */
  function Orders(cursor: nat, cs: seq<Candidate>, m: nat): seq<seq<Candidate>>
    decreases m
  {
    if m == 0 then []
    else
      var next := Next(cursor, |cs|);
      [OrderAt(cs, next)] + Orders(next, cs, m - 1)
  }

  /** How many of the orders are led by x. */
  function LedBy(orders: seq<seq<Candidate>>, x: Candidate): nat {
    if orders == [] then 0
    else (if orders[0] != [] && orders[0][0] == x then 1 else 0) + LedBy(orders[1..], x)
  }

  /** The leader of the ranking after cursor c. */
  function Lead(c: nat, cs: seq<Candidate>): Candidate
    requires cs != []
  {
    cs[(c + 1) % |cs|]
  }

  /** The leaders of m rankings from cursor c on, as long as it does not wrap. */
  function Leaders(c: nat, cs: seq<Candidate>, m: nat): seq<Candidate>
    requires cs != []
    decreases m
  {
    if m == 0 then [] else [Lead(c, cs)] + Leaders(c + 1, cs, m - 1)
  }

  lemma OrderNext(c: nat, cs: seq<Candidate>, m: nat, x: Candidate)
    requires |cs| > 1 && c + 1 < TWO_TO_64
    ensures LedBy(Orders(c, cs, m + 1), x)
         == (if Lead(c, cs) == x then 1 else 0) + LedBy(Orders(c + 1, cs, m), x)
  {
    var order, rest := OrderAt(cs, c + 1), Orders(c + 1, cs, m);
    assert Next(c, |cs|) == c + 1 && order[0] == Lead(c, cs);
    assert ([order] + rest)[1..] == rest;
  }

  lemma LeadersNext(c: nat, cs: seq<Candidate>, m: nat)
    requires cs != [] && m > 0
    ensures Leaders(c, cs, m) == [Lead(c, cs)] + Leaders(c + 1, cs, m - 1)
  {
    hide Lead;
  }

  lemma CountOne(y: Candidate, x: Candidate)
    ensures Count([y], x) == if y == x then 1 else 0
  {
    assert [y][..0] == [];
  }

  lemma {:induction false} OrdersAreLed(c: nat, cs: seq<Candidate>, m: nat, x: Candidate)
    requires |cs| > 1 && c + m < TWO_TO_64
    ensures LedBy(Orders(c, cs, m), x) == Count(Leaders(c, cs, m), x)
    decreases m
  {
    if m > 0 {
      hide *;
      OrderNext(c, cs, m - 1, x);
      OrdersAreLed(c + 1, cs, m - 1, x);
      LeadersNext(c, cs, m);
      CountAppend([Lead(c, cs)], Leaders(c + 1, cs, m - 1), x);
      CountOne(Lead(c, cs), x);
    } else {
      assert LedBy([], x) == 0;
    }
  }

  lemma NextRemainder(x: nat, n: nat)
    requires n > 0
    ensures (x + 1) % n == if x % n + 1 == n then 0 else x % n + 1
  {
    var q, r := x / n, x % n;
    assert x == q * n + r;
    if r + 1 == n {
      assert (q + 1) * n == q * n + n;
      RemainderIs(x + 1, n, q + 1, 0);
    } else {
      RemainderIs(x + 1, n, q, r + 1);
    }
  }

  lemma RemainderIs(x: nat, n: nat, q: nat, r: nat)
    requires n > 0 && r < n && x == q * n + r
    ensures x % n == r
  {
    var p, t := x / n, x % n;
    assert x == p * n + t;
    if p < q {
      MulMonotone(p + 1, q, n);
    } else if q < p {
      MulMonotone(q + 1, p, n);
    }
  }

  lemma {:induction false} MulMonotone(a: nat, b: nat, n: nat)
    requires a <= b
    ensures a * n <= b * n && (a + 1) * n == a * n + n
    decreases b - a
  {
    if a < b { MulMonotone(a + 1, b, n); }
  }

  /** Before the ring closes the leaders are a stretch of it. */
  lemma {:induction false} LeadersAreStretch(c: nat, cs: seq<Candidate>, m: nat)
    requires cs != [] && (c + 1) % |cs| + m <= |cs|
    ensures Leaders(c, cs, m) == cs[(c + 1) % |cs|..(c + 1) % |cs| + m]
    decreases m
  {
    if m > 0 {
      NextRemainder(c + 1, |cs|);
      var r := (c + 1) % |cs|;
      if m > 1 { LeadersAreStretch(c + 1, cs, m - 1); }
      assert cs[r..r + m] == [cs[r]] + cs[r + 1..r + m];
    }
  }

  lemma {:induction false} LeadersSplit(c: nat, cs: seq<Candidate>, a: nat, b: nat)
    requires cs != []
    ensures Leaders(c, cs, a + b) == Leaders(c, cs, a) + Leaders(c + a, cs, b)
    decreases a
  {
    if a > 0 { LeadersSplit(c + 1, cs, a - 1, b); }
  }

  lemma {:induction false} RemainderAfter(x: nat, n: nat, d: nat)
    requires n > 0 && x % n + d <= n
    ensures (x + d) % n == if x % n + d == n then 0 else x % n + d
  {
    if d > 0 {
      RemainderAfter(x, n, d - 1);
      NextRemainder(x + d - 1, n);
    }
  }

  /** Any n rankings in a row lead with each of the n candidates once. */
  lemma RingCloses(c: nat, cs: seq<Candidate>, x: Candidate)
    requires cs != []
    ensures Count(Leaders(c, cs, |cs|), x) == Count(cs, x)
  {
    hide Leaders;
    var n, r := |cs|, (c + 1) % |cs|;
    var d := n - r;
    LeadersSplit(c, cs, d, r);
    LeadersAreStretch(c, cs, d);
    RemainderAfter(c + 1, n, d);
    assert c + d + 1 == c + 1 + d && d + r == n && r + d == n;
    LeadersAreStretch(c + d, cs, r);
    assert Leaders(c, cs, n) == cs[r..n] + cs[0..r];
    assert cs == cs[0..r] + cs[r..n];
    hide Count;
    CountAppend(cs[r..n], cs[0..r], x);
    CountAppend(cs[0..r], cs[r..n], x);
  }

  /** n, k times. */
  function Times(n: nat, k: nat): nat { if k == 0 then 0 else n + Times(n, k - 1) }

  lemma {:induction false} TimesIs(n: nat, k: nat)
    ensures Times(n, k) == n * k == k * n
  {
    if k > 0 { TimesIs(n, k - 1); }
  }

  lemma {:induction false} Windows(c: nat, cs: seq<Candidate>, k: nat, x: Candidate)
    requires cs != []
    ensures Count(Leaders(c, cs, Times(|cs|, k)), x) == Times(Count(cs, x), k)
    decreases k
  {
    if k == 0 {
      assert Leaders(c, cs, 0) == [];
    } else {
      hide Leaders, Count;
      LeadersSplit(c, cs, |cs|, Times(|cs|, k - 1));
      CountAppend(Leaders(c, cs, |cs|), Leaders(c + |cs|, cs, Times(|cs|, k - 1)), x);
      RingCloses(c, cs, x);
      Windows(c + |cs|, cs, k - 1, x);
    }
  }

  lemma {:induction false} OnlyOne(c: nat, cs: seq<Candidate>, k: nat, x: Candidate)
    requires |cs| == 1
    ensures LedBy(Orders(c, cs, k), x) == Times(Count(cs, x), k)
    decreases k
  {
    assert cs == [cs[0]];
    CountOne(cs[0], x);
    hide Count;
    if k > 0 {
      var rest := Orders(c, cs, k - 1);
      assert Orders(c, cs, k) == [cs] + rest && ([cs] + rest)[1..] == rest;
      OnlyOne(c, cs, k - 1, x);
    }
  }

  /** Round-robin is exactly fair: over a fixed eligible set of n, any n * k rankings in a row that do not wrap the
      cursor put each candidate first exactly k times (a candidate listed twice, twice as often). */
  lemma RoundRobinIsFair(cursor: nat, cs: seq<Candidate>, k: nat, x: Candidate)
    requires cs != [] && cursor + |cs| * k < TWO_TO_64
    ensures LedBy(Orders(cursor, cs, |cs| * k), x) == k * Count(cs, x)
  {
    TimesIs(|cs|, k);
    TimesIs(Count(cs, x), k);
    hide *;
    if |cs| == 1 {
      OnlyOne(cursor, cs, k, x);
    } else {
      OrdersAreLed(cursor, cs, Times(|cs|, k), x);
      Windows(cursor, cs, k, x);
    }
  }

  // ---------------------------------------------------------------- prefix affinity

  /** Any hash of the request's stable prefix. */
  type Hash = string -> nat

  method AffinityRank(hash: Hash, key: string, candidates: seq<Candidate>) returns (out: seq<Ranked>)
    ensures Candidates(out) == AffinityOrder(hash, key, candidates)
  {
    out := Unscored(candidates);
    if |out| <= 1 {
      assert Candidates(out) == candidates;
      return;
    }
    var offset := hash(key) % |out|;
    out := out[offset..] + out[..offset];
    assert Candidates(out) == Rotate(candidates, offset);
  }

  function AffinityOrder(hash: Hash, key: string, candidates: seq<Candidate>): seq<Candidate> {
    if |candidates| <= 1 then candidates else Rotate(candidates, hash(key) % |candidates|)
  }

  function CacheAffinityFactor(hash: Hash, key: string, c: Candidate, candidates: seq<Candidate>): real {
    if candidates == [] || key == "" then 0.5
    else if candidates[hash(key) % |candidates|].id == c.id then 1.0 else 0.0
  }

  /** The scoring factor and the standalone strategy pick the same provider. */
  lemma AffinityAgrees(hash: Hash, key: string, c: Candidate, candidates: seq<Candidate>)
    requires candidates != [] && key != ""
    ensures CacheAffinityFactor(hash, key, c, candidates) == 1.0 <==> c.id == AffinityOrder(hash, key, candidates)[0].id
    ensures multiset(AffinityOrder(hash, key, candidates)) == multiset(candidates)
  {
    if |candidates| > 1 {
      var offset := hash(key) % |candidates|;
      RotationIsPermutation(candidates, offset);
      assert Rotate(candidates, offset)[0] == candidates[offset];
    }
  }
}
