/** When a provider whose breaker granted a request is attempted, and what becomes of a grant that is not
    (internal/router/candidate.go, internal/server/chat.go). */
module Trials {
  import opened Options
  import opened OpenAI
  import opened Text
  import opened Streaming
  import opened Gateway
  import opened Requests
  import opened Accounting
  import Breaker
  import Telemetry

  // ---------------------------------------------------------------- who is attempted

  /** An attempt nothing is tried after: its stream is committed, or its answer accepted. */
  predicate EndsRequest(req: Request, c: Contender) { if req.stream then Commits(c) else Accepts(c, req.gate) }

  /** The provider's first place in a ranking, or the ranking's length. */
  function FirstPlace(ranked: seq<Contender>, id: string): (k: nat)
    ensures k <= |ranked| && (forall i | 0 <= i < k :: ranked[i].provider != id)
    ensures k < |ranked| ==> ranked[k].provider == id
  {
    if ranked == [] || ranked[0].provider == id then 0 else 1 + FirstPlace(ranked[1..], id)
  }

  ghost predicate NobodyBefore(req: Request, ranked: seq<Contender>, k: nat)
    requires k <= |ranked|
  {
    forall i | 0 <= i < k :: !EndsRequest(req, ranked[i])
  }

  function FirstEnd(req: Request, ranked: seq<Contender>): (k: nat)
    ensures k <= |ranked| && NobodyBefore(req, ranked, k) && (k < |ranked| ==> EndsRequest(req, ranked[k]))
  {
    if req.stream then FirstCommit(ranked) else FirstAccept(ranked, req.gate)
  }

  /** A request's trail ends with the first attempt that ends it. */
  lemma TrailEnds(req: Request, ranked: seq<Contender>)
    ensures var k := FirstEnd(req, ranked);
            |Serve(req, ranked).trail| == if k == |ranked| then k else k + 1
  {
    hide Serve, Direct, Drain, Events, TrailUsage;
    if req.stream { TranscriptIsDirect(req, ranked); } else { ReplyIsFirstAccepted(req, ranked); }
  }

  lemma {:induction false} DueIff(trail: seq<AttemptInfo>, id: string)
    ensures TrailDue(trail, Attempts, id) >= 0
    ensures TrailDue(trail, Attempts, id) > 0 <==> exists j :: 0 <= j < |trail| && trail[j].provider == id
  {
    if trail != [] {
      var front, last := trail[..|trail| - 1], trail[|trail| - 1];
      DueIff(front, id);
      assert trail == front + [last] && forall j | 0 <= j < |front| :: trail[j] == front[j];
      if last.provider == id { assert trail[|front|].provider == id; }
    }
  }

  /** A provider is attempted exactly when it is ranked and nothing ranked before it ends the request. */
  lemma AttemptedIff(req: Request, ranked: seq<Contender>, id: string)
    ensures var k := FirstPlace(ranked, id);
            Booked(Serve(req, ranked).effects, Attempts, id) > 0 <==> k < |ranked| && NobodyBefore(req, ranked, k)
  {
    var trail, k := Serve(req, ranked).trail, FirstPlace(ranked, id);
    TrailIsBooked(req, ranked, Attempts, id);
    TrailIsTruthful(req, ranked, id);
    TrailEnds(req, ranked);
    DueIff(trail, id);
    hide Serve, Booked, TrailDue, EndsRequest, FirstPlace, WonBy;
    if k < |trail| { assert trail[k].provider == id; }
  }

  // ---------------------------------------------------------------- from the grant to the attempt

  /** A pool may name one provider more than once, but two providers never share an id. */
  ghost predicate OneProviderPerID(ps: seq<Provider>) {
    forall i, j | 0 <= i < |ps| && 0 <= j < |ps| && ps[i].id == ps[j].id :: ps[i] == ps[j]
  }

  /** A strategy ranks the providers it is offered, all of them and nobody else. */
  ghost predicate RanksExactly(ranked: seq<Contender>, offered: seq<Candidate>) {
    multiset(seq(|ranked|, i requires 0 <= i < |ranked| => ranked[i].provider))
    == multiset(seq(|offered|, i requires 0 <= i < |offered| => offered[i].id))
  }

  lemma RankedIffOffered(ranked: seq<Contender>, offered: seq<Candidate>, id: string)
    requires RanksExactly(ranked, offered)
    ensures FirstPlace(ranked, id) < |ranked| <==> exists c :: c in offered && c.id == id
  {
    var a := seq(|ranked|, i requires 0 <= i < |ranked| => ranked[i].provider);
    var b := seq(|offered|, i requires 0 <= i < |offered| => offered[i].id);
    assert id in a <==> id in multiset(a);
    assert id in b <==> id in multiset(b);
    assert id in a <==> FirstPlace(ranked, id) < |ranked| by {
      if FirstPlace(ranked, id) < |ranked| { assert a[FirstPlace(ranked, id)] == id; }
    }
    if exists c :: c in offered && c.id == id {
      var c :| c in offered && c.id == id;
      var j :| 0 <= j < |offered| && offered[j] == c;
      assert b[j] == id;
    }
    if id in b {
      var j :| 0 <= j < |b| && b[j] == id;
      assert offered[j] in offered;
    }
  }

  /** The provider may be attempted: its breaker granted and it has what the request needs. */
  ghost predicate Cleared(ps: seq<Provider>, needs: Needs, polls: seq<Effect>, id: string)
    requires |polls| == |ps|
  {
    exists k :: 0 <= k < |ps| && ps[k].id == id && Granted(polls[k]) &&
                (needs.tools ==> ps[k].supportsTools) && (needs.images ==> ps[k].supportsImages)
  }

  lemma OfferedIsCleared(ps: seq<Provider>, needs: Needs, polls: seq<Effect>, out: seq<Candidate>, c: Candidate)
    requires Offered(ps, needs, polls, out) && c in out
    ensures Cleared(ps, needs, polls, c.id)
  {
    hide Granted;
    var j :| 0 <= j < |out| && out[j] == c;
    var k := c.priority - 1;
    assert Offers(out, k + 1) <==> Granted(polls[k + 1 - 1]) && Capable(ps[k + 1 - 1], needs);
    assert ps[k].id == c.id;
  }

  lemma CapableIsOffered(ps: seq<Provider>, needs: Needs, polls: seq<Effect>, out: seq<Candidate>, k: nat)
    requires k < |ps| && Offered(ps, needs, polls, out) && Granted(polls[k]) && Capable(ps[k], needs)
    ensures exists c :: c in out && c.id == ps[k].id
  {
    hide Granted;
    assert Offers(out, k + 1) <==> Granted(polls[k + 1 - 1]) && Capable(ps[k + 1 - 1], needs);
    var c :| c in out && c.priority == k + 1;
    var j :| 0 <= j < |out| && out[j] == c;
    assert c.id == ps[k].id;
  }

  lemma OfferedIffCapable(ps: seq<Provider>, needs: Needs, polls: seq<Effect>, out: seq<Candidate>, k: nat)
    requires k < |ps| && OneProviderPerID(ps) && Offered(ps, needs, polls, out) && Granted(polls[k])
    ensures (exists c :: c in out && c.id == ps[k].id) <==> Capable(ps[k], needs)
  {
    hide Granted, Offered;
    OfferedLength(ps, needs, polls, out);
    if exists c :: c in out && c.id == ps[k].id {
      var c :| c in out && c.id == ps[k].id;
      OfferedIsCleared(ps, needs, polls, out, c);
    }
    if Capable(ps[k], needs) { CapableIsOffered(ps, needs, polls, out, k); }
  }

  lemma OfferedLength(ps: seq<Provider>, needs: Needs, polls: seq<Effect>, out: seq<Candidate>)
    requires Offered(ps, needs, polls, out)
    ensures |polls| == |ps|
  {
  }

  /** A granted provider is attempted exactly when it has the capabilities the request needs and no contender ranked
      before it is committed (streaming) or accepted (buffered). */
  lemma GrantedIsAttemptedIff(config: Breaker.Config, before: seq<Effect>, ps: seq<Provider>, clock: seq<int>,
                              needs: Needs, calls: seq<Telemetry.Call>, hints: map<string, real>, req: Request,
                              ranked: seq<Contender>, k: nat)
    requires |ps| == |clock| && k < |ps| && OneProviderPerID(ps) && Granted(Polls(config, before, ps, clock)[k])
    requires RanksExactly(ranked, Eligible(config, before, ps, clock, needs, calls, hints))
    ensures Booked(Serve(req, ranked).effects, Attempts, ps[k].id) > 0 <==>
            Capable(ps[k], needs) && NobodyBefore(req, ranked, FirstPlace(ranked, ps[k].id))
  {
    hide Booked, Serve, NobodyBefore, Capable, Granted, RanksExactly, Polls, Eligible;
    OfferedIffGrantedAndCapable(config, before, ps, clock, needs, calls, hints);
    OfferedIffCapable(ps, needs, Polls(config, before, ps, clock),
                      Eligible(config, before, ps, clock, needs, calls, hints), k);
    RankedIffOffered(ranked, Eligible(config, before, ps, clock, needs, calls, hints), ps[k].id);
    AttemptedIff(req, ranked, ps[k].id);
  }

  /** Nobody is attempted without a grant of its breaker and the capabilities the request needs. */
  lemma AttemptedWasCleared(config: Breaker.Config, before: seq<Effect>, ps: seq<Provider>, clock: seq<int>,
                            needs: Needs, calls: seq<Telemetry.Call>, hints: map<string, real>, req: Request,
                            ranked: seq<Contender>, id: string)
    requires |ps| == |clock| && RanksExactly(ranked, Eligible(config, before, ps, clock, needs, calls, hints))
    requires Booked(Serve(req, ranked).effects, Attempts, id) > 0
    ensures Cleared(ps, needs, Polls(config, before, ps, clock), id)
  {
    hide Booked, Serve, NobodyBefore, RanksExactly, Polls, Eligible, Cleared;
    var out := Eligible(config, before, ps, clock, needs, calls, hints);
    AttemptedIff(req, ranked, id);
    RankedIffOffered(ranked, out, id);
    OfferedIffGrantedAndCapable(config, before, ps, clock, needs, calls, hints);
    var c :| c in out && c.id == id;
    OfferedIsCleared(ps, needs, Polls(config, before, ps, clock), out, c);
  }

  // ---------------------------------------------------------------- ... in concurrent requests

  /** What a request asked the breakers, and what it was told. */
  datatype Asking = Asking(config: Breaker.Config, before: seq<Effect>, ps: seq<Provider>, clock: seq<int>,
                           needs: Needs, calls: seq<Telemetry.Call>, hints: map<string, real>)
  {
    predicate Complete() { |ps| == |clock| }

    function Questions(): (polls: seq<Effect>)
      requires Complete()
      ensures |polls| == |ps|
    {
      Polls(config, before, ps, clock)
    }

    function Offer(): seq<Candidate>
      requires Complete()
    {
      Eligible(config, before, ps, clock, needs, calls, hints)
    }
  }

  /** Each request ranked what its own questions offered it. */
  ghost predicate RankedFrom(jobs: seq<Accounting.Job>, asked: seq<Asking>) {
    |asked| == |jobs| &&
    forall i | 0 <= i < |jobs| :: asked[i].Complete() && RanksExactly(jobs[i].ranked, asked[i].Offer())
  }

  lemma {:induction false} SomebodyBooked(steps: seq<Step>, n: nat, k: Account, id: string) returns (i: nat)
    requires Total(steps, n, k, id) > 0
    ensures i < n && Booked(PerformedBy(steps, i), k, id) > 0
  {
    hide *;
    FleetStart(steps, id);
    i := 0;
    if n > 0 {
      FleetSteps(steps, n - 1, k, id);
      if Booked(PerformedBy(steps, n - 1), k, id) > 0 {
        i := n - 1;
      } else {
        i := SomebodyBooked(steps, n - 1, k, id);
      }
    }
  }

  /** At every moment of every interleaving, whoever has been attempted was cleared for some request. */
  lemma EveryAttemptWasCleared(jobs: seq<Accounting.Job>, asked: seq<Asking>, steps: seq<Step>, id: string)
    returns (i: nat)
    requires Interleaves(jobs, steps) && RankedFrom(jobs, asked) && Booked(Effects(steps), Attempts, id) > 0
    ensures i < |jobs| && Cleared(asked[i].ps, asked[i].needs, asked[i].Questions(), id)
    ensures Booked(PerformedBy(steps, i), Attempts, id) > 0
  {
    hide Booked, Total, Effects, PerformedBy, Cleared, RanksExactly, Serve;
    SharedIsTotal(steps, |jobs|, Attempts, id);
    i := SomebodyBooked(steps, |jobs|, Attempts, id);
    var done, plan := PerformedBy(steps, i), jobs[i].Plan();
    assert plan == done + plan[|done|..];
    BookedAppend(done, plan[|done|..], Attempts, id);
    BookedNatural(plan[|done|..], Attempts, id);
    var a := asked[i];
    AttemptedWasCleared(a.config, a.before, a.ps, a.clock, a.needs, a.calls, a.hints, jobs[i].req, jobs[i].ranked, id);
  }

  // ---------------------------------------------------------------- a grant that is not attempted

  predicate NoQuestion(e: Effect) { e.Broke? ==> !e.event.Asked? }

  ghost predicate NoQuestions(effects: seq<Effect>) { forall i | 0 <= i < |effects| :: NoQuestion(effects[i]) }

  lemma NoQuestionsAppend(a: seq<Effect>, b: seq<Effect>)
    requires NoQuestions(a) && NoQuestions(b)
    ensures NoQuestions(a + b)
  {
    hide NoQuestion;
  }

  lemma AttemptAsksNobody(c: Contender, v: Verdict)
    ensures NoQuestions(AttemptEffects(c, v))
  {
    hide Classify;
  }

  lemma EndingAsksNobody(provider: string, ending: Ending, now: int)
    ensures NoQuestions(EndingEffects(provider, ending, now))
  {
    hide Classify;
  }

  /** Serving a request asks no breaker anything. */
  lemma {:induction false} ServeAsksNobody(req: Request, ranked: seq<Contender>, i: nat, trail: seq<AttemptInfo>,
                                           usage: Usage, lastErr: Option<Failure>)
    requires i <= |ranked|
    ensures NoQuestions(ServeFrom(req, ranked, i, trail, usage, lastErr).effects)
    decreases |ranked| - i
  {
    if i == |ranked| {
      hide GatewayError;
    } else {
      hide *;
      var v := ServeNext(req, ranked, i, trail, usage, lastErr);
      AttemptAsksNobody(ranked[i], v);
      match v {
        case Fell(info, err, used) =>
          ServeAsksNobody(req, ranked, i + 1, trail + [info], Plus(usage, used), Some(err));
          NoQuestionsAppend(AttemptEffects(ranked[i], v),
                            ServeFrom(req, ranked, i + 1, trail + [info], Plus(usage, used), Some(err)).effects);
        case Committed(info, buffered, rest) =>
          var ending := EndingOf(info.provider, Consumed(buffered + Events(rest)));
          EndingAsksNobody(info.provider, ending, ranked[i].endsAt);
          NoQuestionsAppend(AttemptEffects(ranked[i], v), EndingEffects(info.provider, ending, ranked[i].endsAt));
        case Accepted(info, answer) =>
      }
    }
  }

  /** Without questions a breaker hears exactly the reports that are booked. */
  lemma {:induction false} SilentUnlessBooked(effects: seq<Effect>, id: string)
    requires NoQuestions(effects)
    ensures |BreakerEvents(effects, id)|
         == Booked(effects, BreakerFailures, id) + Booked(effects, BreakerSuccesses, id)
  {
    if effects != [] {
      var front, e := effects[..|effects| - 1], effects[|effects| - 1];
      assert NoQuestion(e) && forall i | 0 <= i < |front| :: front[i] == effects[i];
      SilentUnlessBooked(front, id);
    }
  }

  lemma {:induction false} DueBounded(trail: seq<AttemptInfo>, k: Account, id: string)
    ensures 0 <= TrailDue(trail, k, id) <= TrailDue(trail, Attempts, id)
  {
    if trail != [] { DueBounded(trail[..|trail| - 1], k, id); }
  }

  /** A request reports nothing to the breaker of a provider it did not attempt. */
  lemma UnattemptedIsSilent(req: Request, ranked: seq<Contender>, id: string)
    requires Booked(Serve(req, ranked).effects, Attempts, id) == 0
    ensures BreakerEvents(Serve(req, ranked).effects, id) == []
  {
    var run := Serve(req, ranked);
    TrailIsBooked(req, ranked, Attempts, id);
    TrailIsBooked(req, ranked, BreakerFailures, id);
    TrailIsBooked(req, ranked, BreakerSuccesses, id);
    DueBounded(run.trail, BreakerFailures, id);
    DueBounded(run.trail, BreakerSuccesses, id);
    ServeAsksNobody(req, ranked, 0, [], NO_USAGE, None);
    SilentUnlessBooked(run.effects, id);
    hide ServeFrom, Booked, TrailDue, BreakerEvents;
  }

  /** polls[k] asked ps[k]'s breaker at clock[k]. */
  ghost predicate AsksInTurn(ps: seq<Provider>, clock: seq<int>, polls: seq<Effect>)
    requires |ps| == |clock|
  {
    |polls| == |ps| && forall k | 0 <= k < |ps| ::
      polls[k].Broke? && polls[k].id == ps[k].id && polls[k].event.Asked? && polls[k].event.at == clock[k]
  }

  lemma LastAsked(config: Breaker.Config, before: seq<Effect>, ps: seq<Provider>, clock: seq<int>)
    returns (poll: Effect)
    requires |ps| == |clock| && ps != []
    ensures var n := |ps| - 1;
            Polls(config, before, ps, clock) == Polls(config, before, ps[..n], clock[..n]) + [poll] &&
            AsksInTurn([ps[n]], [clock[n]], [poll])
  {
    var n := |ps| - 1;
    var earlier := Polls(config, before, ps[..n], clock[..n]);
    poll := Broke(ps[n].id,
          Breaker.Asked(clock[n], Breaker.Admits(config, BreakerEvents(before + earlier, ps[n].id), clock[n])));
    hide BreakerEvents, Breaker.Admits;
  }

  lemma AsksAppend(ps: seq<Provider>, clock: seq<int>, polls: seq<Effect>, p: Provider, at: int, poll: Effect)
    requires |ps| == |clock| && AsksInTurn(ps, clock, polls) && AsksInTurn([p], [at], [poll])
    ensures AsksInTurn(ps + [p], clock + [at], polls + [poll])
  {
    assert [p][0] == p && [at][0] == at && [poll][0] == poll;
  }

  /** Each provider is asked once, in turn. */
  lemma {:induction false} PollsInTurn(config: Breaker.Config, before: seq<Effect>, ps: seq<Provider>, clock: seq<int>)
    requires |ps| == |clock|
    ensures AsksInTurn(ps, clock, Polls(config, before, ps, clock))
  {
    if ps != [] {
      var n := |ps| - 1;
      var poll := LastAsked(config, before, ps, clock);
      hide Polls, AsksInTurn;
      PollsInTurn(config, before, ps[..n], clock[..n]);
      AsksAppend(ps[..n], clock[..n], Polls(config, before, ps[..n], clock[..n]), ps[n], clock[n], poll);
      assert ps == ps[..n] + [ps[n]] && clock == clock[..n] + [clock[n]];
    }
  }

  ghost predicate Unnamed(ps: seq<Provider>, id: string) { forall k | 0 <= k < |ps| :: ps[k].id != id }

  lemma {:induction false} NothingAsked(ps: seq<Provider>, clock: seq<int>, polls: seq<Effect>, id: string)
    requires |ps| == |clock| && AsksInTurn(ps, clock, polls) && Unnamed(ps, id)
    ensures BreakerEvents(polls, id) == []
  {
    if ps != [] {
      var n := |ps| - 1;
      assert polls == polls[..n] + [polls[n]] && polls[n].id == ps[n].id != id;
      assert AsksInTurn(ps[..n], clock[..n], polls[..n]) && Unnamed(ps[..n], id);
      hide BreakerEvents, AsksInTurn;
      NothingAsked(ps[..n], clock[..n], polls[..n], id);
      EffectNext(polls[..n], polls[n], id);
    }
  }

  /** ps[k] is the last provider of that id whose breaker granted. */
  ghost predicate LastGrant(ps: seq<Provider>, polls: seq<Effect>, k: nat)
    requires |polls| == |ps|
  {
    k < |ps| && Granted(polls[k]) && forall j | k < j < |ps| && ps[j].id == ps[k].id :: !Granted(polls[j])
  }

  lemma LastAskedOf(ps: seq<Provider>, clock: seq<int>, polls: seq<Effect>)
    requires |ps| == |clock| && ps != [] && AsksInTurn(ps, clock, polls)
    ensures var n := |ps| - 1;
            polls == polls[..n] + [polls[n]] && AsksInTurn(ps[..n], clock[..n], polls[..n]) &&
            polls[n].Broke? && polls[n].id == ps[n].id && polls[n].event.Asked? && polls[n].event.at == clock[n]
  {
  }

  lemma HeardNext(effects: seq<Effect>, e: Effect, id: string)
    requires e.Broke?
    ensures BreakerEvents(effects + [e], id)
         == if e.id == id then BreakerEvents(effects, id) + [e.event] else BreakerEvents(effects, id)
  {
    EffectNext(effects, e, id);
    assert BreakerEvents(effects, id) + [] == BreakerEvents(effects, id);
    hide BreakerEvents;
  }

  lemma FailuresStay(h: Breaker.History, e: Breaker.Event)
    requires e.Asked?
    ensures Breaker.FailuresSinceSuccess(h + [e]) == Breaker.FailuresSinceSuccess(h)
  {
    assert (h + [e])[..|h|] == h;
  }

  /** Questions leave the failures as they were. */
  lemma {:induction false} AskingKeepsFailures(ps: seq<Provider>, clock: seq<int>, polls: seq<Effect>,
                                               before: seq<Effect>, id: string)
    requires |ps| == |clock| && AsksInTurn(ps, clock, polls)
    ensures Breaker.FailuresSinceSuccess(BreakerEvents(before + polls, id))
         == Breaker.FailuresSinceSuccess(BreakerEvents(before, id))
  {
    if ps == [] {
      assert before + polls == before;
    } else {
      var n := |ps| - 1;
      LastAskedOf(ps, clock, polls);
      hide *;
      AskingKeepsFailures(ps[..n], clock[..n], polls[..n], before, id);
      assert before + polls == before + polls[..n] + [polls[n]];
      HeardNext(before + polls[..n], polls[n], id);
      if polls[n].id == id { FailuresStay(BreakerEvents(before + polls[..n], id), polls[n].event); }
    }
  }

  /** After the questions the cooldown is measured from the last grant. */
  lemma {:induction false} MarkIsLastGrant(ps: seq<Provider>, clock: seq<int>, polls: seq<Effect>, before: seq<Effect>,
                                           k: nat)
    requires |ps| == |clock| && AsksInTurn(ps, clock, polls) && LastGrant(ps, polls, k)
    ensures Breaker.LastMark(BreakerEvents(before + polls, ps[k].id)) == Some(clock[k])
  {
    var n, id := |ps| - 1, ps[k].id;
    LastAskedOf(ps, clock, polls);
    LastGrantBefore(ps, polls, k);
    hide *;
    assert before + polls == before + polls[..n] + [polls[n]];
    HeardNext(before + polls[..n], polls[n], id);
    if polls[n].id == id { QuestionMarks(BreakerEvents(before + polls[..n], id), polls[n]); }
    if k < n { MarkIsLastGrant(ps[..n], clock[..n], polls[..n], before, k); }
  }

  lemma LastGrantBefore(ps: seq<Provider>, polls: seq<Effect>, k: nat)
    requires |polls| == |ps| && LastGrant(ps, polls, k)
    ensures var n := |ps| - 1;
            if k == n then Granted(polls[n])
            else LastGrant(ps[..n], polls[..n], k) && (ps[n].id == ps[k].id ==> !Granted(polls[n]))
  {
    hide Granted;
  }

  lemma QuestionMarks(h: Breaker.History, poll: Effect)
    requires poll.Broke? && poll.event.Asked?
    ensures Breaker.LastMark(h + [poll.event]) == if Granted(poll) then Some(poll.event.at) else Breaker.LastMark(h)
  {
    Breaker.LastMarkNext(h, poll.event);
    hide Breaker.LastMark;
  }

  /** A trial granted to a provider the request then does not attempt: nothing of the request reaches its breaker any
      more, and the next request is admitted exactly when a cooldown has passed since the grant (the last one, should
      the pool name the provider again). */
  lemma UnattemptedTrialWaits(config: Breaker.Config, before: seq<Effect>, ps: seq<Provider>, clock: seq<int>,
                              req: Request, ranked: seq<Contender>, k: nat, now: int)
    requires |ps| == |clock| && LastGrant(ps, Polls(config, before, ps, clock), k)
    requires !Breaker.Healthy(config, BreakerEvents(before, ps[k].id))
    requires Booked(Serve(req, ranked).effects, Attempts, ps[k].id) == 0
    ensures var asked := before + Polls(config, before, ps, clock);
            var h := BreakerEvents(asked + Serve(req, ranked).effects, ps[k].id);
            h == BreakerEvents(asked, ps[k].id) &&
            (Breaker.Admits(config, h, now) <==> now - clock[k] >= config.cooldown)
  {
    var id, polls := ps[k].id, Polls(config, before, ps, clock);
    hide *;
    PollsInTurn(config, before, ps, clock);
    UnattemptedIsSilent(req, ranked, id);
    EventsSplit(before + polls, Serve(req, ranked).effects, id);
    var h := BreakerEvents(before + polls, id);
    assert h + [] == h;
    AskingKeepsFailures(ps, clock, polls, before, id);
    MarkIsLastGrant(ps, clock, polls, before, k);
    AdmittedAfter(config, BreakerEvents(before, id), h, clock[k], now);
  }

  lemma AdmittedAfter(config: Breaker.Config, h: Breaker.History, asked: Breaker.History, at: int, now: int)
    requires !Breaker.Healthy(config, h) && Breaker.LastMark(asked) == Some(at)
    requires Breaker.FailuresSinceSuccess(asked) == Breaker.FailuresSinceSuccess(h)
    ensures Breaker.Admits(config, asked, now) <==> now - at >= config.cooldown
  {
    hide Breaker.FailuresSinceSuccess, Breaker.LastMark;
  }

  lemma AskedOnce(ps: seq<Provider>, clock: seq<int>, polls: seq<Effect>, k: nat)
    requires |ps| == |clock| && k < |ps| && AsksInTurn(ps, clock, polls)
    requires Unnamed(ps[..k], ps[k].id) && Unnamed(ps[k + 1..], ps[k].id)
    ensures BreakerEvents(polls, ps[k].id) == [polls[k].event]
  {
    var id := ps[k].id;
    assert polls[k].Broke? && polls[k].id == id;
    assert AsksInTurn(ps[..k], clock[..k], polls[..k]) && AsksInTurn(ps[k + 1..], clock[k + 1..], polls[k + 1..]);
    hide *;
    assert polls == polls[..k] + [polls[k]] + polls[k + 1..];
    NothingAsked(ps[..k], clock[..k], polls[..k], id);
    NothingAsked(ps[k + 1..], clock[k + 1..], polls[k + 1..], id);
    EventsSplit(polls[..k] + [polls[k]], polls[k + 1..], id);
    HeardNext(polls[..k], polls[k], id);
    assert [] + [polls[k].event] + [] == [polls[k].event];
  }

  /** Named once, the provider's grant is the last word its breaker hears of such a request. */
  lemma GrantIsLastWord(config: Breaker.Config, before: seq<Effect>, ps: seq<Provider>, clock: seq<int>,
                        req: Request, ranked: seq<Contender>, k: nat)
    requires |ps| == |clock| && k < |ps| && Granted(Polls(config, before, ps, clock)[k])
    requires Unnamed(ps[..k], ps[k].id) && Unnamed(ps[k + 1..], ps[k].id)
    requires Booked(Serve(req, ranked).effects, Attempts, ps[k].id) == 0
    ensures BreakerEvents(before + Polls(config, before, ps, clock) + Serve(req, ranked).effects, ps[k].id)
         == BreakerEvents(before, ps[k].id) + [Breaker.Asked(clock[k], true)]
  {
    var id, polls := ps[k].id, Polls(config, before, ps, clock);
    PollsInTurn(config, before, ps, clock);
    assert polls[k].event == Breaker.Asked(clock[k], true) by { hide Polls; }
    hide *;
    AskedOnce(ps, clock, polls, k);
    UnattemptedIsSilent(req, ranked, id);
    EventsSplit(before + polls, Serve(req, ranked).effects, id);
    EventsSplit(before, polls, id);
    assert BreakerEvents(before + polls, id) + [] == BreakerEvents(before + polls, id);
  }

  // ---------------------------------------------------------------- an input

  const HELLO := Event("hello", "", false, true, None, [], [], None)

  const FIRST := Contender("a", 1.0, 5, 41, 42, Streams([Arrive(HELLO)]))

  const SECOND := Contender("b", 0.5, 5, 43, 44, Streams([Arrive(HELLO)]))

  /** A capable provider due for its trial, ranked behind one that answers, is granted the trial and not attempted. */
  lemma TrialIsBurnt(calls: seq<Telemetry.Call>, hints: map<string, real>)
    ensures var config, needs := Breaker.Config(3, 30), Needs(false, false);
            var fail := Broke("b", Breaker.Failed(0));
            var before, ps := [fail, fail, fail], [Provider("a", true, true), Provider("b", true, true)];
            !Breaker.Healthy(config, BreakerEvents(before, "b")) &&
            Granted(Polls(config, before, ps, [40, 40])[1]) && Capable(ps[1], needs) &&
            RanksExactly([FIRST, SECOND], Eligible(config, before, ps, [40, 40], needs, calls, hints)) &&
            Booked(Serve(Request("c", true, REJECT_EMPTY), [FIRST, SECOND]).effects, Attempts, "b") == 0
  {
    var config, needs, fail := Breaker.Config(3, 30), Needs(false, false), Broke("b", Breaker.Failed(0));
    var before, ps := [fail, fail, fail], [Provider("a", true, true), Provider("b", true, true)];
    BothGranted(config, before, ps, fail);
    BothOffered(config, before, ps, [40, 40], needs, calls, hints);
    RankedAsOffered(Eligible(config, before, ps, [40, 40], needs, calls, hints));
    NeverReached();
    hide Polls, Eligible, Serve, Booked, RanksExactly, BreakerEvents, Breaker.Healthy;
  }

  lemma RankedAsOffered(out: seq<Candidate>)
    requires |out| == 2 && out[0].id == "a" && out[1].id == "b"
    ensures RanksExactly([FIRST, SECOND], out)
  {
    var ranked := [FIRST, SECOND];
    assert seq(|ranked|, i requires 0 <= i < |ranked| => ranked[i].provider) == ["a", "b"];
    assert seq(|out|, i requires 0 <= i < |out| => out[i].id) == ["a", "b"];
  }

  lemma NeverReached()
    ensures Booked(Serve(Request("c", true, REJECT_EMPTY), [FIRST, SECOND]).effects, Attempts, "b") == 0
  {
    var req, ranked := Request("c", true, REJECT_EMPTY), [FIRST, SECOND];
    CommitsHello();
    assert EndsRequest(req, ranked[0]);
    hide Serve, Booked, Commits;
    AttemptedIff(req, ranked, "b");
    BookedNatural(Serve(req, ranked).effects, Attempts, "b");
    assert FirstPlace(ranked, "b") == 1 by { assert FIRST.provider != "b"; }
  }

  lemma BothGranted(config: Breaker.Config, before: seq<Effect>, ps: seq<Provider>, fail: Effect)
    requires config == Breaker.Config(3, 30) && fail == Broke("b", Breaker.Failed(0)) && before == [fail, fail, fail]
    requires |ps| == 2 && ps[0].id == "a" && ps[1].id == "b"
    ensures !Breaker.Healthy(config, BreakerEvents(before, "b"))
    ensures forall k | 0 <= k < 2 :: Granted(Polls(config, before, ps, [40, 40])[k])
  {
    ThreeFailures(fail);
    NeverHeard(fail);
    TwoPolls(config, before, ps, [40, 40]);
    assert Breaker.FailuresSinceSuccess([]) == 0;
    hide Polls, BreakerEvents, Breaker.FailuresSinceSuccess, Breaker.LastMark;
  }

  lemma NeverHeard(fail: Effect)
    requires fail == Broke("b", Breaker.Failed(0))
    ensures BreakerEvents([fail, fail, fail], "a") == []
  {
    assert BreakerEvents([], "a") == [];
    assert [] + [fail] == [fail] && [fail] + [fail] == [fail, fail] && [fail, fail] + [fail] == [fail, fail, fail];
    hide *;
    HeardNext([], fail, "a");
    HeardNext([fail], fail, "a");
    HeardNext([fail, fail], fail, "a");
  }

  lemma ThreeFailures(fail: Effect)
    requires fail == Broke("b", Breaker.Failed(0))
    ensures var h := BreakerEvents([fail, fail, fail], "b");
            Breaker.FailuresSinceSuccess(h) == 3 && Breaker.LastMark(h) == Some(0)
  {
    var f := Breaker.Failed(0);
    assert BreakerEvents([], "b") == [];
    hide BreakerEvents;
    EffectNext([], fail, "b");
    EffectNext([fail], fail, "b");
    EffectNext([fail, fail], fail, "b");
    assert [] + [fail] == [fail] && [fail] + [fail] == [fail, fail] && [fail, fail] + [fail] == [fail, fail, fail];
    assert [] + [f] == [f] && [f] + [f] == [f, f] && [f, f] + [f] == [f, f, f];
    hide *;
    ThreeInARow(f);
  }

  lemma ThreeInARow(f: Breaker.Event)
    requires f == Breaker.Failed(0)
    ensures Breaker.FailuresSinceSuccess([f, f, f]) == 3 && Breaker.LastMark([f, f, f]) == Some(0)
  {
    assert [f] + [f] == [f, f] && [f, f] + [f] == [f, f, f];
    assert [f][..0] == [] && Breaker.FailuresSinceSuccess([f]) == 1;
    hide Breaker.FailuresSinceSuccess, Breaker.LastMark;
    Breaker.FailuresAfter([f], [f]);
    Breaker.FailuresAfter([f, f], [f]);
    Breaker.LastMarkNext([f, f], f);
  }

  lemma TwoPolls(config: Breaker.Config, before: seq<Effect>, ps: seq<Provider>, clock: seq<int>)
    requires |ps| == |clock| == 2 && ps[0].id != ps[1].id
    ensures forall k | 0 <= k < 2 ::
              var id := ps[k].id;
              Polls(config, before, ps, clock)[k] ==
              Broke(id, Breaker.Asked(clock[k], Breaker.Admits(config, BreakerEvents(before, id), clock[k])))
  {
    var front, times, id := ps[..1], clock[..1], ps[1].id;
    var earlier := Polls(config, before, front, times);
    var granted := Breaker.Admits(config, BreakerEvents(before + earlier, id), clock[1]);
    assert Polls(config, before, ps, clock) == earlier + [Broke(id, Breaker.Asked(clock[1], granted))];
    assert front[..0] == [] && times[..0] == [] && before + [] == before;
    assert earlier[0] == Broke(ps[0].id, Breaker.Asked(clock[0], Breaker.Admits(config, BreakerEvents(before, ps[0].id),
                                                                                clock[0])));
    hide Polls, BreakerEvents, Breaker.Admits;
    PollsInTurn(config, before, front, times);
    NothingAsked(front, times, earlier, id);
    EventsSplit(before, earlier, id);
    assert BreakerEvents(before, id) + [] == BreakerEvents(before, id);
  }

  lemma BothOffered(config: Breaker.Config, before: seq<Effect>, ps: seq<Provider>, clock: seq<int>, needs: Needs,
                    calls: seq<Telemetry.Call>, hints: map<string, real>)
    requires |ps| == |clock| == 2 && forall k | 0 <= k < 2 :: Capable(ps[k], needs)
    requires forall k | 0 <= k < 2 :: Granted(Polls(config, before, ps, clock)[k])
    ensures var out := Eligible(config, before, ps, clock, needs, calls, hints);
            |out| == 2 && out[0].id == ps[0].id && out[1].id == ps[1].id
  {
    hide *;
    var front, times := ps[..1], clock[..1];
    var p1, m1 := LastPoll(config, before, ps, clock, needs, calls, hints);
    var p0, m0 := LastPoll(config, before, front, times, needs, calls, hints);
    assert front[..0] == [] && times[..0] == [];
    NobodyPolled(config, before, needs, calls, hints);
    assert Polls(config, before, ps, clock)[0] == p0 && Polls(config, before, ps, clock)[1] == p1;
    assert Eligible(config, before, ps, clock, needs, calls, hints) == [] + m0 + m1;
  }

  lemma CommitsHello()
    ensures Commits(FIRST)
  {
    var src := [Arrive(HELLO)];
    assert HELLO.delta[0] == 'h' && !IsSpace('h');
    assert !Blank(HELLO.delta);
    PeekDecides(src);
    hide Peek, PeekEnd;
  }
}
