/** Smart Sticky from end to end: what a finished request makes of the next ranking of its run
    (internal/server/chat.go, internal/router/weighted.go, internal/router/sticky.go). */
module StickyRuns {
  import opened Options
  import opened OpenAI
  import opened Streaming
  import opened Gateway
  import opened Requests
  import opened Accounting
  import Sticky
  import Weighted

  // ---------------------------------------------------------------- what the router hears

  predicate AllFailed(trail: seq<AttemptInfo>) { forall j | 0 <= j < |trail| :: !trail[j].ok }

  /** What the router is told of a request with this trail. */
  function Verdicts(trail: seq<AttemptInfo>, errorReply: bool): seq<(string, bool)> {
    if trail != [] && trail[|trail| - 1].ok then [(trail[|trail| - 1].provider, true)]
    else if errorReply then [("", false)] else []
  }

  lemma {:induction false} OutcomesAppend(a: seq<Effect>, b: seq<Effect>)
    ensures Outcomes(a + b) == Outcomes(a) + Outcomes(b)
  {
    if b == [] {
      assert a + b == a;
    } else {
      assert (a + b)[..|a + b| - 1] == a + b[..|b| - 1];
      OutcomesAppend(a, b[..|b| - 1]);
    }
  }

  lemma {:induction false} NoOutcomes(effects: seq<Effect>)
    requires forall i | 0 <= i < |effects| :: !effects[i].Recorded?
    ensures Outcomes(effects) == []
  {
    if effects != [] { NoOutcomes(effects[..|effects| - 1]); }
  }

  lemma OneOutcome(winner: string, ok: bool)
    ensures Outcomes([Recorded(winner, ok)]) == [(winner, ok)]
  {
    assert [Recorded(winner, ok)][..0] == [];
  }

  lemma AttemptOutcomes(c: Contender, v: Verdict)
    requires v.Accepted? ==> v.answer.Drained?
    ensures Outcomes(AttemptEffects(c, v)) == if v.Accepted? then [(c.provider, true)] else []
  {
    hide Outcomes, Classify;
    var all := AttemptEffects(c, v);
    if v.Accepted? {
      assert all == all[..|all| - 1] + [Recorded(c.provider, true)];
      OutcomesAppend(all[..|all| - 1], [Recorded(c.provider, true)]);
      NoOutcomes(all[..|all| - 1]);
      OneOutcome(c.provider, true);
    } else {
      NoOutcomes(all);
    }
  }

  lemma EndingOutcomes(provider: string, ending: Ending, now: int)
    ensures Outcomes(EndingEffects(provider, ending, now)) == if ending.Finished? then [(provider, true)] else []
  {
    hide Outcomes, Classify;
    var all := EndingEffects(provider, ending, now);
    if ending.Finished? {
      assert all == all[..|all| - 1] + [Recorded(provider, true)];
      OutcomesAppend(all[..|all| - 1], [Recorded(provider, true)]);
      NoOutcomes(all[..|all| - 1]);
      OneOutcome(provider, true);
    } else {
      NoOutcomes(all);
    }
  }

  lemma Settles(info: AttemptInfo, ending: Ending)
    ensures Finalized(info, ending).provider == info.provider && (Finalized(info, ending).ok <==> ending.Finished?)
  {
  }

  /** The router hears of the winner, and only of a winner or of a failed request. */
  lemma {:induction false} OutcomesFrom(req: Request, ranked: seq<Contender>, i: nat, trail: seq<AttemptInfo>,
                                        usage: Usage, lastErr: Option<Failure>)
    requires i <= |ranked| && AllFailed(trail)
    ensures var run := ServeFrom(req, ranked, i, trail, usage, lastErr);
            run.frames != [] && Outcomes(run.effects) == Verdicts(run.trail, run.frames[0].ErrorReply?)
    decreases |ranked| - i
  {
    hide *;
    if i == |ranked| {
      GaveUp(req, ranked, trail, usage, lastErr);
    } else {
      var c := ranked[i];
      var v := ServeNext(req, ranked, i, trail, usage, lastErr);
      JudgeShape(c, i + 1, req.stream, req.gate);
      AttemptOutcomes(c, v);
      match v {
        case Fell(info, err, used) =>
          FailedNext(trail, info);
          OutcomesFrom(req, ranked, i + 1, trail + [info], Plus(usage, used), Some(err));
          var rest := ServeFrom(req, ranked, i + 1, trail + [info], Plus(usage, used), Some(err));
          OutcomesAppend(AttemptEffects(c, v), rest.effects);
          assert [] + Outcomes(rest.effects) == Outcomes(rest.effects);
        case Committed(info, buffered, rest) =>
          var ending := EndingOf(info.provider, Consumed(buffered + Events(rest)));
          RelayStartsWithRole(info, trail, Arrivals(buffered) + rest);
          Settles(info, ending);
          EndingOutcomes(info.provider, ending, c.endsAt);
          OutcomesAppend(AttemptEffects(c, v), EndingEffects(info.provider, ending, c.endsAt));
          EndsWith(trail, Finalized(info, ending));
        case Accepted(info, answer) =>
          ReplyIsNoError(info, answer, trail + [info], usage);
          EndsWith(trail, info);
      }
    }
  }

  lemma GaveUp(req: Request, ranked: seq<Contender>, trail: seq<AttemptInfo>, usage: Usage, lastErr: Option<Failure>)
    requires AllFailed(trail)
    ensures var run := ServeFrom(req, ranked, |ranked|, trail, usage, lastErr);
            run.frames != [] && Outcomes(run.effects) == Verdicts(run.trail, run.frames[0].ErrorReply?)
  {
    OneOutcome("", false);
    hide GatewayError, Outcomes;
  }

  lemma FailedNext(trail: seq<AttemptInfo>, info: AttemptInfo)
    requires AllFailed(trail) && !info.ok
    ensures AllFailed(trail + [info])
  {
  }

  lemma EndsWith(trail: seq<AttemptInfo>, info: AttemptInfo)
    ensures Verdicts(trail + [info], false) == if info.ok then [(info.provider, true)] else []
  {
  }

  /** A request tells the router of its winner, of its failure, or (a committed stream that broke) of nothing. */
  lemma RouterHears(req: Request, ranked: seq<Contender>)
    ensures var run := Serve(req, ranked);
            run.frames != [] && Outcomes(run.effects) == Verdicts(run.trail, run.frames[0].ErrorReply?)
  {
    hide ServeFrom, Outcomes, Verdicts;
    OutcomesFrom(req, ranked, 0, [], NO_USAGE, None);
  }

  // ---------------------------------------------------------------- what the router remembers

  /** What recording these outcomes for a run adds to the pin table's history. */
  function PinsOf(outcomes: seq<(string, bool)>, runKey: string, at: int): seq<Sticky.Event> {
    if outcomes == [] then []
    else
      var (winner, ok) := outcomes[0];
      (if ok && winner != "" && runKey != "" then [Sticky.Pinned(runKey, winner, at)] else [])
      + PinsOf(outcomes[1..], runKey, at)
  }

  /** A request pins its run to the provider whose success ends its trail, and otherwise leaves the pins alone. */
  lemma RequestPins(req: Request, ranked: seq<Contender>, runKey: string, at: int)
    requires runKey != ""
    ensures var trail := Serve(req, ranked).trail;
            PinsOf(Outcomes(Serve(req, ranked).effects), runKey, at) ==
            if trail != [] && trail[|trail| - 1].ok && trail[|trail| - 1].provider != ""
            then [Sticky.Pinned(runKey, trail[|trail| - 1].provider, at)] else []
  {
    RouterHears(req, ranked);
    var outcomes := Outcomes(Serve(req, ranked).effects);
    assert outcomes != [] ==> outcomes[1..] == [];
    hide Serve, Outcomes;
  }

  /** more pins nothing for the run, and never have 256 other keys been used since the run's own latest use. */
  ghost predicate Uncrowded(won: seq<Sticky.Event>, more: seq<Sticky.Event>, runKey: string) {
    (forall e | e in more :: !(e.Pinned? && e.key == runKey)) &&
    forall m | |won| <= m <= |won + more| :: |Sticky.Others((won + more)[..m], runKey)| < Sticky.MAX_ENTRIES
  }

  /** Whoever finally served a request leads every later ranking of its run while it is eligible, for all draws, until
      another winner is recorded for the run or 256 other runs crowd it out. */
  lemma WinnerLeadsItsRun(req: Request, ranked: seq<Contender>, log: seq<Sticky.Event>, runKey: string,
                          at: int, p: string,
                          more: seq<Sticky.Event>, t: Sticky.Table, s: Weighted.Scorer, cs: seq<Candidate>,
                          exploration: real, roll: real, pick: nat)
    requires WonBy(Serve(req, ranked).trail, p) && p != "" && runKey != ""
    requires var won := log + PinsOf(Outcomes(Serve(req, ranked).effects), runKey, at);
             Uncrowded(won, more, runKey) && Sticky.Reaches(won + more, t) && Sticky.Clocked(won + more)
    requires pick < |cs| && exists c :: c in cs && c.id == p
    ensures Weighted.RankOf(s, cs, Sticky.Lookup(t, runKey), exploration, roll, pick)[0].candidate.id == p
  {
    RequestPins(req, ranked, runKey, at);
    var won := log + [Sticky.Pinned(runKey, p, at)];
    assert won == log + PinsOf(Outcomes(Serve(req, ranked).effects), runKey, at);
    hide Serve, PinsOf, Outcomes, Weighted.RankOf, Sticky.Reaches, Sticky.Clocked, Sticky.Lookup;
    PinHolds(log, runKey, at, p, more);
    assert Weighted.HeldBy(won + more, runKey, cs);
    Weighted.SmartSticky(won + more, t, runKey, s, cs, exploration, roll, pick);
  }

  lemma PinHolds(log: seq<Sticky.Event>, runKey: string, at: int, p: string, more: seq<Sticky.Event>)
    requires Uncrowded(log + [Sticky.Pinned(runKey, p, at)], more, runKey) && p != ""
    ensures Sticky.Holds(log + [Sticky.Pinned(runKey, p, at)] + more, runKey) == p
  {
    hide Sticky.Holds, Sticky.Others;
    var won, n := log + [Sticky.Pinned(runKey, p, at)], |log|;
    var all := won + more;
    assert all[n] == Sticky.Pinned(runKey, p, at) && forall i | n < i < |all| ::
           all[i] == more[i - n - 1] && all[i] in more;
    Sticky.HoldsUntilCrowdedOut(all, n, runKey);
  }
}
