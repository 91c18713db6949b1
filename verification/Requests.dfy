/** What a whole request amounts to, for every ranked list and every set of provider streams
    (internal/server/chat.go). */
module Requests {
  import opened Options
  import opened OpenAI
  import opened Text
  import opened Streaming
  import opened Gateway
  import Breaker
  import Telemetry

  // ---------------------------------------------------------------- the client's transcript

  function Strip(frames: seq<Frame>): seq<Frame> {
    if frames == [] then []
    else Strip(frames[..|frames| - 1]) +
         (if frames[|frames| - 1] == KeepAlive then [] else [frames[|frames| - 1]])
  }

  lemma {:induction false} StripAppend(a: seq<Frame>, b: seq<Frame>)
    ensures Strip(a + b) == Strip(a) + Strip(b)
  {
    if b == [] {
      assert a + b == a;
    } else {
      assert (a + b)[..|a + b| - 1] == a + b[..|b| - 1];
      StripAppend(a, b[..|b| - 1]);
    }
  }

  lemma {:induction false} StripNone(frames: seq<Frame>)
    requires KeepAlive !in frames
    ensures Strip(frames) == frames
  {
    if frames != [] { StripNone(frames[..|frames| - 1]); }
  }

  /** Without its keep-alives a relayed stretch of signals is the forwarding of its events. */
  lemma {:induction false} StrippedSignals(src: Script)
    ensures Strip(SignalFrames(src)) == Forwards(Events(src))
  {
    if src != [] {
      var front, last := src[..|src| - 1], src[|src| - 1];
      assert SignalFrames(src) == SignalFrames(front) + FramesOf(last);
      assert Events(src) == Events(front) + (if last.Arrive? then [last.event] else []);
      hide *;
      StrippedSignals(front);
      StripAppend(SignalFrames(front), FramesOf(last));
      StripFrames(last);
      if last.Arrive? {
        ForwardsNext(Events(front), last.event);
      } else {
        assert Events(src) == Events(front);
      }
    }
  }

  lemma ForwardsNext(events: seq<Event>, e: Event)
    ensures Forwards(events + [e]) == Forwards(events) + Forward(e)
  {
    assert (events + [e])[..|events|] == events;
  }

  lemma StripFrames(s: Signal)
    ensures Strip(FramesOf(s)) == if s.Arrive? then Forward(s.event) else []
  {
    var f := FramesOf(s);
    if s.KeepAliveTick? {
      assert f[..0] == [];
    } else {
      StripNone(f);
    }
  }

  lemma {:induction false} ConsumedSignalsShape(src: Script)
    ensures var n := |ConsumedSignals(src)|;
            n <= |src| && ConsumedSignals(src) == src[..n] &&
            (forall j | 0 <= j < n - 1 :: !IsTerminal(src[j])) &&
            (n == |src| || (n > 0 && IsTerminal(src[n - 1])))
  {
    if src != [] && !IsTerminal(src[0]) {
      var rest, n := ConsumedSignals(src[1..]), |ConsumedSignals(src)|;
      ConsumedSignalsShape(src[1..]);
      assert ConsumedSignals(src) == [src[0]] + rest;
      assert forall j | 1 <= j < n - 1 :: src[j] == src[1..][j - 1];
    }
  }

  /** Where the peek ended is invisible to the client, and so are the keep-alives. */
  lemma RelayedIsDirect(pending: AttemptInfo, prior: seq<AttemptInfo>, src: Script)
    ensures Strip(Relayed(pending, prior, src)) == Direct(pending, prior, Events(src))
  {
    hide *;
    var body := SignalFrames(ConsumedSignals(src));
    var tail := RelayedParts(pending, prior, src);
    ConsumedSignalsShape(src);
    EventsThrough(src, |ConsumedSignals(src)|);
    StrippedSignals(ConsumedSignals(src));
    StripAppend([RoleChunk] + body, tail);
    StripAppend([RoleChunk], body);
    StripNone([RoleChunk]);
    StripNone(tail);
  }

  lemma RelayedParts(pending: AttemptInfo, prior: seq<AttemptInfo>, src: Script) returns (tail: seq<Frame>)
    ensures Relayed(pending, prior, src) == ([RoleChunk] + SignalFrames(ConsumedSignals(src))) + tail
    ensures Direct(pending, prior, Events(src)) == [RoleChunk] + Forwards(Consumed(Events(src))) + tail
    ensures KeepAlive !in tail
  {
    var final := Final(pending, prior, EndingOf(pending.provider, Consumed(Events(src))));
    assert final.FinalChunk?;
    hide SignalFrames, ConsumedSignals, Consumed, Events, Final, Forwards;
    tail := [final, DoneMarker];
  }

  predicate Commits(c: Contender) { c.response.Streams? && Peek(c.response.script).committed }

  /** The first candidate from i on whose stream is committed. */
  function FirstCommit(ranked: seq<Contender>, i: nat := 0): (k: nat)
    requires i <= |ranked|
    ensures i <= k <= |ranked| && forall j | i <= j < k :: !Commits(ranked[j])
    ensures k < |ranked| ==> Commits(ranked[k])
    decreases |ranked| - i
  {
    if i == |ranked| || Commits(ranked[i]) then i else FirstCommit(ranked, i + 1)
  }

  /** A streaming client sees one error body, or the first committed candidate's whole stream forwarded
      directly: what the peek had buffered and what came after it, nothing from anyone else. */
  lemma TranscriptIsDirect(req: Request, ranked: seq<Contender>)
    requires req.stream
    ensures var run, k := Serve(req, ranked), FirstCommit(ranked);
            if k == |ranked| then
              |run.trail| == k && |run.frames| == 1 && run.frames[0].ErrorReply? &&
              run.frames[0].body.attempts == run.trail
            else
              |run.trail| == k + 1 &&
              Strip(run.frames) == Direct(PendingAttempt(ranked[k], k + 1), run.trail[..k],
                                          Events(ranked[k].response.script))
  {
    TranscriptFrom(req, ranked, 0, [], NO_USAGE, None);
  }

  lemma {:induction false} TranscriptFrom(req: Request, ranked: seq<Contender>, i: nat, trail: seq<AttemptInfo>,
                                          usage: Usage, lastErr: Option<Failure>)
    requires req.stream && i <= |ranked| && |trail| == i
    ensures var run, k := ServeFrom(req, ranked, i, trail, usage, lastErr), FirstCommit(ranked, i);
            if k == |ranked| then
              |run.trail| == k && |run.frames| == 1 && run.frames[0].ErrorReply? &&
              run.frames[0].body.attempts == run.trail
            else
              |run.trail| == k + 1 &&
              Strip(run.frames) == Direct(PendingAttempt(ranked[k], k + 1), run.trail[..k],
                                          Events(ranked[k].response.script))
    decreases |ranked| - i
  {
    hide *;
    if i == |ranked| {
      NothingCommitted(req, ranked, trail, usage, lastErr);
    } else {
      var c := ranked[i];
      JudgeStreaming(c, i + 1, req.gate);
      FirstCommitStep(ranked, i);
      var v := ServeNext(req, ranked, i, trail, usage, lastErr);
      match v {
        case Fell(info, err, used) =>
          TranscriptFrom(req, ranked, i + 1, trail + [info], Plus(usage, used), Some(err));
        case Committed(info, buffered, rest) =>
          SplitInvisible(c.response.script);
          RelayedIsDirect(info, trail, Arrivals(buffered) + rest);
          assert ServeFrom(req, ranked, i, trail, usage, lastErr).trail[..i] == trail;
      }
    }
  }

  lemma NothingCommitted(req: Request, ranked: seq<Contender>, trail: seq<AttemptInfo>, usage: Usage,
                         lastErr: Option<Failure>)
    ensures FirstCommit(ranked, |ranked|) == |ranked|
    ensures ServeFrom(req, ranked, |ranked|, trail, usage, lastErr)
         == Run([ErrorReply(GatewayError(req.combo, trail, usage, lastErr))], [Recorded("", false)], trail)
    ensures GatewayError(req.combo, trail, usage, lastErr).attempts == trail
  {
  }

  lemma FirstCommitStep(ranked: seq<Contender>, i: nat)
    requires i < |ranked|
    ensures FirstCommit(ranked, i) == if Commits(ranked[i]) then i else FirstCommit(ranked, i + 1)
  {
  }

  /** The verdict on candidate i and what it makes of the request's frames, trail and effects. */
  lemma ServeNext(req: Request, ranked: seq<Contender>, i: nat, trail: seq<AttemptInfo>, usage: Usage,
                  lastErr: Option<Failure>) returns (v: Verdict)
    requires i < |ranked|
    ensures v == Judge(ranked[i], i + 1, req.stream, req.gate)
    ensures var run := ServeFrom(req, ranked, i, trail, usage, lastErr);
            var effects := AttemptEffects(ranked[i], v);
            match v
            case Fell(info, err, used) =>
              var rest := ServeFrom(req, ranked, i + 1, trail + [info], Plus(usage, used), Some(err));
              run == Run(rest.frames, effects + rest.effects, rest.trail)
            case Committed(info, buffered, rest) =>
              var ending := EndingOf(info.provider, Consumed(buffered + Events(rest)));
              run == Run(Relayed(info, trail, Arrivals(buffered) + rest),
                         effects + EndingEffects(info.provider, ending, ranked[i].endsAt),
                         trail + [Finalized(info, ending)])
            case Accepted(info, answer) =>
              run == Run([Reply(info, answer, trail + [info], usage)], effects, trail + [info])
  {
    v := Judge(ranked[i], i + 1, req.stream, req.gate);
    hide Judge, AttemptEffects, EndingEffects, Relayed, Finalized, Consumed, Events, EndingOf;
  }

  lemma JudgeStreaming(c: Contender, n: int, gate: GateConfig)
    ensures Commits(c) ==> c.response.Streams?
    ensures var v := Judge(c, n, true, gate);
            if Commits(c) then
              v == Committed(PendingAttempt(c, n), Peek(c.response.script).buffered,
                             c.response.script[PeekEnd(c.response.script)..])
            else v.Fell?
  {
  }

  /** Replaying what the peek buffered and then reading on gives back the stream's events. */
  lemma SplitInvisible(script: Script)
    ensures Events(Arrivals(Peek(script).buffered) + script[PeekEnd(script)..]) == Events(script)
  {
    var n := PeekEnd(script);
    assert Peek(script).buffered == Events(script[..n]);
    hide *;
    EventsOfArrivals(Events(script[..n]));
    EventsAppend(Arrivals(Events(script[..n])), script[n..]);
    EventsAppend(script[..n], script[n..]);
    assert script == script[..n] + script[n..];
  }

  // ---------------------------------------------------------------- the shape of a transcript

  predicate IsText(f: Frame) { (f.ContentChunk? || f.ReasoningChunk?) && f.text != "" }

  lemma {:induction false} ForwardsAreText(events: seq<Event>)
    ensures forall f | f in Forwards(events) :: IsText(f)
  {
    if events != [] { ForwardsAreText(events[..|events| - 1]); }
  }

  /** Event k is an error-free Done and nothing before it is terminal. */
  predicate DoneAt(events: seq<Event>, k: nat)
    requires k < |events|
  {
    events[k].done && events[k].err.None? && forall j | 0 <= j < k :: !Terminal(events[j])
  }

  /** The stream reaches Done before any error. */
  predicate ReachesDone(events: seq<Event>) {
    exists k | 0 <= k < |events| :: DoneAt(events, k)
  }

  lemma ReachesDoneIsLast(events: seq<Event>)
    ensures var c := Consumed(events);
            ReachesDone(events) <==> c != [] && c[|c| - 1].err.None? && c[|c| - 1].done
  {
    var c := Consumed(events);
    assert c == events[..|c|] && forall j | 0 <= j < |c| - 1 :: !Terminal(c[j]);
    hide Consumed, Terminal;
    if ReachesDone(events) {
      var k :| 0 <= k < |events| && DoneAt(events, k);
      DoneEnds(events, k);
    }
    if c != [] && c[|c| - 1].err.None? && c[|c| - 1].done {
      assert forall j | 0 <= j < |c| :: c[j] == events[j];
      assert DoneAt(events, |c| - 1);
    }
  }

  lemma DoneEnds(events: seq<Event>, k: nat)
    requires k < |events| && DoneAt(events, k)
    ensures Consumed(events) == events[..k + 1]
  {
    ConsumedThrough(events, k + 1);
  }

  /** A direct transcript is: the role, text, one final chunk with the settled trail, the end marker;
      and the final chunk reports success exactly when the stream reached Done. */
  lemma DirectShape(pending: AttemptInfo, prior: seq<AttemptInfo>, events: seq<Event>)
    ensures var d := Direct(pending, prior, events);
            |d| >= 3 && d[0] == RoleChunk && d[|d| - 1] == DoneMarker &&
            (forall j | 0 < j < |d| - 2 :: IsText(d[j])) &&
            var f := d[|d| - 2];
            f.FinalChunk? && f.provider == pending.provider &&
            f.attempts[..|prior|] == prior && |f.attempts| == |prior| + 1 &&
            (f.finish != Aborted <==> ReachesDone(events)) &&
            (f.attempts[|prior|].ok <==> ReachesDone(events))
  {
    var c := Consumed(events);
    var body, f := Forwards(c), Final(pending, prior, EndingOf(pending.provider, c));
    ReachesDoneIsLast(events);
    ForwardsAreText(c);
    FinalShape(pending, prior, c);
    assert Direct(pending, prior, events) == [RoleChunk] + body + [f, DoneMarker];
    assert forall j | 0 <= j < |body| :: body[j] in body;
    hide *;
  }

  lemma FinalShape(pending: AttemptInfo, prior: seq<AttemptInfo>, c: seq<Event>)
    ensures var f := Final(pending, prior, EndingOf(pending.provider, c));
            var finished := c != [] && c[|c| - 1].err.None? && c[|c| - 1].done;
            f.FinalChunk? && f.provider == pending.provider &&
            f.attempts[..|prior|] == prior && |f.attempts| == |prior| + 1 &&
            (f.finish != Aborted <==> finished) && (f.attempts[|prior|].ok <==> finished)
  {
    hide Classify;
  }

  /** The answer text a client assembles from a transcript. */
  function ContentOf(frames: seq<Frame>): string {
    if frames == [] then ""
    else ContentOf(frames[..|frames| - 1]) +
         (if frames[|frames| - 1].ContentChunk? then frames[|frames| - 1].text else "")
  }

  lemma {:induction false} ContentAppend(a: seq<Frame>, b: seq<Frame>)
    ensures ContentOf(a + b) == ContentOf(a) + ContentOf(b)
  {
    if b == [] {
      assert a + b == a;
    } else {
      assert (a + b)[..|a + b| - 1] == a + b[..|b| - 1];
      ContentAppend(a, b[..|b| - 1]);
    }
  }

  lemma {:induction false} ForwardedText(events: seq<Event>)
    requires forall i | 0 <= i < |events| :: events[i].err.None?
    ensures ContentOf(Forwards(events)) == Concat(Deltas(events))
  {
    if events != [] {
      var n := |events| - 1;
      var front, last := events[..n], events[n];
      assert ContentOf(Forward(last)) == last.delta by { assert Forward(last) != [] ==> Forward(last)[..0] == []; }
      assert Forwards(events) == Forwards(front) + Forward(last);
      hide *;
      ForwardedText(front);
      ContentAppend(Forwards(front), Forward(last));
      DrainStep(events, n);
      assert events[..n + 1] == events;
    }
  }

  /** Streaming and buffering tell the client the same answer: same text, same tool calls and provider items, and the
      same usage exactly when the last event carries it or none does (the buffered path remembers earlier reports).
      On a truncated stream they part: the stream path reports an error and no usage. */
  lemma StreamedMatchesBuffered(pending: AttemptInfo, prior: seq<AttemptInfo>, events: seq<Event>)
    requires Drain(events).Drained?
    ensures var t, d := Direct(pending, prior, events), Drain(events);
            var f := t[|t| - 2];
            ContentOf(t) == d.content && f.FinalChunk? &&
            (d.sawTerminal ==> f.finish == FinishOf(d.toolCalls) && f.toolCalls == d.toolCalls &&
                               f.providerItems == d.providerItems &&
                               (f.usage == d.usage <==> EndsWithUsage(events) || d.usage.None?)) &&
            (!d.sawTerminal ==> f.finish == Aborted && f.usage.None?)
  {
    var c, t := Consumed(events), Direct(pending, prior, events);
    var final := Final(pending, prior, EndingOf(pending.provider, c));
    assert t == ([RoleChunk] + Forwards(c)) + [final, DoneMarker];
    DrainedEnd(pending, prior, events);
    NoText(final);
    hide *;
    ForwardedText(c);
    ContentAppend([RoleChunk] + Forwards(c), [final, DoneMarker]);
    ContentAppend([RoleChunk], Forwards(c));
  }

  /** The last event read reports what the answer cost. */
  predicate EndsWithUsage(events: seq<Event>) {
    var c := Consumed(events);
    c != [] && c[|c| - 1].usage.Some?
  }

  lemma LastUsageIs(c: seq<Event>)
    ensures c != [] && c[|c| - 1].usage.Some? ==> LastUsage(c) == c[|c| - 1].usage
  {
  }

  lemma NoText(final: Frame)
    requires !final.ContentChunk?
    ensures ContentOf([RoleChunk]) == "" && ContentOf([final, DoneMarker]) == ""
  {
    assert [final, DoneMarker][..1] == [final] && [final][..0] == [] && [RoleChunk][..0] == [];
  }

  /** A drained stream had no error, and how it ends decides the final frame. */
  lemma DrainedEnd(pending: AttemptInfo, prior: seq<AttemptInfo>, events: seq<Event>)
    requires Drain(events).Drained?
    ensures var c, d := Consumed(events), Drain(events);
            var f := Final(pending, prior, EndingOf(pending.provider, c));
            (forall i | 0 <= i < |c| :: c[i].err.None?) && d.content == Concat(Deltas(c)) && f.FinalChunk? &&
            (d.sawTerminal ==> f.finish == FinishOf(d.toolCalls) && f.toolCalls == d.toolCalls &&
                               f.providerItems == d.providerItems &&
                               (f.usage == d.usage <==> EndsWithUsage(events) || d.usage.None?)) &&
            (!d.sawTerminal ==> f.finish == Aborted && f.usage.None?)
  {
    var c := Consumed(events);
    LastUsageIs(c);
    hide Consumed, Concat, Deltas, LastUsage, Finalized;
    forall i | 0 <= i < |c| ensures c[i].err.None? {
      assert i < |c| - 1 ==> !Terminal(c[i]);
    }
  }

  // ---------------------------------------------------------------- the buffered reply

  predicate Accepts(c: Contender, gate: GateConfig) {
    c.response.Streams? &&
    var d := Drain(Events(c.response.script));
    d.Drained? && Evaluate(gate, d.content, d.toolCalls, d.sawTerminal).accepted
  }

  /** The first candidate from i on whose drained answer passes the gate. */
  function FirstAccept(ranked: seq<Contender>, gate: GateConfig, i: nat := 0): (k: nat)
    requires i <= |ranked|
    ensures i <= k <= |ranked| && forall j | i <= j < k :: !Accepts(ranked[j], gate)
    ensures k < |ranked| ==> Accepts(ranked[k], gate)
    decreases |ranked| - i
  {
    if i == |ranked| || Accepts(ranked[i], gate) then i else FirstAccept(ranked, gate, i + 1)
  }

  /** What the attempts in a trail cost together. */
  function TrailUsage(trail: seq<AttemptInfo>): Usage {
    if trail == [] then NO_USAGE else Plus(TrailUsage(trail[..|trail| - 1]), trail[|trail| - 1].usage)
  }

  lemma TrailUsageNext(trail: seq<AttemptInfo>, info: AttemptInfo)
    ensures TrailUsage(trail + [info]) == Plus(TrailUsage(trail), info.usage)
  {
    assert (trail + [info])[..|trail|] == trail;
    hide Plus;
  }

  /** What answered a buffered request: the error body, or candidate k's own drained answer. */
  ghost predicate Answers(run: Run, ranked: seq<Contender>, k: nat)
    requires k <= |ranked|
  {
    |run.frames| == 1 &&
    if k == |ranked| then
      |run.trail| == k && run.frames[0].ErrorReply? &&
      run.frames[0].body.attempts == run.trail && run.frames[0].body.usage == TrailUsage(run.trail)
    else
      |run.trail| == k + 1 && ranked[k].response.Streams? &&
      var d := Drain(Events(ranked[k].response.script));
      d.Drained? &&
      run.frames[0] == BufferedReply(if d.toolCalls != [] then CallTools else Stop, d.content, d.toolCalls,
                                     d.providerItems, ranked[k].provider, run.trail, TrailUsage(run.trail))
  }

  /** A client that does not stream gets exactly one reply: the first answer the gate accepts, as its provider gave
      it, or one error body; either way charged with what every attempt in the trail cost, rejected ones included. */
  lemma ReplyIsFirstAccepted(req: Request, ranked: seq<Contender>)
    requires !req.stream
    ensures Answers(Serve(req, ranked), ranked, FirstAccept(ranked, req.gate))
  {
    assert TrailUsage([]) == NO_USAGE;
    hide Answers, FirstAccept;
    ReplyFrom(req, ranked, 0, [], None);
  }

  lemma {:induction false} ReplyFrom(req: Request, ranked: seq<Contender>, i: nat, trail: seq<AttemptInfo>,
                                     lastErr: Option<Failure>)
    requires !req.stream && i <= |ranked| && |trail| == i
    ensures Answers(ServeFrom(req, ranked, i, trail, TrailUsage(trail), lastErr), ranked,
                    FirstAccept(ranked, req.gate, i))
    decreases |ranked| - i
  {
    hide *;
    if i == |ranked| {
      NobodyAccepted(req, ranked, trail, lastErr);
    } else {
      var v := ServeNext(req, ranked, i, trail, TrailUsage(trail), lastErr);
      JudgeBuffered(ranked[i], i + 1, req.gate);
      TrailUsageNext(trail, v.info);
      FirstAcceptStep(ranked, req.gate, i);
      if Accepts(ranked[i], req.gate) {
        AcceptedAnswers(req, ranked, i, trail, lastErr, v);
      } else {
        ReplyFrom(req, ranked, i + 1, trail + [v.info], Some(v.err));
        SameAnswer(ranked, FirstAccept(ranked, req.gate, i),
                   ServeFrom(req, ranked, i, trail, TrailUsage(trail), lastErr),
                   ServeFrom(req, ranked, i + 1, trail + [v.info], TrailUsage(trail + [v.info]), Some(v.err)));
      }
    }
  }

  lemma SameAnswer(ranked: seq<Contender>, k: nat, run: Run, rest: Run)
    requires k <= |ranked| && Answers(rest, ranked, k) && run.frames == rest.frames && run.trail == rest.trail
    ensures Answers(run, ranked, k)
  {
    hide Drain, TrailUsage, Events;
  }

  lemma NobodyAccepted(req: Request, ranked: seq<Contender>, trail: seq<AttemptInfo>, lastErr: Option<Failure>)
    requires |trail| == |ranked|
    ensures FirstAccept(ranked, req.gate, |ranked|) == |ranked|
    ensures Answers(ServeFrom(req, ranked, |ranked|, trail, TrailUsage(trail), lastErr), ranked, |ranked|)
  {
    hide AnyRetryable, TrailUsage;
  }

  lemma FirstAcceptStep(ranked: seq<Contender>, gate: GateConfig, i: nat)
    requires i < |ranked|
    ensures FirstAccept(ranked, gate, i) == if Accepts(ranked[i], gate) then i else FirstAccept(ranked, gate, i + 1)
  {
  }

  /** The verdict on a buffered attempt, and what it says the attempt cost. */
  lemma JudgeBuffered(c: Contender, n: int, gate: GateConfig)
    ensures var v := Judge(c, n, false, gate);
            if Accepts(c, gate) then
              c.response.Streams? && v.Accepted? && v.answer == Drain(Events(c.response.script)) && v.answer.Drained? &&
              v.info.provider == c.provider && v.info.usage == v.answer.usage
            else v.Fell? && v.usage == v.info.usage
  {
    hide Evaluate, Drain, Events;
  }

  lemma AcceptedAnswers(req: Request, ranked: seq<Contender>, i: nat, trail: seq<AttemptInfo>, lastErr: Option<Failure>,
                        v: Verdict)
    requires i < |ranked| && |trail| == i && v.Accepted? && v.answer.Drained? && ranked[i].response.Streams?
    requires v.answer == Drain(Events(ranked[i].response.script)) && v.info.provider == ranked[i].provider
    requires v.info.usage == v.answer.usage
    requires var run := ServeFrom(req, ranked, i, trail, TrailUsage(trail), lastErr);
             run.trail == trail + [v.info] &&
             run.frames == [Reply(v.info, v.answer, trail + [v.info], TrailUsage(trail))]
    ensures Answers(ServeFrom(req, ranked, i, trail, TrailUsage(trail), lastErr), ranked, i)
  {
    TrailUsageNext(trail, v.info);
    hide Drain, TrailUsage, Events, ServeFrom, Plus;
  }

  // ---------------------------------------------------------------- the error body's retryable flag

  predicate LastRetryable(trail: seq<AttemptInfo>) { trail != [] && trail[|trail| - 1].class_.Retryable() }

  predicate EarlierRetryable(trail: seq<AttemptInfo>) { exists j | 0 <= j < |trail| - 1 :: trail[j].class_.Retryable() }

  lemma {:induction false} FlagIsAny(req: Request, ranked: seq<Contender>, i: nat, trail: seq<AttemptInfo>,
                                     usage: Usage, lastErr: Option<Failure>)
    requires i <= |ranked|
    ensures var run := ServeFrom(req, ranked, i, trail, usage, lastErr);
            run.frames != [] &&
            (run.frames[0].ErrorReply? ==> (run.frames[0].body.retryable <==> AnyRetryable(run.trail)))
    decreases |ranked| - i
  {
    hide *;
    if i == |ranked| {
      AllFell(req, ranked, trail, usage, lastErr);
    } else {
      var v := ServeNext(req, ranked, i, trail, usage, lastErr);
      match v {
        case Fell(info, err, used) => FlagIsAny(req, ranked, i + 1, trail + [info], Plus(usage, used), Some(err));
        case Committed(info, buffered, rest) => RelayStartsWithRole(info, trail, Arrivals(buffered) + rest);
        case Accepted(info, answer) => ReplyIsNoError(info, answer, trail + [info], usage);
      }
    }
  }

  lemma AllFell(req: Request, ranked: seq<Contender>, trail: seq<AttemptInfo>, usage: Usage, lastErr: Option<Failure>)
    ensures var run := ServeFrom(req, ranked, |ranked|, trail, usage, lastErr);
            run.trail == trail && |run.frames| == 1 && run.frames[0].ErrorReply? &&
            (run.frames[0].body.retryable <==> AnyRetryable(trail))
  {
    hide AnyRetryable;
  }

  lemma RelayStartsWithRole(info: AttemptInfo, prior: seq<AttemptInfo>, src: Script)
    ensures Relayed(info, prior, src) != [] && Relayed(info, prior, src)[0] == RoleChunk
  {
    hide SignalFrames, Final, EndingOf, Consumed, Events;
  }

  lemma ReplyIsNoError(info: AttemptInfo, answer: Drained, trail: seq<AttemptInfo>, usage: Usage)
    ensures Reply(info, answer, trail, usage).BufferedReply?
  {
    hide Plus, FinishOf;
  }

  /** When every candidate failed, the error body's flag is the last attempt's own exactly when that attempt can be
      retried or no earlier one can. */
  lemma FlagIsLastIff(req: Request, ranked: seq<Contender>)
    requires Serve(req, ranked).frames != [] && Serve(req, ranked).frames[0].ErrorReply?
    ensures var run := Serve(req, ranked);
            (run.frames[0].body.retryable <==> LastRetryable(run.trail)) <==>
            LastRetryable(run.trail) || !EarlierRetryable(run.trail)
  {
    FlagIsAny(req, ranked, 0, [], NO_USAGE, None);
    AnyIsLastOrEarlier(Serve(req, ranked).trail);
    hide ServeFrom, AnyRetryable, LastRetryable, EarlierRetryable;
  }

  lemma AnyIsLastOrEarlier(trail: seq<AttemptInfo>)
    ensures AnyRetryable(trail) <==> LastRetryable(trail) || EarlierRetryable(trail)
  {
    if AnyRetryable(trail) {
      var a :| a in trail && a.class_.Retryable();
      var j :| 0 <= j < |trail| && trail[j] == a;
    }
    assert forall j | 0 <= j < |trail| :: trail[j] in trail;
  }

  /** A rate limit followed by a missing model: worth retrying, although the last attempt is not. */
  lemma FlagIsNotLast()
    ensures var limited := Contender("a", 1.0, 5, 1, 1, Refused(Failure.Failure(Plain, 429, "slow down", 0)));
            var missing := Contender("b", 0.5, 5, 2, 2, Refused(Failure.Failure(Plain, 404, "no such model", 0)));
            var run := Serve(Request("c", true, REJECT_EMPTY), [limited, missing]);
            |run.frames| == 1 && run.frames[0].ErrorReply? && run.frames[0].body.retryable && !LastRetryable(run.trail)
  {
    var e1, e2 := Failure.Failure(Plain, 429, "slow down", 0), Failure.Failure(Plain, 404, "no such model", 0);
    var limited, missing := Contender("a", 1.0, 5, 1, 1, Refused(e1)), Contender("b", 0.5, 5, 2, 2, Refused(e2));
    var req, ranked := Request("c", true, REJECT_EMPTY), [limited, missing];
    var a1, a2 := ErrorAttempt(limited, 1, e1), ErrorAttempt(missing, 2, e2);
    RefusedFalls(limited, 1, e1);
    RefusedFalls(missing, 2, e2);
    assert a1.class_ == RateLimit && a2.class_ == InvalidRequest;
    assert a1 in [a1, a2] && [a1] + [a2] == [a1, a2];
    hide *;
    var v1 := ServeNext(req, ranked, 0, [], NO_USAGE, None);
    var v2 := ServeNext(req, ranked, 1, [a1], NO_USAGE, Some(e1));
    AllFell(req, ranked, [a1, a2], NO_USAGE, Some(e2));
  }

  lemma RefusedFalls(c: Contender, n: int, err: Failure)
    requires c.response == Refused(err)
    ensures Judge(c, n, true, REJECT_EMPTY) == Fell(ErrorAttempt(c, n, err), err, None)
  {
    hide ErrorAttempt, Peek, PeekEnd, Drain, Evaluate;
  }

  // ---------------------------------------------------------------- eligibility

  ghost predicate Offers(out: seq<Candidate>, priority: int) { exists c | c in out :: c.priority == priority }

  lemma OffersAppend(a: seq<Candidate>, b: seq<Candidate>, priority: int)
    ensures Offers(a + b, priority) <==> Offers(a, priority) || Offers(b, priority)
  {
    forall c | c in a || c in b ensures c in a + b {}
  }

  /** Every provider was asked in declared order, and a candidate with priority i + 1 is offered exactly
      when provider i's breaker granted and it has the capabilities; offers keep the declared order. */
  ghost predicate Offered(ps: seq<Provider>, needs: Needs, polls: seq<Effect>, out: seq<Candidate>) {
    && |polls| == |ps|
    && (forall i | 0 <= i < |ps| :: polls[i].Broke? && polls[i].id == ps[i].id && polls[i].event.Asked?)
    && (forall j | 0 <= j < |out| :: 1 <= out[j].priority <= |ps| && out[j].id == ps[out[j].priority - 1].id)
    && (forall k | 1 <= k <= |ps| ::
          Offers(out, k) <==>
          Granted(polls[k - 1]) &&
          (needs.tools ==> ps[k - 1].supportsTools) && (needs.images ==> ps[k - 1].supportsImages))
    && (forall a, b | 0 <= a < b < |out| :: out[a].priority < out[b].priority)
  }

  lemma {:induction false} OfferedIffGrantedAndCapable(
      config: Breaker.Config, before: seq<Effect>, ps: seq<Provider>, clock: seq<int>, needs: Needs,
      calls: seq<Telemetry.Call>, hints: map<string, real>)
    requires |ps| == |clock|
    ensures Offered(ps, needs, Polls(config, before, ps, clock),
                    Eligible(config, before, ps, clock, needs, calls, hints))
  {
    if ps == [] {
      hide Offers;
    } else {
      hide *;
      var n := |ps| - 1;
      var poll, more := LastPoll(config, before, ps, clock, needs, calls, hints);
      OfferedIffGrantedAndCapable(config, before, ps[..n], clock[..n], needs, calls, hints);
      OfferedNext(ps[..n], needs, Polls(config, before, ps[..n], clock[..n]),
                  Eligible(config, before, ps[..n], clock[..n], needs, calls, hints), ps[n], poll, more);
      assert ps == ps[..n] + [ps[n]];
    }
  }

  /** A candidate carries what is known of its provider: the statistics telemetry has recorded, the configured quality
      hint, and whether its grant was a trial. */
  ghost predicate WellInformed(config: Breaker.Config, before: seq<Effect>, calls: seq<Telemetry.Call>,
                               hints: map<string, real>, c: Candidate) {
    && c.stats == Telemetry.StatsOf(Telemetry.CountersAfter(calls, c.id))
    && c.qualityHint == (if c.id in hints then hints[c.id] else 0.0)
    && (c.halfOpen <==> Breaker.FailuresSinceSuccess(BreakerEvents(before, c.id)) >= config.threshold)
  }

  /** Questions change nothing about the failures since the last success, and a granted one is an admission. */
  lemma {:induction false} PollsKeepFailures(config: Breaker.Config, before: seq<Effect>, ps: seq<Provider>,
                                             clock: seq<int>, id: string)
    requires |ps| == |clock|
    ensures var polls := Polls(config, before, ps, clock);
            Breaker.FailuresSinceSuccess(BreakerEvents(before + polls, id))
            == Breaker.FailuresSinceSuccess(BreakerEvents(before, id)) &&
            (ps != [] && id == ps[|ps| - 1].id && Granted(polls[|polls| - 1]) ==>
               Breaker.AdmittedSinceFailure(BreakerEvents(before + polls, id)))
  {
    hide *;
    if ps == [] {
      NoPolls(config, before);
    } else {
      var n := |ps| - 1;
      var earlier, poll := NextPoll(config, before, ps, clock);
      PollsKeepFailures(config, before, ps[..n], clock[..n], id);
      PollIsHeard(before + earlier, poll, id);
      assert before + (earlier + [poll]) == before + earlier + [poll];
      if poll.id == id { AskedNext(BreakerEvents(before + earlier, id), poll.event); }
    }
  }

  lemma NoPolls(config: Breaker.Config, before: seq<Effect>)
    ensures before + Polls(config, before, [], []) == before
  {
  }

  lemma NextPoll(config: Breaker.Config, before: seq<Effect>, ps: seq<Provider>, clock: seq<int>)
    returns (earlier: seq<Effect>, poll: Effect)
    requires |ps| == |clock| && ps != []
    ensures var n := |ps| - 1;
            earlier == Polls(config, before, ps[..n], clock[..n]) &&
            Polls(config, before, ps, clock) == earlier + [poll] &&
            poll.Broke? && poll.id == ps[n].id && poll.event.Asked? && (Granted(poll) <==> poll.event.granted)
  {
    hide Breaker.Admits, BreakerEvents;
    earlier := Polls(config, before, ps[..|ps| - 1], clock[..|ps| - 1]);
    poll := Polls(config, before, ps, clock)[|earlier|];
  }

  lemma PollIsHeard(effects: seq<Effect>, poll: Effect, id: string)
    requires poll.Broke?
    ensures BreakerEvents(effects + [poll], id)
         == if poll.id == id then BreakerEvents(effects, id) + [poll.event] else BreakerEvents(effects, id)
  {
    assert (effects + [poll])[..|effects|] == effects;
  }

  lemma {:induction false} EventsSplit(a: seq<Effect>, b: seq<Effect>, id: string)
    ensures BreakerEvents(a + b, id) == BreakerEvents(a, id) + BreakerEvents(b, id)
  {
    if b == [] {
      assert a + b == a;
    } else {
      assert (a + b)[..|a + b| - 1] == a + b[..|b| - 1];
      EventsSplit(a, b[..|b| - 1], id);
    }
  }

  lemma AskedNext(h: Breaker.History, e: Breaker.Event)
    requires e.Asked?
    ensures Breaker.FailuresSinceSuccess(h + [e]) == Breaker.FailuresSinceSuccess(h)
    ensures e.granted ==> Breaker.AdmittedSinceFailure(h + [e])
  {
    assert (h + [e])[..|h|] == h;
  }

  lemma {:induction false} OfferedAreInformed(
      config: Breaker.Config, before: seq<Effect>, ps: seq<Provider>, clock: seq<int>, needs: Needs,
      calls: seq<Telemetry.Call>, hints: map<string, real>)
    requires |ps| == |clock|
    ensures forall c | c in Eligible(config, before, ps, clock, needs, calls, hints) ::
              WellInformed(config, before, calls, hints, c)
  {
    if ps != [] {
      var n := |ps| - 1;
      OfferedAreInformed(config, before, ps[..n], clock[..n], needs, calls, hints);
      PollsKeepFailures(config, before, ps, clock, ps[n].id);
      hide Polls, BreakerEvents, Breaker.AdmittedSinceFailure, Breaker.FailuresSinceSuccess, Granted, Capable;
      hide Telemetry.StatsOf, Telemetry.CountersAfter;
    }
  }

  lemma LastPoll(config: Breaker.Config, before: seq<Effect>, ps: seq<Provider>, clock: seq<int>, needs: Needs,
                 calls: seq<Telemetry.Call>, hints: map<string, real>)
    returns (poll: Effect, more: seq<Candidate>)
    requires |ps| == |clock| && ps != []
    ensures var n := |ps| - 1;
            Polls(config, before, ps, clock) == Polls(config, before, ps[..n], clock[..n]) + [poll] &&
            Eligible(config, before, ps, clock, needs, calls, hints)
              == Eligible(config, before, ps[..n], clock[..n], needs, calls, hints) + more &&
            poll.Broke? && poll.id == ps[n].id && poll.event.Asked? &&
            if Granted(poll) && Capable(ps[n], needs)
            then |more| == 1 && more[0].priority == |ps| && more[0].id == ps[n].id
            else more == []
  {
    hide Granted, Capable, Breaker.Admits, Breaker.StateOf, BreakerEvents;
    var n := |ps| - 1;
    poll := Polls(config, before, ps, clock)[|Polls(config, before, ps[..n], clock[..n])|];
    more := Eligible(config, before, ps, clock, needs, calls, hints)
              [|Eligible(config, before, ps[..n], clock[..n], needs, calls, hints)|..];
  }

  lemma OfferedNext(ps: seq<Provider>, needs: Needs, polls: seq<Effect>, out: seq<Candidate>,
                    p: Provider, poll: Effect, more: seq<Candidate>)
    requires Offered(ps, needs, polls, out) && poll.Broke? && poll.id == p.id && poll.event.Asked?
    requires if Granted(poll) && Capable(p, needs)
             then |more| == 1 && more[0].priority == |ps| + 1 && more[0].id == p.id
             else more == []
    ensures Offered(ps + [p], needs, polls + [poll], out + more)
  {
    hide Granted, Offers;
    forall k | 1 <= k <= |ps| + 1
      ensures Offers(out + more, k) <==> Granted((polls + [poll])[k - 1]) && Capable((ps + [p])[k - 1], needs)
    {
      OffersAppend(out, more, k);
      OffersFew(more, k);
      if k == |ps| + 1 { OffersBelow(out, k); }
    }
    assert forall j | |out| <= j < |out + more| :: (out + more)[j] == more[0];
    assert forall j | 0 <= j < |out| :: (out + more)[j] == out[j];
  }

  lemma OffersFew(more: seq<Candidate>, k: int)
    requires |more| <= 1
    ensures Offers(more, k) <==> |more| == 1 && more[0].priority == k
  {
    if |more| == 1 { assert more[0] in more; }
  }

  lemma OffersBelow(out: seq<Candidate>, k: int)
    requires forall j | 0 <= j < |out| :: out[j].priority < k
    ensures !Offers(out, k)
  {
  }
}
