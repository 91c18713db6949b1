/** Deciding whether a provider's stream is worth committing to: the bounded peek
    (internal/router/stream.go), the drain of a buffered request (internal/server/chat.go)
    and the response gate (internal/router/gate.go). */
module Streaming {
  import opened Options
  import opened OpenAI
  import opened Text

  datatype Event = Event(
    delta: string, reasoning: string, progress: bool, done: bool, usage: Option<Usage>,
    toolCalls: seq<ToolCall>, providerItems: seq<ProviderItem>, err: Option<Failure>)

  /** What a select on a stream picks next.  A script is the order of the picks; its end is the
      closing of the channel.  The peek sees no keep-alive ticks, the relay neither timer nor context. */
  datatype Signal = Arrive(event: Event) | IdleExpired | CtxDone(reason: string) | KeepAliveTick

  type Script = seq<Signal>

  /** The events that arrive, in order. */
  function Events(src: Script): seq<Event> {
    if src == [] then []
    else Events(src[..|src| - 1]) + (if src[|src| - 1].Arrive? then [src[|src| - 1].event] else [])
  }

  function Arrivals(events: seq<Event>): Script { seq(|events|, i requires 0 <= i < |events| => Arrive(events[i])) }

  lemma {:induction false} EventsOfArrivals(events: seq<Event>)
    ensures Events(Arrivals(events)) == events
  {
    if events != [] {
      var front := events[..|events| - 1];
      assert Arrivals(events)[..|events| - 1] == Arrivals(front);
      EventsOfArrivals(front);
    }
  }

  lemma {:induction false} EventsAppend(a: Script, b: Script)
    ensures Events(a + b) == Events(a) + Events(b)
  {
    if b == [] {
      assert a + b == a;
    } else {
      assert (a + b)[..|a + b| - 1] == a + b[..|b| - 1];
      EventsAppend(a, b[..|b| - 1]);
    }
  }

  // ---------------------------------------------------------------- the bounded peek

  const PEEK_MAX_EVENTS := 8

  /** A signal worth committing to: visible text, or a terminal event carrying tool calls. */
  predicate Meaningful(e: Event) {
    e.err.None? && (!Blank(e.delta) || (e.done && e.toolCalls != []))
  }

  /** Neither an answer, an end, nor evidence that the provider is working. */
  predicate Silent(e: Event) {
    e.err.None? && Blank(e.delta) && !e.done && Blank(e.reasoning) && !e.progress
  }

  function SilentCount(events: seq<Event>): nat {
    if events == [] then 0
    else SilentCount(events[..|events| - 1]) + (if Silent(events[|events| - 1]) then 1 else 0)
  }

  /** Signal k ends the peek. */
  predicate Decisive(src: Script, k: nat)
    requires k < |src|
  {
    match src[k]
    case IdleExpired => true
    case CtxDone(_) => true
    case KeepAliveTick => false
    case Arrive(e) =>
      e.err.Some? || Meaningful(e) || e.done
      || (Silent(e) && SilentCount(Events(src[..k])) + 1 >= PEEK_MAX_EVENTS)
  }

  datatype PeekResult = PeekResult(committed: bool, reason: string, buffered: seq<Event>)

  const REASON_CLOSED := "stream closed with no meaningful content"
  const REASON_IDLE := "no meaningful content within the peek window"
  const REASON_EXHAUSTED := "peek buffer exhausted without meaningful content"
  const REASON_EMPTY := "stream closed empty"

  /** Why signal s, when it ends the peek, rejects the stream. */
  function Rejection(s: Signal): string
    requires s.Arrive? ==> !Meaningful(s.event)
  {
    match s
    case IdleExpired => REASON_IDLE
    case CtxDone(reason) => reason
    case KeepAliveTick => ""
    case Arrive(e) =>
      if e.err.Some? then "error before meaningful content: " + e.err.value.message
      else if e.done then REASON_EMPTY
      else REASON_EXHAUSTED
  }

  /** Signals consumed by a peek that has found nothing decisive among the first n. */
  function PeekEnd(src: Script, n: nat := 0): (end: nat)
    requires n <= |src|
    ensures n <= end <= |src|
    decreases |src| - n
  {
    if n == |src| then n else if Decisive(src, n) then n + 1 else PeekEnd(src, n + 1)
  }

  lemma {:induction false} PeekEndIsFirst(src: Script, n: nat, end: nat)
    requires n <= end <= |src|
    requires forall j | n <= j < end - 1 :: !Decisive(src, j)
    requires if end > n && Decisive(src, end - 1) then true else end == |src| && (end > n ==> !Decisive(src, end - 1))
    ensures PeekEnd(src, n) == end
    decreases |src| - n
  {
    if n < |src| && !Decisive(src, n) { PeekEndIsFirst(src, n + 1, end); }
  }

  function Peek(src: Script): PeekResult {
    var end := PeekEnd(src);
    var buffered := Events(src[..end]);
    if end == 0 || !Decisive(src, end - 1) then PeekResult(false, REASON_CLOSED, buffered)
    else match src[end - 1]
      case Arrive(e) =>
        if Meaningful(e) then PeekResult(true, "", buffered) else PeekResult(false, Rejection(src[end - 1]), buffered)
      case s => PeekResult(false, Rejection(s), buffered)
  }

  /** What a peek decides, said of the signals it consumed: nothing before the last was decisive, the
      stream is committed exactly when the last is a meaningful event, and a rejection names its cause. */
  lemma PeekDecides(src: Script)
    ensures var r, used := Peek(src), PeekEnd(src);
            (forall j | 0 <= j < used - 1 :: !Decisive(src, j)) &&
            (used < |src| ==> used > 0 && Decisive(src, used - 1)) &&
            r.buffered == Events(src[..used]) &&
            (r.committed <==> used > 0 && src[used - 1].Arrive? && Meaningful(src[used - 1].event)) &&
            (!r.committed ==>
               r.reason == if used > 0 && Decisive(src, used - 1) then Rejection(src[used - 1]) else REASON_CLOSED)
  {
    PeekStops(src, 0);
    var used := PeekEnd(src);
    assert used > 0 && src[used - 1].Arrive? && Meaningful(src[used - 1].event) ==> Decisive(src, used - 1);
    hide Decisive, PeekEnd, Events, Rejection, Meaningful;
  }

  /** BoundedPeek consumes src up to its first decisive signal; used is how many signals that took. */
  method BoundedPeek(src: Script) returns (r: PeekResult, used: nat)
    ensures used == PeekEnd(src) && r == Peek(src)
  {
    var buffered := [];
    var noSignalEvents := 0;
    used := 0;
    while used < |src|
      invariant used <= |src| && forall j | 0 <= j < used :: !Decisive(src, j)
      invariant buffered == Events(src[..used]) && noSignalEvents == SilentCount(buffered)
    {
      var s := src[used];
      assert src[..used + 1][..used] == src[..used];
      used := used + 1;
      if Decisive(src, used - 1) { PeekEndIsFirst(src, 0, used); }
      match s {
        case Arrive(evt) =>
          assert (buffered + [evt])[..|buffered|] == buffered;
          buffered := buffered + [evt];
          if evt.err.Some? {
            return PeekResult(false, "error before meaningful content: " + evt.err.value.message, buffered), used;
          }
          TrimSpaceBlank(evt.delta);
          if TrimSpace(evt.delta) != "" {
            return PeekResult(true, "", buffered), used;
          }
          if evt.done {
            if |evt.toolCalls| > 0 {
              return PeekResult(true, "", buffered), used;
            }
            return PeekResult(false, REASON_EMPTY, buffered), used;
          }
          TrimSpaceBlank(evt.reasoning);
          if TrimSpace(evt.reasoning) == "" && !evt.progress {
            noSignalEvents := noSignalEvents + 1;
            if noSignalEvents >= PEEK_MAX_EVENTS {
              return PeekResult(false, REASON_EXHAUSTED, buffered), used;
            }
          }
        case IdleExpired =>
          return PeekResult(false, REASON_IDLE, buffered), used;
        case CtxDone(reason) =>
          return PeekResult(false, reason, buffered), used;
        case KeepAliveTick =>
      }
    }
    PeekEndIsFirst(src, 0, used);
    r := PeekResult(false, REASON_CLOSED, buffered);
  }

  // ---------------------------------------------------------------- the peek, said of the events' own fields

  /** The events before signal n that show nothing: no reasoning and no progress on a tool call. */
  function Quiet(src: Script, n: nat): set<int>
    requires n <= |src|
  {
    set j | 0 <= j < n && src[j].Arrive? && Blank(src[j].event.reasoning) && !src[j].event.progress
  }

  /** A peek is still waiting after n signals: no timer or context fired, no error, text or end came, and fewer than
      eight events showed nothing.  Events that carry reasoning or progress never use up its patience. */
  ghost predicate StillWaiting(src: Script, n: nat)
    requires n <= |src|
  {
    && (forall j | 0 <= j < n && src[j].Arrive? ::
          src[j].event.err.None? && !src[j].event.done && Blank(src[j].event.delta))
    && (forall j | 0 <= j < n :: !src[j].IdleExpired? && !src[j].CtxDone?)
    && |Quiet(src, n)| < 8
  }

  lemma QuietNext(src: Script, n: nat)
    requires n < |src|
    ensures var s, q := src[n], Quiet(src, n);
            Quiet(src, 0) == {} && n !in q &&
            Quiet(src, n + 1) == if s.Arrive? && Blank(s.event.reasoning) && !s.event.progress then q + {n} else q
  {
  }

  lemma SilentNext(src: Script, n: nat)
    requires n < |src|
    ensures var s, c := src[n], SilentCount(Events(src[..n]));
            SilentCount(Events(src[..0])) == 0 &&
            SilentCount(Events(src[..n + 1])) == if s.Arrive? && Silent(s.event) then c + 1 else c
  {
    var front := Events(src[..n]);
    assert src[..0] == [] && Events([]) == [] && src[..n + 1][..n] == src[..n] && front + [] == front;
    if src[n].Arrive? { assert (front + [src[n].event])[..|front|] == front; }
  }

  /** While no error, text or end came, the silent events are those that show nothing. */
  lemma {:induction false} QuietCounts(src: Script, n: nat)
    requires n <= |src| && forall j | 0 <= j < n && src[j].Arrive? ::
               src[j].event.err.None? && !src[j].event.done && Blank(src[j].event.delta)
    ensures SilentCount(Events(src[..n])) == |Quiet(src, n)|
  {
    if n > 0 {
      QuietCounts(src, n - 1);
      QuietNext(src, n - 1);
      SilentNext(src, n - 1);
      hide Quiet, Events, SilentCount, Blank;
    } else {
      assert src[..0] == [];
    }
  }

  lemma WaitingNext(src: Script, n: nat)
    requires n < |src|
    ensures StillWaiting(src, n + 1) <==> StillWaiting(src, n) && !Decisive(src, n)
  {
    QuietNext(src, n);
    assert |Quiet(src, n)| <= |Quiet(src, n + 1)|;
    if StillWaiting(src, n) { QuietCounts(src, n); }
    hide Quiet, Events, SilentCount, Blank;
  }

  /** A peek waits on exactly while nothing it read was decisive. */
  lemma {:induction false} WaitsWhileUndecided(src: Script, n: nat)
    requires n <= |src|
    ensures StillWaiting(src, n) <==> forall j | 0 <= j < n :: !Decisive(src, j)
  {
    if n > 0 {
      WaitsWhileUndecided(src, n - 1);
      WaitingNext(src, n - 1);
      hide StillWaiting, Decisive;
    } else {
      assert Quiet(src, 0) == {};
    }
  }

  /** Where a peek ends that was still waiting after n signals and found the next one decisive. */
  lemma EndsAt(src: Script, n: nat)
    requires n < |src| && StillWaiting(src, n) && Decisive(src, n)
    ensures PeekEnd(src) == n + 1
  {
    WaitsWhileUndecided(src, n);
    hide StillWaiting, Decisive;
    PeekEndIsFirst(src, 0, n + 1);
  }

  /** A peek commits exactly when, while it is still waiting, text arrives or a terminal event with tool calls. */
  lemma PeekCommitsIff(src: Script)
    ensures Peek(src).committed <==>
            exists n | 0 <= n < |src| && StillWaiting(src, n) ::
              src[n].Arrive? && src[n].event.err.None? &&
              (!Blank(src[n].event.delta) || (src[n].event.done && src[n].event.toolCalls != []))
  {
    PeekDecides(src);
    var used := PeekEnd(src);
    if used > 0 { WaitsWhileUndecided(src, used - 1); }
    hide PeekEnd, Peek, StillWaiting, Blank;
    if n :| 0 <= n < |src| && StillWaiting(src, n) && src[n].Arrive? && Meaningful(src[n].event) {
      assert Decisive(src, n);
      EndsAt(src, n);
    }
  }

  /** What a peek that was still waiting makes of a decisive signal. */
  lemma PeekAt(src: Script, n: nat)
    requires n < |src| && StillWaiting(src, n) && Decisive(src, n)
    ensures PeekEnd(src) == n + 1
    ensures Peek(src) == if src[n].Arrive? && Meaningful(src[n].event) then PeekResult(true, "", Events(src[..n + 1]))
                         else PeekResult(false, Rejection(src[n]), Events(src[..n + 1]))
  {
    EndsAt(src, n);
    hide PeekEnd, Events, Decisive, Rejection, Meaningful, StillWaiting;
  }

  /** A peek runs out of patience exactly at the eighth event that shows nothing. */
  lemma PeekExhaustedIff(src: Script, n: nat)
    requires n < |src| && StillWaiting(src, n)
    requires src[n].Arrive? && src[n].event.err.None? && !src[n].event.done && Blank(src[n].event.delta)
    ensures if |Quiet(src, n + 1)| == 8
            then Peek(src) == PeekResult(false, REASON_EXHAUSTED, Events(src[..n + 1])) && PeekEnd(src) == n + 1
            else StillWaiting(src, n + 1)
  {
    WaitingNext(src, n);
    PatienceLeft(src, n);
    assert !Meaningful(src[n].event) && Rejection(src[n]) == REASON_EXHAUSTED;
    hide *;
    if |Quiet(src, n + 1)| == 8 { PeekAt(src, n); }
  }

  lemma PatienceLeft(src: Script, n: nat)
    requires n < |src| && StillWaiting(src, n)
    requires src[n].Arrive? && src[n].event.err.None? && !src[n].event.done && Blank(src[n].event.delta)
    ensures StillWaiting(src, n + 1) <==> |Quiet(src, n + 1)| < 8
    ensures |Quiet(src, n + 1)| <= 8
  {
    QuietNext(src, n);
    hide Quiet, Blank;
  }

  /** A stream that closes while the peek is still waiting. */
  lemma PeekClosed(src: Script)
    requires StillWaiting(src, |src|)
    ensures Peek(src) == PeekResult(false, "stream closed with no meaningful content", Events(src))
  {
    WaitsWhileUndecided(src, |src|);
    hide StillWaiting, Events, Decisive;
    PeekEndIsFirst(src, 0, |src|);
    assert src[..|src|] == src;
  }

  /** Why a peek that was still waiting rejects the stream at the signal that comes next. */
  lemma PeekReasons(src: Script, n: nat)
    requires n < |src| && StillWaiting(src, n)
    ensures match src[n]
            case IdleExpired => Peek(src).reason == "no meaningful content within the peek window"
            case CtxDone(reason) => Peek(src).reason == reason
            case KeepAliveTick => true
            case Arrive(e) =>
              (e.err.Some? ==> Peek(src).reason == "error before meaningful content: " + e.err.value.message) &&
              (e.err.None? && Blank(e.delta) && e.done && e.toolCalls == [] ==>
                 Peek(src).reason == "stream closed empty")
  {
    hide StillWaiting, Blank, Events, SilentCount, PeekEnd, Peek;
    if Decisive(src, n) { PeekAt(src, n); }
  }

  /** A provider that thinks or assembles tool calls for however long is never rejected for it: its first text
      commits. */
  lemma ThinkingIsPatience(quiet: seq<Event>, e: Event, rest: Script)
    requires forall q | q in quiet ::
               q.err.None? && !q.done && Blank(q.delta) && (!Blank(q.reasoning) || q.progress)
    requires e.err.None? && !Blank(e.delta)
    ensures Peek(Arrivals(quiet + [e]) + rest).committed
  {
    var src, n := Arrivals(quiet + [e]) + rest, |quiet|;
    assert forall j | 0 <= j < n :: src[j] == Arrive(quiet[j]) && quiet[j] in quiet;
    assert Quiet(src, n) == {};
    assert src[n] == Arrive(e) && StillWaiting(src, n);
    PeekCommitsIff(src);
  }

  // ---------------------------------------------------------------- the drain

  predicate Terminal(e: Event) { e.err.Some? || e.done }

  /** The events a consumer reads: everything through the first terminal one. */
  function Consumed(events: seq<Event>): (c: seq<Event>)
    ensures c <= events
    ensures forall i | 0 <= i < |c| - 1 :: !Terminal(c[i])
    ensures |c| < |events| ==> c != [] && Terminal(c[|c| - 1])
  {
    if events == [] then []
    else if Terminal(events[0]) then [events[0]]
    else [events[0]] + Consumed(events[1..])
  }

  function Deltas(events: seq<Event>): seq<string> { seq(|events|, i requires 0 <= i < |events| => events[i].delta) }

  function LastUsage(events: seq<Event>): Option<Usage> {
    if events == [] then None
    else if events[|events| - 1].usage.Some? then events[|events| - 1].usage
    else LastUsage(events[..|events| - 1])
  }

  datatype Drained =
    | DrainError(err: Failure)
    | Drained(content: string, toolCalls: seq<ToolCall>, providerItems: seq<ProviderItem>,
              usage: Option<Usage>, sawTerminal: bool)

  /** What draining yields, said of the consumed events c as a whole. */
  function DrainOf(c: seq<Event>): Drained {
    if c != [] && c[|c| - 1].err.Some? then
      DrainError(c[|c| - 1].err.value)
    else
      var saw := c != [] && c[|c| - 1].done;
      Drained(Concat(Deltas(c)),
              if saw then c[|c| - 1].toolCalls else [],
              if saw then c[|c| - 1].providerItems else [],
              LastUsage(c), saw)
  }

  function Drain(events: seq<Event>): Drained { DrainOf(Consumed(events)) }

  method DrainToBuffer(events: seq<Event>) returns (d: Drained)
    ensures d == Drain(events)
  {
    var content := "";
    var usage := None;
    var i := 0;
    while i < |events|
      invariant 0 <= i <= |events| && forall j | 0 <= j < i :: !Terminal(events[j])
      invariant content == Concat(Deltas(events[..i])) && usage == LastUsage(events[..i])
    {
      var evt := events[i];
      if Terminal(evt) { ConsumedThrough(events, i + 1); }
      if evt.err.Some? {
        return DrainError(evt.err.value);
      }
      DrainStep(events, i);
      content := content + evt.delta;
      if evt.usage.Some? {
        usage := evt.usage;
      }
      if evt.done {
        return Drained(content, evt.toolCalls, evt.providerItems, usage, true);
      }
      i := i + 1;
    }
    ConsumedThrough(events, |events|);
    d := Drained(content, [], [], usage, false);
  }

  lemma DrainStep(events: seq<Event>, i: nat)
    requires i < |events|
    ensures Concat(Deltas(events[..i + 1])) == Concat(Deltas(events[..i])) + events[i].delta
    ensures LastUsage(events[..i + 1]) == if events[i].usage.Some? then events[i].usage else LastUsage(events[..i])
  {
    assert events[..i + 1][..i] == events[..i];
    assert Deltas(events[..i + 1]) == Deltas(events[..i]) + [events[i].delta];
    ConcatAppend(Deltas(events[..i]), [events[i].delta]);
    assert Concat([events[i].delta]) == events[i].delta;
  }

  lemma {:induction false} ConsumedThrough(events: seq<Event>, n: nat)
    requires n <= |events| && forall j | 0 <= j < n - 1 :: !Terminal(events[j])
    requires if n == |events| then true else n > 0 && Terminal(events[n - 1])
    ensures Consumed(events) == events[..n]
  {
    if n > 1 || (n == 1 && !Terminal(events[0])) {
      ConsumedThrough(events[1..], n - 1);
      assert events[..n] == [events[0]] + events[1..][..n - 1];
    }
  }

  // ---------------------------------------------------------------- the response gate

  datatype GateConfig = GateConfig(requireTerminal: bool, rejectEmpty: bool, minContentLength: int,
                                   forbidden: seq<string>)

  datatype GateOutcome = GateOutcome(accepted: bool, reason: string)

  predicate HitsForbidden(content: string, subs: seq<string>) {
    subs != [] && ((subs[0] != "" && Contains(content, subs[0])) || HitsForbidden(content, subs[1..]))
  }

  function Evaluate(cfg: GateConfig, content: string, toolCalls: seq<ToolCall>, sawTerminal: bool): GateOutcome {
    if cfg.requireTerminal && !sawTerminal then
      GateOutcome(false, "stream ended without a terminal signal")
    else if cfg.rejectEmpty && TrimSpace(content) == "" && toolCalls == [] then
      GateOutcome(false, "empty response")
    else if cfg.minContentLength > 0 && toolCalls == [] && ByteLength(content) < cfg.minContentLength then
      GateOutcome(false, "content shorter than the configured minimum")
    else if HitsForbidden(content, cfg.forbidden) then
      GateOutcome(false, "response matched a forbidden substring")
    else GateOutcome(true, "")
  }

  lemma {:induction false} HitsForbiddenIff(content: string, subs: seq<string>)
    ensures HitsForbidden(content, subs) <==>
            exists f, i | f in subs && 0 <= i <= |content| :: f != "" && f <= content[i..]
  {
    if subs != [] {
      HitsForbiddenIff(content, subs[1..]);
      ContainsMeans(content, subs[0]);
      HitsNext(content, subs);
      hide Contains, HitsForbidden;
      if f, i :| f in subs && 0 <= i <= |content| && f != "" && f <= content[i..] {
        assert f == subs[0] || f in subs[1..];
      }
      if f, i :| f in subs[1..] && 0 <= i <= |content| && f != "" && f <= content[i..] { assert f in subs; }
      if i :| 0 <= i <= |content| && subs[0] <= content[i..] { assert subs[0] in subs; }
    }
  }

  lemma HitsNext(content: string, subs: seq<string>)
    requires subs != []
    ensures HitsForbidden(content, subs) <==>
            (subs[0] != "" && Contains(content, subs[0])) || HitsForbidden(content, subs[1..])
  {
  }

  /** What a gate lets through: an answer with every property its configuration asks for.  Tool calls make up for
      missing text, never for a missing end or a forbidden passage. */
  lemma GateAcceptsIff(cfg: GateConfig, content: string, toolCalls: seq<ToolCall>, sawTerminal: bool)
    ensures Evaluate(cfg, content, toolCalls, sawTerminal).accepted <==>
            && (cfg.requireTerminal ==> sawTerminal)
            && (cfg.rejectEmpty ==> toolCalls != [] || exists c | c in content :: !IsSpace(c))
            && (cfg.minContentLength > 0 ==> toolCalls != [] || ByteLength(content) >= cfg.minContentLength)
            && (forall f, i | f in cfg.forbidden && 0 <= i <= |content| :: f == "" || !(f <= content[i..]))
  {
    TrimSpaceBlank(content);
    HitsForbiddenIff(content, cfg.forbidden);
    hide HitsForbidden, TrimSpace, ByteLength, IsSpace;
  }

  const REJECT_EMPTY := GateConfig(false, true, 0, [])

  // ---------------------------------------------------------------- peek and gate agree

  /** How many events a peek reads before the first meaningful one. */
  function FirstMeaningful(events: seq<Event>): (m: nat)
    ensures m <= |events| && forall j | 0 <= j < m :: !Meaningful(events[j])
    ensures m < |events| ==> Meaningful(events[m])
  {
    if events == [] || Meaningful(events[0]) then 0 else 1 + FirstMeaningful(events[1..])
  }

  predicate GateAccepts(events: seq<Event>) {
    var d := Drain(events);
    d.Drained? && Evaluate(REJECT_EMPTY, d.content, d.toolCalls, d.sawTerminal).accepted
  }

  /** A drained answer is non-empty exactly when a meaningful event was among those consumed. */
  lemma NonEmptyMeansMeaningful(events: seq<Event>)
    requires Drain(events).Drained?
    ensures GateAccepts(events) <==> FirstMeaningful(events) < |Consumed(events)|
  {
    var c, d, m := Consumed(events), Drain(events), FirstMeaningful(events);
    TrimSpaceBlank(d.content);
    ContentBlank(c);
    forall i | 0 <= i < |c| ensures c[i].err.None? && (i < |c| - 1 ==> !c[i].done) {
      assert Terminal(c[i]) <==> c[i].err.Some? || c[i].done;
    }
    assert m < |c| ==> Meaningful(c[m]);
    assert forall i | 0 <= i < |c| && i < m :: !Meaningful(c[i]);
    hide Consumed, FirstMeaningful, Concat, Deltas, LastUsage, TrimSpace, Blank;
  }

  lemma ContentBlank(c: seq<Event>)
    ensures Blank(Concat(Deltas(c))) <==> forall i | 0 <= i < |c| :: Blank(c[i].delta)
  {
    ConcatBlank(Deltas(c));
    assert forall i | 0 <= i < |c| :: Deltas(c)[i] == c[i].delta;
  }

  /** On any stream that drains without error, the peek (no timeout, no cancellation) commits exactly
      when a reject-empty gate would accept the drained answer and at most 7 silent events precede the
      first meaningful one. */
  lemma PeekAgreesWithGate(events: seq<Event>)
    requires Drain(events).Drained?
    ensures Peek(Arrivals(events)).committed <==>
              GateAccepts(events) && SilentCount(events[..FirstMeaningful(events)]) < PEEK_MAX_EVENTS
  {
    var src, m := Arrivals(events), FirstMeaningful(events);
    NonEmptyMeansMeaningful(events);
    forall k | 0 <= k < |src| ensures Events(src[..k]) == events[..k] {
      assert src[..k] == Arrivals(events[..k]);
      EventsOfArrivals(events[..k]);
    }
    if m < |Consumed(events)| && SilentCount(events[..m]) < PEEK_MAX_EVENTS {
      AcceptedCommits(src, events, m);
    }
    if Peek(src).committed {
      CommittedAccepts(src, events, m);
    }
  }

  lemma AcceptedCommits(src: Script, events: seq<Event>, m: nat)
    requires src == Arrivals(events) && m < |Consumed(events)|
    requires forall k | 0 <= k < |src| :: Events(src[..k]) == events[..k]
    requires m == FirstMeaningful(events) && SilentCount(events[..m]) < PEEK_MAX_EVENTS
    ensures Peek(src).committed
  {
    forall j | 0 <= j < m ensures !Decisive(src, j) {
      StillUndecided(src, events, m, j);
    }
    assert Decisive(src, m);
    PeekEndIsFirst(src, 0, m + 1);
  }

  lemma StillUndecided(src: Script, events: seq<Event>, m: nat, j: nat)
    requires src == Arrivals(events) && j < m < |Consumed(events)|
    requires Events(src[..j]) == events[..j] && !Meaningful(events[j])
    requires SilentCount(events[..m]) < PEEK_MAX_EVENTS
    ensures !Decisive(src, j)
  {
    SilentCountMonotone(events, j + 1, m);
    assert events[..j + 1][..j] == events[..j];
    assert Consumed(events)[j] == events[j];
  }

  lemma CommittedAccepts(src: Script, events: seq<Event>, m: nat)
    requires src == Arrivals(events) && m == FirstMeaningful(events) && Peek(src).committed
    requires forall k | 0 <= k < |src| :: Events(src[..k]) == events[..k]
    ensures m < |Consumed(events)| && SilentCount(events[..m]) < PEEK_MAX_EVENTS
  {
    var c, end := Consumed(events), PeekEnd(src);
    PeekStops(src, 0);
    assert Meaningful(events[end - 1]) && m <= end - 1;
    assert Decisive(src, m);
    forall j | 0 <= j < m ensures !Terminal(events[j]) { assert !Decisive(src, j); }
    assert |c| < |events| ==> c[|c| - 1] == events[|c| - 1];
    SilentBudget(src, events, m);
  }

  /** No signal before the end of a peek was decisive. */
  lemma {:induction false} PeekStops(src: Script, n: nat)
    requires n <= |src|
    ensures forall j | n <= j < PeekEnd(src, n) - 1 :: !Decisive(src, j)
    ensures n < PeekEnd(src, n) < |src| ==> Decisive(src, PeekEnd(src, n) - 1)
    ensures n < |src| ==> n < PeekEnd(src, n)
    decreases |src| - n
  {
    if n < |src| && !Decisive(src, n) { PeekStops(src, n + 1); }
  }

  lemma {:induction false} SilentCountMonotone(events: seq<Event>, i: nat, j: nat)
    requires i <= j <= |events|
    ensures SilentCount(events[..i]) <= SilentCount(events[..j])
  {
    if i < j {
      assert events[..j][..j - 1] == events[..j - 1];
      SilentCountMonotone(events, i, j - 1);
    }
  }

  /** While nothing was decisive the silent budget was not spent. */
  lemma {:induction false} SilentBudget(src: Script, events: seq<Event>, m: nat)
    requires m <= |src| == |events| && src == Arrivals(events)
    requires forall k | 0 <= k < |src| :: Events(src[..k]) == events[..k]
    requires forall j | 0 <= j < m :: !Decisive(src, j)
    ensures SilentCount(events[..m]) < PEEK_MAX_EVENTS
  {
    if m > 0 {
      SilentBudget(src, events, m - 1);
      assert events[..m][..m - 1] == events[..m - 1];
      assert !Decisive(src, m - 1);
    }
  }
}
