/** Request/response correlation of the LSP client (internal/lsp/client.go; JSON-RPC 2.0, section 5).

    Callers and the single read loop interleave freely.  What each does atomically, under the client's
    lock or on one channel, is a step; a run is any sequence of steps. */
module LspClient {
  import opened Options
  import Sets

  /** An incoming message's id as the client decodes it: absent, a number, null (which decodes to 0) or
      something that is not an integer. */
  datatype ID = Absent | Number(n: int) | Null | Undecodable

  datatype Envelope = Envelope(id: ID, name: string, body: string)

  /** A reply channel with room for one message.  owner is the id of the call that made it, waiting says
      whether that call still receives. */
  datatype Channel = Channel(owner: int, sent: seq<Envelope>, closed: bool, waiting: bool)

  /** Channels are told apart by identity, not by request id. */
  type Handle = nat

  /** Where the read loop stands. */
  datatype ReadLoop = Reading | Sending(to: Handle, message: Envelope) | Closing(left: set<Handle>) | Exited

  datatype State = State(nextID: int, pending: map<int, Handle>, dead: Option<string>,
                         channels: map<Handle, Channel>, loop: ReadLoop)

  const START := State(0, map[], None, map[], Reading)

  datatype Step =
    | Call(h: Handle)                    // call registers, having made channel h
    | Receive(h: Handle)                 // the call takes its reply or sees the channel closed
    | Abandon(h: Handle)                 // the call times out, is cancelled or could not be written
    | Route(message: Envelope)           // the loop reads a message and looks up its call
    | Send                               // the loop puts the message on the channel it found
    | Fail(eof: bool, reason: string)    // the loop stops reading: shutdown marks the client dead
    | Close(h: Handle)                   // shutdown closes one of the channels it took over
    | Leave                              // shutdown is done

  /** The request id a reply answers. */
  function ReplyTo(m: Envelope): Option<int> {
    if m.id == Absent || m.name != "" then None  // a notification or a request of the server's
    else match m.id
      case Number(n) => Some(n)
      case Null => Some(0)
      case _ => None
  }

  /** A send would wait: the channel's buffer is taken. */
  predicate Blocks(s: State) { s.loop.Sending? && s.loop.to in s.channels && s.channels[s.loop.to].sent != [] }

  /** A send or close would panic: the channel is closed already. */
  predicate Panics(s: State, step: Step) {
    match step
    case Send => s.loop.Sending? && s.loop.to in s.channels && s.channels[s.loop.to].closed
    case Close(h) => s.loop.Closing? && h in s.loop.left && h in s.channels && s.channels[h].closed
    case _ => false
  }

  /** The channels of a pending table. */
  function Values(m: map<int, Handle>): set<Handle> { set id | id in m :: m[id] }

  function Remove(m: map<int, Handle>, id: int): map<int, Handle> { map x | x in m && x != id :: m[x] }

  /** One step; a step that cannot be taken leaves the state alone. */
  function Do(s: State, step: Step): State {
    match step
    case Call(h) =>
      if s.dead.Some? || h in s.channels then s
      else
        var id := s.nextID + 1;
        s.(nextID := id, pending := s.pending[id := h], channels := s.channels[h := Channel(id, [], false, true)])
    case Receive(h) =>
      if h in s.channels && s.channels[h].waiting && (s.channels[h].sent != [] || s.channels[h].closed)
      then s.(channels := s.channels[h := s.channels[h].(waiting := false)]) else s
    case Abandon(h) =>
      if h in s.channels then s.(channels := s.channels[h := s.channels[h].(waiting := false)]) else s
    case Route(m) =>
      if s.loop != Reading || ReplyTo(m).None? || ReplyTo(m).value !in s.pending then s
      else
        var id := ReplyTo(m).value;
        s.(pending := Remove(s.pending, id), loop := Sending(s.pending[id], m))
    case Send =>
      if !s.loop.Sending? || s.loop.to !in s.channels || Blocks(s) then s
      else
        var ch := s.channels[s.loop.to];
        s.(channels := s.channels[s.loop.to := ch.(sent := ch.sent + [s.loop.message])], loop := Reading)
    case Fail(eof, reason) =>
      if s.loop != Reading then s
      else
        s.(dead := if s.dead.Some? then s.dead else Some(if eof then "server disconnected" else reason),
           pending := map[], loop := Closing(Values(s.pending)))
    case Close(h) =>
      if !s.loop.Closing? || h !in s.loop.left || h !in s.channels then s
      else s.(channels := s.channels[h := s.channels[h].(closed := true)], loop := Closing(s.loop.left - {h}))
    case Leave =>
      if s.loop == Closing({}) then s.(loop := Exited) else s
  }

  function Run(steps: seq<Step>): State {
    if steps == [] then START else Do(Run(steps[..|steps| - 1]), steps[|steps| - 1])
  }

  // ---------------------------------------------------------------- what every step keeps

  /** Nothing was put on the channel yet, and it is open. */
  predicate Untouched(s: State, h: Handle) { h in s.channels && s.channels[h].sent == [] && !s.channels[h].closed }

  /** Something can still put a message on the channel or close it. */
  predicate InHand(s: State, h: Handle) {
    h in Values(s.pending)
    || (s.loop.Sending? && s.loop.to == h)
    || (s.loop.Closing? && h in s.loop.left)
  }

  /** Each call has an id of its own. */
  ghost predicate OwnIDs(s: State) {
    && 0 <= s.nextID
    && (forall h | h in s.channels :: 0 < s.channels[h].owner <= s.nextID)
    && (forall g, h | g in s.channels && h in s.channels && g != h :: s.channels[g].owner != s.channels[h].owner)
  }

  /** The table maps ids to the untouched channels of their calls. */
  ghost predicate TableOK(s: State) {
    forall id | id in s.pending :: Untouched(s, s.pending[id]) && s.channels[s.pending[id]].owner == id
  }

  /** The loop only touches channels that left the table untouched. */
  ghost predicate LoopOK(s: State) {
    match s.loop
    case Sending(to, message) =>
      Untouched(s, to) && to !in Values(s.pending) && ReplyTo(message) == Some(s.channels[to].owner)
    case Closing(left) => forall h | h in left :: Untouched(s, h)
    case _ => true
  }

  /** Nothing is pending for a dead client. */
  ghost predicate DeadOK(s: State) {
    && (s.dead.Some? <==> s.loop.Closing? || s.loop.Exited?)
    && (s.dead.Some? ==> s.pending == map[])
  }

  /** No channel is forgotten. */
  ghost predicate NoneLost(s: State) { forall h | h in s.channels :: Settled(s.channels[h]) || InHand(s, h) }

  ghost predicate AllProper(s: State) { forall h | h in s.channels :: Proper(s.channels[h]) }

  ghost predicate Inv(s: State) {
    OwnIDs(s) && TableOK(s) && LoopOK(s) && DeadOK(s) && NoneLost(s) && AllProper(s)
  }

  /** The channel got its one message or was closed. */
  predicate Settled(ch: Channel) { ch.sent != [] || ch.closed }

  /** At most one message or a close, never both, and only a reply to its own call. */
  predicate Proper(ch: Channel) {
    && (ch.sent == [] || (|ch.sent| == 1 && !ch.closed && ReplyTo(ch.sent[0]) == Some(ch.owner)))
  }

  lemma CallKeeps(s: State, h: Handle)
    requires Inv(s)
    ensures Inv(Do(s, Call(h)))
  {
    var t := Do(s, Call(h));
    if t != s {
      var id := s.nextID + 1;
      ValuesAdd(s.pending, id, h, s.nextID);
      assert TableOK(t) by {
        forall x | x in t.pending ensures Untouched(t, t.pending[x]) && t.channels[t.pending[x]].owner == x {
          if x != id { assert Untouched(s, s.pending[x]); }
        }
      }
      assert forall g | g in s.channels :: InHand(s, g) ==> InHand(t, g);
    }
  }

  lemma ValuesAdd(m: map<int, Handle>, id: int, h: Handle, max: int)
    requires (forall x | x in m :: x <= max) && id > max
    ensures Values(m[id := h]) == Values(m) + {h}
  {
    var n := m[id := h];
    forall g ensures g in Values(n) <==> g in Values(m) + {h} {
      if g in Values(m) {
        var x :| x in m && m[x] == g;
        assert n[x] == g;
      }
      if g == h { assert n[id] == g; }
    }
  }

  lemma WaiterKeeps(s: State, step: Step)
    requires Inv(s) && (step.Receive? || step.Abandon?)
    ensures Inv(Do(s, step))
  {
    var t, h := Do(s, step), step.h;
    if t != s {
      SameMessages(s, t, h);
    }
  }

  /** Whether a call still waits is nobody else's business. */
  lemma SameMessages(s: State, t: State, h: Handle)
    requires Inv(s) && h in s.channels
    requires t == s.(channels := s.channels[h := s.channels[h].(waiting := false)])
    ensures Inv(t)
  {
    forall g ensures Untouched(s, g) == Untouched(t, g) && InHand(s, g) == InHand(t, g) {}
    forall g | g in s.channels
      ensures g in t.channels && t.channels[g].owner == s.channels[g].owner &&
              Settled(t.channels[g]) == Settled(s.channels[g]) && Proper(t.channels[g]) == Proper(s.channels[g])
    {
    }
    hide Untouched, InHand, Settled, Proper, Values, ReplyTo;
  }

  lemma RouteKeeps(s: State, m: Envelope)
    requires Inv(s)
    ensures Inv(Do(s, Route(m)))
  {
    var t := Do(s, Route(m));
    if t != s {
      var id := ReplyTo(m).value;
      var h := s.pending[id];
      forall g | g in s.channels && InHand(s, g) ensures InHand(t, g) {
        if g != h {
          var x :| x in s.pending && s.pending[x] == g;
          assert x != id && t.pending[x] == g;
        }
      }
      forall x | x in t.pending ensures t.pending[x] != h { assert s.channels[s.pending[x]].owner == x; }
    }
  }

  lemma SendKeeps(s: State)
    requires Inv(s)
    ensures Inv(Do(s, Send)) && !Blocks(s) && !Panics(s, Send)
  {
    var t := Do(s, Send);
    if t != s {
      assert t.pending == s.pending;
      forall id | id in t.pending ensures Untouched(t, t.pending[id]) { assert s.pending[id] in Values(s.pending); }
      assert forall g | g != s.loop.to :: InHand(s, g) ==> InHand(t, g);
    }
  }

  lemma FailKeeps(s: State, eof: bool, reason: string)
    requires Inv(s)
    ensures Inv(Do(s, Fail(eof, reason)))
  {
    var t := Do(s, Fail(eof, reason));
    if t != s {
      forall h | h in t.loop.left ensures Untouched(t, h) {
        var id :| id in s.pending && s.pending[id] == h;
      }
      assert forall g :: InHand(s, g) ==> InHand(t, g);
    }
  }

  lemma CloseKeeps(s: State, h: Handle)
    requires Inv(s)
    ensures Inv(Do(s, Close(h))) && !Panics(s, Close(h))
  {
    var t := Do(s, Close(h));
    if t != s {
      assert forall g | g != h :: InHand(s, g) ==> InHand(t, g);
    }
  }

  lemma LeaveKeeps(s: State)
    requires Inv(s)
    ensures Inv(Do(s, Leave))
  {
    var t := Do(s, Leave);
    if t != s { assert forall g :: InHand(s, g) ==> InHand(t, g); }
  }

  lemma StepKeeps(s: State, step: Step)
    requires Inv(s)
    ensures Inv(Do(s, step)) && !Blocks(s) && !Panics(s, step)
  {
    hide Inv;
    SendKeeps(s);
    match step {
      case Call(h) => CallKeeps(s, h);
      case Receive(_) => WaiterKeeps(s, step);
      case Abandon(_) => WaiterKeeps(s, step);
      case Route(m) => RouteKeeps(s, m);
      case Send =>
      case Fail(eof, reason) => FailKeeps(s, eof, reason);
      case Close(h) => CloseKeeps(s, h);
      case Leave => LeaveKeeps(s);
    }
  }

  lemma {:induction false} RunKeeps(steps: seq<Step>)
    ensures Inv(Run(steps))
  {
    if steps != [] {
      RunKeeps(steps[..|steps| - 1]);
      StepKeeps(Run(steps[..|steps| - 1]), steps[|steps| - 1]);
    }
  }

  // ---------------------------------------------------------------- over whole runs

  /** Each reply channel gets at most one of a message and a close; the message names no method and bears the number
      of the call that made the channel.  Distinct calls have distinct numbers. */
  lemma RepliesReachTheirCalls(steps: seq<Step>, g: Handle, h: Handle)
    ensures var s := Run(steps);
            (h in s.channels && s.channels[h].sent != [] ==>
               s.channels[h].sent == [Envelope(Number(s.channels[h].owner), "", s.channels[h].sent[0].body)] &&
               !s.channels[h].closed) &&
            (g in s.channels && h in s.channels && g != h ==> s.channels[g].owner != s.channels[h].owner)
  {
    RunKeeps(steps);
    var s := Run(steps);
    if h in s.channels && s.channels[h].sent != [] {
      assert Proper(s.channels[h]) && 0 < s.channels[h].owner;
      hide Run;
      var m := s.channels[h].sent[0];
      assert m == Envelope(m.id, m.name, m.body);
    }
  }

  lemma NumbersArePositive(s: State)
    requires Inv(s)
    ensures forall id | id in s.pending :: id > 0
  {
    forall id | id in s.pending ensures id > 0 { assert Untouched(s, s.pending[id]); }
  }

  /** In every run a message finds a call exactly when the loop is reading, the message names no method and it bears
      the number of a pending call; any other message - a notification, a request of the server's, a null or
      undecodable id, a number nobody waits for - changes nothing. */
  lemma OnlyRepliesAreRouted(steps: seq<Step>, m: Envelope)
    ensures var s := Run(steps);
            Do(s, Route(m)) != s <==> s.loop == Reading && m.name == "" && m.id.Number? && m.id.n in s.pending
  {
    RunKeeps(steps);
    var s := Run(steps);
    NumbersArePositive(s);
    if Do(s, Route(m)) == s && s.loop == Reading && ReplyTo(m).Some? {
      assert Do(s, Route(m)).loop.Sending? || ReplyTo(m).value !in s.pending;
    }
  }

  /** In every run a reply read while its call is pending is put, whole, on that call's channel: the call leaves the
      table and nothing else changes. */
  lemma ReplyIsDelivered(steps: seq<Step>, n: int, body: string)
    requires Run(steps).loop == Reading && n in Run(steps).pending
    ensures var s, m := Run(steps), Envelope(Number(n), "", body);
            var h, t := s.pending[n], Run(steps + [Route(m), Send]);
            h in s.channels && s.channels[h].owner == n &&
            t.channels == s.channels[h := s.channels[h].(sent := [m])] && t.loop == Reading &&
            t.pending == s.pending - {n} && t.dead == s.dead && t.nextID == s.nextID
  {
    RunKeeps(steps);
    var s, m := Run(steps), Envelope(Number(n), "", body);
    TwoMore(steps, Route(m), Send);
    var h, t := s.pending[n], Do(s, Route(m));
    assert Untouched(s, h);
    assert t == s.(pending := Remove(s.pending, n), loop := Sending(h, m));
    assert Remove(s.pending, n) == s.pending - {n};
    assert [] + [m] == [m] && s.channels[h].sent == [] && s.channels[h].owner == n;
    assert Do(t, Send) == t.(channels := s.channels[h := s.channels[h].(sent := [m])], loop := Reading);
    hide Run;
  }

  lemma TwoMore(steps: seq<Step>, a: Step, b: Step)
    ensures Run(steps + [a, b]) == Do(Do(Run(steps), a), b)
  {
    var all := steps + [a, b];
    assert all[..|all| - 1] == steps + [a] && (steps + [a])[..|steps|] == steps;
  }

  /** No send ever waits, and no send or close ever hits a closed channel. */
  lemma NeverBlocksNorPanics(steps: seq<Step>, step: Step)
    ensures !Blocks(Run(steps)) && !Panics(Run(steps), step)
  {
    RunKeeps(steps);
    StepKeeps(Run(steps), step);
  }

  /** Once dead is set nothing is pending and nothing becomes pending: a later call registers no channel. */
  lemma {:induction false} DeadStaysEmpty(steps: seq<Step>, more: seq<Step>)
    requires Run(steps).dead.Some?
    ensures var s := Run(steps + more);
            s.dead == Run(steps).dead && s.pending == map[] && s.channels.Keys == Run(steps).channels.Keys
  {
    hide *;
    if more == [] {
      assert steps + more == steps;
      DeadMeansEmpty(steps);
    } else {
      var front := steps + more[..|more| - 1];
      assert (steps + more)[..|steps + more| - 1] == front;
      DeadStaysEmpty(steps, more[..|more| - 1]);
      DeadStep(front, more[|more| - 1]);
      assert front + [more[|more| - 1]] == steps + more;
    }
  }

  lemma DeadMeansEmpty(steps: seq<Step>)
    requires Run(steps).dead.Some?
    ensures Run(steps).pending == map[]
  {
    RunKeeps(steps);
  }

  lemma DeadStep(steps: seq<Step>, step: Step)
    requires Run(steps).dead.Some?
    ensures var s, t := Run(steps), Run(steps + [step]);
            t.dead == s.dead && t.pending == map[] && t.channels.Keys == s.channels.Keys
  {
    assert (steps + [step])[..|steps|] == steps;
    RunKeeps(steps);
    hide Run;
  }

  /** When shutdown is done every call ever registered has been answered or disconnected: none is left
      waiting for its own timeout, and each one still waiting is able to receive at once. */
  lemma NobodyWaitsAfterShutdown(steps: seq<Step>, h: Handle)
    requires Run(steps).loop == Exited && h in Run(steps).channels
    ensures Settled(Run(steps).channels[h])
    ensures var s := Run(steps); s.channels[h].waiting ==> !Do(s, Receive(h)).channels[h].waiting
  {
    RunKeeps(steps);
    assert !InHand(Run(steps), h);
  }

  /** The id was given to a call that is no longer waiting in the table. */
  predicate Spent(s: State, id: int) { id <= s.nextID && id !in s.pending }

  lemma SpentStays(s: State, step: Step, id: int)
    requires Spent(s, id)
    ensures Spent(Do(s, step), id)
  {
  }

  lemma {:induction false} SpentAlong(steps: seq<Step>, more: seq<Step>, id: int)
    requires Spent(Run(steps), id)
    ensures Spent(Run(steps + more), id)
  {
    hide Spent, Do;
    if more == [] {
      assert steps + more == steps;
    } else {
      var front := steps + more[..|more| - 1];
      assert (steps + more)[..|steps + more| - 1] == front;
      SpentAlong(steps, more[..|more| - 1], id);
      SpentStays(Run(front), more[|more| - 1], id);
    }
  }

  /** Once a reply has found its call, every further reply with the same id is dropped, whatever happens in between:
      the id is never given out again. */
  lemma DuplicateReplyIsDropped(steps: seq<Step>, m: Envelope, more: seq<Step>, again: Envelope)
    requires Do(Run(steps), Route(m)) != Run(steps) && ReplyTo(m) == ReplyTo(again)
    ensures var t := Run(steps + [Route(m)] + more); Do(t, Route(again)) == t
  {
    RunKeeps(steps);
    var s, routed := Run(steps), steps + [Route(m)];
    assert routed[..|steps|] == steps;
    var id := ReplyTo(m).value;
    assert Untouched(s, s.pending[id]) && s.channels[s.pending[id]].owner == id;
    assert Spent(Run(routed), id);
    SpentAlong(routed, more, id);
    hide Run;
  }

  // ---------------------------------------------------------------- the client

  /** The client's mutable fields.  Each method below is one locked section or one channel operation, so
      other goroutines' steps may come between any two of them. */
  class Client {
    var nextID: int
    var pending: map<int, Handle>
    var dead: Option<string>
    var channels: map<Handle, Channel>
    ghost var loop: ReadLoop

    ghost function Now(): State
      reads this
    {
      State(nextID, pending, dead, channels, loop)
    }

    ghost predicate Valid()
      reads this
    {
      Inv(Now())
    }

    constructor ()
      ensures Valid() && Now() == START
    {
      nextID, pending, dead, channels, loop := 0, map[], None, map[], Reading;
    }

    /** The locked part of call: fail fast when dead, otherwise register the freshly made channel ch. */
    method Register(ch: Handle) returns (id: Option<int>)
      requires Valid() && ch !in channels
      modifies this
      ensures Valid() && Now() == Do(old(Now()), Call(ch))
      ensures id == if old(dead).Some? then None else Some(nextID)
      ensures id.Some? ==> channels[ch].owner == id.value
    {
      StepKeeps(Now(), Call(ch));
      if dead.Some? {
        return None;
      }
      nextID := nextID + 1;
      channels := channels[ch := Channel(nextID, [], false, true)];
      pending := pending[nextID := ch];
      id := Some(nextID);
    }

    /** The locked part of route: find the call a message answers and forget it. */
    method TakePending(m: Envelope) returns (ch: Option<Handle>)
      requires Valid() && loop == Reading
      modifies this
      ensures Valid() && Now() == Do(old(Now()), Step.Route(m))
      ensures if ch.Some? then loop == Sending(ch.value, m) else Now() == old(Now())
      ensures ch.Some? <==> m.name == "" && m.id.Number? && m.id.n in old(pending)
      ensures ch.Some? ==> ch.value == old(pending)[m.id.n] && pending == old(pending) - {m.id.n}
    {
      StepKeeps(Now(), Step.Route(m));
      NumbersArePositive(Now());
      if m.id == Absent || m.name != "" {
        return None;
      }
      var id;
      match m.id {
        case Number(n) => id := n;
        case Null => id := 0;
        case _ => return None;
      }
      if id !in pending {
        return None;
      }
      ch := Some(pending[id]);
      pending := Remove(pending, id);
      loop := Sending(ch.value, m);
    }

    /** Sending on a channel with room: it does not wait and does not panic. */
    method Deliver(ch: Handle, m: Envelope)
      requires Valid() && loop == Sending(ch, m)
      modifies this
      ensures Valid() && Now() == Do(old(Now()), Send)
      ensures ch in channels && channels[ch].sent == [m] && loop == Reading
    {
      StepKeeps(Now(), Send);
      channels := channels[ch := channels[ch].(sent := channels[ch].sent + [m])];
      loop := Reading;
    }

    method Route(m: Envelope)
      requires Valid() && loop == Reading
      modifies this
      ensures Valid() && loop == Reading
      ensures Now() == Do(Do(old(Now()), Step.Route(m)), Send)
      ensures if m.name == "" && m.id.Number? && m.id.n in old(pending)
              then old(pending)[m.id.n] in channels && channels[old(pending)[m.id.n]].sent == [m]
              else Now() == old(Now())
    {
      var ch := TakePending(m);
      if ch.Some? {
        Deliver(ch.value, m);
      }
    }

    /** The locked part of shutdown: record why and take over the table. */
    method MarkDead(eof: bool, reason: string) returns (taken: set<Handle>)
      requires Valid() && loop == Reading
      modifies this
      ensures Valid() && Now() == Do(old(Now()), Fail(eof, reason))
      ensures taken == Values(old(pending)) && loop == Closing(taken) && pending == map[]
      ensures dead == if old(dead).Some? then old(dead) else Some(if eof then "server disconnected" else reason)
    {
      StepKeeps(Now(), Fail(eof, reason));
      if dead.None? {
        dead := Some(if eof then "server disconnected" else reason);
      }
      taken := Values(pending);
      pending := map[];
      loop := Closing(taken);
    }

    method CloseChannel(h: Handle, ghost left: set<Handle>)
      requires Valid() && loop == Closing(left) && h in left
      modifies this`channels, this`loop
      ensures Valid() && loop == Closing(left - {h}) && h in old(channels)
      ensures channels == old(channels)[h := old(channels)[h].(closed := true)]
    {
      StepKeeps(Now(), Close(h));
      assert Untouched(Now(), h);
      hide Inv;
      channels := channels[h := channels[h].(closed := true)];
      loop := Closing(left - {h});
    }

    /** shutdown: mark the client dead, then unblock every call that was still pending. */
    method Shutdown(eof: bool, reason: string)
      requires Valid() && loop == Reading
      modifies this
      ensures Valid() && loop == Exited && dead.Some? && pending == map[]
      ensures channels.Keys == old(channels).Keys
      ensures forall h | h in channels ::
                channels[h] == if h in Values(old(pending)) then old(channels)[h].(closed := true) else old(channels)[h]
    {
      hide Inv, Values;
      var all := MarkDead(eof, reason);
      var taken := all;
      while taken != {}
        invariant Valid() && loop == Closing(taken) && dead.Some? && pending == map[]
        invariant taken <= all && channels.Keys == old(channels).Keys
        invariant forall h | h in channels ::
                    channels[h] == if h in all && h !in taken then old(channels)[h].(closed := true)
                    else old(channels)[h]
        decreases taken
      {
        ghost var some := Sets.Member(taken);
        var h :| h in taken;
        CloseChannel(h, taken);
        taken := taken - {h};
      }
      StepKeeps(Now(), Leave);
      loop := Exited;
      forall h | h in channels ensures h !in taken { assert h !in {}; }
    }

    /** The receiving end of call, once a message or a close is there. */
    method Await(ch: Handle) returns (reply: Option<Envelope>)
      requires Valid() && ch in channels && channels[ch].waiting && Settled(channels[ch])
      modifies this
      ensures Valid() && Now() == Do(old(Now()), Receive(ch))
      ensures reply.Some? <==> !channels[ch].closed
      ensures reply.Some? ==> reply.value.name == "" && reply.value.id == Number(channels[ch].owner)
    {
      StepKeeps(Now(), Receive(ch));
      assert Proper(channels[ch]);
      reply := if channels[ch].closed then None else Some(channels[ch].sent[0]);
      channels := channels[ch := channels[ch].(waiting := false)];
    }
  }
}
