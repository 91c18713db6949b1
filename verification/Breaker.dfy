/** The per-provider circuit breaker (internal/breaker/breaker.go).

    The registry is a table of small timed state machines.  Its methods are specified
    against a history: what was asked of a provider, what was answered, and which
    outcomes were reported.  Times are integers read from a clock, passed in by the
    caller. */
module Breaker {
  import opened Options

  datatype State = Closed | Open | HalfOpen

  /** trialAt == None is the source's zero time: no half-open trial in flight. */
  datatype Entry = Entry(state: State, fails: nat, openedAt: int, trialAt: Option<int>)

  const NEW_ENTRY := Entry(Closed, 0, 0, None)

  /** A resolved configuration: both fields are positive after defaulting. */
  datatype Config = Config(threshold: int, cooldown: int)
  {
    predicate Resolved() { threshold > 0 && cooldown > 0 }
  }

  const DEFAULT_THRESHOLD := 3
  const DEFAULT_COOLDOWN := 30_000_000_000

  function Resolve(c: Config): (r: Config)
    ensures r.Resolved()
    ensures r.threshold == if c.threshold <= 0 then 3 else c.threshold
    ensures r.cooldown == if c.cooldown <= 0 then 30_000_000_000 else c.cooldown
  {
    Config(if c.threshold <= 0 then DEFAULT_THRESHOLD else c.threshold,
           if c.cooldown <= 0 then DEFAULT_COOLDOWN else c.cooldown)
  }

  // ---------------------------------------------------------------- transitions

  function AllowStep(c: Config, e: Entry, now: int): (bool, Entry) {
    match e.state
    case Closed => (true, e)
    case Open =>
      if now - e.openedAt >= c.cooldown then (true, e.(state := HalfOpen, trialAt := Some(now)))
      else (false, e)
    case HalfOpen =>
      if e.trialAt.None? || now - e.trialAt.value >= c.cooldown then (true, e.(trialAt := Some(now)))
      else (false, e)
  }

  function SuccessStep(e: Entry): Entry { e.(state := Closed, fails := 0, trialAt := None) }

  function FailureStep(c: Config, e: Entry, now: int): Entry {
    if e.state == HalfOpen then e.(state := Open, openedAt := now, trialAt := None)
    else if e.fails + 1 >= c.threshold then e.(state := Open, fails := e.fails + 1, openedAt := now)
    else e.(fails := e.fails + 1)
  }

  // ---------------------------------------------------------------- histories

  /** What one provider's breaker has seen and said. */
  datatype Event = Asked(at: int, granted: bool) | Succeeded(at: int) | Failed(at: int)

  type History = seq<Event>

  function EventStep(c: Config, e: Entry, event: Event): Entry {
    match event
    case Asked(at, _) => AllowStep(c, e, at).1
    case Succeeded(_) => SuccessStep(e)
    case Failed(at) => FailureStep(c, e, at)
  }

  predicate Truthful(c: Config, e: Entry, event: Event) {
    event.Asked? ==> event.granted == AllowStep(c, e, event.at).0
  }

  /** The machine's entry after a history, oldest event first. */
  function After(c: Config, h: History): Entry {
    if h == [] then NEW_ENTRY else EventStep(c, After(c, h[..|h| - 1]), h[|h| - 1])
  }

  /** Every answer recorded in h is the one the machine gives. */
  predicate Faithful(c: Config, h: History) {
    h == [] || (Faithful(c, h[..|h| - 1]) && Truthful(c, After(c, h[..|h| - 1]), h[|h| - 1]))
  }

  lemma AfterAppend(c: Config, h: History, event: Event)
    ensures After(c, h + [event]) == EventStep(c, After(c, h), event)
    ensures Faithful(c, h + [event]) <==> Faithful(c, h) && Truthful(c, After(c, h), event)
  {
    assert (h + [event])[..|h|] == h;
  }

  predicate Monotone(h: History) {
    forall i, j | 0 <= i < j < |h| :: h[i].at <= h[j].at
  }

  // The history specification mentions no machine state.

  /** Failures reported since the last success. */
  function FailuresSinceSuccess(h: History): nat {
    if h == [] || h[|h| - 1].Succeeded? then 0
    else FailuresSinceSuccess(h[..|h| - 1]) + (if h[|h| - 1].Failed? then 1 else 0)
  }

  /** When the last failure was reported or the last request admitted, whichever came later. */
  function LastMark(h: History): Option<int> {
    if h == [] then None
    else match h[|h| - 1]
      case Failed(at) => Some(at)
      case Asked(at, true) => Some(at)
      case _ => LastMark(h[..|h| - 1])
  }

  /** Closed in the history's terms: fewer than threshold failures followed the last success. */
  predicate Healthy(c: Config, h: History) { FailuresSinceSuccess(h) < c.threshold }

  /** A request is admitted when the provider is healthy, or a whole cooldown has
      passed since the last failure report and since the last admission. */
  predicate Admits(c: Config, h: History, now: int) {
    Healthy(c, h) || match LastMark(h) case None => true case Some(m) => now - m >= c.cooldown
  }

  /** The state the history calls for: half-open once a request was admitted after the last failure. */
  function StateOf(c: Config, h: History): State
  {
    if Healthy(c, h) then Closed else if AdmittedSinceFailure(h) then HalfOpen else Open
  }

  predicate AdmittedSinceFailure(h: History) {
    h != [] && match h[|h| - 1]
      case Asked(_, true) => true
      case Failed(_) => false
      case _ => AdmittedSinceFailure(h[..|h| - 1])
  }

  /** The machine refines the history specification, field by field. */
  lemma {:induction false} RefinesHistory(c: Config, h: History)
    requires c.Resolved() && Faithful(c, h)
    ensures After(c, h).state == StateOf(c, h)
    ensures After(c, h).state == Closed <==> FailuresSinceSuccess(h) < c.threshold
    ensures Healthy(c, h) ==> After(c, h).fails == FailuresSinceSuccess(h)
    ensures !Healthy(c, h) ==> After(c, h).fails >= c.threshold && LastMark(h).Some?
    ensures After(c, h).state == Open ==> LastMark(h) == Some(After(c, h).openedAt)
    ensures After(c, h).trialAt == if After(c, h).state == HalfOpen then LastMark(h) else None
  {
    if h != [] { RefinesHistory(c, h[..|h| - 1]); }
  }

  /** The machine's answer is the history specification's answer, after any history. */
  lemma AllowRefinesHistory(c: Config, h: History, now: int)
    requires c.Resolved() && Faithful(c, h)
    ensures AllowStep(c, After(c, h), now).0 == Admits(c, h, now)
  {
    RefinesHistory(c, h);
  }

  /** From every reachable state a cooldown without events reopens the way: a trial whose
      outcome is never reported cannot wedge the breaker. */
  lemma {:induction false} NeverWedged(c: Config, h: History, now: int)
    requires c.Resolved() && Faithful(c, h) && Monotone(h)
    requires h != [] ==> now - h[|h| - 1].at >= c.cooldown
    ensures AllowStep(c, After(c, h), now).0
  {
    AllowRefinesHistory(c, h, now);
    LastMarkIsPast(h);
  }

  /** A success closes the breaker whatever came before; from there it stays closed for as many failures as are fewer
      than the threshold, and not for one more, whatever questions come in between. */
  lemma {:induction false} SuccessHeals(c: Config, h: History, at: int, more: History)
    requires c.Resolved() && Faithful(c, h + [Succeeded(at)] + more) && forall e | e in more :: !e.Succeeded?
    ensures After(c, h + [Succeeded(at)] + more).state == Closed <==> FailuresIn(more) < c.threshold
  {
    RefinesHistory(c, h + [Succeeded(at)] + more);
    FailuresAfterSuccess(h, at, more);
    hide After, Faithful;
  }

  function FailuresIn(h: History): nat { if h == [] then 0 else (if h[0].Failed? then 1 else 0) + FailuresIn(h[1..]) }

  lemma {:induction false} FailuresInNext(h: History, e: Event)
    ensures FailuresIn(h + [e]) == FailuresIn(h) + (if e.Failed? then 1 else 0)
  {
    if h == [] {
      assert h + [e] == [e] && [e][1..] == [];
    } else {
      assert (h + [e])[1..] == h[1..] + [e];
      FailuresInNext(h[1..], e);
    }
  }

  lemma {:induction false} FailuresAfterSuccess(h: History, at: int, more: History)
    requires forall e | e in more :: !e.Succeeded?
    ensures FailuresSinceSuccess(h + [Succeeded(at)] + more) == FailuresIn(more)
  {
    var all := h + [Succeeded(at)] + more;
    if more == [] {
      assert all[|all| - 1] == Succeeded(at);
    } else {
      var front, e := more[..|more| - 1], more[|more| - 1];
      assert all[..|all| - 1] == h + [Succeeded(at)] + front && all[|all| - 1] == e && front + [e] == more;
      assert e in more && forall x | x in front :: x in more;
      FailuresAfterSuccess(h, at, front);
      FailuresInNext(front, e);
    }
  }

  lemma {:induction false} LastMarkIsPast(h: History)
    requires Monotone(h)
    ensures LastMark(h).Some? ==> h != [] && LastMark(h).value <= h[|h| - 1].at
  {
    if h != [] { LastMarkIsPast(h[..|h| - 1]); }
  }

  // ---------------------------------------------------------------- a trial's slot

  /** A failure report or an admission: what the cooldown is measured from. */
  predicate IsMark(e: Event) { e.Failed? || (e.Asked? && e.granted) }

  ghost predicate Recovered(c: Config, h: History) { (exists e :: e in h && e.Succeeded?) && Healthy(c, h) }

  /** A cooldown has passed since at and since every mark in h. */
  ghost predicate QuietSince(c: Config, at: int, h: History, now: int) {
    now - at >= c.cooldown && forall i | 0 <= i < |h| && IsMark(h[i]) :: now - h[i].at >= c.cooldown
  }

  lemma {:induction false} FailuresAfter(h: History, more: History)
    ensures FailuresSinceSuccess(h + more) ==
            FailuresSinceSuccess(more) + if exists e :: e in more && e.Succeeded? then 0 else FailuresSinceSuccess(h)
  {
    if more == [] {
      assert h + more == h;
    } else {
      var front, e := more[..|more| - 1], more[|more| - 1];
      assert more == front + [e] && (h + more)[..|h + more| - 1] == h + front;
      FailuresAfter(h, front);
    }
  }

  /** more happened in order, none of it before at. */
  ghost predicate Follows(at: int, more: History) { Monotone(more) && forall i | 0 <= i < |more| :: at <= more[i].at }

  lemma LastMarkNext(h: History, e: Event)
    ensures LastMark(h + [e]) == if IsMark(e) then Some(e.at) else LastMark(h)
  {
    assert (h + [e])[..|h|] == h;
  }

  /** A mark no earlier than at and the marks after it, and one of them. */
  ghost predicate Latest(m: Option<int>, at: int, more: History) {
    m.Some? && at <= m.value && (forall i | 0 <= i < |more| && IsMark(more[i]) :: more[i].at <= m.value) &&
    (m.value == at || exists i :: 0 <= i < |more| && IsMark(more[i]) && more[i].at == m.value)
  }

  lemma LatestNext(m: Option<int>, at: int, more: History, e: Event)
    requires Latest(m, at, more) && at <= e.at && forall i | 0 <= i < |more| :: more[i].at <= e.at
    ensures Latest(if IsMark(e) then Some(e.at) else m, at, more + [e])
  {
    var all := more + [e];
    assert all[|more|] == e && forall i | 0 <= i < |more| :: all[i] == more[i];
  }

  lemma {:induction false} MarkAfter(h: History, at: int, more: History)
    requires Follows(at, more)
    ensures Latest(LastMark(h + [Asked(at, true)] + more), at, more)
  {
    var base := h + [Asked(at, true)];
    if more == [] {
      LastMarkNext(h, Asked(at, true));
      assert base + more == base;
    } else {
      var front, e := more[..|more| - 1], more[|more| - 1];
      assert more == front + [e] && base + more == base + front + [e];
      MonotonePrefix(front, e);
      LastMarkNext(base + front, e);
      hide LastMark, Latest, Monotone;
      MarkAfter(h, at, front);
      LatestNext(LastMark(base + front), at, front, e);
    }
  }

  /** What a trial admitted at a time does to every later request, whatever is asked and reported in between: one is
      admitted exactly when the provider recovered (a success, and fewer than threshold failures after it), or a whole
      cooldown has passed since the trial and since every failure report and admission that followed. */
  lemma TrialHoldsTheSlot(c: Config, h: History, at: int, more: History, now: int)
    requires !Healthy(c, h) && Follows(at, more)
    ensures Admits(c, h + [Asked(at, true)] + more, now) <==> Recovered(c, more) || QuietSince(c, at, more, now)
  {
    var base := h + [Asked(at, true)];
    assert base[..|h|] == h && FailuresSinceSuccess(base) == FailuresSinceSuccess(h);
    MarkAfter(h, at, more);
    hide FailuresSinceSuccess, LastMark, IsMark, Follows;
    NotHealthier(c, base, more);
  }

  lemma NotHealthier(c: Config, base: History, more: History)
    requires !Healthy(c, base)
    ensures Healthy(c, base + more) <==> Recovered(c, more)
  {
    FailuresAfter(base, more);
    hide FailuresSinceSuccess;
  }

  // ---------------------------------------------------------------- trial spacing

  /** The times at which requests were admitted in h. */
  function Admissions(h: History): seq<int> {
    if h == [] then []
    else Admissions(h[..|h| - 1]) + (match h[|h| - 1] case Asked(at, true) => [at] case _ => [])
  }

  predicate NoSuccess(h: History) { forall e | e in h :: !e.Succeeded? }

  /** While a provider stays unhealthy, admitted requests are a cooldown apart and the first comes
      a cooldown after the trip, whatever late failures arrive and whatever reports go missing. */
  lemma {:induction false} TrialsAreSpaced(c: Config, h: History, more: History)
    requires c.Resolved() && Faithful(c, h + more) && Monotone(h + more)
    requires !Healthy(c, h) && NoSuccess(more)
    ensures LastMark(h).Some?
    ensures var ts := Admissions(more);
            (forall i | 0 <= i < |ts| :: ts[i] - LastMark(h).value >= (i + 1) * c.cooldown) &&
            (forall i, j | 0 <= i < j < |ts| :: ts[j] - ts[i] >= (j - i) * c.cooldown)
  {
    assert h + more[..0] == h;
    Spacing(c, h, more);
    FaithfulPrefix(c, h, more);
    RefinesHistory(c, h);
    var ts := Admissions(more);
    forall i, j | 0 <= i < j < |ts| ensures ts[j] - ts[i] >= (j - i) * c.cooldown {
      Telescope(ts, c.cooldown, i, j);
    }
    if |ts| > 0 {
      forall i | 0 <= i < |ts| ensures ts[i] - LastMark(h).value >= (i + 1) * c.cooldown {
        if i > 0 { Telescope(ts, c.cooldown, 0, i); }
      }
    }
  }

  lemma {:induction false} FaithfulPrefix(c: Config, h: History, more: History)
    requires Faithful(c, h + more)
    ensures Faithful(c, h)
  {
    if more == [] {
      assert h + more == h;
    } else {
      assert (h + more)[..|h + more| - 1] == h + more[..|more| - 1];
      FaithfulPrefix(c, h, more[..|more| - 1]);
    }
  }

  lemma {:induction false} Telescope(ts: seq<int>, d: int, i: nat, j: nat)
    requires i <= j < |ts|
    requires forall k | 0 < k < |ts| :: ts[k] - ts[k - 1] >= d
    ensures ts[j] - ts[i] >= (j - i) * d
  {
    if i < j { Telescope(ts, d, i, j - 1); }
  }

  /** Consecutive admissions after an unhealthy h, and the marks they leave. */
  lemma {:induction false} Spacing(c: Config, h: History, more: History)
    requires c.Resolved() && Faithful(c, h + more) && Monotone(h + more)
    requires !Healthy(c, h) && NoSuccess(more)
    ensures !Healthy(c, h + more) && LastMark(h).Some? && LastMark(h + more).Some?
    ensures LastMark(h).value <= LastMark(h + more).value
    ensures Spaced(Admissions(more), LastMark(h).value, LastMark(h + more).value, c.cooldown)
  {
    if more == [] {
      assert h + more == h;
      RefinesHistory(c, h);
      AdmissionsNext([], Succeeded(0));
    } else {
      var front, last := more[..|more| - 1], more[|more| - 1];
      assert more == front + [last] && h + more == (h + front) + [last];
      assert NoSuccess(front) && !last.Succeeded?;
      hide *;
      MonotonePrefix(h + front, last);
      AfterAppend(c, h + front, last);
      AdmissionsNext(front, last);
      Spacing(c, h, front);
      MarkAdvances(c, h + front, last);
      SpacedNext(Admissions(front), LastMark(h).value, LastMark(h + front).value, LastMark(h + more).value, c.cooldown);
    }
  }

  /** Times a step apart, the first a step after start, the last no later than end. */
  ghost predicate Spaced(ts: seq<int>, start: int, end: int, step: int) {
    (|ts| > 0 ==> ts[0] - start >= step && ts[|ts| - 1] <= end) && forall k | 0 < k < |ts| :: ts[k] - ts[k - 1] >= step
  }

  lemma SpacedNext(ts: seq<int>, start: int, end: int, later: int, step: int)
    requires Spaced(ts, start, end, step) && start <= end <= later
    ensures Spaced(ts, start, later, step) && ts + [] == ts
    ensures later - end >= step ==> Spaced(ts + [later], start, later, step)
  {
  }

  lemma AdmissionsNext(h: History, e: Event)
    ensures Admissions(h + [e]) == Admissions(h) + if e.Asked? && e.granted then [e.at] else []
    ensures Admissions([]) == []
  {
    assert (h + [e])[..|h|] == h;
  }

  lemma MonotonePrefix(h: History, e: Event)
    requires Monotone(h + [e])
    ensures Monotone(h) && forall i | 0 <= i < |h| :: h[i].at <= e.at
  {
    forall i | 0 <= i < |h| ensures h[i].at <= e.at {
      assert (h + [e])[i].at <= (h + [e])[|h|].at;
    }
    forall i, j | 0 <= i < j < |h| ensures h[i].at <= h[j].at {
      assert (h + [e])[i].at <= (h + [e])[j].at;
    }
  }

  /** One more event on an unhealthy history: the mark moves forward, by a cooldown for an admission. */
  lemma MarkAdvances(c: Config, h: History, e: Event)
    requires c.Resolved() && Faithful(c, h + [e]) && Monotone(h + [e])
    requires !Healthy(c, h) && LastMark(h).Some? && !e.Succeeded?
    ensures !Healthy(c, h + [e]) && LastMark(h + [e]).Some?
    ensures LastMark(h).value <= LastMark(h + [e]).value
    ensures e.Asked? && e.granted ==> LastMark(h + [e]) == Some(e.at) && e.at - LastMark(h).value >= c.cooldown
  {
    assert (h + [e])[..|h|] == h;
    MonotonePrefix(h, e);
    LastMarkIsPast(h);
    AllowRefinesHistory(c, h, e.at);
  }

  // ---------------------------------------------------------------- the registry

  type Log = map<string, History>

  function LogOf(log: Log, id: string): History { if id in log then log[id] else [] }

  function EntryOf(entries: map<string, Entry>, id: string): Entry { if id in entries then entries[id] else NEW_ENTRY }

  /** Every entry is the machine's entry after that provider's history. */
  ghost predicate Explains(c: Config, log: Log, entries: map<string, Entry>) {
    && c.Resolved()
    && entries.Keys == log.Keys
    && forall id | id in log :: Faithful(c, log[id]) && entries[id] == After(c, log[id])
  }

  lemma ExplainsOne(c: Config, log: Log, entries: map<string, Entry>, id: string)
    requires Explains(c, log, entries)
    ensures EntryOf(entries, id) == After(c, LogOf(log, id)) && Faithful(c, LogOf(log, id))
  {
  }

  lemma ExplainsNext(c: Config, log: Log, entries: map<string, Entry>, id: string, event: Event)
    requires Explains(c, log, entries) && Truthful(c, EntryOf(entries, id), event)
    ensures Explains(c, log[id := LogOf(log, id) + [event]],
                     entries[id := EventStep(c, EntryOf(entries, id), event)])
  {
    ExplainsOne(c, log, entries, id);
    AfterAppend(c, LogOf(log, id), event);
  }

  lemma AllowExplained(c: Config, log: Log, entries: map<string, Entry>, id: string, now: int)
    requires Explains(c, log, entries)
    ensures var (granted, e) := AllowStep(c, EntryOf(entries, id), now);
            granted == Admits(c, LogOf(log, id), now) &&
            Explains(c, log[id := LogOf(log, id) + [Asked(now, granted)]], entries[id := e])
  {
    ExplainsOne(c, log, entries, id);
    AllowRefinesHistory(c, LogOf(log, id), now);
    ExplainsNext(c, log, entries, id, Asked(now, AllowStep(c, EntryOf(entries, id), now).0));
  }

  lemma ExplainsLookup(c: Config, log: Log, entries: map<string, Entry>, id: string)
    requires Explains(c, log, entries)
    ensures Explains(c, log[id := LogOf(log, id)], entries[id := EntryOf(entries, id)])
  {
    ExplainsOne(c, log, entries, id);
  }

  /** Breaker state for every known provider; entries appear on first use. */
  class Registry {
    const config: Config
    var entries: map<string, Entry>
    ghost var log: Log

    ghost predicate Valid()
      reads this
    {
      Explains(config, log, entries)
    }

    constructor (c: Config)
      ensures Valid() && log == map[] && config == Resolve(c)
    {
      config := Resolve(c);
      entries := map[];
      log := map[];
    }

    /** Finds id's entry, registering a fresh one on first use. */
    method Get(id: string) returns (e: Entry)
      modifies this`entries
      ensures e == EntryOf(old(entries), id) && entries == old(entries)[id := e]
    {
      if id !in entries {
        entries := entries[id := NEW_ENTRY];
      }
      e := entries[id];
      assert entries == old(entries)[id := e];
    }

    method Allow(id: string, now: int) returns (granted: bool)
      requires Valid()
      modifies this
      ensures Valid()
      ensures granted == Admits(config, LogOf(old(log), id), now)
      ensures log == old(log)[id := LogOf(old(log), id) + [Asked(now, granted)]]
    {
      AllowExplained(config, log, entries, id, now);
      var e := Get(id);
      ghost var was := e;
      match e.state {
        case Closed =>
          granted := true;
        case Open =>
          granted := now - e.openedAt >= config.cooldown;
          if granted {
            e := e.(state := HalfOpen, trialAt := Some(now));
          }
        case HalfOpen =>
          granted := e.trialAt.None? || now - e.trialAt.value >= config.cooldown;
          if granted {
            e := e.(trialAt := Some(now));
          }
      }
      assert AllowStep(config, was, now) == (granted, e);
      entries := entries[id := e];
      log := log[id := LogOf(log, id) + [Asked(now, granted)]];
      assert entries == old(entries)[id := e];
    }

    method ReportSuccess(id: string, now: int)
      requires Valid()
      modifies this
      ensures Valid()
      ensures log == old(log)[id := LogOf(old(log), id) + [Succeeded(now)]]
    {
      ExplainsNext(config, log, entries, id, Succeeded(now));
      var e := Get(id);
      entries := entries[id := e.(state := Closed, fails := 0, trialAt := None)];
      log := old(log)[id := LogOf(old(log), id) + [Succeeded(now)]];
      assert entries == old(entries)[id := SuccessStep(e)];
    }

    method ReportFailure(id: string, now: int)
      requires Valid()
      modifies this
      ensures Valid()
      ensures log == old(log)[id := LogOf(old(log), id) + [Failed(now)]]
    {
      ExplainsNext(config, log, entries, id, Failed(now));
      var e := Get(id);
      ghost var was := e;
      if e.state == HalfOpen {
        e := e.(state := Open, openedAt := now, trialAt := None);
      } else {
        e := e.(fails := e.fails + 1);
        if e.fails >= config.threshold {
          e := e.(state := Open, openedAt := now);
        }
      }
      assert e == FailureStep(config, was, now);
      entries := entries[id := e];
      log := old(log)[id := LogOf(old(log), id) + [Failed(now)]];
      assert entries == old(entries)[id := e];
    }

    method IsOpen(id: string) returns (r: bool)
      requires Valid()
      modifies this
      ensures Valid() && log == old(log)[id := LogOf(old(log), id)]
      ensures r == (StateOf(config, LogOf(old(log), id)) == Open)
    {
      ExplainsOne(config, log, entries, id);
      ExplainsLookup(config, log, entries, id);
      RefinesHistory(config, LogOf(log, id));
      var e := Get(id);
      log := log[id := LogOf(log, id)];
      r := e.state == Open;
    }

    method IsHalfOpen(id: string) returns (r: bool)
      requires Valid()
      modifies this
      ensures Valid() && log == old(log)[id := LogOf(old(log), id)]
      ensures r == (StateOf(config, LogOf(old(log), id)) == HalfOpen)
    {
      ExplainsOne(config, log, entries, id);
      ExplainsLookup(config, log, entries, id);
      RefinesHistory(config, LogOf(log, id));
      var e := Get(id);
      log := log[id := LogOf(log, id)];
      r := e.state == HalfOpen;
    }
  }
}
