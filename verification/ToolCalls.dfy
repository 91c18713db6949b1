/** Reassembling tool calls from stream fragments (internal/provider/toolcalls.go,
    internal/provider/openai_responses.go). */
module ToolCalls {
  import opened Options
  import opened OpenAI
  import opened Text
  import opened ToolHistory
  import opened Sorting

  // ---------------------------------------------------------------- fragments

  datatype Fragment = Fragment(index: int, id: string, name: string, arguments: string)

  /** The fragments for one index, in order. */
  function For(frags: seq<Fragment>, index: int): seq<Fragment> {
    if frags == [] then []
    else For(frags[..|frags| - 1], index) + (if frags[|frags| - 1].index == index then [frags[|frags| - 1]] else [])
  }

  function LastID(frags: seq<Fragment>): string {
    if frags == [] then ""
    else if frags[|frags| - 1].id != "" then frags[|frags| - 1].id else LastID(frags[..|frags| - 1])
  }

  function LastName(frags: seq<Fragment>): string {
    if frags == [] then ""
    else if frags[|frags| - 1].name != "" then frags[|frags| - 1].name else LastName(frags[..|frags| - 1])
  }

  function AllArguments(frags: seq<Fragment>): string {
    if frags == [] then "" else AllArguments(frags[..|frags| - 1]) + frags[|frags| - 1].arguments
  }

  /** The call one index's fragments describe. */
  function Assembled(frags: seq<Fragment>): ToolCall {
    ToolCall(LastID(frags), "function", ToolCallFunction(LastName(frags), AllArguments(frags)), "")
  }

  function IdOf(f: Fragment): string { f.id }

  function NameOf(f: Fragment): string { f.name }

  /** Nothing after fragment k names index's call again: says is the field that would. */
  ghost predicate LastToSay(frags: seq<Fragment>, index: int, says: Fragment -> string, k: int) {
    0 <= k < |frags| && frags[k].index == index && says(frags[k]) != "" &&
    forall j | k < j < |frags| && frags[j].index == index :: says(frags[j]) == ""
  }

  /** text is what the last fragment of index to say anything says, or nothing if none does. */
  ghost predicate SaidLast(frags: seq<Fragment>, index: int, says: Fragment -> string, text: string) {
    if text == "" then forall j | 0 <= j < |frags| && frags[j].index == index :: says(frags[j]) == ""
    else exists k :: LastToSay(frags, index, says, k) && says(frags[k]) == text
  }

  lemma SaidNext(frags: seq<Fragment>, f: Fragment, index: int, says: Fragment -> string, text: string)
    requires SaidLast(frags, index, says, text)
    ensures SaidLast(frags + [f], index, says, if f.index == index && says(f) != "" then says(f) else text)
  {
    var all := frags + [f];
    if f.index == index && says(f) != "" {
      assert LastToSay(all, index, says, |frags|);
    } else if text != "" {
      var k :| LastToSay(frags, index, says, k) && says(frags[k]) == text;
      assert LastToSay(all, index, says, k) && says(all[k]) == text;
    }
  }

  /** The argument texts of index's fragments, in order. */
  function ArgumentTexts(frags: seq<Fragment>, index: int): seq<string> {
    if frags == [] then []
    else (if frags[0].index == index then [frags[0].arguments] else []) + ArgumentTexts(frags[1..], index)
  }

  lemma {:induction false} ArgumentTextsNext(frags: seq<Fragment>, f: Fragment, index: int)
    ensures ArgumentTexts(frags + [f], index)
         == ArgumentTexts(frags, index) + (if f.index == index then [f.arguments] else [])
  {
    if frags == [] {
      assert frags + [f] == [f] && [f][1..] == [];
    } else {
      assert (frags + [f])[1..] == frags[1..] + [f];
      ArgumentTextsNext(frags[1..], f, index);
    }
  }

  /** A call is put together from its own index's fragments: the last id given, the last name given, and every piece
      of its arguments, in order. */
  lemma {:induction false} AssembledSays(frags: seq<Fragment>, index: int)
    ensures var tc := Assembled(For(frags, index));
            && SaidLast(frags, index, IdOf, tc.id)
            && SaidLast(frags, index, NameOf, tc.function_.name)
            && tc.function_.arguments == Concat(ArgumentTexts(frags, index))
  {
    if frags != [] {
      var front, f := frags[..|frags| - 1], frags[|frags| - 1];
      assert frags == front + [f];
      AssembledSays(front, index);
      var tc := Assembled(For(front, index));
      SaidNext(front, f, index, IdOf, tc.id);
      SaidNext(front, f, index, NameOf, tc.function_.name);
      ArgumentTextsNext(front, f, index);
      ConcatAppend(ArgumentTexts(front, index), [f.arguments]);
      assert Concat([f.arguments]) == f.arguments;
      AssembledNext(For(front, index), f);
      var next := Assembled(For(frags, index));
      assert For(frags, index) == if f.index == index then For(front, index) + [f] else For(front, index);
      assert next.id == if f.index == index && IdOf(f) != "" then IdOf(f) else tc.id;
      assert next.function_.name == if f.index == index && NameOf(f) != "" then NameOf(f) else tc.function_.name;
      assert Concat(ArgumentTexts(front, index) + []) == Concat(ArgumentTexts(front, index)) by {
        assert ArgumentTexts(front, index) + [] == ArgumentTexts(front, index);
      }
      hide Assembled, ArgumentTexts, Concat, SaidLast;
    }
  }

  function Indices(frags: seq<Fragment>): set<int> { set f | f in frags :: f.index }

  // ---------------------------------------------------------------- the accumulator

  /** What finish returns for the calls assembled under increasing indices. */
  function Finished(json: ObjectCheck, byIndex: map<int, ToolCall>, order: seq<int>): seq<ToolCall>
    requires forall k | 0 <= k < |order| :: order[k] in byIndex
  {
    if order == [] then []
    else
      var tc := byIndex[order[|order| - 1]];
      Finished(json, byIndex, order[..|order| - 1]) + (if Sound(json, tc) then [Settle(json, tc)] else [])
  }

  /** The indices seen, in increasing order. */
  ghost predicate Lists(order: seq<int>, frags: seq<Fragment>, byIndex: map<int, ToolCall>) {
    Increasing(order) && SetOf(order) == Indices(frags) && forall k | 0 <= k < |order| :: order[k] in byIndex
  }

  /** out is what the table finishes with. */
  ghost predicate Finishes(json: ObjectCheck, frags: seq<Fragment>, byIndex: map<int, ToolCall>, out: seq<ToolCall>) {
    exists order :: Lists(order, frags, byIndex) && out == Finished(json, byIndex, order)
  }

  /** The table holds the call of every index some fragment was for. */
  ghost predicate Holds(byIndex: map<int, ToolCall>, frags: seq<Fragment>) {
    && byIndex.Keys == Indices(frags)
    && forall i | i in byIndex :: byIndex[i] == Assembled(For(frags, i))
  }

  const BLANK := ToolCall("", "function", ToolCallFunction("", ""), "")

  function Extended(tc: ToolCall, f: Fragment): ToolCall {
    ToolCall(if f.id != "" then f.id else tc.id, tc.kind,
             ToolCallFunction(if f.name != "" then f.name else tc.function_.name,
                              tc.function_.arguments + f.arguments), tc.thoughtSignature)
  }

  lemma HoldsNext(byIndex: map<int, ToolCall>, frags: seq<Fragment>, f: Fragment)
    requires Holds(byIndex, frags)
    ensures var tc := if f.index in byIndex then byIndex[f.index] else BLANK;
            Holds(byIndex[f.index := Extended(tc, f)], frags + [f])
  {
    IndicesNext(frags, f);
    NoFragments(frags, f.index);
    AssembledNext(For(frags, f.index), f);
    hide Indices, Assembled;
    assert (frags + [f])[..|frags|] == frags;
    forall i ensures For(frags + [f], i) == if i == f.index then For(frags, i) + [f] else For(frags, i) {}
  }

  class Accumulator {
    var byIndex: map<int, ToolCall>
    ghost var fragments: seq<Fragment>

    ghost predicate Valid()
      reads this
    {
      Holds(byIndex, fragments)
    }

    constructor ()
      ensures Valid() && fragments == []
    {
      byIndex := map[];
      fragments := [];
    }

    method Add(index: int, id: string, name: string, argsFragment: string)
      requires Valid()
      modifies this
      ensures Valid() && fragments == old(fragments) + [Fragment(index, id, name, argsFragment)]
    {
      hide Holds;
      HoldsNext(byIndex, fragments, Fragment(index, id, name, argsFragment));
      var tc := if index in byIndex then byIndex[index] else ToolCall("", "function", ToolCallFunction("", ""), "");
      if id != "" {
        tc := tc.(id := id);
      }
      if name != "" {
        tc := tc.(function_ := tc.function_.(name := name));
      }
      tc := tc.(function_ := tc.function_.(arguments := tc.function_.arguments + argsFragment));
      byIndex := byIndex[index := tc];
      fragments := fragments + [Fragment(index, id, name, argsFragment)];
    }

    /** The assembled calls in index order, unsound ones left out. */
    method Finish(json: ObjectCheck) returns (out: seq<ToolCall>)
      requires Valid()
      ensures Finishes(json, fragments, byIndex, out)
    {
      var indices := SortedKeys(byIndex.Keys);
      forall k | 0 <= k < |indices| ensures indices[k] in byIndex { assert indices[k] in SetOf(indices); }
      out := [];
      for k := 0 to |indices|
        invariant out == Finished(json, byIndex, indices[..k])
      {
        FrontOf(indices, k);
        var tc := byIndex[indices[k]];
        var args := ValidArguments(json, tc.function_.arguments);
        if tc.id == "" || tc.function_.name == "" || args.None? {
          continue;
        }
        out := out + [tc.(function_ := tc.function_.(arguments := args.value))];
      }
      FrontOf(indices, |indices|);
      assert Lists(indices, fragments, byIndex);
    }
  }

  lemma {:induction false} NoFragments(frags: seq<Fragment>, index: int)
    ensures index !in Indices(frags) ==> For(frags, index) == []
  {
    if frags != [] {
      var front, f := frags[..|frags| - 1], frags[|frags| - 1];
      NoFragments(front, index);
      IndicesNext(front, f);
      assert frags == front + [f];
    }
  }

  lemma IndicesNext(frags: seq<Fragment>, f: Fragment)
    ensures Indices(frags + [f]) == Indices(frags) + {f.index}
  {
    assert forall x :: x in frags + [f] <==> x in frags || x == f;
  }

  lemma AssembledNext(frags: seq<Fragment>, f: Fragment)
    ensures Assembled([]) == BLANK && Assembled(frags + [f]) == Extended(Assembled(frags), f)
  {
    assert (frags + [f])[..|frags|] == frags;
  }

  // ---------------------------------------------------------------- interleavings do not matter

  /** Two arrival orders with the same fragments per index. */
  ghost predicate SamePerIndex(a: seq<Fragment>, b: seq<Fragment>) { forall i :: For(a, i) == For(b, i) }

  lemma {:induction false} InIndices(frags: seq<Fragment>, index: int)
    ensures index in Indices(frags) <==> For(frags, index) != []
  {
    if frags != [] {
      var front, f := frags[..|frags| - 1], frags[|frags| - 1];
      InIndices(front, index);
      IndicesNext(front, f);
      assert frags == front + [f];
    }
  }

  /** Reassembly depends only on each index's own fragment order: accumulators fed any two interleavings
      with equal fragments per index finish with the same calls. */
  lemma InterleavingsAgree(json: ObjectCheck, a: seq<Fragment>, b: seq<Fragment>,
                           ma: map<int, ToolCall>, mb: map<int, ToolCall>, outA: seq<ToolCall>, outB: seq<ToolCall>)
    requires SamePerIndex(a, b) && Holds(ma, a) && Holds(mb, b)
    requires Finishes(json, a, ma, outA) && Finishes(json, b, mb, outB)
    ensures ma == mb && outA == outB
  {
    hide SamePerIndex, Holds, Indices, Increasing, SetOf, Finished;
    var oa :| Lists(oa, a, ma) && outA == Finished(json, ma, oa);
    var ob :| Lists(ob, b, mb) && outB == Finished(json, mb, ob);
    SameTable(a, b, ma, mb);
    IncreasingUnique(oa, ob);
  }

  lemma SameTable(a: seq<Fragment>, b: seq<Fragment>, ma: map<int, ToolCall>, mb: map<int, ToolCall>)
    requires SamePerIndex(a, b) && Holds(ma, a) && Holds(mb, b)
    ensures ma == mb && Indices(a) == Indices(b)
  {
    hide For, Indices, Assembled;
    forall i ensures i in Indices(a) <==> i in Indices(b) {
      InIndices(a, i);
      InIndices(b, i);
      assert For(a, i) == For(b, i);
    }
    forall i | i in ma ensures i in mb && ma[i] == mb[i] { assert For(a, i) == For(b, i); }
  }

  /** out holds, for each k with a sound call assembled under order[k], that call settled; in order. */
  ghost predicate PickedFrom(json: ObjectCheck, frags: seq<Fragment>, order: seq<int>,
                            out: seq<ToolCall>, at: seq<int>) {
    && |at| == |out| && Increasing(at)
    && (forall k | 0 <= k < |at| :: 0 <= at[k] < |order|)
    && (forall k | 0 <= k < |order| :: k in at <==> Sound(json, Assembled(For(frags, order[k]))))
    && (forall k | 0 <= k < |at| :: IsSettled(json, Assembled(For(frags, order[at[k]])), out[k]))
  }

  predicate IsSettled(json: ObjectCheck, tc: ToolCall, out: ToolCall) { Sound(json, tc) && out == Settle(json, tc) }

  /** What finish returns, said of the fragments: a sound call for each index that assembled to one, in
      increasing index order, each carrying the concatenation of its argument fragments. */
  lemma FinishedCalls(json: ObjectCheck, frags: seq<Fragment>, byIndex: map<int, ToolCall>, out: seq<ToolCall>)
    requires Holds(byIndex, frags) && Finishes(json, frags, byIndex, out)
    ensures exists order, at :: Lists(order, frags, byIndex) && PickedFrom(json, frags, order, out, at)
  {
    hide Holds, PickedFrom, Finished;
    var order :| Lists(order, frags, byIndex) && out == Finished(json, byIndex, order);
    var at := Picks(json, frags, byIndex, order);
  }

  lemma {:induction false} Picks(json: ObjectCheck, frags: seq<Fragment>, byIndex: map<int, ToolCall>, order: seq<int>)
    returns (at: seq<int>)
    requires Holds(byIndex, frags) && forall k | 0 <= k < |order| :: order[k] in byIndex
    ensures PickedFrom(json, frags, order, Finished(json, byIndex, order), at)
  {
    hide *;
    at := [];
    if order == [] {
      PickNone(json, frags, byIndex);
    } else {
      var n := |order| - 1;
      AssembledAt(frags, byIndex, order[n]);
      FinishedStep(json, byIndex, order);
      at := Picks(json, frags, byIndex, order[..n]);
      PickNext(json, frags, order[..n], Finished(json, byIndex, order[..n]), at, order[n]);
      assert order[..n] + [order[n]] == order;
      if Sound(json, byIndex[order[n]]) { at := at + [n]; }
    }
  }

  lemma PickNone(json: ObjectCheck, frags: seq<Fragment>, byIndex: map<int, ToolCall>)
    ensures PickedFrom(json, frags, [], Finished(json, byIndex, []), [])
  {
  }

  lemma AssembledAt(frags: seq<Fragment>, byIndex: map<int, ToolCall>, i: int)
    requires Holds(byIndex, frags) && i in byIndex
    ensures byIndex[i] == Assembled(For(frags, i))
  {
    hide Assembled, For;
  }

  lemma FinishedStep(json: ObjectCheck, byIndex: map<int, ToolCall>, order: seq<int>)
    requires order != [] && forall k | 0 <= k < |order| :: order[k] in byIndex
    ensures var n := |order| - 1;
            var tc := byIndex[order[n]];
            Finished(json, byIndex, order) ==
              if Sound(json, tc) then Finished(json, byIndex, order[..n]) + [Settle(json, tc)]
              else Finished(json, byIndex, order[..n])
  {
    hide Settle, Sound;
  }

  lemma PickNext(json: ObjectCheck, frags: seq<Fragment>, order: seq<int>, out: seq<ToolCall>, at: seq<int>, i: int)
    requires PickedFrom(json, frags, order, out, at)
    ensures var tc := Assembled(For(frags, i));
            if Sound(json, tc) then PickedFrom(json, frags, order + [i], out + [Settle(json, tc)], at + [|order|])
            else PickedFrom(json, frags, order + [i], out, at)
  {
    hide Sound, Settle, Assembled, For;
    var tc := Assembled(For(frags, i));
    assert forall k | 0 <= k < |order| :: (order + [i])[k] == order[k];
    assert forall x :: x in at + [|order|] <==> x in at || x == |order|;
    if Sound(json, tc) {
      assert IsSettled(json, tc, Settle(json, tc));
    }
  }

  // ---------------------------------------------------------------- the Responses adapter

  /** The stream events of the Responses API that carry tool-call arguments, by output index. */
  datatype ArgEvent =
    | Added(index: int, callID: string, name: string, arguments: string)
    | Delta(index: int, delta: string)
    | Done(index: int, arguments: string)

  /** toolArgsSeen[index] after some events. */
  predicate Seen(events: seq<ArgEvent>, index: int) {
    if events == [] then false
    else
      var e := events[|events| - 1];
      if e.index != index || e.Done? then Seen(events[..|events| - 1], index)
      else e.Delta? || e.arguments != ""
  }

  /** The fragments an event hands to the accumulator. */
  function FragmentsOf(e: ArgEvent, seen: bool): seq<Fragment> {
    match e
    case Added(i, callID, name, arguments) => [Fragment(i, callID, name, arguments)]
    case Delta(i, delta) => [Fragment(i, "", "", delta)]
    case Done(i, arguments) => if !seen && arguments != "" then [Fragment(i, "", "", arguments)] else []
  }

  function AllFragments(events: seq<ArgEvent>): seq<Fragment> {
    if events == [] then []
    else
      var front, e := events[..|events| - 1], events[|events| - 1];
      AllFragments(front) + FragmentsOf(e, Seen(front, e.index))
  }

  lemma FragmentsNext(events: seq<ArgEvent>, e: ArgEvent)
    ensures forall i :: Seen(events + [e], i) ==
              if e.index != i || e.Done? then Seen(events, i) else e.Delta? || e.arguments != ""
    ensures AllFragments(events + [e]) == AllFragments(events) + FragmentsOf(e, Seen(events, e.index))
  {
    assert (events + [e])[..|events|] == events;
  }

  /** The id and name assembled for an index. */
  function CallNamed(events: seq<ArgEvent>, index: int): (string, string) {
    var tc := Assembled(For(AllFragments(events), index));
    (tc.id, tc.function_.name)
  }

  lemma NamedNext(events: seq<ArgEvent>, e: ArgEvent, index: int)
    ensures var before, after := CallNamed(events, index), CallNamed(events + [e], index);
            var header := e.Added? && e.index == index;
            after.0 == (if header && e.callID != "" then e.callID else before.0) &&
            after.1 == (if header && e.name != "" then e.name else before.1)
  {
    hide *;
    FragmentsNext(events, e);
    var more, frags := FragmentsOf(e, Seen(events, e.index)), For(AllFragments(events), index);
    FragmentOf(e, Seen(events, e.index));
    ForAppended(AllFragments(events), more, index);
    NamedAppended(frags, if more != [] && e.index == index then more else []);
    CallNamedIs(events, index);
    CallNamedIs(events + [e], index);
  }

  lemma CallNamedIs(events: seq<ArgEvent>, index: int)
    ensures CallNamed(events, index)
         == (Assembled(For(AllFragments(events), index)).id, Assembled(For(AllFragments(events), index)).function_.name)
  {
    hide Assembled, For, AllFragments;
  }

  lemma FragmentOf(e: ArgEvent, seen: bool)
    ensures var more := FragmentsOf(e, seen);
            |more| <= 1 && (e.Added? ==> more != []) &&
            (more != [] ==> more[0].index == e.index && more[0].id == (if e.Added? then e.callID else "") &&
                            more[0].name == if e.Added? then e.name else "")
  {
  }

  lemma NamedAppended(frags: seq<Fragment>, more: seq<Fragment>)
    requires |more| <= 1
    ensures var before, after := Assembled(frags), Assembled(frags + more);
            after.id == (if more != [] && more[0].id != "" then more[0].id else before.id) &&
            after.function_.name
            == (if more != [] && more[0].name != "" then more[0].name else before.function_.name)
  {
    if more != [] {
      assert more == [more[0]];
      AssembledNext(frags, more[0]);
    } else {
      assert frags + more == frags;
    }
    hide Assembled;
  }

  /** What a header for index gives: the id, or the name. */
  function Given(e: ArgEvent, index: int, name: bool): string {
    if e.Added? && e.index == index then if name then e.name else e.callID else ""
  }

  lemma GivenNext(events: seq<ArgEvent>, e: ArgEvent, index: int, name: bool)
    ensures var before, after := CallNamed(events, index), CallNamed(events + [e], index);
            var held, given := if name then before.1 else before.0, Given(e, index, name);
            (if name then after.1 else after.0) == if given != "" then given else held
  {
    NamedNext(events, e, index);
    hide CallNamed;
  }

  /** A call's id is the one the last header for its index to give one gives; so is its name. */
  lemma {:induction false} HeaderNamesCall(events: seq<ArgEvent>, index: int, k: nat, name: bool)
    requires k < |events| && Given(events[k], index, name) != ""
    requires forall j | k < j < |events| :: Given(events[j], index, name) == ""
    ensures var tc := Assembled(For(AllFragments(events), index));
            (if name then tc.function_.name else tc.id) == Given(events[k], index, name)
  {
    var n := |events| - 1;
    var front, e := events[..n], events[n];
    assert front + [e] == events;
    GivenNext(front, e, index, name);
    CallNamedIs(front, index);
    CallNamedIs(events, index);
    hide *;
    if k < n { HeaderNamesCall(front, index, k, name); }
  }

  lemma ForAppended(frags: seq<Fragment>, more: seq<Fragment>, index: int)
    requires |more| <= 1
    ensures For(frags + more, index) == For(frags, index) + (if more != [] && more[0].index == index then more else [])
  {
    if more == [] {
      assert frags + more == frags;
    } else {
      assert frags + more == frags + [more[0]] && (frags + more)[..|frags|] == frags && more == [more[0]];
    }
  }

  /** The map says which indices count as seen. */
  ghost predicate Marks(seen: map<int, bool>, events: seq<ArgEvent>) {
    forall i :: (i in seen && seen[i]) == Seen(events, i)
  }

  lemma MarksNext(seen: map<int, bool>, events: seq<ArgEvent>, e: ArgEvent)
    requires Marks(seen, events)
    ensures (e.index in seen && seen[e.index]) == Seen(events, e.index)
    ensures match e
            case Added(i, _, _, arguments) => Marks(seen[i := arguments != ""], events + [e])
            case Delta(i, _) => Marks(seen[i := true], events + [e])
            case Done(_, _) => Marks(seen, events + [e])
  {
    FragmentsNext(events, e);
    hide Seen, AllFragments;
  }

  method AssembleResponses(events: seq<ArgEvent>) returns (acc: Accumulator)
    ensures fresh(acc) && acc.Valid() && acc.fragments == AllFragments(events)
  {
    acc := new Accumulator();
    var toolArgsSeen: map<int, bool> := map[];
    for k := 0 to |events|
      invariant fresh(acc) && acc.Valid() && acc.fragments == AllFragments(events[..k])
      invariant Marks(toolArgsSeen, events[..k])
    {
      assert events[..k + 1] == events[..k] + [events[k]];
      FragmentsNext(events[..k], events[k]);
      MarksNext(toolArgsSeen, events[..k], events[k]);
      hide Seen, AllFragments, Holds, Marks;
      match events[k] {
        case Added(i, callID, name, arguments) =>
          acc.Add(i, callID, name, arguments);
          toolArgsSeen := toolArgsSeen[i := arguments != ""];
        case Delta(i, delta) =>
          acc.Add(i, "", "", delta);
          toolArgsSeen := toolArgsSeen[i := true];
        case Done(i, arguments) =>
          if !(i in toolArgsSeen && toolArgsSeen[i]) && arguments != "" {
            acc.Add(i, "", "", arguments);
          }
      }
    }
    assert events[..|events|] == events;
  }

  /** The events for one index, in order. */
  function EventsFor(events: seq<ArgEvent>, index: int): seq<ArgEvent> {
    if events == [] then []
    else EventsFor(events[..|events| - 1], index) +
         (if events[|events| - 1].index == index then [events[|events| - 1]] else [])
  }

  lemma EventsNext(events: seq<ArgEvent>, e: ArgEvent, index: int)
    ensures EventsFor(events + [e], index) == EventsFor(events, index) + (if e.index == index then [e] else [])
  {
    assert (events + [e])[..|events|] == events;
  }

  /** Each index is assembled from its own events alone. */
  lemma {:induction false} IndicesAreIndependent(events: seq<ArgEvent>, index: int)
    ensures Seen(EventsFor(events, index), index) == Seen(events, index)
    ensures For(AllFragments(events), index) == AllFragments(EventsFor(events, index))
  {
    if events != [] {
      var front, e := events[..|events| - 1], events[|events| - 1];
      var own := EventsFor(front, index);
      EventsNext(front, e, index);
      hide *;
      assert events == front + [e];
      FragmentsNext(front, e);
      FragmentsNext(own, e);
      IndicesAreIndependent(front, index);
      ForAppend(AllFragments(front), FragmentsOf(e, Seen(front, e.index)), index);
      ForOne(e, Seen(front, e.index), index);
      if e.index != index { assert own + [] == own; }
    } else {
      assert For(AllFragments(events), index) == AllFragments(EventsFor(events, index));
    }
  }

  lemma ForOne(e: ArgEvent, seen: bool, index: int)
    ensures For(FragmentsOf(e, seen), index) == if e.index == index then FragmentsOf(e, seen) else []
  {
    var f := FragmentsOf(e, seen);
    if f != [] { assert f[..0] == []; }
  }

  lemma {:induction false} ForAppend(a: seq<Fragment>, b: seq<Fragment>, index: int)
    ensures For(a + b, index) == For(a, index) + For(b, index)
  {
    if b == [] {
      assert a + b == a;
    } else {
      assert (a + b)[..|a + b| - 1] == a + b[..|b| - 1];
      ForAppend(a, b[..|b| - 1], index);
    }
  }

  lemma {:induction false} ArgumentsAppend(a: seq<Fragment>, b: seq<Fragment>)
    ensures AllArguments(a + b) == AllArguments(a) + AllArguments(b)
  {
    if b == [] {
      assert a + b == a;
    } else {
      assert (a + b)[..|a + b| - 1] == a + b[..|b| - 1];
      ArgumentsAppend(a, b[..|b| - 1]);
    }
  }

  /** The arguments assembled for one index by the end of a stream. */
  function ArgumentsFor(events: seq<ArgEvent>, index: int): string { AllArguments(For(AllFragments(events), index)) }

  /** A done event adds its full text exactly when nothing was seen for its index; otherwise it adds nothing. */
  lemma DoneAdds(events: seq<ArgEvent>, index: int, full: string)
    ensures ArgumentsFor(events + [Done(index, full)], index) ==
            ArgumentsFor(events, index) + (if Seen(events, index) then "" else full)
  {
    var all, e := events + [Done(index, full)], Done(index, full);
    assert all[..|events|] == events;
    var more := FragmentsOf(e, Seen(events, index));
    ForAppend(AllFragments(events), more, index);
    ForOne(e, Seen(events, index), index);
    ArgumentsAppend(For(AllFragments(events), index), more);
    assert AllArguments(more) == if Seen(events, index) then "" else full by {
      if more != [] { assert more[..0] == [] && AllArguments(more) == AllArguments([]) + full; }
    }
    hide AllFragments, For, Seen, FragmentsOf;
  }

  lemma NoArguments(index: int)
    ensures ArgumentsFor([], index) == "" && !Seen([], index)
  {
  }

  lemma ArgumentsNext(events: seq<ArgEvent>, e: ArgEvent, index: int)
    ensures ArgumentsFor(events + [e], index) == ArgumentsFor(events, index) +
            if e.index != index then "" else match e {
              case Added(_, _, _, arguments) => arguments
              case Delta(_, delta) => delta
              case Done(_, arguments) => if Seen(events, index) then "" else arguments
            }
  {
    var seen := Seen(events, e.index);
    var more := FragmentsOf(e, seen);
    if more != [] { assert more[..0] == [] && AllArguments(more) == AllArguments([]) + more[0].arguments; }
    assert AllArguments([]) == "";
    hide AllFragments, For, Seen, AllArguments;
    FragmentsNext(events, e);
    ForAppend(AllFragments(events), more, index);
    ForOne(e, seen, index);
    ArgumentsAppend(For(AllFragments(events), index), For(more, index));
  }

  // ---------------------------------------------------------------- when a done event goes wrong

  /** From k on only done events come for index. */
  ghost predicate OnlyDoneFrom(events: seq<ArgEvent>, index: int, k: nat) {
    forall j | k <= j < |events| && events[j].index == index :: events[j].Done?
  }

  predicate EmptyHeader(e: ArgEvent, index: int) { e.Added? && e.index == index && e.arguments == "" }

  predicate FilledDone(e: ArgEvent, index: int) { e.Done? && e.index == index && e.arguments != "" }

  /** Nothing before k counts as seen any more: k starts the stream or follows a header without arguments. */
  ghost predicate ForgetsAt(events: seq<ArgEvent>, index: int, k: nat) {
    k <= |events| && (k == 0 || EmptyHeader(events[k - 1], index)) && OnlyDoneFrom(events, index, k)
  }

  lemma {:induction false} UnseenIff(events: seq<ArgEvent>, index: int)
    ensures !Seen(events, index) <==> exists k: nat :: ForgetsAt(events, index, k)
  {
    if events == [] {
      assert ForgetsAt(events, index, 0);
    } else {
      var n := |events| - 1;
      var front, e := events[..n], events[n];
      UnseenIff(front, index);
      assert events == front + [e];
      FragmentsNext(front, e);
      hide Seen;
      forall k: nat ensures ForgetsAt(events, index, k) <==>
          if k == |events| then EmptyHeader(e, index) else ForgetsAt(front, index, k) && (e.index == index ==> e.Done?)
      {
        ForgetsNext(front, e, index, k);
      }
      hide ForgetsAt;
      if EmptyHeader(e, index) { assert ForgetsAt(events, index, |events|); }
    }
  }

  lemma ForgetsNext(front: seq<ArgEvent>, e: ArgEvent, index: int, k: nat)
    ensures ForgetsAt(front + [e], index, k) <==>
            if k == |front| + 1 then EmptyHeader(e, index)
            else ForgetsAt(front, index, k) && (e.index == index ==> e.Done?)
  {
    var all := front + [e];
    assert forall j | 0 <= j < |front| :: all[j] == front[j];
    hide EmptyHeader;
    if k <= |front| { assert all[|front|] == e; }
  }

  /** While nothing counts as seen every done event's text is kept. */
  lemma {:induction false} UnseenDonesAdd(events: seq<ArgEvent>, index: int, k: nat)
    requires ForgetsAt(events, index, k)
    ensures ArgumentsFor(events, index) != "" <==>
            ArgumentsFor(events[..k], index) != "" || exists j | k <= j < |events| :: FilledDone(events[j], index)
  {
    if k == |events| {
      assert events[..k] == events;
    } else {
      var n := |events| - 1;
      var front, e := events[..n], events[n];
      assert events == front + [e] && front[..k] == events[..k];
      ForgetsNext(front, e, index, k);
      UnseenDonesAdd(front, index, k);
      UnseenIff(front, index);
      ArgumentsNext(front, e, index);
      FilledNext(front, e, index, k);
      hide Seen, ArgumentsFor, ForgetsAt;
      assert e.index != index ==> ArgumentsFor(front, index) + "" == ArgumentsFor(front, index);
    }
  }

  lemma FilledNext(events: seq<ArgEvent>, e: ArgEvent, index: int, k: nat)
    requires k <= |events|
    ensures (exists j | k <= j < |events + [e]| :: FilledDone((events + [e])[j], index)) <==>
            FilledDone(e, index) || exists j | k <= j < |events| :: FilledDone(events[j], index)
  {
    hide FilledDone;
    var all := events + [e];
    if j :| k <= j < |all| && FilledDone(all[j], index) { assert j < |events| ==> all[j] == events[j]; }
    if j :| k <= j < |events| && FilledDone(events[j], index) { assert all[j] == events[j]; }
    if FilledDone(e, index) { assert all[|events|] == e; }
  }

  /** Arguments already assembled that a done event will be appended to. */
  ghost predicate Forgotten(events: seq<ArgEvent>, index: int) {
    exists k: nat :: ForgetsAt(events, index, k) &&
      (ArgumentsFor(events[..k], index) != "" || exists j | k <= j < |events| :: FilledDone(events[j], index))
  }

  /** On any stream a done event with text is appended to arguments already there exactly when they were forgotten:
      only done events came since a header without arguments (or since the start), and the text is from before that
      header or from one of those done events. */
  lemma DoneRepeatsIffForgotten(events: seq<ArgEvent>, index: int, full: string)
    requires full != ""
    ensures var before, after := ArgumentsFor(events, index), ArgumentsFor(events + [Done(index, full)], index);
            before != "" && after != before <==> Forgotten(events, index)
  {
    DoneAdds(events, index, full);
    UnseenIff(events, index);
    hide Seen, ArgumentsFor, EmptyHeader, OnlyDoneFrom, FilledDone;
    forall k: nat | ForgetsAt(events, index, k)
      ensures ArgumentsFor(events, index) != "" <==>
              ArgumentsFor(events[..k], index) != "" || exists j | k <= j < |events| :: FilledDone(events[j], index)
    {
      UnseenDonesAdd(events, index, k);
    }
  }

  /** Text that arrived in a header or a delta is never dropped. */
  lemma {:induction false} TextStays(events: seq<ArgEvent>, index: int, k: nat)
    requires k < |events| && ArgumentsFor(events, index) == ""
    ensures events[k].index == index && !events[k].Done? ==> TextOf(events[k]) == ""
  {
    hide *;
    var n := |events| - 1;
    var front, e := events[..n], events[n];
    assert events == front + [e];
    ArgumentsNext(front, e, index);
    TextIs(e);
    if k < n { TextStays(front, index, k); }
  }

  function TextOf(e: ArgEvent): string {
    match e
    case Added(_, _, _, arguments) => arguments
    case Delta(_, delta) => delta
    case Done(_, arguments) => arguments
  }

  lemma TextIs(e: ArgEvent)
    ensures TextOf(e) == if e.Delta? then e.delta else e.arguments
  {
  }

  /** An empty delta was the last of index's headers and deltas. */
  ghost predicate MarkedEmptyAt(events: seq<ArgEvent>, index: int, k: nat) {
    k < |events| && events[k] == Delta(index, "") && OnlyDoneFrom(events, index, k + 1)
  }

  lemma MarkedEmptyNext(front: seq<ArgEvent>, e: ArgEvent, index: int, k: nat)
    ensures MarkedEmptyAt(front + [e], index, k) <==>
            if k == |front| then e == Delta(index, "")
            else MarkedEmptyAt(front, index, k) && (e.index == index ==> e.Done?)
  {
    var all := front + [e];
    assert all[|front|] == e && forall j | 0 <= j < |front| :: all[j] == front[j];
  }

  lemma {:induction false} MarkedEmpty(events: seq<ArgEvent>, index: int)
    requires ArgumentsFor(events, index) == ""
    ensures Seen(events, index) <==> exists k: nat :: MarkedEmptyAt(events, index, k)
  {
    hide *;
    if events == [] {
      NoArguments(index);
      NothingMarked(index);
    } else {
      var n := |events| - 1;
      var front, e := events[..n], events[n];
      assert events == front + [e];
      ArgumentsNext(front, e, index);
      FragmentsNext(front, e);
      MarkedEmpty(front, index);
      forall k: nat ensures MarkedEmptyAt(events, index, k) <==>
          if k == n then e == Delta(index, "") else MarkedEmptyAt(front, index, k) && (e.index == index ==> e.Done?)
      {
        MarkedEmptyNext(front, e, index, k);
      }
      NotMarkedAt(front, index, n);
      if e.index == index && e.Delta? { assert MarkedEmptyAt(events, index, n); }
    }
  }

  lemma NothingMarked(index: int)
    ensures forall k: nat :: !MarkedEmptyAt([], index, k)
  {
  }

  lemma NotMarkedAt(events: seq<ArgEvent>, index: int, n: nat)
    requires n >= |events|
    ensures !MarkedEmptyAt(events, index, n)
  {
  }

  /** On any stream a done event's text is lost, leaving no arguments at all, exactly when none were assembled before it
      and an empty delta was the last header or delta for its index. */
  lemma DoneIsLostIffEmptyDelta(events: seq<ArgEvent>, index: int, full: string)
    requires full != ""
    ensures ArgumentsFor(events + [Done(index, full)], index) == "" <==>
            ArgumentsFor(events, index) == "" && exists k: nat :: MarkedEmptyAt(events, index, k)
  {
    DoneAdds(events, index, full);
    hide Seen, ArgumentsFor, MarkedEmptyAt;
    if ArgumentsFor(events, index) == "" { MarkedEmpty(events, index); }
  }

  /** On a stream in protocol order, header first, the arguments are the header's and the deltas', and the done event
      repeats nothing.  Its own text counts only when there was neither a delta nor a header with arguments; so it is
      lost exactly when at least one delta came and all the text before it was empty. */
  lemma {:induction false} InOrderArguments(index: int, callID: string, name: string, header: string,
                                            deltas: seq<string>, full: string)
    ensures var events := [Added(index, callID, name, header)] + DeltasOf(index, deltas);
            var final := ArgumentsFor(events + [Done(index, full)], index);
            Seen(events, index) == (header != "" || deltas != []) &&
            ArgumentsFor(events, index) == header + Concat(deltas) &&
            final == (if header == "" && deltas == [] then full else header + Concat(deltas)) &&
            (full != "" ==> (final == "" <==> header + Concat(deltas) == "" && deltas != []))
  {
    hide *;
    var head := Added(index, callID, name, header);
    DoneAdds([head] + DeltasOf(index, deltas), index, full);
    DeltasNext(index, deltas);
    ConcatNext(deltas);
    if deltas == [] {
      NoArguments(index);
      assert [head] + DeltasOf(index, deltas) == [] + [head];
      ArgumentsNext([], head, index);
      FragmentsNext([], head);
    } else {
      var n := |deltas| - 1;
      var front := [head] + DeltasOf(index, deltas[..n]);
      assert [head] + DeltasOf(index, deltas) == front + [Delta(index, deltas[n])];
      InOrderArguments(index, callID, name, header, deltas[..n], full);
      ArgumentsNext(front, Delta(index, deltas[n]), index);
      FragmentsNext(front, Delta(index, deltas[n]));
    }
  }

  lemma DeltasNext(index: int, deltas: seq<string>)
    ensures deltas == [] ==> DeltasOf(index, deltas) == []
    ensures deltas != [] ==>
              DeltasOf(index, deltas) == DeltasOf(index, deltas[..|deltas| - 1]) + [Delta(index, deltas[|deltas| - 1])]
  {
    if deltas != [] { assert DeltasOf(index, deltas)[..|deltas| - 1] == DeltasOf(index, deltas[..|deltas| - 1]); }
  }

  lemma ConcatNext(parts: seq<string>)
    ensures Concat([]) == "" && (parts != [] ==> Concat(parts) == Concat(parts[..|parts| - 1]) + parts[|parts| - 1])
  {
    if parts != [] {
      var front, last := parts[..|parts| - 1], parts[|parts| - 1];
      assert parts == front + [last] && [last][1..] == [] && Concat([last]) == last + Concat([]);
      ConcatAppend(front, [last]);
    }
  }

  function DeltasOf(index: int, deltas: seq<string>): seq<ArgEvent> {
    seq(|deltas|, i requires 0 <= i < |deltas| => Delta(index, deltas[i]))
  }

  /** Deltas that precede their header are appended to by the done event. */
  lemma LateHeaderDuplicates()
    ensures var events := [Delta(0, "{}"), Added(0, "call_1", "bash", "")];
            ArgumentsFor(events + [Done(0, "{}")], 0) == "{}{}"
  {
    hide *;
    var d, a := Delta(0, "{}"), Added(0, "call_1", "bash", "");
    NoArguments(0);
    assert [] + [d] == [d] && [d] + [a] == [d, a];
    ArgumentsNext([], d, 0);
    ArgumentsNext([d], a, 0);
    FragmentsNext([d], a);
    DoneAdds([d, a], 0, "{}");
  }

  /** So is an earlier done event, even in protocol order: done events never count as seen. */
  lemma SecondDoneDuplicates()
    ensures var events := [Added(0, "call_1", "bash", ""), Done(0, "{}")];
            ArgumentsFor(events + [Done(0, "{}")], 0) == "{}{}"
  {
    hide *;
    var a, d := Added(0, "call_1", "bash", ""), Done(0, "{}");
    NoArguments(0);
    assert [] + [a] == [a] && [a] + [d] == [a, d];
    ArgumentsNext([], a, 0);
    FragmentsNext([], a);
    ArgumentsNext([a], d, 0);
    FragmentsNext([a], d);
    DoneAdds([a, d], 0, "{}");
  }

  /** One empty delta, in protocol order, and the call goes out without the arguments its done event brought. */
  lemma EmptyDeltaLosesDone(json: ObjectCheck)
    ensures var events := [Added(0, "call_1", "bash", ""), Delta(0, ""), Done(0, "{\"x\":1}")];
            ArgumentsFor(events, 0) == "" && ValidArguments(json, ArgumentsFor(events, 0)) == Some("{}")
  {
    hide ArgumentsFor;
    var a, d := Added(0, "call_1", "bash", ""), Delta(0, "");
    NoArguments(0);
    assert [] + [a] == [a] && [a] + [d] == [a, d];
    assert [a, d] + [Done(0, "{\"x\":1}")] == [a, d, Done(0, "{\"x\":1}")];
    ArgumentsNext([], a, 0);
    ArgumentsNext([a], d, 0);
    FragmentsNext([a], d);
    DoneAdds([a, d], 0, "{\"x\":1}");
  }
}
