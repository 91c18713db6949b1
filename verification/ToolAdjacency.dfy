/** Why placeholders go where they go: strict providers want each call's results directly behind the message that made
    it (internal/provider/toolcalls.go). */
module ToolAdjacency {
  import opened OpenAI
  import opened ToolHistory
  import opened ToolPairing
  import opened ToolOrder

  /** The ids answered by the tool messages a conversation starts with. */
  function Leading(msgs: seq<ChatMessage>): set<string> {
    if msgs == [] || msgs[0].role != Tool then {} else {msgs[0].toolCallID} + Leading(msgs[1..])
  }

  /** Every call is answered among the tool messages directly behind the message that made it. */
  ghost predicate Adjacent(msgs: seq<ChatMessage>) {
    forall i | 0 <= i < |msgs| && msgs[i].role == Assistant :: IDs(msgs[i].toolCalls) <= Leading(msgs[i + 1..])
  }

  function CallIDs(m: ChatMessage): set<string> { if m.role == Assistant then IDs(m.toolCalls) else {} }

  /** No tool message with a surviving id stands anywhere but directly behind the message that made its call; open
      are the ids whose results may come now. */
  predicate Direct(msgs: seq<ChatMessage>, open: set<string>, valid: set<string>) {
    msgs == [] ||
    var m, rest := msgs[0], msgs[1..];
    if m.role == Tool then (m.toolCallID in valid ==> m.toolCallID in open) && Direct(rest, open, valid)
    else Direct(rest, CallIDs(m), valid)
  }

  // ---------------------------------------------------------------- conversations from the front

  lemma FrontTrace(m: ChatMessage, rest: seq<ChatMessage>)
    ensures Called(Trace([m] + rest)) == CallIDs(m) + Called(Trace(rest))
  {
    TraceAppend([m], rest);
    TraceOne(m);
    CalledAppend(MarksOf(m), Trace(rest));
    if m.role == Assistant { CallMarksIDs(m.toolCalls, ""); }
  }

  lemma {:induction false} FrontValid(json: ObjectCheck, m: ChatMessage, rest: seq<ChatMessage>)
    ensures ValidIDs(json, [m] + rest) == OwnIDs(json, m) + ValidIDs(json, rest)
  {
    if rest == [] {
      assert [m] + rest == [m] && [m][..0] == [];
    } else {
      var front, last := rest[..|rest| - 1], rest[|rest| - 1];
      assert ([m] + rest)[..|rest|] == [m] + front;
      hide KeepCalls;
      FrontValid(json, m, front);
    }
  }

  lemma NothingToRepairYet(json: ObjectCheck, valid: set<string>, answered: set<string>)
    ensures RepairAll(json, valid, answered, []) == [] && ValidIDs(json, []) == {}
  {
  }

  lemma {:induction false} FrontRepair(json: ObjectCheck, valid: set<string>, answered: set<string>, m: ChatMessage,
                                       rest: seq<ChatMessage>)
    ensures RepairAll(json, valid, answered, [m] + rest) ==
            Repaired(json, valid, answered, m) + RepairAll(json, valid, answered + OwnIDs(json, m), rest)
  {
    hide *;
    NothingToRepairYet(json, valid, answered);
    NothingToRepairYet(json, valid, answered + OwnIDs(json, m));
    if rest == [] {
      assert [m] + rest == [] + [m];
      RepairAllNext(json, valid, answered, [], m);
      assert answered + {} == answered;
    } else {
      var front, last := rest[..|rest| - 1], rest[|rest| - 1];
      assert [m] + rest == [m] + front + [last] && rest == front + [last];
      FrontRepair(json, valid, answered, m, front);
      FrontValid(json, m, front);
      RepairAllNext(json, valid, answered, [m] + front, last);
      RepairAllNext(json, valid, answered + OwnIDs(json, m), front, last);
      assert answered + (OwnIDs(json, m) + ValidIDs(json, front)) == answered + OwnIDs(json, m) + ValidIDs(json, front);
    }
  }

  /** UniqueCalls, message by message. */
  ghost predicate Apart(msgs: seq<ChatMessage>) {
    msgs == [] || (CallIDs(msgs[0]) !! Called(Trace(msgs[1..])) && Apart(msgs[1..]))
  }

  lemma {:induction false} UniqueIsApart(msgs: seq<ChatMessage>)
    requires UniqueCalls(msgs)
    ensures Apart(msgs)
  {
    if msgs != [] {
      var m, rest := msgs[0], msgs[1..];
      FirstIsApart(msgs);
      forall n | 0 <= n <= |rest| ensures Called(Trace(rest[..n])) !! Called(Trace(rest[n..])) {
        RestIsUnique(msgs, n);
      }
      hide Trace, Called, CallIDs;
      UniqueIsApart(rest);
    }
  }

  lemma FirstIsApart(msgs: seq<ChatMessage>)
    requires msgs != [] && UniqueCalls(msgs)
    ensures CallIDs(msgs[0]) !! Called(Trace(msgs[1..]))
  {
    assert Trace([]) == [] && Called([]) == {};
    hide *;
    assert msgs[..1] == [msgs[0]] + [];
    FrontTrace(msgs[0], []);
    CalledApart(msgs, 1);
  }

  lemma RestIsUnique(msgs: seq<ChatMessage>, n: nat)
    requires msgs != [] && UniqueCalls(msgs) && n <= |msgs| - 1
    ensures Called(Trace(msgs[1..][..n])) !! Called(Trace(msgs[1..][n..]))
  {
    hide *;
    var m, rest := msgs[0], msgs[1..];
    assert msgs[..n + 1] == [m] + rest[..n] && msgs[n + 1..] == rest[n..];
    FrontTrace(m, rest[..n]);
    CalledApart(msgs, n + 1);
  }

  // ---------------------------------------------------------------- where a call's results are

  lemma FrontResults(m: ChatMessage, rest: seq<ChatMessage>)
    ensures ResultIDs([m] + rest) == (if m.role == Tool then {m.toolCallID} else {}) + ResultIDs(rest)
  {
    assert forall x :: x in [m] + rest <==> x == m || x in rest;
  }

  /** A result that may come directly comes in the run in front, unless its call is still to come. */
  lemma {:induction false} DirectResultLeads(msgs: seq<ChatMessage>, open: set<string>, valid: set<string>, id: string)
    requires Direct(msgs, open, valid) && id in ResultIDs(msgs) && id in valid && id !in Called(Trace(msgs))
    ensures id in Leading(msgs)
  {
    if msgs != [] {
      var m, rest := msgs[0], msgs[1..];
      assert msgs == [m] + rest;
      FrontResults(m, rest);
      FrontTrace(m, rest);
      hide Trace, Called, ResultIDs;
      if m.role == Tool {
        if m.toolCallID != id { DirectResultLeads(rest, open, valid, id); }
      } else {
        NoCallNoResult(rest, CallIDs(m), valid, id);
      }
    }
  }

  /** No result without an open or a coming call. */
  lemma {:induction false} NoCallNoResult(msgs: seq<ChatMessage>, open: set<string>, valid: set<string>, id: string)
    requires Direct(msgs, open, valid) && id in valid && id !in open && id !in Called(Trace(msgs))
    ensures id !in ResultIDs(msgs)
  {
    if msgs != [] {
      var m, rest := msgs[0], msgs[1..];
      assert msgs == [m] + rest;
      FrontResults(m, rest);
      FrontTrace(m, rest);
      hide Trace, Called, ResultIDs;
      NoCallNoResult(rest, if m.role == Tool then open else CallIDs(m), valid, id);
    }
  }

  function AnswersOf(tools: seq<ChatMessage>): set<string> { set m | m in tools :: m.toolCallID }

  lemma AnswersAppend(a: seq<ChatMessage>, b: seq<ChatMessage>)
    ensures AnswersOf(a + b) == AnswersOf(a) + AnswersOf(b)
  {
    assert forall m :: m in a + b <==> m in a || m in b;
  }

  lemma AnswersOne(m: ChatMessage)
    ensures AnswersOf([]) == {} && AnswersOf([m]) == {m.toolCallID}
  {
    assert m in [m];
  }

  lemma {:induction false} LeadingAppend(tools: seq<ChatMessage>, msgs: seq<ChatMessage>)
    requires forall m | m in tools :: m.role == Tool
    ensures Leading(tools + msgs) == AnswersOf(tools) + Leading(msgs)
  {
    if tools == [] {
      assert tools + msgs == msgs;
    } else {
      var first, rest := tools[0], tools[1..];
      assert tools == [first] + rest && first in tools && (tools + msgs)[1..] == rest + msgs;
      assert forall m | m in rest :: m in tools;
      hide AnswersOf;
      LeadingAppend(rest, msgs);
      AnswersAppend([first], rest);
      AnswersOne(first);
    }
  }

  lemma PlaceholdersNext(front: seq<ToolCall>, last: ToolCall, answered: set<string>)
    ensures Placeholders(front + [last], answered) ==
            Placeholders(front, answered) + if last.id in answered + IDs(front) then [] else [Placeholder(last.id)]
    ensures Placeholders([], answered) == []
  {
    assert (front + [last])[..|front|] == front;
    hide IDs;
  }

  lemma {:induction false} PlaceholderIDs(calls: seq<ToolCall>, answered: set<string>)
    ensures AnswersOf(Placeholders(calls, answered)) == IDs(calls) - answered
  {
    if calls == [] {
      assert Placeholders(calls, answered) == [];
    } else {
      var front, last := calls[..|calls| - 1], calls[|calls| - 1];
      hide AnswersOf, Placeholders, IDs;
      assert calls == front + [last];
      PlaceholderIDs(front, answered);
      IDsNext(front, last);
      PlaceholdersNext(front, last, answered);
      AnswersOne(Placeholder(last.id));
      AnswersAppend(Placeholders(front, answered),
                    if last.id in answered + IDs(front) then [] else [Placeholder(last.id)]);
    }
  }

  /** The surviving ids of the run in front stay in front. */
  lemma {:induction false} LeadingKept(json: ObjectCheck, valid: set<string>, answered: set<string>,
                                       msgs: seq<ChatMessage>)
    ensures Leading(msgs) * valid <= Leading(RepairAll(json, valid, answered, msgs))
  {
    if msgs != [] && msgs[0].role == Tool {
      var m, rest := msgs[0], msgs[1..];
      assert msgs == [m] + rest;
      FrontRepair(json, valid, answered, m, rest);
      var b := Repaired(json, valid, answered, m);
      assert b == if m.toolCallID in valid then [m] else [];
      hide RepairAll, Repaired;
      LeadingKept(json, valid, answered + OwnIDs(json, m), rest);
      var after := RepairAll(json, valid, answered + OwnIDs(json, m), rest);
      if m.toolCallID in valid { assert ([m] + after)[1..] == after; } else { assert [] + after == after; }
    }
  }

  // ---------------------------------------------------------------- the result

  lemma {:induction false} AdjacentAppend(tools: seq<ChatMessage>, msgs: seq<ChatMessage>)
    requires Adjacent(msgs) && forall m | m in tools :: m.role != Assistant
    ensures Adjacent(tools + msgs)
  {
    var all, n := tools + msgs, |tools|;
    assert forall i | 0 <= i < n :: all[i] == tools[i] && tools[i] in tools;
    assert forall i | 0 <= i < |msgs| :: all[n + i] == msgs[i] && all[n + i + 1..] == msgs[i + 1..];
    forall i | n <= i < |all| && all[i].role == Assistant ensures IDs(all[i].toolCalls) <= Leading(all[i + 1..]) {
      assert all[n + (i - n)] == msgs[i - n] && all[n + (i - n) + 1..] == msgs[i - n + 1..];
      hide Leading, IDs;
    }
    hide Leading, IDs;
  }

  lemma AdjacentFront(m: ChatMessage, msgs: seq<ChatMessage>)
    requires Adjacent(msgs) && (m.role == Assistant ==> IDs(m.toolCalls) <= Leading(msgs))
    ensures Adjacent([m] + msgs)
  {
    var all := [m] + msgs;
    assert all[1..] == msgs && forall i | 0 < i < |all| :: all[i] == msgs[i - 1] && all[i + 1..] == msgs[i..];
  }

  /** One message and its placeholders in front of an adjacent rest. */
  lemma RepairedInFront(json: ObjectCheck, valid: set<string>, answered: set<string>, m: ChatMessage,
                        after: seq<ChatMessage>)
    requires Adjacent(after) && (m.role == Assistant ==> OwnIDs(json, m) * answered <= Leading(after))
    ensures Adjacent(Repaired(json, valid, answered, m) + after)
  {
    hide KeepCalls, Placeholders, Adjacent;
    if m.role == Assistant {
      var calls := KeepCalls(json, m.toolCalls);
      var fixes := Placeholders(calls, answered);
      PlaceholdersAnswer(calls, answered);
      PlaceholderIDs(calls, answered);
      LeadingAppend(fixes, after);
      hide Leading;
      AdjacentAppend(fixes, after);
      AdjacentFront(m.(toolCalls := calls), fixes + after);
      if Kept(json, valid, m) == [] {
        assert Repaired(json, valid, answered, m) + after == fixes + after;
      } else {
        assert Repaired(json, valid, answered, m) + after == [m.(toolCalls := calls)] + (fixes + after);
      }
    } else {
      assert forall x | x in Repaired(json, valid, answered, m) :: x == m;
      AdjacentAppend(Repaired(json, valid, answered, m), after);
    }
  }

  /** answered holds nothing of what is to come but what is answered there. */
  ghost predicate OnlyAnsweredAhead(json: ObjectCheck, answered: set<string>, msgs: seq<ChatMessage>) {
    ValidIDs(json, msgs) * answered <= ResultIDs(msgs)
  }

  lemma OwnIDsAreCalls(json: ObjectCheck, m: ChatMessage)
    ensures OwnIDs(json, m) <= CallIDs(m)
  {
    if m.role == Assistant {
      SoundCallsAreCalls(json, m.toolCalls);
      CallMarksIDs(m.toolCalls, "");
    }
  }

  lemma {:induction false} ValidAreCalled(json: ObjectCheck, msgs: seq<ChatMessage>)
    ensures ValidIDs(json, msgs) <= Called(Trace(msgs))
  {
    hide *;
    if msgs == [] {
      NothingToRepairYet(json, {}, {});
    } else {
      var m, rest := msgs[0], msgs[1..];
      assert msgs == [m] + rest;
      FrontValid(json, m, rest);
      FrontTrace(m, rest);
      OwnIDsAreCalls(json, m);
      ValidAreCalled(json, rest);
    }
  }

  /** What repairing a message and the rest behind it may rely on. */
  ghost predicate Ready(json: ObjectCheck, valid: set<string>, answered: set<string>, open: set<string>,
                        msgs: seq<ChatMessage>) {
    ValidIDs(json, msgs) <= valid && OnlyAnsweredAhead(json, answered, msgs) && Direct(msgs, open, valid) &&
    Apart(msgs) && open !! Called(Trace(msgs))
  }

  function OpenAfter(m: ChatMessage, open: set<string>): set<string> { if m.role == Tool then open else CallIDs(m) }

  lemma FrontParts(m: ChatMessage, rest: seq<ChatMessage>, open: set<string>, valid: set<string>)
    requires Direct([m] + rest, open, valid) && Apart([m] + rest)
    ensures Direct(rest, OpenAfter(m, open), valid) && Apart(rest) && CallIDs(m) !! Called(Trace(rest))
    ensures m.role == Tool && m.toolCallID in valid ==> m.toolCallID in open
  {
    assert ([m] + rest)[1..] == rest;
    hide Trace, Called, CallIDs;
  }

  lemma ReadyNext(json: ObjectCheck, valid: set<string>, answered: set<string>, open: set<string>, m: ChatMessage,
                  rest: seq<ChatMessage>)
    requires Ready(json, valid, answered, open, [m] + rest)
    ensures Ready(json, valid, answered + OwnIDs(json, m), OpenAfter(m, open), rest)
    ensures m.role == Assistant ==> forall id | id in OwnIDs(json, m) * answered :: id in ResultIDs(rest)
    ensures OwnIDs(json, m) <= valid && CallIDs(m) !! Called(Trace(rest)) && OwnIDs(json, m) <= CallIDs(m)
  {
    FrontParts(m, rest, open, valid);
    FrontValid(json, m, rest);
    FrontTrace(m, rest);
    FrontResults(m, rest);
    OwnIDsAreCalls(json, m);
    ValidAreCalled(json, rest);
    hide ValidIDs, Trace, Called, ResultIDs, CallIDs, OwnIDs, Direct, Apart;
    AheadStays(json, answered, OwnIDs(json, m), m, rest);
  }

  lemma OwnResultsLead(json: ObjectCheck, valid: set<string>, answered: set<string>, open: set<string>, m: ChatMessage,
                       rest: seq<ChatMessage>)
    requires Ready(json, valid, answered, open, [m] + rest) && m.role == Assistant
    ensures OwnIDs(json, m) * answered <= Leading(RepairAll(json, valid, answered + OwnIDs(json, m), rest))
  {
    ReadyNext(json, valid, answered, open, m, rest);
    FrontParts(m, rest, open, valid);
    assert OpenAfter(m, open) == CallIDs(m);
    hide *;
    LeadingKept(json, valid, answered + OwnIDs(json, m), rest);
    forall id | id in OwnIDs(json, m) * answered ensures id in Leading(rest) * valid {
      DirectResultLeads(rest, CallIDs(m), valid, id);
    }
  }

  lemma {:induction false} RepairsAreAdjacent(json: ObjectCheck, valid: set<string>, answered: set<string>,
                                              open: set<string>, msgs: seq<ChatMessage>)
    requires Ready(json, valid, answered, open, msgs)
    ensures Adjacent(RepairAll(json, valid, answered, msgs))
    decreases |msgs|
  {
    if msgs == [] {
      NothingToRepairYet(json, valid, answered);
    } else {
      hide *;
      var m, rest := msgs[0], msgs[1..];
      assert msgs == [m] + rest;
      FrontRepair(json, valid, answered, m, rest);
      ReadyNext(json, valid, answered, open, m, rest);
      RepairsAreAdjacent(json, valid, answered + OwnIDs(json, m), OpenAfter(m, open), rest);
      if m.role == Assistant { OwnResultsLead(json, valid, answered, open, m, rest); }
      RepairedInFront(json, valid, answered, m, RepairAll(json, valid, answered + OwnIDs(json, m), rest));
    }
  }

  lemma AheadStays(json: ObjectCheck, answered: set<string>, own: set<string>, m: ChatMessage, rest: seq<ChatMessage>)
    requires (own + ValidIDs(json, rest)) * answered <=
             (if m.role == Tool then {m.toolCallID} else {}) + ResultIDs(rest)
    requires own !! ValidIDs(json, rest) && (m.role == Tool ==> m.toolCallID !in ValidIDs(json, rest))
    ensures OnlyAnsweredAhead(json, answered + own, rest)
  {
    hide ValidIDs, ResultIDs;
  }

  /** When ids are not shared between messages and the input's results stand directly behind the messages that made
      their calls, then in the repaired history every call is directly followed by its results, placeholders
      included. */
  lemma EachCallMeetsItsResults(json: ObjectCheck, msgs: seq<ChatMessage>)
    requires UniqueCalls(msgs) && Direct(msgs, {}, ValidIDs(json, msgs))
    ensures Adjacent(Sanitize(json, msgs))
  {
    UniqueIsApart(msgs);
    hide Trace, Called, ValidIDs, ResultIDs, Direct, UniqueCalls, Apart, Adjacent, RepairAll;
    var valid := ValidIDs(json, msgs);
    RepairsAreAdjacent(json, valid, ResultIDs(msgs) * valid, {}, msgs);
  }
}
