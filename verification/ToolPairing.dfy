/** What sanitizeToolHistory guarantees to every adapter behind it: calls and results pair up. */
module ToolPairing {
  import opened OpenAI
  import opened ToolHistory

  // ---------------------------------------------------------------- traces

  /** The calls and results of a conversation, in order, whatever carries them. */
  datatype Mark = Call(id: string, name: string, arguments: string) | Result(id: string)

  function CallMarks(calls: seq<ToolCall>): seq<Mark> {
    seq(|calls|, i requires 0 <= i < |calls| =>
      Call(calls[i].id, calls[i].function_.name, calls[i].function_.arguments))
  }

  function MarksOf(m: ChatMessage): seq<Mark> {
    match m.role
    case Assistant => CallMarks(m.toolCalls)
    case Tool => [Result(m.toolCallID)]
    case _ => []
  }

  function Trace(msgs: seq<ChatMessage>): seq<Mark> {
    if msgs == [] then [] else Trace(msgs[..|msgs| - 1]) + MarksOf(msgs[|msgs| - 1])
  }

  function Called(trace: seq<Mark>): set<string> { set x | x in trace && x.Call? :: x.id }

  function Answered(trace: seq<Mark>): set<string> { set x | x in trace && x.Result? :: x.id }

  /** How many results a trace holds for id. */
  function Results(trace: seq<Mark>, id: string): nat {
    if trace == [] then 0 else Results(trace[..|trace| - 1], id) + (if trace[|trace| - 1] == Result(id) then 1 else 0)
  }

  /** Every result comes after a call with its id. */
  predicate InOrder(trace: seq<Mark>) {
    forall i | 0 <= i < |trace| && trace[i].Result? :: trace[i].id in Called(trace[..i])
  }

  lemma {:induction false} TraceAppend(a: seq<ChatMessage>, b: seq<ChatMessage>)
    ensures Trace(a + b) == Trace(a) + Trace(b)
  {
    assert b != [] ==> Trace(b) == Trace(b[..|b| - 1]) + MarksOf(b[|b| - 1]);
    if b == [] {
      assert a + b == a;
    } else {
      var front, last := b[..|b| - 1], b[|b| - 1];
      assert (a + b)[..|a + b| - 1] == a + front;
      assert Trace(a + b) == Trace(a + front) + MarksOf(last);
      hide *;
      TraceAppend(a, front);
    }
  }

  lemma TraceOne(m: ChatMessage)
    ensures Trace([m]) == MarksOf(m)
  {
    assert [m][..0] == [];
  }

  lemma {:induction false} ResultsAppend(a: seq<Mark>, b: seq<Mark>, id: string)
    ensures Results(a + b, id) == Results(a, id) + Results(b, id)
  {
    if b == [] {
      assert a + b == a;
    } else {
      assert (a + b)[..|a + b| - 1] == a + b[..|b| - 1];
      ResultsAppend(a, b[..|b| - 1], id);
    }
  }

  lemma CalledAppend(a: seq<Mark>, b: seq<Mark>)
    ensures Called(a + b) == Called(a) + Called(b)
    ensures Answered(a + b) == Answered(a) + Answered(b)
  {
    assert forall x :: x in a + b <==> x in a || x in b;
  }

  lemma {:induction false} ResultsAnswered(trace: seq<Mark>, id: string)
    ensures Results(trace, id) > 0 <==> id in Answered(trace)
  {
    if trace != [] {
      ResultsAnswered(trace[..|trace| - 1], id);
      assert trace == trace[..|trace| - 1] + [trace[|trace| - 1]];
    }
  }

  lemma {:induction false} NoResults(trace: seq<Mark>, id: string)
    requires forall i | 0 <= i < |trace| :: trace[i] != Result(id)
    ensures Results(trace, id) == 0
  {
    if trace != [] { NoResults(trace[..|trace| - 1], id); }
  }

  lemma InOrderAppend(a: seq<Mark>, b: seq<Mark>)
    ensures InOrder(a + b) <==>
            InOrder(a) && forall i | 0 <= i < |b| && b[i].Result? :: b[i].id in Called(a) + Called(b[..i])
  {
    forall i | 0 <= i <= |a| ensures (a + b)[..i] == a[..i] {}
    forall i | 0 <= i <= |b| ensures (a + b)[..|a| + i] == a + b[..i] &&
      Called(a + b[..i]) == Called(a) + Called(b[..i]) {
      CalledAppend(a, b[..i]);
    }
    if InOrder(a + b) {
      forall i | 0 <= i < |a| && a[i].Result? ensures a[i].id in Called(a[..i]) { assert (a + b)[i] == a[i]; }
      forall i | 0 <= i < |b| && b[i].Result? ensures b[i].id in Called(a) + Called(b[..i]) {
        assert (a + b)[|a| + i] == b[i];
      }
    }
    if InOrder(a) && forall i | 0 <= i < |b| && b[i].Result? :: b[i].id in Called(a) + Called(b[..i]) {
      forall i | 0 <= i < |a + b| && (a + b)[i].Result? ensures (a + b)[i].id in Called((a + b)[..i]) {
        if i >= |a| { assert (a + b)[i] == b[i - |a|]; assert (a + b)[..|a| + (i - |a|)] == a + b[..i - |a|]; }
      }
    }
  }

  // ---------------------------------------------------------------- one message

  /** What the chat APIs require of a call. */
  predicate Fit(json: ObjectCheck, c: Mark) {
    c.Call? ==> c.id != "" && c.name != "" && c.arguments != "" && json(c.arguments)
  }

  lemma {:induction false} KeptCallsFit(json: ObjectCheck, calls: seq<ToolCall>)
    ensures forall c | c in CallMarks(KeepCalls(json, calls)) :: Fit(json, c)
  {
    if calls != [] {
      var front, last := calls[..|calls| - 1], calls[|calls| - 1];
      KeptCallsFit(json, front);
      if Sound(json, last) {
        assert CallMarks(KeepCalls(json, calls)) == CallMarks(KeepCalls(json, front)) + CallMarks([Settle(json, last)]);
      } else {
        assert KeepCalls(json, calls) == KeepCalls(json, front);
      }
    }
  }

  lemma CallMarksIDs(calls: seq<ToolCall>, id: string)
    ensures Called(CallMarks(calls)) == IDs(calls) && Answered(CallMarks(calls)) == {}
    ensures Results(CallMarks(calls), id) == 0
  {
    var marks := CallMarks(calls);
    NoResults(marks, id);
    forall x ensures x in Called(marks) <==> x in IDs(calls) {
      if x in IDs(calls) {
        var i :| 0 <= i < |calls| && calls[i].id == x;
        assert marks[i] in marks;
      }
    }
  }

  /** Placeholders are one result for each id that nothing has answered. */
  lemma {:induction false} PlaceholderMarks(calls: seq<ToolCall>, answered: set<string>, id: string)
    ensures var marks := Trace(Placeholders(calls, answered));
            Called(marks) == {} && Answered(marks) == IDs(calls) - answered &&
            Results(marks, id) == (if id in IDs(calls) - answered then 1 else 0)
  {
    hide *;
    var isNew, more := PlaceholderStep(calls, answered, id);
    if calls != [] {
      var front, last := calls[..|calls| - 1], calls[|calls| - 1];
      PlaceholderMark(isNew, last.id, id);
      PlaceholderMarks(front, answered, id);
      TraceAppend(Placeholders(front, answered), more);
      CalledAppend(Trace(Placeholders(front, answered)), Trace(more));
      ResultsAppend(Trace(Placeholders(front, answered)), Trace(more), id);
      IDsNext(front, last);
      assert calls == front + [last];
    }
  }

  lemma PlaceholderStep(calls: seq<ToolCall>, answered: set<string>, id: string)
    returns (isNew: bool, more: seq<ChatMessage>)
    ensures calls == [] ==>
              var marks := Trace(Placeholders(calls, answered));
              IDs(calls) == {} && Called(marks) == {} && Answered(marks) == {} && Results(marks, id) == 0
    ensures calls != [] ==>
              var front, last := calls[..|calls| - 1], calls[|calls| - 1];
              isNew == (last.id !in answered + IDs(front)) && more == (if isNew then [Placeholder(last.id)] else []) &&
              Placeholders(calls, answered) == Placeholders(front, answered) + more
  {
    isNew := calls != [] && calls[|calls| - 1].id !in answered + IDs(calls[..|calls| - 1]);
    more := if isNew then [Placeholder(calls[|calls| - 1].id)] else [];
  }

  lemma PlaceholderMark(isNew: bool, last: string, id: string)
    ensures var marks := Trace(if isNew then [Placeholder(last)] else []);
            Called(marks) == {} && Answered(marks) == (if isNew then {last} else {}) &&
            Results(marks, id) == (if isNew && id == last then 1 else 0)
  {
    if isNew {
      TraceOne(Placeholder(last));
      assert [Result(last)][..0] == [];
      assert Result(last) in [Result(last)];
    }
  }

  lemma IDsNext(calls: seq<ToolCall>, tc: ToolCall)
    ensures IDs(calls + [tc]) == IDs(calls) + {tc.id}
  {
    assert forall x :: x in calls + [tc] <==> x in calls || x == tc;
  }

  /** The marks a message keeps. */
  function KeptMarks(json: ObjectCheck, valid: set<string>, m: ChatMessage): seq<Mark> {
    match m.role
    case Assistant => CallMarks(KeepCalls(json, m.toolCalls))
    case Tool => if m.toolCallID in valid then [Result(m.toolCallID)] else []
    case _ => []
  }

  lemma KeptTrace(json: ObjectCheck, valid: set<string>, m: ChatMessage)
    ensures Trace(Kept(json, valid, m)) == KeptMarks(json, valid, m)
  {
    var k := Kept(json, valid, m);
    if k != [] { TraceOne(k[0]); }
  }

  function OwnIDs(json: ObjectCheck, m: ChatMessage): set<string> {
    if m.role == Assistant then IDs(KeepCalls(json, m.toolCalls)) else {}
  }

  /** How many results for id a message keeps. */
  function OwnResults(valid: set<string>, m: ChatMessage, id: string): nat {
    if m.role == Tool && m.toolCallID == id && id in valid then 1 else 0
  }

  lemma KeptMarksFit(json: ObjectCheck, valid: set<string>, m: ChatMessage, id: string)
    ensures var marks := KeptMarks(json, valid, m);
            Called(marks) == OwnIDs(json, m) && (forall c | c in marks :: Fit(json, c)) &&
            Results(marks, id) == OwnResults(valid, m, id)
  {
    match m.role {
      case Assistant =>
        KeptCallsFit(json, m.toolCalls);
        CallMarksIDs(KeepCalls(json, m.toolCalls), id);
      case Tool => assert [Result(m.toolCallID)][..0] == [];
      case _ =>
    }
  }

  lemma RepairedTrace(json: ObjectCheck, valid: set<string>, answered: set<string>, m: ChatMessage)
    ensures OwnIDs(json, m) == if m.role == Assistant then IDs(KeepCalls(json, m.toolCalls)) else {}
    ensures Trace(Repaired(json, valid, answered, m)) == KeptMarks(json, valid, m) +
            if m.role == Assistant then Trace(Placeholders(KeepCalls(json, m.toolCalls), answered)) else []
  {
    var fixes := if m.role == Assistant then Placeholders(KeepCalls(json, m.toolCalls), answered) else [];
    hide Kept, KeepCalls, Placeholders, KeptMarks, MarksOf;
    KeptTrace(json, valid, m);
    TraceAppend(Kept(json, valid, m), fixes);
  }

  /** One message after repair: its calls stay fit, its results stay, and its unanswered calls are answered. */
  lemma RepairedMarks(json: ObjectCheck, valid: set<string>, answered: set<string>, m: ChatMessage, id: string)
    ensures var marks := Trace(Repaired(json, valid, answered, m));
            Called(marks) == OwnIDs(json, m) && (forall c | c in marks :: Fit(json, c)) &&
            Results(marks, id) == OwnResults(valid, m, id) + (if id in OwnIDs(json, m) - answered then 1 else 0)
  {
    hide *;
    var kept, calls := KeptMarks(json, valid, m), KeepCalls(json, m.toolCalls);
    KeptMarksFit(json, valid, m, id);
    RepairedTrace(json, valid, answered, m);
    if m.role == Assistant {
      var fixes := Trace(Placeholders(calls, answered));
      PlaceholderMarks(calls, answered, id);
      CalledAppend(kept, fixes);
      ResultsAppend(kept, fixes, id);
      NoCalls(json, fixes);
    } else {
      assert kept + [] == kept;
    }
  }

  lemma NoCalls(json: ObjectCheck, trace: seq<Mark>)
    requires Called(trace) == {}
    ensures forall c | c in trace :: Fit(json, c)
  {
    forall x | x in trace && x.Call? ensures x.id in Called(trace) {}
  }

  // ---------------------------------------------------------------- closure and counting

  lemma {:induction false} RepairAllMarks(json: ObjectCheck, valid: set<string>, answered: set<string>,
                                          msgs: seq<ChatMessage>, id: string)
    requires ValidIDs(json, msgs) <= valid
    ensures var marks := Trace(RepairAll(json, valid, answered, msgs));
            Called(marks) == ValidIDs(json, msgs) && (forall c | c in marks :: Fit(json, c)) &&
            Results(marks, id) == (if id in valid then Results(Trace(msgs), id) else 0)
                                  + (if id in ValidIDs(json, msgs) - answered then 1 else 0)
  {
    if msgs != [] {
      var front, m := msgs[..|msgs| - 1], msgs[|msgs| - 1];
      var a, b := RepairAll(json, valid, answered, front),
                  Repaired(json, valid, answered + ValidIDs(json, front), m);
      assert RepairAll(json, valid, answered, msgs) == a + b;
      assert ValidIDs(json, msgs) == ValidIDs(json, front) + OwnIDs(json, m);
      assert Trace(msgs) == Trace(front) + MarksOf(m);
      MessageResults(m, id);
      hide *;
      RepairAllMarks(json, valid, answered, front, id);
      RepairedMarks(json, valid, answered + ValidIDs(json, front), m, id);
      TraceAppend(a, b);
      CalledAppend(Trace(a), Trace(b));
      ResultsAppend(Trace(a), Trace(b), id);
      ResultsAppend(Trace(front), MarksOf(m), id);
      ToolIsNotAssistant(json, valid, m, id);
    }
  }

  lemma MessageResults(m: ChatMessage, id: string)
    ensures Results(MarksOf(m), id) == if m.role == Tool && m.toolCallID == id then 1 else 0
  {
    match m.role {
      case Assistant => CallMarksIDs(m.toolCalls, id);
      case Tool => assert MarksOf(m)[..0] == [];
      case _ =>
    }
  }

  lemma ToolIsNotAssistant(json: ObjectCheck, valid: set<string>, m: ChatMessage, id: string)
    ensures OwnResults(valid, m, id)
            == if id in valid then (if m.role == Tool && m.toolCallID == id then 1 else 0) else 0
  {
  }

  lemma {:induction false} TraceAnswers(msgs: seq<ChatMessage>)
    ensures Answered(Trace(msgs)) == ResultIDs(msgs)
  {
    if msgs == [] {
      assert Trace(msgs) == [];
    } else {
      hide *;
      var front, m := msgs[..|msgs| - 1], msgs[|msgs| - 1];
      assert msgs == front + [m];
      TraceAnswers(front);
      TraceAppend(front, [m]);
      TraceOne(m);
      CalledAppend(Trace(front), MarksOf(m));
      MessageAnswers(m);
      ResultIDsNext(front, m);
    }
  }

  lemma MessageAnswers(m: ChatMessage)
    ensures Answered(MarksOf(m)) == if m.role == Tool then {m.toolCallID} else {}
  {
    if m.role == Assistant { CallMarksIDs(m.toolCalls, ""); }
  }

  /** The repaired history is closed: every call is fit, the ids called and the ids answered are the ids of
      the input's sound calls, an answered id keeps exactly its results, and an unanswered one gets exactly
      one placeholder however often it was called. */
  lemma HistoryIsClosed(json: ObjectCheck, msgs: seq<ChatMessage>, id: string)
    ensures var before, after := Trace(msgs), Trace(Sanitize(json, msgs));
            (forall c | c in after :: Fit(json, c)) &&
            Called(after) == Answered(after) == ValidIDs(json, msgs) &&
            Results(after, id) == if id !in ValidIDs(json, msgs) then 0
                                  else if Results(before, id) == 0 then 1 else Results(before, id)
  {
    var valid, after := ValidIDs(json, msgs), Trace(Sanitize(json, msgs));
    TraceAnswers(msgs);
    forall x ensures Results(after, x) == if x !in valid then 0
                                          else if Results(Trace(msgs), x) == 0 then 1 else Results(Trace(msgs), x) {
      RepairAllMarks(json, valid, ResultIDs(msgs) * valid, msgs, x);
      ResultsAnswered(Trace(msgs), x);
    }
    RepairAllMarks(json, valid, ResultIDs(msgs) * valid, msgs, id);
    hide Results, Trace, ValidIDs, RepairAll, ResultIDs;
    forall x ensures x in Answered(after) <==> x in valid {
      ResultsAnswered(after, x);
    }
  }
}
