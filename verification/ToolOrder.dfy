/** Order, placement and idempotence of sanitizeToolHistory. */
module ToolOrder {
  import opened OpenAI
  import opened ToolHistory
  import opened ToolPairing

  // ---------------------------------------------------------------- nothing else moves

  /** The input with its unsound calls, empty messages and unmatched results struck out. */
  function KeptAll(json: ObjectCheck, valid: set<string>, msgs: seq<ChatMessage>): seq<ChatMessage> {
    if msgs == [] then [] else KeptAll(json, valid, msgs[..|msgs| - 1]) + Kept(json, valid, msgs[|msgs| - 1])
  }

  lemma RepairAllNext(json: ObjectCheck, valid: set<string>, answered: set<string>, msgs: seq<ChatMessage>,
                    m: ChatMessage)
    ensures RepairAll(json, valid, answered, msgs + [m]) ==
            RepairAll(json, valid, answered, msgs) + Repaired(json, valid, answered + ValidIDs(json, msgs), m)
  {
    assert (msgs + [m])[..|msgs|] == msgs;
    hide Repaired, ValidIDs;
  }

  predicate AnswersOneOf(m: ChatMessage, ids: set<string>) { m.role == Tool && m.toolCallID in ids }

  /** Strikes out the tool messages that answer one of ids. */
  function Erase(msgs: seq<ChatMessage>, ids: set<string>): seq<ChatMessage> {
    if msgs == [] then []
    else
      var m := msgs[|msgs| - 1];
      Erase(msgs[..|msgs| - 1], ids) + (if AnswersOneOf(m, ids) then [] else [m])
  }

  lemma {:induction false} EraseAppend(a: seq<ChatMessage>, b: seq<ChatMessage>, ids: set<string>)
    ensures Erase(a + b, ids) == Erase(a, ids) + Erase(b, ids)
  {
    if b == [] {
      assert a + b == a;
    } else {
      assert (a + b)[..|a + b| - 1] == a + b[..|b| - 1];
      EraseAppend(a, b[..|b| - 1], ids);
    }
  }

  lemma {:induction false} ErasePlaceholders(calls: seq<ToolCall>, answered: set<string>, ids: set<string>)
    requires IDs(calls) - answered <= ids
    ensures Erase(Placeholders(calls, answered), ids) == []
  {
    if calls != [] {
      var front, last := calls[..|calls| - 1], calls[|calls| - 1];
      assert calls == front + [last];
      IDsNext(front, last);
      var fixes, fix := Placeholders(front, answered), Placeholder(last.id);
      assert Placeholders(calls, answered) == fixes + if last.id in answered + IDs(front) then [] else [fix];
      assert last.id !in answered ==> Erase([fix], ids) == [] by { assert [fix][..0] == []; }
      hide Placeholders, Erase, IDs, Placeholder;
      ErasePlaceholders(front, answered, ids);
      EraseAppend(fixes, [fix], ids);
      assert fixes + [] == fixes;
    }
  }

  lemma EraseRepaired(json: ObjectCheck, valid: set<string>, answered: set<string>, m: ChatMessage, ids: set<string>)
    requires !AnswersOneOf(m, ids) && OwnIDs(json, m) - answered <= ids
    ensures Erase(Repaired(json, valid, answered, m), ids) == Kept(json, valid, m)
  {
    var kept := Kept(json, valid, m);
    var fixes := if m.role == Assistant then Placeholders(KeepCalls(json, m.toolCalls), answered) else [];
    if m.role == Assistant { ErasePlaceholders(KeepCalls(json, m.toolCalls), answered, ids); }
    EraseAppend(kept, fixes, ids);
    assert Erase(kept, ids) == kept by {
      if kept != [] { assert kept[..0] == [] && !AnswersOneOf(kept[0], ids); }
    }
  }

  lemma {:induction false} EraseRepairs(json: ObjectCheck, valid: set<string>, answered: set<string>,
                                        msgs: seq<ChatMessage>, ids: set<string>)
    requires forall m | m in msgs :: !AnswersOneOf(m, ids)
    requires ValidIDs(json, msgs) - answered <= ids
    ensures Erase(RepairAll(json, valid, answered, msgs), ids) == KeptAll(json, valid, msgs)
  {
    if msgs != [] {
      var front, m := msgs[..|msgs| - 1], msgs[|msgs| - 1];
      assert ValidIDs(json, msgs) == ValidIDs(json, front) + OwnIDs(json, m);
      var a, b := RepairAll(json, valid, answered, front), Repaired(json, valid, answered + ValidIDs(json, front), m);
      hide ValidIDs, OwnIDs, Repaired, Kept, Erase, AnswersOneOf;
      EraseRepairs(json, valid, answered, front, ids);
      EraseRepaired(json, valid, answered + ValidIDs(json, front), m, ids);
      EraseAppend(a, b, ids);
    }
  }

  /** Every message that is not a placeholder keeps its place: strike the placeholders' ids out of the
      result and what is left is the kept input, in order. */
  lemma OnlyPlaceholdersAreAdded(json: ObjectCheck, msgs: seq<ChatMessage>)
    ensures var valid := ValidIDs(json, msgs);
            Erase(Sanitize(json, msgs), valid - ResultIDs(msgs)) == KeptAll(json, valid, msgs)
  {
    var valid := ValidIDs(json, msgs);
    forall m | m in msgs ensures !AnswersOneOf(m, valid - ResultIDs(msgs)) {
      assert m.role == Tool ==> m.toolCallID in ResultIDs(msgs);
    }
    EraseRepairs(json, valid, ResultIDs(msgs) * valid, msgs, valid - ResultIDs(msgs));
  }

  // ---------------------------------------------------------------- placeholders sit right after their call

  /** Message i is one of the results that directly follow an assistant message calling its id. */
  ghost predicate InBlock(msgs: seq<ChatMessage>, i: nat, ids: set<string>)
    requires i < |msgs|
  {
    exists j | 0 <= j < i ::
      msgs[j].role == Assistant && msgs[i].toolCallID in IDs(msgs[j].toolCalls) &&
      forall k | j < k <= i :: AnswersOneOf(msgs[k], ids)
  }

  ghost predicate Inline(msgs: seq<ChatMessage>, ids: set<string>) {
    forall i | 0 <= i < |msgs| && AnswersOneOf(msgs[i], ids) :: InBlock(msgs, i, ids)
  }

  lemma InlineAppend(a: seq<ChatMessage>, b: seq<ChatMessage>, ids: set<string>)
    requires Inline(a, ids) && Inline(b, ids)
    ensures Inline(a + b, ids)
  {
    var all := a + b;
    forall i | 0 <= i < |all| && AnswersOneOf(all[i], ids) ensures InBlock(all, i, ids) {
      if i < |a| {
        var j :| 0 <= j < i && a[j].role == Assistant && a[i].toolCallID in IDs(a[j].toolCalls) &&
                 forall k | j < k <= i :: AnswersOneOf(a[k], ids);
        assert all[j] == a[j] && forall k | j < k <= i :: all[k] == a[k];
      } else {
        var i' := i - |a|;
        assert b[i'] == all[i];
        var j :| 0 <= j < i' && b[j].role == Assistant && b[i'].toolCallID in IDs(b[j].toolCalls) &&
                 forall k | j < k <= i' :: AnswersOneOf(b[k], ids);
        assert all[|a| + j] == b[j];
        forall k | |a| + j < k <= i ensures AnswersOneOf(all[k], ids) { assert all[k] == b[k - |a|]; }
      }
    }
  }

  lemma {:induction false} PlaceholdersAnswer(calls: seq<ToolCall>, answered: set<string>)
    ensures forall m | m in Placeholders(calls, answered) :: m.role == Tool && m.toolCallID in IDs(calls) - answered
  {
    if calls != [] {
      PlaceholdersAnswer(calls[..|calls| - 1], answered);
      IDsNext(calls[..|calls| - 1], calls[|calls| - 1]);
      assert calls == calls[..|calls| - 1] + [calls[|calls| - 1]];
    }
  }

  lemma InlineRepaired(json: ObjectCheck, valid: set<string>, answered: set<string>, m: ChatMessage, ids: set<string>)
    requires !AnswersOneOf(m, ids) && OwnIDs(json, m) - answered <= ids
    ensures Inline(Repaired(json, valid, answered, m), ids)
  {
    var r := Repaired(json, valid, answered, m);
    if m.role == Assistant {
      var calls := KeepCalls(json, m.toolCalls);
      var fixes := Placeholders(calls, answered);
      PlaceholdersAnswer(calls, answered);
      assert forall x | x in fixes :: x.toolCallID in ids;
      if Kept(json, valid, m) == [] {
        assert calls == [] && fixes == [];
      } else {
        assert r == [m.(toolCalls := calls)] + fixes;
        hide *;
        InlineBlock(m.(toolCalls := calls), fixes, ids);
      }
    }
  }

  lemma InlineBlock(m: ChatMessage, fixes: seq<ChatMessage>, ids: set<string>)
    requires m.role == Assistant
    requires forall x | x in fixes :: x.role == Tool && x.toolCallID in IDs(m.toolCalls) && x.toolCallID in ids
    ensures Inline([m] + fixes, ids)
  {
    var r := [m] + fixes;
    forall i | 0 <= i < |r| && AnswersOneOf(r[i], ids) ensures InBlock(r, i, ids) {
      forall k | 0 < k <= i ensures AnswersOneOf(r[k], ids) && r[k] in fixes { assert r[k] == fixes[k - 1]; }
      assert r[0].role == Assistant;
    }
  }

  lemma {:induction false} InlineRepairs(json: ObjectCheck, valid: set<string>, answered: set<string>,
                                         msgs: seq<ChatMessage>, ids: set<string>)
    requires forall m | m in msgs :: !AnswersOneOf(m, ids)
    requires ValidIDs(json, msgs) - answered <= ids
    ensures Inline(RepairAll(json, valid, answered, msgs), ids)
  {
    if msgs != [] {
      var front, m := msgs[..|msgs| - 1], msgs[|msgs| - 1];
      assert ValidIDs(json, msgs) == ValidIDs(json, front) + OwnIDs(json, m);
      hide ValidIDs, OwnIDs, Repaired, Inline, AnswersOneOf;
      InlineRepairs(json, valid, answered, front, ids);
      InlineRepaired(json, valid, answered + ValidIDs(json, front), m, ids);
      InlineAppend(RepairAll(json, valid, answered, front),
                   Repaired(json, valid, answered + ValidIDs(json, front), m), ids);
    }
  }

  /** Each added result sits among the results directly after the assistant message that made its call. */
  lemma PlaceholdersAreInline(json: ObjectCheck, msgs: seq<ChatMessage>)
    ensures Inline(Sanitize(json, msgs), ValidIDs(json, msgs) - ResultIDs(msgs))
  {
    var valid := ValidIDs(json, msgs);
    forall m | m in msgs ensures !AnswersOneOf(m, valid - ResultIDs(msgs)) {
      assert m.role == Tool ==> m.toolCallID in ResultIDs(msgs);
    }
    InlineRepairs(json, valid, ResultIDs(msgs) * valid, msgs, valid - ResultIDs(msgs));
  }

  // ---------------------------------------------------------------- results follow calls

  lemma {:induction false} KeptAllCalls(json: ObjectCheck, valid: set<string>, msgs: seq<ChatMessage>)
    ensures Called(Trace(KeptAll(json, valid, msgs))) == ValidIDs(json, msgs)
  {
    if msgs != [] {
      var front, m := msgs[..|msgs| - 1], msgs[|msgs| - 1];
      assert ValidIDs(json, msgs) == ValidIDs(json, front) + OwnIDs(json, m);
      hide Trace, ValidIDs, OwnIDs, Kept, KeptMarks, Called;
      KeptAllCalls(json, valid, front);
      TraceAppend(KeptAll(json, valid, front), Kept(json, valid, m));
      KeptTrace(json, valid, m);
      KeptMarksFit(json, valid, m, "");
      CalledAppend(Trace(KeptAll(json, valid, front)), KeptMarks(json, valid, m));
    }
  }

  /** Every result within marks follows a call in before or in marks. */
  predicate Follows(before: set<string>, marks: seq<Mark>) {
    forall i | 0 <= i < |marks| && marks[i].Result? :: marks[i].id in before + Called(marks[..i])
  }

  lemma RepairKeepsOrder(json: ObjectCheck, valid: set<string>, answered: set<string>, m: ChatMessage,
                         before: set<string>)
    ensures Follows(before, Trace(Repaired(json, valid, answered, m))) <==> Follows(before, KeptMarks(json, valid, m))
  {
    hide *;
    RepairedTrace(json, valid, answered, m);
    var kept := KeptMarks(json, valid, m);
    if m.role == Assistant {
      var calls := KeepCalls(json, m.toolCalls);
      AssistantMarks(json, valid, m);
      CallMarksIDs(calls, "");
      PlaceholderMarks(calls, answered, "");
      FollowsOwnCalls(before, kept, Trace(Placeholders(calls, answered)));
    } else {
      assert kept + [] == kept;
    }
  }

  lemma AssistantMarks(json: ObjectCheck, valid: set<string>, m: ChatMessage)
    requires m.role == Assistant
    ensures KeptMarks(json, valid, m) == CallMarks(KeepCalls(json, m.toolCalls))
    ensures forall i | 0 <= i < |KeptMarks(json, valid, m)| :: KeptMarks(json, valid, m)[i].Call?
  {
    hide KeepCalls;
  }

  /** Results for ids just called follow their calls. */
  lemma FollowsOwnCalls(before: set<string>, calls: seq<Mark>, fixes: seq<Mark>)
    requires (forall i | 0 <= i < |calls| :: calls[i].Call?) && Answered(fixes) <= Called(calls)
    ensures Follows(before, calls + fixes) && Follows(before, calls)
  {
    var all := calls + fixes;
    forall i | 0 <= i < |all| && all[i].Result? ensures all[i].id in before + Called(all[..i]) {
      assert i >= |calls| && all[i] == fixes[i - |calls|];
      assert all[i].id in Answered(fixes);
      assert all[..i] == calls + fixes[..i - |calls|];
      CalledAppend(calls, fixes[..i - |calls|]);
    }
  }

  lemma {:induction false} RepairsKeepOrder(json: ObjectCheck, valid: set<string>, answered: set<string>,
                                            msgs: seq<ChatMessage>)
    requires ValidIDs(json, msgs) <= valid
    ensures InOrder(Trace(RepairAll(json, valid, answered, msgs))) <==> InOrder(Trace(KeptAll(json, valid, msgs)))
  {
    if msgs != [] {
      var front, m := msgs[..|msgs| - 1], msgs[|msgs| - 1];
      var a, b := RepairAll(json, valid, answered, front), Repaired(json, valid, answered + ValidIDs(json, front), m);
      var a', b' := KeptAll(json, valid, front), Kept(json, valid, m);
      assert RepairAll(json, valid, answered, msgs) == a + b && KeptAll(json, valid, msgs) == a' + b';
      assert ValidIDs(json, front) <= ValidIDs(json, msgs);
      assert Follows(Called(Trace(a)), Trace(b)) <==>
             forall i | 0 <= i < |Trace(b)| && Trace(b)[i].Result? ::
               Trace(b)[i].id in Called(Trace(a)) + Called(Trace(b)[..i]);
      assert Follows(Called(Trace(a')), Trace(b')) <==>
             forall i | 0 <= i < |Trace(b')| && Trace(b')[i].Result? ::
               Trace(b')[i].id in Called(Trace(a')) + Called(Trace(b')[..i]);
      hide *;
      RepairsKeepOrder(json, valid, answered, front);
      RepairAllMarks(json, valid, answered, front, "");
      KeptAllCalls(json, valid, front);
      KeptTrace(json, valid, m);
      RepairKeepsOrder(json, valid, answered + ValidIDs(json, front), m, ValidIDs(json, front));
      TraceAppend(a, b);
      TraceAppend(a', b');
      InOrderAppend(Trace(a), Trace(b));
      InOrderAppend(Trace(a'), Trace(b'));
    }
  }

  /** In the result every tool result follows its call exactly when that was so among the input's
      surviving calls and results: the repair itself never puts a result first. */
  lemma OrderIsKept(json: ObjectCheck, msgs: seq<ChatMessage>)
    ensures InOrder(Trace(Sanitize(json, msgs))) <==> InOrder(Trace(KeptAll(json, ValidIDs(json, msgs), msgs)))
  {
    var valid := ValidIDs(json, msgs);
    RepairsKeepOrder(json, valid, ResultIDs(msgs) * valid, msgs);
  }

  /** No id is called by two different messages. */
  ghost predicate UniqueCalls(msgs: seq<ChatMessage>) {
    forall n | 0 <= n <= |msgs| :: Called(Trace(msgs[..n])) !! Called(Trace(msgs[n..]))
  }

  lemma {:induction false} SoundCallsAreCalls(json: ObjectCheck, calls: seq<ToolCall>)
    ensures IDs(KeepCalls(json, calls)) <= Called(CallMarks(calls))
  {
    CallMarksIDs(calls, "");
    if calls != [] {
      var front, last := calls[..|calls| - 1], calls[|calls| - 1];
      SoundCallsAreCalls(json, front);
      CallMarksIDs(front, "");
      IDsNext(front, last);
      assert calls == front + [last];
      if Sound(json, last) { IDsNext(KeepCalls(json, front), Settle(json, last)); }
    }
  }

  /** A sound call is made in the first n messages or after them. */
  lemma {:induction false} ValidSplit(json: ObjectCheck, msgs: seq<ChatMessage>, n: nat)
    requires n <= |msgs|
    ensures ValidIDs(json, msgs) <= ValidIDs(json, msgs[..n]) + Called(Trace(msgs[n..]))
  {
    hide *;
    if n == |msgs| {
      assert msgs[..n] == msgs;
    } else {
      var k := |msgs| - 1;
      var front, m := msgs[..k], msgs[k];
      ValidSplit(json, front, n);
      assert front[..n] == msgs[..n] && msgs[n..] == front[n..] + [m] && msgs == front + [m];
      TraceAppend(front[n..], [m]);
      TraceOne(m);
      ValidNext(json, front, m);
      OwnAreCalled(json, m);
      CalledAppend(Trace(front[n..]), MarksOf(m));
    }
  }

  lemma ValidNext(json: ObjectCheck, msgs: seq<ChatMessage>, m: ChatMessage)
    ensures ValidIDs(json, msgs + [m]) == ValidIDs(json, msgs) + OwnIDs(json, m)
    ensures m.role == System ==> OwnIDs(json, m) == {}
  {
    assert (msgs + [m])[..|msgs|] == msgs;
    hide KeepCalls;
  }

  lemma OwnAreCalled(json: ObjectCheck, m: ChatMessage)
    ensures OwnIDs(json, m) <= Called(MarksOf(m))
  {
    if m.role == Assistant { SoundCallsAreCalls(json, m.toolCalls); }
    hide KeepCalls, CallMarks, Called;
  }

  lemma KeptResultFollows(json: ObjectCheck, msgs: seq<ChatMessage>, k: nat)
    requires k < |msgs| && UniqueCalls(msgs) && InOrder(Trace(msgs[..k]) + MarksOf(msgs[k]))
    ensures var marks := KeptMarks(json, ValidIDs(json, msgs), msgs[k]);
            forall i | 0 <= i < |marks| && marks[i].Result? :: marks[i].id in ValidIDs(json, msgs[..k])
  {
    hide *;
    var m, valid := msgs[k], ValidIDs(json, msgs);
    ResultMarks(json, valid, m);
    if m.role == Tool {
      CalledApart(msgs, k);
      ValidSplit(json, msgs, k);
      InOrderAppend(Trace(msgs[..k]), MarksOf(m));
      assert MarksOf(m)[..0] == [];
    }
  }

  /** Only a tool message holds a result mark. */
  lemma ResultMarks(json: ObjectCheck, valid: set<string>, m: ChatMessage)
    ensures m.role != Tool ==> forall i | 0 <= i < |KeptMarks(json, valid, m)| :: !KeptMarks(json, valid, m)[i].Result?
    ensures m.role == Tool ==>
              MarksOf(m) == [Result(m.toolCallID)] && Called([]) == {} &&
              KeptMarks(json, valid, m) == if m.toolCallID in valid then [Result(m.toolCallID)] else []
  {
    hide KeepCalls;
  }

  lemma CalledApart(msgs: seq<ChatMessage>, n: nat)
    requires n <= |msgs| && UniqueCalls(msgs)
    ensures Called(Trace(msgs[..n])) !! Called(Trace(msgs[n..]))
  {
    hide Called, Trace;
  }

  lemma NothingKept(json: ObjectCheck, valid: set<string>)
    ensures InOrder(Trace(KeptAll(json, valid, [])))
  {
  }

  lemma KeptNext(json: ObjectCheck, valid: set<string>, msgs: seq<ChatMessage>)
    requires msgs != []
    ensures var front, m := msgs[..|msgs| - 1], msgs[|msgs| - 1];
            KeptAll(json, valid, msgs) == KeptAll(json, valid, front) + Kept(json, valid, m) &&
            Trace(msgs) == Trace(front) + MarksOf(m)
  {
    hide Kept, MarksOf;
  }

  lemma {:induction false} KeptInOrder(json: ObjectCheck, msgs: seq<ChatMessage>, n: nat)
    requires n <= |msgs| && UniqueCalls(msgs) && InOrder(Trace(msgs[..n]))
    ensures InOrder(Trace(KeptAll(json, ValidIDs(json, msgs), msgs[..n])))
  {
    hide *;
    var valid := ValidIDs(json, msgs);
    if n == 0 {
      NothingKept(json, valid);
      assert msgs[..n] == [];
    } else {
      var k := n - 1;
      var front, m := msgs[..k], msgs[k];
      var a, b := KeptAll(json, valid, front), Kept(json, valid, m);
      FrontOf(msgs, k);
      KeptNext(json, valid, msgs[..n]);
      InOrderAppend(Trace(front), MarksOf(m));
      KeptInOrder(json, msgs, k);
      TraceAppend(a, b);
      KeptTrace(json, valid, m);
      InOrderAppend(Trace(a), Trace(b));
      KeptAllCalls(json, valid, front);
      KeptResultFollows(json, msgs, k);
    }
  }

  /** When ids are not shared between messages and results follow calls in the input, every result
      follows its call in the output. */
  lemma ResultsFollowCalls(json: ObjectCheck, msgs: seq<ChatMessage>)
    requires UniqueCalls(msgs) && InOrder(Trace(msgs))
    ensures InOrder(Trace(Sanitize(json, msgs)))
  {
    assert msgs[..|msgs|] == msgs;
    KeptInOrder(json, msgs, |msgs|);
    OrderIsKept(json, msgs);
  }

  // ---------------------------------------------------------------- repairing twice

  lemma {:induction false} KeepCallsTwice(json: ObjectCheck, calls: seq<ToolCall>)
    ensures KeepCalls(json, KeepCalls(json, calls)) == KeepCalls(json, calls)
  {
    if calls != [] {
      var front, last := calls[..|calls| - 1], calls[|calls| - 1];
      KeepCallsTwice(json, front);
      if Sound(json, last) {
        var kept := KeepCalls(json, front);
        assert (kept + [Settle(json, last)])[..|kept|] == kept;
        assert Sound(json, Settle(json, last)) && Settle(json, Settle(json, last)) == Settle(json, last);
      } else {
        assert KeepCalls(json, front) + [] == KeepCalls(json, front);
      }
    }
  }

  /** A message that repair would leave alone. */
  predicate Clean(json: ObjectCheck, valid: set<string>, m: ChatMessage) { Kept(json, valid, m) == [m] }

  lemma KeptIsClean(json: ObjectCheck, valid: set<string>, m: ChatMessage)
    ensures forall k | k in Kept(json, valid, m) :: Clean(json, valid, k)
  {
    if m.role == Assistant { KeepCallsTwice(json, m.toolCalls); }
  }

  lemma {:induction false} RepairsAreClean(json: ObjectCheck, valid: set<string>, answered: set<string>,
                                           msgs: seq<ChatMessage>)
    requires ValidIDs(json, msgs) <= valid
    ensures forall m | m in RepairAll(json, valid, answered, msgs) :: Clean(json, valid, m)
  {
    if msgs != [] {
      var front, m := msgs[..|msgs| - 1], msgs[|msgs| - 1];
      RepairsAreClean(json, valid, answered, front);
      KeptIsClean(json, valid, m);
      if m.role == Assistant {
        PlaceholdersAnswer(KeepCalls(json, m.toolCalls), answered + ValidIDs(json, front));
      }
      assert OwnIDs(json, m) <= valid;
      forall x | x in Repaired(json, valid, answered + ValidIDs(json, front), m) ensures Clean(json, valid, x) {
        if x !in Kept(json, valid, m) { assert x.role == Tool && x.toolCallID in OwnIDs(json, m); }
      }
    }
  }

  lemma {:induction false} NothingLeftToPlace(calls: seq<ToolCall>, answered: set<string>)
    requires IDs(calls) <= answered
    ensures Placeholders(calls, answered) == []
  {
    PlaceholdersAnswer(calls, answered);
    if Placeholders(calls, answered) != [] { assert Placeholders(calls, answered)[0] in Placeholders(calls, answered); }
  }

  lemma CleanOne(json: ObjectCheck, valid: set<string>, answered: set<string>, m: ChatMessage)
    requires Clean(json, valid, m) && OwnIDs(json, m) <= answered
    ensures Repaired(json, valid, answered, m) == [m]
  {
    hide KeepCalls, Placeholders;
    if m.role == Assistant { NothingLeftToPlace(KeepCalls(json, m.toolCalls), answered); }
  }

  lemma {:induction false} CleanIsFixed(json: ObjectCheck, valid: set<string>, msgs: seq<ChatMessage>)
    requires ValidIDs(json, msgs) <= valid && forall m | m in msgs :: Clean(json, valid, m)
    ensures RepairAll(json, valid, valid, msgs) == msgs
  {
    if msgs != [] {
      hide *;
      var front, m := msgs[..|msgs| - 1], msgs[|msgs| - 1];
      assert msgs == front + [m] && m in msgs && forall x | x in front :: x in msgs;
      ValidNext(json, front, m);
      RepairAllNext(json, valid, valid, front, m);
      CleanIsFixed(json, valid, front);
      CleanOne(json, valid, valid + ValidIDs(json, front), m);
    } else {
      assert RepairAll(json, valid, valid, []) == [];
    }
  }

  /** The calls of clean messages are all sound. */
  lemma {:induction false} CleanCalls(json: ObjectCheck, valid: set<string>, msgs: seq<ChatMessage>)
    requires forall m | m in msgs :: Clean(json, valid, m)
    ensures ValidIDs(json, msgs) == Called(Trace(msgs))
  {
    if msgs != [] {
      var front, m := msgs[..|msgs| - 1], msgs[|msgs| - 1];
      CleanCalls(json, valid, front);
      assert Clean(json, valid, m);
      CalledAppend(Trace(front), MarksOf(m));
      if m.role == Assistant {
        assert KeepCalls(json, m.toolCalls) == m.toolCalls;
        CallMarksIDs(m.toolCalls, "");
      }
    }
  }

  /** Repairing a repaired history changes nothing. */
  lemma SanitizeIsIdempotent(json: ObjectCheck, msgs: seq<ChatMessage>)
    ensures Sanitize(json, Sanitize(json, msgs)) == Sanitize(json, msgs)
  {
    var valid, out := ValidIDs(json, msgs), Sanitize(json, msgs);
    RepairsAreClean(json, valid, ResultIDs(msgs) * valid, msgs);
    CleanCalls(json, valid, out);
    HistoryIsClosed(json, msgs, "");
    TraceAnswers(out);
    CleanIsFixed(json, valid, out);
    assert ResultIDs(out) * valid == valid;
  }
}
