/** What a repaired history keeps of the conversation it came from, message by message and call by call. */
module ToolSurvivors {
  import opened OpenAI
  import opened ToolHistory
  import opened ToolPairing
  import opened ToolOrder
  import opened Sorting

  // ---------------------------------------------------------------- calls

  /** A call upstreams accept: it has an id and a name, and its arguments are absent or a JSON object. */
  predicate Sendable(json: ObjectCheck, tc: ToolCall) {
    tc.id != "" && tc.function_.name != "" && (tc.function_.arguments == "" || json(tc.function_.arguments))
  }

  /** A call as it is sent: absent arguments become {}. */
  function Explicit(tc: ToolCall): ToolCall {
    if tc.function_.arguments != "" then tc else tc.(function_ := ToolCallFunction(tc.function_.name, "{}"))
  }

  /** kept holds the sendable calls, in order, each as it was but for absent arguments, which become {}. */
  ghost predicate KeepsCalls(json: ObjectCheck, calls: seq<ToolCall>, kept: seq<ToolCall>, at: seq<int>) {
    && |at| == |kept| && Increasing(at)
    && (forall i | 0 <= i < |calls| :: i in at <==> Sendable(json, calls[i]))
    && (forall k | 0 <= k < |at| :: 0 <= at[k] < |calls| && kept[k] == Explicit(calls[at[k]]))
  }

  lemma KeepsNext(json: ObjectCheck, calls: seq<ToolCall>, kept: seq<ToolCall>, at: seq<int>, tc: ToolCall)
    requires KeepsCalls(json, calls, kept, at)
    ensures KeepsCalls(json, calls + [tc], if Sendable(json, tc) then kept + [Explicit(tc)] else kept,
                       if Sendable(json, tc) then at + [|calls|] else at)
  {
    hide Sendable, Explicit;
    var next := if Sendable(json, tc) then at + [|calls|] else at;
    forall i | 0 <= i <= |calls| ensures i in next <==> Sendable(json, (calls + [tc])[i]) {
      assert i in next <==> i in at || (Sendable(json, tc) && i == |calls|);
    }
  }

  lemma KeepCallsNext(json: ObjectCheck, calls: seq<ToolCall>, tc: ToolCall)
    ensures KeepCalls(json, calls + [tc])
         == if Sendable(json, tc) then KeepCalls(json, calls) + [Explicit(tc)] else KeepCalls(json, calls)
  {
    assert (calls + [tc])[..|calls|] == calls;
  }

  lemma {:induction false} CallsKept(json: ObjectCheck, calls: seq<ToolCall>) returns (at: seq<int>)
    ensures KeepsCalls(json, calls, KeepCalls(json, calls), at)
  {
    at := [];
    if calls != [] {
      var front, last := calls[..|calls| - 1], calls[|calls| - 1];
      assert front + [last] == calls;
      hide *;
      at := CallsKept(json, front);
      KeepCallsNext(json, front, last);
      KeepsNext(json, front, KeepCalls(json, front), at, last);
      at := if Sendable(json, last) then at + [|front|] else at;
    }
  }

  lemma NoneKept(json: ObjectCheck, calls: seq<ToolCall>)
    ensures KeepCalls(json, calls) == [] <==> forall tc | tc in calls :: !Sendable(json, tc)
  {
    var at := CallsKept(json, calls);
    if at != [] { assert calls[at[0]] in calls && at[0] in at; }
    forall tc | at == [] && tc in calls ensures !Sendable(json, tc) {
      var i :| 0 <= i < |calls| && calls[i] == tc;
      assert i !in at;
    }
  }

  lemma KeptIDs(json: ObjectCheck, calls: seq<ToolCall>, id: string)
    ensures id in IDs(KeepCalls(json, calls)) <==> exists tc :: tc in calls && Sendable(json, tc) && tc.id == id
  {
    var at := CallsKept(json, calls);
    var kept := KeepCalls(json, calls);
    hide KeepCalls;
    if tc :| tc in kept && tc.id == id {
      var k :| 0 <= k < |kept| && kept[k] == tc;
      assert calls[at[k]] in calls && at[k] in at && calls[at[k]].id == id;
    }
    if tc :| tc in calls && Sendable(json, tc) && tc.id == id {
      var i :| 0 <= i < |calls| && calls[i] == tc;
      var k :| 0 <= k < |at| && at[k] == i;
      assert kept[k] in kept && kept[k].id == id;
    }
  }

  // ---------------------------------------------------------------- messages

  /** Some assistant message makes a sendable call with this id. */
  ghost predicate Calls(json: ObjectCheck, msgs: seq<ChatMessage>, id: string) {
    exists m, tc | m in msgs && tc in m.toolCalls :: m.role == Assistant && Sendable(json, tc) && tc.id == id
  }

  /** An assistant message stays for its text, its provider items or a sendable call, a tool message if its id is
      among valid, and every other message always. */
  ghost predicate Stays(json: ObjectCheck, valid: set<string>, m: ChatMessage) {
    match m.role
    case Assistant => m.content != "" || m.providerItems != [] || exists tc :: tc in m.toolCalls && Sendable(json, tc)
    case Tool => m.toolCallID in valid
    case _ => true
  }

  /** Only an assistant message changes, and only in its calls. */
  ghost predicate Unchanged(json: ObjectCheck, m: ChatMessage, out: ChatMessage) {
    if m.role == Assistant
    then out == m.(toolCalls := out.toolCalls) && exists at :: KeepsCalls(json, m.toolCalls, out.toolCalls, at)
    else out == m
  }

  /** The stand-in for a missing result. */
  ghost predicate StandsIn(missing: set<string>, out: ChatMessage) {
    out.toolCallID in missing && out == ChatMessage(Tool, INTERRUPTED, [], [], out.toolCallID, "", [])
  }

  /** out[k] is the message at[k] of msgs, or stands in for a missing result where at[k] is -1; exactly the messages
      that stay are there, each once and in order. */
  ghost predicate Derives(json: ObjectCheck, valid: set<string>, missing: set<string>, msgs: seq<ChatMessage>,
                          out: seq<ChatMessage>, at: seq<int>) {
    && |at| == |out|
    && (forall k | 0 <= k < |at| :: -1 <= at[k] < |msgs|)
    && (forall j, k | 0 <= j < k < |at| && at[k] >= 0 :: at[j] < at[k])
    && (forall i | 0 <= i < |msgs| :: i in at <==> Stays(json, valid, msgs[i]))
    && (forall k | 0 <= k < |at| ::
          if at[k] >= 0 then Unchanged(json, msgs[at[k]], out[k]) else StandsIn(missing, out[k]))
  }

  lemma KeptOne(json: ObjectCheck, valid: set<string>, m: ChatMessage)
    ensures var kept := Kept(json, valid, m);
            if Stays(json, valid, m) then |kept| == 1 && Unchanged(json, m, kept[0]) else kept == []
  {
    if m.role == Assistant {
      NoneKept(json, m.toolCalls);
      var at := CallsKept(json, m.toolCalls);
    }
  }

  lemma {:induction false} PlaceholdersStandIn(calls: seq<ToolCall>, answered: set<string>)
    ensures forall k | 0 <= k < |Placeholders(calls, answered)| ::
              StandsIn(IDs(calls) - answered, Placeholders(calls, answered)[k])
  {
    if calls != [] {
      var front, last := calls[..|calls| - 1], calls[|calls| - 1];
      PlaceholdersStandIn(front, answered);
      IDsNext(front, last);
      assert calls == front + [last];
    }
  }

  /** A message adds itself, if it stays, and then stand-ins. */
  lemma RepairedOne(json: ObjectCheck, valid: set<string>, answered: set<string>, m: ChatMessage)
    ensures var own, out := if Stays(json, valid, m) then 1 else 0, Repaired(json, valid, answered, m);
            |out| >= own && (own == 1 ==> Unchanged(json, m, out[0])) &&
            forall k | own <= k < |out| :: StandsIn(OwnIDs(json, m) - answered, out[k])
  {
    KeptOne(json, valid, m);
    if m.role == Assistant { PlaceholdersStandIn(KeepCalls(json, m.toolCalls), answered); }
    hide Stays, Unchanged, StandsIn, KeepCalls, Placeholders, Kept;
  }

  lemma DerivesNext(json: ObjectCheck, valid: set<string>, missing: set<string>, msgs: seq<ChatMessage>,
                    out: seq<ChatMessage>, at: seq<int>, m: ChatMessage, more: seq<ChatMessage>)
    returns (next: seq<int>)
    requires Derives(json, valid, missing, msgs, out, at)
    requires var own := if Stays(json, valid, m) then 1 else 0;
             |more| >= own && (own == 1 ==> Unchanged(json, m, more[0])) &&
             forall k | own <= k < |more| :: StandsIn(missing, more[k])
    ensures Derives(json, valid, missing, msgs + [m], out + more, next)
  {
    hide Stays, Unchanged, StandsIn;
    var own, n := if Stays(json, valid, m) then 1 else 0, |msgs|;
    var added := seq(|more|, k => if k < own then n else -1);
    next := at + added;
    assert n in next <==> own == 1 by {
      if own == 1 { assert added[0] == n; }
    }
    forall i | 0 <= i < n ensures i in next <==> i in at { assert forall x :: x in next <==> x in at || x in added; }
  }

  lemma StandsInMore(some: set<string>, missing: set<string>, m: ChatMessage)
    requires some <= missing && StandsIn(some, m)
    ensures StandsIn(missing, m)
  {
  }

  lemma {:induction false} RepairDerives(json: ObjectCheck, valid: set<string>, answered: set<string>,
                                         missing: set<string>, msgs: seq<ChatMessage>) returns (at: seq<int>)
    requires ValidIDs(json, msgs) - answered <= missing
    ensures Derives(json, valid, missing, msgs, RepairAll(json, valid, answered, msgs), at)
  {
    at := [];
    if msgs != [] {
      var front, m := msgs[..|msgs| - 1], msgs[|msgs| - 1];
      assert front + [m] == msgs;
      ValidNext(json, front, m);
      RepairAllNext(json, valid, answered, front, m);
      hide *;
      at := RepairDerives(json, valid, answered, missing, front);
      var before := answered + ValidIDs(json, front);
      var more := Repaired(json, valid, before, m);
      RepairedOne(json, valid, before, m);
      forall k | (if Stays(json, valid, m) then 1 else 0) <= k < |more| ensures StandsIn(missing, more[k]) {
        StandsInMore(OwnIDs(json, m) - before, missing, more[k]);
      }
      at := DerivesNext(json, valid, missing, front, RepairAll(json, valid, answered, front), at, m, more);
    }
  }

  lemma {:induction false} ValidIsCalled(json: ObjectCheck, msgs: seq<ChatMessage>, id: string)
    ensures id in ValidIDs(json, msgs) <==> Calls(json, msgs, id)
  {
    if msgs != [] {
      var front, m := msgs[..|msgs| - 1], msgs[|msgs| - 1];
      ValidIsCalled(json, front, id);
      KeptIDs(json, m.toolCalls, id);
      assert msgs == front + [m];
      assert forall x :: x in msgs <==> x in front || x == m;
      hide KeepCalls, Sendable, IDs;
    }
  }

  /** The whole repair: every message that stays is there once, unchanged but for an assistant message's unsendable
      calls, in the order of the input; everything else in the result stands in for the missing result of a sendable
      call. */
  lemma RepairKeepsTheRest(json: ObjectCheck, msgs: seq<ChatMessage>)
    returns (valid: set<string>, missing: set<string>, at: seq<int>)
    ensures forall id :: id in valid <==> Calls(json, msgs, id)
    ensures forall id :: id in missing <==> id in valid && forall m | m in msgs && m.role == Tool :: m.toolCallID != id
    ensures Derives(json, valid, missing, msgs, Sanitize(json, msgs), at)
  {
    valid := ValidIDs(json, msgs);
    missing := valid - ResultIDs(msgs);
    forall id ensures id in valid <==> Calls(json, msgs, id) { ValidIsCalled(json, msgs, id); }
    hide ValidIDs, RepairAll, Derives, Calls;
    at := RepairDerives(json, valid, ResultIDs(msgs) * valid, missing, msgs);
  }

  // ---------------------------------------------------------------- the other turns

  /** The messages that are neither an assistant's nor a tool's. */
  function Turns(msgs: seq<ChatMessage>): seq<ChatMessage> {
    if msgs == [] then []
    else
      var m := msgs[|msgs| - 1];
      Turns(msgs[..|msgs| - 1]) + if m.role == Assistant || m.role == Tool then [] else [m]
  }

  lemma {:induction false} TurnsAppend(a: seq<ChatMessage>, b: seq<ChatMessage>)
    ensures Turns(a + b) == Turns(a) + Turns(b)
  {
    if b == [] {
      assert a + b == a;
    } else {
      assert (a + b)[..|a + b| - 1] == a + b[..|b| - 1];
      TurnsAppend(a, b[..|b| - 1]);
    }
  }

  lemma {:induction false} NoTurns(msgs: seq<ChatMessage>)
    requires forall m | m in msgs :: m.role == Assistant || m.role == Tool
    ensures Turns(msgs) == []
  {
    if msgs != [] { NoTurns(msgs[..|msgs| - 1]); }
  }

  lemma RepairedTurns(json: ObjectCheck, valid: set<string>, answered: set<string>, m: ChatMessage)
    ensures Turns(Repaired(json, valid, answered, m)) == Turns([m])
  {
    var out := Repaired(json, valid, answered, m);
    assert [m][..0] == [];
    if m.role == Assistant || m.role == Tool {
      if m.role == Assistant { PlaceholdersAnswer(KeepCalls(json, m.toolCalls), answered); }
      NoTurns(out);
    } else {
      assert out == [m];
    }
  }

  lemma {:induction false} RepairKeepsTurns(json: ObjectCheck, valid: set<string>, answered: set<string>,
                                            msgs: seq<ChatMessage>)
    ensures Turns(RepairAll(json, valid, answered, msgs)) == Turns(msgs)
  {
    if msgs != [] {
      var front, m := msgs[..|msgs| - 1], msgs[|msgs| - 1];
      assert front + [m] == msgs;
      RepairAllNext(json, valid, answered, front, m);
      hide *;
      RepairKeepsTurns(json, valid, answered, front);
      RepairedTurns(json, valid, answered + ValidIDs(json, front), m);
      TurnsAppend(front, [m]);
      TurnsAppend(RepairAll(json, valid, answered, front),
                  Repaired(json, valid, answered + ValidIDs(json, front), m));
    }
  }

  /** What users and systems said goes out word for word. */
  lemma TurnsGoOut(json: ObjectCheck, msgs: seq<ChatMessage>)
    ensures Turns(Sanitize(json, msgs)) == Turns(msgs)
  {
    RepairKeepsTurns(json, ValidIDs(json, msgs), ResultIDs(msgs) * ValidIDs(json, msgs), msgs);
  }
}
