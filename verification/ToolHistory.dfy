/** Repairing a durable conversation before it is sent upstream (internal/provider/toolcalls.go). */
module ToolHistory {
  import opened Options
  import opened OpenAI

  /** Whether a text is a JSON object is left to the JSON library; {} is one. */
  type ObjectCheck = f: string -> bool | f("{}") witness (s: string) => true

  /** validToolCallArguments: an absent argument text means no arguments. */
  function ValidArguments(json: ObjectCheck, arguments: string): Option<string> {
    if arguments == "" then Some("{}") else if json(arguments) then Some(arguments) else None
  }

  /** A call fit to be sent: identified, named, with arguments that are an object. */
  predicate Sound(json: ObjectCheck, tc: ToolCall) {
    tc.id != "" && tc.function_.name != "" && ValidArguments(json, tc.function_.arguments).Some?
  }

  function Settle(json: ObjectCheck, tc: ToolCall): ToolCall
    requires Sound(json, tc)
  {
    tc.(function_ := tc.function_.(arguments := ValidArguments(json, tc.function_.arguments).value))
  }

  function KeepCalls(json: ObjectCheck, calls: seq<ToolCall>): seq<ToolCall> {
    if calls == [] then []
    else
      var last := calls[|calls| - 1];
      KeepCalls(json, calls[..|calls| - 1]) + (if Sound(json, last) then [Settle(json, last)] else [])
  }

  function IDs(calls: seq<ToolCall>): set<string> { set tc | tc in calls :: tc.id }

  /** The ids of the calls that survive. */
  function ValidIDs(json: ObjectCheck, msgs: seq<ChatMessage>): set<string> {
    if msgs == [] then {}
    else
      var m := msgs[|msgs| - 1];
      ValidIDs(json, msgs[..|msgs| - 1]) + (if m.role == Assistant then IDs(KeepCalls(json, m.toolCalls)) else {})
  }

  /** The ids that tool messages answer. */
  function ResultIDs(msgs: seq<ChatMessage>): set<string> { set m | m in msgs && m.role == Tool :: m.toolCallID }

  const INTERRUPTED :=
    "[interrupted: this tool result was not recorded \U{2014} the session was resumed after an interruption]"

  function Placeholder(id: string): ChatMessage {
    ChatMessage(Tool, INTERRUPTED, [], [], id, "", [])
  }

  /** One placeholder per id among calls that nothing has answered. */
  function Placeholders(calls: seq<ToolCall>, answered: set<string>): seq<ChatMessage> {
    if calls == [] then []
    else
      var front, id := calls[..|calls| - 1], calls[|calls| - 1].id;
      Placeholders(front, answered) + (if id in answered + IDs(front) then [] else [Placeholder(id)])
  }

  /** A message without its unsound parts; nothing if nothing is left of it. */
  function Kept(json: ObjectCheck, valid: set<string>, m: ChatMessage): seq<ChatMessage> {
    match m.role
    case Assistant =>
      var calls := KeepCalls(json, m.toolCalls);
      if m.content == "" && calls == [] && m.providerItems == [] then [] else [m.(toolCalls := calls)]
    case Tool => if m.toolCallID in valid then [m] else []
    case _ => [m]
  }

  /** A message and the placeholders that complete it. */
  function Repaired(json: ObjectCheck, valid: set<string>, answered: set<string>, m: ChatMessage): seq<ChatMessage> {
    Kept(json, valid, m) +
    (if m.role == Assistant then Placeholders(KeepCalls(json, m.toolCalls), answered) else [])
  }

  function RepairAll(json: ObjectCheck, valid: set<string>, answered: set<string>, msgs: seq<ChatMessage>)
    : seq<ChatMessage>
  {
    if msgs == [] then []
    else
      var front := msgs[..|msgs| - 1];
      RepairAll(json, valid, answered, front) +
      Repaired(json, valid, answered + ValidIDs(json, front), msgs[|msgs| - 1])
  }

  function Sanitize(json: ObjectCheck, msgs: seq<ChatMessage>): seq<ChatMessage> {
    var valid := ValidIDs(json, msgs);
    RepairAll(json, valid, ResultIDs(msgs) * valid, msgs)
  }

  // ---------------------------------------------------------------- the loops

  method SanitizeToolHistory(json: ObjectCheck, messages: seq<ChatMessage>) returns (out: seq<ChatMessage>)
    ensures out == Sanitize(json, messages)
  {
    hide KeepCalls, ValidIDs, RepairAll, Placeholders, ResultIDs, IDs;
    NoMessages(json, messages);
    var validIDs: set<string> := {};
    var filteredCalls: map<int, seq<ToolCall>> := map[];
    for i := 0 to |messages|
      invariant validIDs == ValidIDs(json, messages[..i])
      invariant Filtered(json, messages[..i], filteredCalls) && forall k | k in filteredCalls :: k < i
    {
      RepairStep(json, {}, {}, messages, i);
      var message := messages[i];
      assert messages[..i + 1][..i] == messages[..i];
      if message.role == Assistant {
        var calls := FilterCalls(json, message.toolCalls);
        if |calls| > 0 {
          filteredCalls := filteredCalls[i := calls];
        }
        validIDs := validIDs + IDs(calls);
      }
    }
    FrontOf(messages, |messages|);
    var answered := AnsweredIDs(messages, validIDs);
    ghost var answered0 := answered;
    NothingRepaired(json, validIDs, answered0, messages);
    out := [];
    for i := 0 to |messages|
      invariant answered == answered0 + ValidIDs(json, messages[..i])
      invariant out == RepairAll(json, validIDs, answered0, messages[..i])
    {
      RepairStep(json, validIDs, answered0, messages, i);
      var message := messages[i];
      match message.role {
        case Assistant =>
          var calls := Lookup(filteredCalls, i);
          assert calls == KeepCalls(json, message.toolCalls);
          if message.content == "" && |calls| == 0 && |message.providerItems| == 0 {
            NothingToRepair(json, validIDs, answered, message);
          } else {
            var repairs := RepairOrphans(calls, answered);
            out := out + ([message.(toolCalls := calls)] + repairs);
            answered := answered + IDs(calls);
          }
        case Tool =>
          if message.toolCallID in validIDs {
            out := out + [message];
          }
        case _ =>
          out := out + [message];
      }
    }
    FrontOf(messages, |messages|);
  }

  /** The filtered calls of every assistant message so far. */
  ghost predicate Filtered(json: ObjectCheck, messages: seq<ChatMessage>, filtered: map<int, seq<ToolCall>>) {
    forall i | 0 <= i < |messages| && messages[i].role == Assistant ::
      Lookup(filtered, i) == KeepCalls(json, messages[i].toolCalls)
  }

  function Lookup(filtered: map<int, seq<ToolCall>>, i: int): seq<ToolCall> {
    if i in filtered then filtered[i] else []
  }

  lemma NoMessages(json: ObjectCheck, msgs: seq<ChatMessage>)
    ensures ValidIDs(json, msgs[..0]) == {}
  {
  }

  lemma NothingRepaired(json: ObjectCheck, valid: set<string>, answered: set<string>, msgs: seq<ChatMessage>)
    ensures ValidIDs(json, msgs[..0]) == {} && RepairAll(json, valid, answered, msgs[..0]) == []
  {
  }

  lemma NothingToRepair(json: ObjectCheck, valid: set<string>, answered: set<string>, m: ChatMessage)
    requires m.role == Assistant && m.content == "" && KeepCalls(json, m.toolCalls) == [] && m.providerItems == []
    ensures Repaired(json, valid, answered, m) == [] && IDs(KeepCalls(json, m.toolCalls)) == {}
  {
  }

  lemma RepairStep(json: ObjectCheck, valid: set<string>, answered: set<string>, msgs: seq<ChatMessage>, i: nat)
    requires i < |msgs|
    ensures ValidIDs(json, msgs[..i + 1]) ==
            ValidIDs(json, msgs[..i]) +
            (if msgs[i].role == Assistant then IDs(KeepCalls(json, msgs[i].toolCalls)) else {})
    ensures RepairAll(json, valid, answered, msgs[..i + 1]) ==
            RepairAll(json, valid, answered, msgs[..i])
            + Repaired(json, valid, answered + ValidIDs(json, msgs[..i]), msgs[i])
  {
    FrontOf(msgs, i);
  }

  lemma FrontOf<T>(s: seq<T>, i: nat)
    requires i <= |s|
    ensures i < |s| ==> s[..i + 1][..i] == s[..i] && s[..i + 1][i] == s[i]
    ensures i == |s| ==> s[..i] == s
  {
  }

  method FilterCalls(json: ObjectCheck, calls: seq<ToolCall>) returns (kept: seq<ToolCall>)
    ensures kept == KeepCalls(json, calls)
  {
    kept := [];
    for i := 0 to |calls|
      invariant kept == KeepCalls(json, calls[..i])
    {
      FrontOf(calls, i);
      var tc := calls[i];
      var args := ValidArguments(json, tc.function_.arguments);
      if tc.id == "" || tc.function_.name == "" || args.None? {
        continue;
      }
      kept := kept + [tc.(function_ := tc.function_.(arguments := args.value))];
    }
    FrontOf(calls, |calls|);
  }

  method AnsweredIDs(messages: seq<ChatMessage>, validIDs: set<string>) returns (answered: set<string>)
    ensures answered == ResultIDs(messages) * validIDs
  {
    answered := {};
    for i := 0 to |messages|
      invariant answered == ResultIDs(messages[..i]) * validIDs
    {
      FrontOf(messages, i);
      ResultIDsNext(messages[..i], messages[i]);
      assert messages[..i + 1] == messages[..i] + [messages[i]];
      if messages[i].role == Tool && messages[i].toolCallID in validIDs {
        answered := answered + {messages[i].toolCallID};
      }
    }
    FrontOf(messages, |messages|);
  }

  lemma ResultIDsNext(msgs: seq<ChatMessage>, m: ChatMessage)
    ensures ResultIDs(msgs + [m]) == ResultIDs(msgs) + (if m.role == Tool then {m.toolCallID} else {})
  {
    var all := msgs + [m];
    assert forall x :: x in all <==> x in msgs || x == m;
    var own := if m.role == Tool then {m.toolCallID} else {};
    forall id ensures id in ResultIDs(all) <==> id in ResultIDs(msgs) + own {
      if id in ResultIDs(msgs) {
        var x :| x in msgs && x.role == Tool && x.toolCallID == id;
        assert x in all;
      }
      if m.role == Tool && id == m.toolCallID { assert m in all; }
    }
  }

  method RepairOrphans(calls: seq<ToolCall>, answered0: set<string>) returns (out: seq<ChatMessage>)
    ensures out == Placeholders(calls, answered0)
  {
    var answered := answered0;
    out := [];
    for i := 0 to |calls|
      invariant answered == answered0 + IDs(calls[..i])
      invariant out == Placeholders(calls[..i], answered0)
    {
      FrontOf(calls, i);
      var tc := calls[i];
      assert forall x :: x in calls[..i + 1] <==> x in calls[..i] || x == tc;
      if tc.id in answered {
        assert answered == answered0 + IDs(calls[..i + 1]);
        continue;
      }
      out := out + [Placeholder(tc.id)];
      answered := answered + {tc.id};
      assert answered == answered0 + IDs(calls[..i + 1]);
    }
    FrontOf(calls, |calls|);
  }
}
