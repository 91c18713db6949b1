/** Translating a repaired history to the wire formats (internal/provider/openai_compat.go,
    internal/provider/anthropic.go, internal/provider/openai_responses.go). */
module Translation {
  import opened Options
  import opened OpenAI
  import opened Text
  import opened ToolHistory
  import opened ToolPairing
  import opened ToolOrder

  // ---------------------------------------------------------------- one leading system message

  function Systems(msgs: seq<ChatMessage>): seq<ChatMessage> {
    if msgs == [] then []
    else Systems(msgs[..|msgs| - 1]) + (if msgs[|msgs| - 1].role == System then [msgs[|msgs| - 1]] else [])
  }

  function Others(msgs: seq<ChatMessage>): seq<ChatMessage> {
    if msgs == [] then []
    else Others(msgs[..|msgs| - 1]) + (if msgs[|msgs| - 1].role == System then [] else [msgs[|msgs| - 1]])
  }

  const BREAK := "\n\n"

  function Contents(systems: seq<ChatMessage>): seq<string> {
    if systems == [] then []
    else
      var c := systems[|systems| - 1].content;
      Contents(systems[..|systems| - 1]) + (if c != "" then [c] else [])
  }

  /** The first system message speaking for all of them. */
  function Merged(systems: seq<ChatMessage>): seq<ChatMessage> {
    if systems == [] then [] else [systems[0].(content := Join(Contents(systems), BREAK))]
  }

  /** Every system instruction as one leading message, everything else in order behind it. */
  function Normalized(msgs: seq<ChatMessage>): seq<ChatMessage> { Merged(Systems(msgs)) + Others(msgs) }

  method NormalizeOpenAICompatMessages(messages: seq<ChatMessage>) returns (out: seq<ChatMessage>)
    ensures out == Normalized(messages)
  {
    hide Systems, Others, Contents, Join, Normalized;
    FilterStart(messages);
    var firstSystem, systemCount := -1, 0;
    for i := 0 to |messages|
      invariant systemCount == |Systems(messages[..i])| && (firstSystem < 0 <==> systemCount == 0)
      invariant firstSystem >= 0 ==> firstSystem < i && messages[firstSystem] == Systems(messages[..i])[0]
      invariant firstSystem >= 0 ==> messages[firstSystem].role == System
    {
      FilterStep(messages, i);
      if messages[i].role == System {
        if firstSystem < 0 {
          firstSystem := i;
        }
        systemCount := systemCount + 1;
      }
    }
    FrontOf(messages, |messages|);
    if systemCount == 0 || (systemCount == 1 && firstSystem == 0) {
      AlreadyNormal(messages);
      return messages;
    }
    var merged := messages[firstSystem];
    var parts: seq<string>, nonSystem: seq<ChatMessage> := [], [];
    for i := 0 to |messages|
      invariant parts == Contents(Systems(messages[..i])) && nonSystem == Others(messages[..i])
    {
      FilterStep(messages, i);
      var msg := messages[i];
      if msg.role == System {
        ContentsNext(Systems(messages[..i]), msg);
        if msg.content != "" {
          parts := parts + [msg.content];
        }
        continue;
      }
      nonSystem := nonSystem + [msg];
    }
    FrontOf(messages, |messages|);
    merged := merged.(content := Join(parts, BREAK));
    out := [merged] + nonSystem;
    NormalForm(messages);
  }

  lemma NormalForm(msgs: seq<ChatMessage>)
    requires Systems(msgs) != []
    ensures Normalized(msgs) == [Systems(msgs)[0].(content := Join(Contents(Systems(msgs)), BREAK))] + Others(msgs)
  {
  }

  lemma FilterStart(msgs: seq<ChatMessage>)
    ensures Systems(msgs[..0]) == [] && Others(msgs[..0]) == [] && Contents([]) == []
  {
  }

  lemma FilterStep(msgs: seq<ChatMessage>, i: nat)
    requires i < |msgs|
    ensures Systems(msgs[..i + 1])
            == if msgs[i].role == System then Systems(msgs[..i]) + [msgs[i]] else Systems(msgs[..i])
    ensures Others(msgs[..i + 1]) == if msgs[i].role == System then Others(msgs[..i]) else Others(msgs[..i]) + [msgs[i]]
  {
    FrontOf(msgs, i);
  }

  lemma ContentsNext(systems: seq<ChatMessage>, m: ChatMessage)
    ensures Contents(systems + [m]) == Contents(systems) + (if m.content != "" then [m.content] else [])
  {
    assert (systems + [m])[..|systems|] == systems;
  }

  /** With no system message, or a single leading one, there is nothing to merge. */
  lemma AlreadyNormal(msgs: seq<ChatMessage>)
    requires Systems(msgs) == [] || (|Systems(msgs)| == 1 && msgs != [] && msgs[0].role == System)
    ensures Normalized(msgs) == msgs
  {
    hide Systems, Others;
    if Systems(msgs) == [] {
      NoSystems(msgs);
    } else {
      assert msgs == [msgs[0]] + msgs[1..];
      SystemsAppend([msgs[0]], msgs[1..]);
      SystemsOne(msgs[0]);
      assert Systems(msgs[1..]) == [];
      NoSystems(msgs[1..]);
      MergeOne(msgs[0]);
      assert Systems(msgs) == [msgs[0]];
    }
  }

  lemma MergeOne(m: ChatMessage)
    ensures Merged([m]) == [m]
  {
    assert [m][..0] == [];
    assert Contents([m]) == if m.content != "" then [m.content] else [];
  }

  lemma {:induction false} NoSystems(msgs: seq<ChatMessage>)
    requires Systems(msgs) == []
    ensures Others(msgs) == msgs
  {
    hide *;
    if msgs == [] {
      NoneSystem(msgs);
    } else {
      FilterStep(msgs, |msgs| - 1);
      FrontOf(msgs, |msgs|);
      NoSystems(msgs[..|msgs| - 1]);
    }
  }

  lemma SystemsOne(m: ChatMessage)
    ensures Systems([m]) == (if m.role == System then [m] else []) &&
            Others([m]) == (if m.role == System then [] else [m])
  {
    assert [m][..0] == [];
  }

  lemma {:induction false} SystemsAppend(a: seq<ChatMessage>, b: seq<ChatMessage>)
    ensures Systems(a + b) == Systems(a) + Systems(b) && Others(a + b) == Others(a) + Others(b)
  {
    if b == [] {
      assert a + b == a;
    } else {
      assert (a + b)[..|a + b| - 1] == a + b[..|b| - 1];
      SystemsAppend(a, b[..|b| - 1]);
    }
  }

  lemma {:induction false} FilterRoles(msgs: seq<ChatMessage>)
    ensures forall m | m in Systems(msgs) :: m.role == System
    ensures forall m | m in Others(msgs) :: m.role != System
  {
    if msgs != [] { FilterRoles(msgs[..|msgs| - 1]); }
  }

  lemma {:induction false} NoneSystem(msgs: seq<ChatMessage>)
    requires forall m | m in msgs :: m.role != System
    ensures Systems(msgs) == [] && Others(msgs) == msgs
  {
    if msgs != [] { NoneSystem(msgs[..|msgs| - 1]); }
  }

  /** The result has at most one system message, in first place; the rest of the conversation is untouched. */
  lemma NormalizedShape(msgs: seq<ChatMessage>)
    ensures var out := Normalized(msgs);
            (forall i | 0 < i < |out| :: out[i].role != System) && Others(out) == Others(msgs) &&
            (Systems(msgs) != [] <==> out != [] && out[0].role == System)
  {
    hide Systems, Others, Contents, Join;
    FilterRoles(msgs);
    NoneSystem(Others(msgs));
    NoneSystem([]);
    var m := Merged(Systems(msgs));
    SystemsAppend(m, Others(msgs));
    if m != [] {
      assert Systems(msgs)[0].role == System;
      SystemsOne(m[0]);
    }
    var out := Normalized(msgs);
    forall i | 0 < i < |out| ensures out[i].role != System { assert out[i] in Others(msgs); }
    if out != [] && m == [] { assert out[0] in Others(msgs); }
  }

  // ---------------------------------------------------------------- merging and repairing commute

  lemma {:induction false} ValidIgnoresSystems(json: ObjectCheck, msgs: seq<ChatMessage>)
    ensures ValidIDs(json, Others(msgs)) == ValidIDs(json, msgs)
    ensures ResultIDs(Others(msgs)) == ResultIDs(msgs)
  {
    if msgs != [] {
      var front, m := msgs[..|msgs| - 1], msgs[|msgs| - 1];
      assert msgs == front + [m];
      ValidNext(json, front, m);
      ValidNext(json, Others(front), m);
      FilterStep(msgs, |msgs| - 1);
      FrontOf(msgs, |msgs|);
      hide Others, ValidIDs, ResultIDs, OwnIDs;
      ValidIgnoresSystems(json, front);
      ResultIDsNext(front, m);
      ResultIDsNext(Others(front), m);
    }
  }

  /** Repair passes system messages through and treats the others as if they were alone. */
  lemma {:induction false} RepairIgnoresSystems(json: ObjectCheck, valid: set<string>, answered: set<string>,
                                                msgs: seq<ChatMessage>)
    ensures var out := RepairAll(json, valid, answered, msgs);
            Systems(out) == Systems(msgs) && Others(out) == RepairAll(json, valid, answered, Others(msgs))
  {
    if msgs != [] {
      var front, m := msgs[..|msgs| - 1], msgs[|msgs| - 1];
      var others := Others(front);
      var a, b := RepairAll(json, valid, answered, front), Repaired(json, valid, answered + ValidIDs(json, front), m);
      assert RepairAll(json, valid, answered, msgs) == a + b;
      assert Systems(msgs) == Systems(front) + (if m.role == System then [m] else []);
      assert Others(msgs) == others + (if m.role == System then [] else [m]);
      RepairedSystems(json, valid, answered + ValidIDs(json, front), m);
      RepairAllNext(json, valid, answered, others, m);
      hide *;
      RepairIgnoresSystems(json, valid, answered, front);
      ValidIgnoresSystems(json, front);
      SystemsAppend(a, b);
      if m.role == System {
        assert others + [] == others;
        assert Others(a) + [] == Others(a);
      } else {
        assert Systems(a) + [] == Systems(a);
      }
    }
  }

  lemma RepairedSystems(json: ObjectCheck, valid: set<string>, answered: set<string>, m: ChatMessage)
    ensures var b := Repaired(json, valid, answered, m);
            if m.role == System then b == [m] && Systems(b) == [m] && Others(b) == []
            else Systems(b) == [] && Others(b) == b
  {
    var b := Repaired(json, valid, answered, m);
    if m.role == System {
      SystemsOne(m);
    } else {
      if m.role == Assistant { PlaceholdersAnswer(KeepCalls(json, m.toolCalls), answered); }
      forall x | x in b ensures x.role != System {}
      NoneSystem(b);
    }
  }

  lemma {:induction false} RepairBehindSystem(json: ObjectCheck, valid: set<string>, answered: set<string>,
                                              s: seq<ChatMessage>, msgs: seq<ChatMessage>)
    requires |s| <= 1 && forall m | m in s :: m.role == System
    ensures ValidIDs(json, s + msgs) == ValidIDs(json, msgs)
    ensures RepairAll(json, valid, answered, s + msgs) == s + RepairAll(json, valid, answered, msgs)
  {
    hide *;
    if msgs == [] {
      assert s + msgs == s;
      RepairSystem(json, valid, answered, s);
    } else {
      var front, m := msgs[..|msgs| - 1], msgs[|msgs| - 1];
      assert (s + front) + [m] == s + msgs && front + [m] == msgs;
      RepairBehindSystem(json, valid, answered, s, front);
      ValidNext(json, front, m);
      ValidNext(json, s + front, m);
      RepairAllNext(json, valid, answered, front, m);
      RepairAllNext(json, valid, answered, s + front, m);
    }
  }

  lemma RepairSystem(json: ObjectCheck, valid: set<string>, answered: set<string>, s: seq<ChatMessage>)
    requires |s| <= 1 && forall m | m in s :: m.role == System
    ensures ValidIDs(json, []) == {} && RepairAll(json, valid, answered, []) == []
    ensures ValidIDs(json, s) == {} && RepairAll(json, valid, answered, s) == s
  {
    if s != [] { assert s[..0] == [] && s[0] in s; }
  }

  /** Merging the system messages and repairing the tool history may be done in either order. */
  lemma NormalizeAndSanitizeCommute(json: ObjectCheck, msgs: seq<ChatMessage>)
    ensures Normalized(Sanitize(json, msgs)) == Sanitize(json, Normalized(msgs))
  {
    var s, others := Merged(Systems(msgs)), Others(msgs);
    var valid, answered := ValidIDs(json, msgs), ResultIDs(msgs) * ValidIDs(json, msgs);
    FilterRoles(msgs);
    assert forall m | m in s :: m.role == System by { assert s != [] ==> Systems(msgs)[0].role == System; }
    hide Systems, Others, Merged, ValidIDs, ResultIDs, RepairAll;
    RepairIgnoresSystems(json, valid, answered, msgs);
    NormalizedShape(msgs);
    ValidIgnoresSystems(json, msgs);
    ValidIgnoresSystems(json, Normalized(msgs));
    MergedSize(msgs);
    RepairBehindSystem(json, valid, answered, s, others);
  }

  lemma MergedSize(msgs: seq<ChatMessage>)
    ensures |Merged(Systems(msgs))| <= 1
  {
  }

  // ---------------------------------------------------------------- Anthropic

  datatype Image = Image(mediaType: string, data: string)

  datatype Block =
    | TextBlock(text: string)
    | ImageBlock(source: Image)
    | ToolUse(id: string, name: string, input: string)
    | ToolResult(toolUseID: string, content: string)

  datatype AnthropicMessage = AnthropicMessage(role: Role, blocks: seq<Block>)

  /** Whether a URL is a decodable base64 data URL is left to the base64 library. */
  type ImageParser = string -> Option<Image>

  /** The prompt separator both native adapters put between system texts. */
  function AddSystem(system: string, content: string): string {
    (if system != "" then system + "\n\n---\n\n" else system) + content
  }

  function ToolUseOf(tc: ToolCall): Block {
    ToolUse(tc.id, tc.function_.name, if tc.function_.arguments == "" then "{}" else tc.function_.arguments)
  }

  function ToolUses(calls: seq<ToolCall>): seq<Block> {
    seq(|calls|, i requires 0 <= i < |calls| => ToolUseOf(calls[i]))
  }

  function ImageBlocks(parse: ImageParser, images: seq<string>): seq<Block> {
    if images == [] then []
    else
      var src := parse(images[|images| - 1]);
      ImageBlocks(parse, images[..|images| - 1]) + (if src.Some? then [ImageBlock(src.value)] else [])
  }

  function AnthropicOne(parse: ImageParser, m: ChatMessage): seq<AnthropicMessage> {
    match m.role
    case System => []
    case Tool => [AnthropicMessage(User, [ToolResult(m.toolCallID, m.content)])]
    case Assistant =>
      [AnthropicMessage(Assistant, (if m.content != "" then [TextBlock(m.content)] else []) + ToolUses(m.toolCalls))]
    case _ => [AnthropicMessage(m.role, [TextBlock(m.content)] + ImageBlocks(parse, m.images))]
  }

  function SystemText(msgs: seq<ChatMessage>): string {
    if msgs == [] then ""
    else
      var m := msgs[|msgs| - 1];
      var before := SystemText(msgs[..|msgs| - 1]);
      if m.role == System then AddSystem(before, m.content) else before
  }

  function AnthropicOf(parse: ImageParser, msgs: seq<ChatMessage>): seq<AnthropicMessage> {
    if msgs == [] then []
    else AnthropicOf(parse, msgs[..|msgs| - 1]) + AnthropicOne(parse, msgs[|msgs| - 1])
  }

  lemma AnthropicStep(parse: ImageParser, msgs: seq<ChatMessage>, i: nat)
    requires i < |msgs|
    ensures SystemText(msgs[..0]) == "" && AnthropicOf(parse, msgs[..0]) == [] && ResponsesOf(msgs[..0]) == []
    ensures AnthropicOf(parse, msgs[..i + 1]) == AnthropicOf(parse, msgs[..i]) + AnthropicOne(parse, msgs[i])
    ensures ResponsesOf(msgs[..i + 1]) == ResponsesOf(msgs[..i]) + ResponsesOne(msgs[i])
    ensures SystemText(msgs[..i + 1]) ==
            if msgs[i].role == System then AddSystem(SystemText(msgs[..i]), msgs[i].content) else SystemText(msgs[..i])
  {
    FrontOf(msgs, i);
  }

  method BuildAnthropicMessages(parse: ImageParser, msgs: seq<ChatMessage>)
    returns (system: string, out: seq<AnthropicMessage>)
    ensures system == SystemText(msgs) && out == AnthropicOf(parse, msgs)
  {
    hide ImageBlocks, ToolUses;
    system, out := "", [];
    for i := 0 to |msgs|
      invariant system == SystemText(msgs[..i]) && out == AnthropicOf(parse, msgs[..i])
    {
      AnthropicStep(parse, msgs, i);
      hide SystemText, AnthropicOf;
      var m := msgs[i];
      match m.role {
        case System =>
          if system != "" {
            system := system + "\n\n---\n\n";
          }
          system := system + m.content;
        case Tool =>
          out := out + [AnthropicMessage(User, [ToolResult(m.toolCallID, m.content)])];
        case Assistant =>
          var blocks := AssistantBlocks(m);
          out := out + [AnthropicMessage(Assistant, blocks)];
        case _ =>
          var blocks := UserBlocks(parse, m);
          out := out + [AnthropicMessage(m.role, blocks)];
      }
    }
    FrontOf(msgs, |msgs|);
  }

  method AssistantBlocks(m: ChatMessage) returns (blocks: seq<Block>)
    ensures blocks == (if m.content != "" then [TextBlock(m.content)] else []) + ToolUses(m.toolCalls)
  {
    blocks := [];
    if m.content != "" {
      blocks := blocks + [TextBlock(m.content)];
    }
    ghost var text := blocks;
    for k := 0 to |m.toolCalls|
      invariant blocks == text + ToolUses(m.toolCalls)[..k]
    {
      var input := m.toolCalls[k].function_.arguments;
      if |input| == 0 {
        input := "{}";
      }
      blocks := blocks + [ToolUse(m.toolCalls[k].id, m.toolCalls[k].function_.name, input)];
    }
    assert ToolUses(m.toolCalls)[..|m.toolCalls|] == ToolUses(m.toolCalls);
  }

  method UserBlocks(parse: ImageParser, m: ChatMessage) returns (blocks: seq<Block>)
    ensures blocks == [TextBlock(m.content)] + ImageBlocks(parse, m.images)
  {
    blocks := [TextBlock(m.content)];
    for k := 0 to |m.images|
      invariant blocks == [TextBlock(m.content)] + ImageBlocks(parse, m.images[..k])
    {
      FrontOf(m.images, k);
      var src := parse(m.images[k]);
      if src.Some? {
        blocks := blocks + [ImageBlock(src.value)];
      }
    }
    FrontOf(m.images, |m.images|);
  }

  function BlockMarks(blocks: seq<Block>): seq<Mark> {
    if blocks == [] then []
    else BlockMarks(blocks[..|blocks| - 1]) +
         match blocks[|blocks| - 1] {
           case ToolUse(id, name, input) => [Call(id, name, input)]
           case ToolResult(id, _) => [Result(id)]
           case _ => []
         }
  }

  function AnthropicTrace(msgs: seq<AnthropicMessage>): seq<Mark> {
    if msgs == [] then [] else AnthropicTrace(msgs[..|msgs| - 1]) + BlockMarks(msgs[|msgs| - 1].blocks)
  }

  lemma {:induction false} BlockMarksAppend(a: seq<Block>, b: seq<Block>)
    ensures BlockMarks(a + b) == BlockMarks(a) + BlockMarks(b)
  {
    if b == [] {
      assert a + b == a;
    } else {
      assert (a + b)[..|a + b| - 1] == a + b[..|b| - 1];
      BlockMarksAppend(a, b[..|b| - 1]);
    }
  }

  lemma {:induction false} ToolUseMarks(calls: seq<ToolCall>)
    requires forall c | c in calls :: c.function_.arguments != ""
    ensures BlockMarks(ToolUses(calls)) == CallMarks(calls)
  {
    if calls != [] {
      var n := |calls| - 1;
      ToolUseMarks(calls[..n]);
      assert ToolUses(calls)[..n] == ToolUses(calls[..n]);
      assert calls[n] in calls && CallMarks(calls) == CallMarks(calls[..n]) + CallMarks([calls[n]]);
    }
  }

  lemma {:induction false} ImagesHaveNoMarks(parse: ImageParser, images: seq<string>)
    ensures BlockMarks(ImageBlocks(parse, images)) == []
  {
    if images != [] {
      var n := |images| - 1;
      ImagesHaveNoMarks(parse, images[..n]);
      var more := ImageBlocks(parse, images)[|ImageBlocks(parse, images[..n])|..];
      BlockMarksAppend(ImageBlocks(parse, images[..n]), more);
      assert more == [] || (|more| == 1 && more[..0] == []);
    }
  }

  /** Arguments are spelled out in every call of an assistant message. */
  predicate Explicit(m: ChatMessage) {
    m.role == Assistant ==> forall c | c in m.toolCalls :: c.function_.arguments != ""
  }

  lemma AnthropicMarks(parse: ImageParser, m: ChatMessage)
    requires Explicit(m)
    ensures AnthropicTrace(AnthropicOne(parse, m)) == MarksOf(m)
  {
    var out := AnthropicOne(parse, m);
    if out != [] {
      assert |out| == 1 && out[..0] == [];
      assert AnthropicTrace(out) == BlockMarks(out[0].blocks);
    }
    match m.role {
      case System =>
      case Tool => assert out[0].blocks[..0] == [];
      case Assistant =>
        var text := if m.content != "" then [TextBlock(m.content)] else [];
        assert text != [] ==> text[..0] == [];
        assert BlockMarks(text) == [];
        ToolUseMarks(m.toolCalls);
        BlockMarksAppend(text, ToolUses(m.toolCalls));
        assert out[0].blocks == text + ToolUses(m.toolCalls);
      case _ =>
        ImagesHaveNoMarks(parse, m.images);
        BlockMarksAppend([TextBlock(m.content)], ImageBlocks(parse, m.images));
        assert [TextBlock(m.content)][..0] == [];
        assert BlockMarks([TextBlock(m.content)]) == [];
    }
  }

  lemma {:induction false} AnthropicKeepsTrace(parse: ImageParser, msgs: seq<ChatMessage>)
    requires forall m | m in msgs :: Explicit(m)
    ensures AnthropicTrace(AnthropicOf(parse, msgs)) == Trace(msgs)
  {
    if msgs != [] {
      var front, m := msgs[..|msgs| - 1], msgs[|msgs| - 1];
      AnthropicKeepsTrace(parse, front);
      assert m in msgs && Explicit(m);
      AnthropicMarks(parse, m);
      AnthropicTraceAppend(AnthropicOf(parse, front), AnthropicOne(parse, m));
      hide BlockMarks, AnthropicTrace, MarksOf, AnthropicOne;
    }
  }

  lemma AnthropicTraceNext(msgs: seq<AnthropicMessage>, m: AnthropicMessage)
    ensures AnthropicTrace(msgs + [m]) == AnthropicTrace(msgs) + BlockMarks(m.blocks)
  {
    assert (msgs + [m])[..|msgs|] == msgs;
    hide BlockMarks;
  }

  lemma {:induction false} AnthropicTraceAppend(a: seq<AnthropicMessage>, b: seq<AnthropicMessage>)
    ensures AnthropicTrace(a + b) == AnthropicTrace(a) + AnthropicTrace(b)
  {
    if b == [] {
      assert a + b == a;
    } else {
      var front, last := b[..|b| - 1], b[|b| - 1];
      assert b == front + [last] && a + b == a + front + [last];
      AnthropicTraceNext(a + front, last);
      AnthropicTraceNext(front, last);
      hide *;
      AnthropicTraceAppend(a, front);
    }
  }

  // ---------------------------------------------------------------- Responses

  datatype Item =
    | Message(role: Role, text: string)
    | FunctionCall(callID: string, name: string, arguments: string)
    | FunctionOutput(callID: string, output: string)
    | ReasoningItem(item: ProviderItem)

  function FunctionCalls(calls: seq<ToolCall>): seq<Item> {
    seq(|calls|, i requires 0 <= i < |calls| =>
      FunctionCall(calls[i].id, calls[i].function_.name, calls[i].function_.arguments))
  }

  /** Only encrypted reasoning is replayed. */
  function ReasoningItems(items: seq<ProviderItem>): seq<Item> {
    if items == [] then []
    else
      var it := items[|items| - 1];
      ReasoningItems(items[..|items| - 1]) +
      (if it.kind == "reasoning" && it.encrypted != "" then [ReasoningItem(it)] else [])
  }

  function ResponsesOne(m: ChatMessage): seq<Item> {
    match m.role
    case System => []
    case Tool => [FunctionOutput(m.toolCallID, m.content)]
    case Assistant =>
      ReasoningItems(m.providerItems) + (if m.content != "" then [Message(Assistant, m.content)] else [])
      + FunctionCalls(m.toolCalls)
    case _ => [Message(m.role, m.content)]
  }

  function ResponsesOf(msgs: seq<ChatMessage>): seq<Item> {
    if msgs == [] then [] else ResponsesOf(msgs[..|msgs| - 1]) + ResponsesOne(msgs[|msgs| - 1])
  }

  method BuildResponsesInput(msgs: seq<ChatMessage>) returns (instructions: string, out: seq<Item>)
    ensures instructions == SystemText(msgs) && out == ResponsesOf(msgs)
  {
    hide ReasoningItems, FunctionCalls;
    instructions, out := "", [];
    for i := 0 to |msgs|
      invariant instructions == SystemText(msgs[..i]) && out == ResponsesOf(msgs[..i])
    {
      AnthropicStep(_ => None, msgs, i);
      hide SystemText, ResponsesOf;
      var m := msgs[i];
      match m.role {
        case System =>
          if instructions != "" {
            instructions := instructions + "\n\n---\n\n";
          }
          instructions := instructions + m.content;
        case Tool =>
          out := out + [FunctionOutput(m.toolCallID, m.content)];
        case Assistant =>
          var items := AssistantItems(m);
          out := out + items;
        case _ =>
          out := out + [Message(m.role, m.content)];
      }
    }
    FrontOf(msgs, |msgs|);
  }

  method AssistantItems(m: ChatMessage) returns (out: seq<Item>)
    requires m.role == Assistant
    ensures out == ResponsesOne(m)
  {
    out := [];
    for k := 0 to |m.providerItems|
      invariant out == ReasoningItems(m.providerItems[..k])
    {
      FrontOf(m.providerItems, k);
      var item := m.providerItems[k];
      if item.kind == "reasoning" && item.encrypted != "" {
        out := out + [ReasoningItem(item)];
      }
    }
    FrontOf(m.providerItems, |m.providerItems|);
    if m.content != "" {
      out := out + [Message(Assistant, m.content)];
    }
    ghost var text := out;
    for k := 0 to |m.toolCalls|
      invariant out == text + FunctionCalls(m.toolCalls)[..k]
    {
      var tc := m.toolCalls[k];
      out := out + [FunctionCall(tc.id, tc.function_.name, tc.function_.arguments)];
    }
    assert FunctionCalls(m.toolCalls)[..|m.toolCalls|] == FunctionCalls(m.toolCalls);
  }

  function ItemMarks(items: seq<Item>): seq<Mark> {
    if items == [] then []
    else ItemMarks(items[..|items| - 1]) +
         match items[|items| - 1] {
           case FunctionCall(id, name, arguments) => [Call(id, name, arguments)]
           case FunctionOutput(id, _) => [Result(id)]
           case _ => []
         }
  }

  lemma {:induction false} ItemMarksAppend(a: seq<Item>, b: seq<Item>)
    ensures ItemMarks(a + b) == ItemMarks(a) + ItemMarks(b)
  {
    if b == [] {
      assert a + b == a;
    } else {
      assert (a + b)[..|a + b| - 1] == a + b[..|b| - 1];
      ItemMarksAppend(a, b[..|b| - 1]);
    }
  }

  lemma {:induction false} FunctionCallMarks(calls: seq<ToolCall>)
    ensures ItemMarks(FunctionCalls(calls)) == CallMarks(calls)
  {
    if calls != [] {
      var n := |calls| - 1;
      FunctionCallMarks(calls[..n]);
      assert FunctionCalls(calls)[..n] == FunctionCalls(calls[..n]);
      assert CallMarks(calls) == CallMarks(calls[..n]) + CallMarks([calls[n]]);
    }
  }

  lemma {:induction false} ReasoningHasNoMarks(items: seq<ProviderItem>)
    ensures ItemMarks(ReasoningItems(items)) == []
  {
    if items != [] {
      var n := |items| - 1;
      ReasoningHasNoMarks(items[..n]);
      var more := ReasoningItems(items)[|ReasoningItems(items[..n])|..];
      ItemMarksAppend(ReasoningItems(items[..n]), more);
      assert more == [] || (|more| == 1 && more[..0] == []);
    }
  }

  lemma ResponsesMarks(m: ChatMessage)
    ensures ItemMarks(ResponsesOne(m)) == MarksOf(m)
  {
    var out := ResponsesOne(m);
    match m.role {
      case System =>
      case Assistant =>
        var text := if m.content != "" then [Message(Assistant, m.content)] else [];
        var thought := ReasoningItems(m.providerItems);
        ReasoningHasNoMarks(m.providerItems);
        FunctionCallMarks(m.toolCalls);
        assert text != [] ==> text[..0] == [];
        assert ItemMarks(text) == [];
        ItemMarksAppend(thought + text, FunctionCalls(m.toolCalls));
        ItemMarksAppend(thought, text);
        hide ItemMarks, ReasoningItems, FunctionCalls;
      case _ => assert out[..0] == [];
    }
  }

  lemma {:induction false} ResponsesKeepsTrace(msgs: seq<ChatMessage>)
    ensures ItemMarks(ResponsesOf(msgs)) == Trace(msgs)
  {
    if msgs != [] {
      var front, m := msgs[..|msgs| - 1], msgs[|msgs| - 1];
      ResponsesKeepsTrace(front);
      ResponsesMarks(m);
      ItemMarksAppend(ResponsesOf(front), ResponsesOne(m));
      hide ItemMarks, MarksOf, ResponsesOne;
    }
  }

  // ---------------------------------------------------------------- pairing on the wire

  lemma {:induction false} FitMeansExplicit(json: ObjectCheck, msgs: seq<ChatMessage>)
    requires forall c | c in Trace(msgs) :: Fit(json, c)
    ensures forall m | m in msgs :: Explicit(m)
  {
    if msgs != [] {
      var front, m := msgs[..|msgs| - 1], msgs[|msgs| - 1];
      assert Trace(msgs) == Trace(front) + MarksOf(m);
      FitMeansExplicit(json, front);
      if m.role == Assistant {
        forall c | c in m.toolCalls ensures c.function_.arguments != "" {
          var i :| 0 <= i < |m.toolCalls| && m.toolCalls[i] == c;
          assert CallMarks(m.toolCalls)[i] in Trace(msgs);
        }
      }
    }
  }

  /** What the native APIs are sent carries the repaired history's calls and results exactly, in order;
      so it is closed, its calls are fit, and results follow calls whenever the history's do. */
  lemma PairingReachesTheWire(json: ObjectCheck, parse: ImageParser, msgs: seq<ChatMessage>)
    ensures var clean := Sanitize(json, msgs);
            AnthropicTrace(AnthropicOf(parse, clean)) == Trace(clean) == ItemMarks(ResponsesOf(clean))
    ensures var sent := ItemMarks(ResponsesOf(Sanitize(json, msgs)));
            Called(sent) == Answered(sent) == ValidIDs(json, msgs) && forall c | c in sent :: Fit(json, c)
  {
    HistoryIsClosed(json, msgs, "");
    FitMeansExplicit(json, Sanitize(json, msgs));
    AnthropicKeepsTrace(parse, Sanitize(json, msgs));
    ResponsesKeepsTrace(Sanitize(json, msgs));
  }
}
