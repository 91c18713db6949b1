/** What the native wire formats say: every text, result, picture and thought of a history, word for word. */
module Wire {
  import opened Options
  import opened OpenAI
  import opened Text
  import opened ToolHistory
  import opened Sorting
  import opened Translation

  // ---------------------------------------------------------------- what a history says

  /** One thing said, whatever carries it. */
  datatype Said =
    | Words(speaker: Role, text: string)
    | Picture(source: Image)
    | Thought(item: ProviderItem)
    | Use(id: string, name: string, arguments: string)
    | Output(id: string, text: string)

  function Thoughts(items: seq<ProviderItem>): seq<Said> {
    if items == [] then []
    else
      (if items[0].kind == "reasoning" && items[0].encrypted != "" then [Thought(items[0])] else [])
      + Thoughts(items[1..])
  }

  function Pictures(parse: ImageParser, images: seq<string>): seq<Said> {
    if images == [] then []
    else (if parse(images[0]).Some? then [Picture(parse(images[0]).value)] else []) + Pictures(parse, images[1..])
  }

  function UseOf(id: string, name: string, arguments: string): Said {
    Use(id, name, if arguments == "" then "{}" else arguments)
  }

  function Uses(calls: seq<ToolCall>): seq<Said> {
    seq(|calls|, i requires 0 <= i < |calls| =>
      UseOf(calls[i].id, calls[i].function_.name, calls[i].function_.arguments))
  }

  /** What a message that is not a system's says; a format may have no place for reasoning or for some images. */
  function SaysIn(parse: ImageParser, reasoning: bool, m: ChatMessage): seq<Said> {
    match m.role
    case System => []
    case Tool => [Output(m.toolCallID, m.content)]
    case Assistant =>
      (if reasoning then Thoughts(m.providerItems) else [])
      + (if m.content != "" then [Words(Assistant, m.content)] else []) + Uses(m.toolCalls)
    case _ => [Words(m.role, m.content)] + Pictures(parse, m.images)
  }

  function Says(parse: ImageParser, reasoning: bool, msgs: seq<ChatMessage>): seq<Said> {
    if msgs == [] then [] else SaysIn(parse, reasoning, msgs[0]) + Says(parse, reasoning, msgs[1..])
  }

  // ---------------------------------------------------------------- what the wire says

  function BlockSays(role: Role, b: Block): Said {
    match b
    case TextBlock(text) => Words(role, text)
    case ImageBlock(source) => Picture(source)
    case ToolUse(id, name, input) => Use(id, name, input)
    case ToolResult(id, content) => Output(id, content)
  }

  function BlocksSay(role: Role, blocks: seq<Block>): seq<Said> {
    seq(|blocks|, i requires 0 <= i < |blocks| => BlockSays(role, blocks[i]))
  }

  function ItemSays(item: Item): Said {
    match item
    case Message(role, text) => Words(role, text)
    case FunctionCall(id, name, arguments) => UseOf(id, name, arguments)
    case FunctionOutput(id, output) => Output(id, output)
    case ReasoningItem(it) => Thought(it)
  }

  function ItemsSay(items: seq<Item>): seq<Said> {
    seq(|items|, i requires 0 <= i < |items| => ItemSays(items[i]))
  }

  // ---------------------------------------------------------------- Anthropic

  lemma {:induction false} PicturesShown(parse: ImageParser, role: Role, images: seq<string>)
    ensures BlocksSay(role, ImageBlocks(parse, images)) == Pictures(parse, images)
  {
    if images != [] {
      var n := |images| - 1;
      PicturesShown(parse, role, images[..n]);
      PicturesAppend(parse, images[..n], [images[n]]);
      assert images[..n] + [images[n]] == images;
    }
  }

  lemma {:induction false} PicturesAppend(parse: ImageParser, a: seq<string>, b: seq<string>)
    ensures Pictures(parse, a + b) == Pictures(parse, a) + Pictures(parse, b)
  {
    if a == [] {
      assert a + b == b;
    } else {
      assert (a + b)[1..] == a[1..] + b;
      PicturesAppend(parse, a[1..], b);
    }
  }

  lemma BlocksSayAppend(role: Role, a: seq<Block>, b: seq<Block>)
    ensures BlocksSay(role, a + b) == BlocksSay(role, a) + BlocksSay(role, b)
  {
  }

  /** A message other than a system's becomes one message that says the same, a tool's under the user's role. */
  ghost predicate Carries(parse: ImageParser, m: ChatMessage, out: AnthropicMessage) {
    && out.role == (if m.role == Tool then User else m.role)
    && BlocksSay(out.role, out.blocks) == SaysIn(parse, false, m)
  }

  lemma AnthropicCarries(parse: ImageParser, m: ChatMessage)
    ensures var out := AnthropicOne(parse, m);
            if m.role == System then out == [] else |out| == 1 && Carries(parse, m, out[0])
  {
    match m.role {
      case System =>
      case Tool =>
      case Assistant =>
        var text := if m.content != "" then [TextBlock(m.content)] else [];
        BlocksSayAppend(Assistant, text, ToolUses(m.toolCalls));
        assert BlocksSay(Assistant, ToolUses(m.toolCalls)) == Uses(m.toolCalls);
      case _ =>
        PicturesShown(parse, m.role, m.images);
        BlocksSayAppend(m.role, [TextBlock(m.content)], ImageBlocks(parse, m.images));
    }
  }

  /** at lists the messages that are not a system's. */
  ghost predicate Listed(msgs: seq<ChatMessage>, at: seq<int>) {
    && Increasing(at)
    && (forall k | 0 <= k < |at| :: 0 <= at[k] < |msgs|)
    && forall i :: i in at <==> 0 <= i < |msgs| && msgs[i].role != System
  }

  lemma ListedNext(msgs: seq<ChatMessage>, at: seq<int>, m: ChatMessage)
    requires Listed(msgs, at)
    ensures Listed(msgs + [m], if m.role == System then at else at + [|msgs|])
  {
    var next := if m.role == System then at else at + [|msgs|];
    forall i ensures i in next <==> 0 <= i < |msgs + [m]| && (msgs + [m])[i].role != System {
      assert i in next <==> i in at || (m.role != System && i == |msgs|);
    }
  }

  /** Message k of out carries what message at[k] of msgs says; at lists the messages that are not a system's. */
  ghost predicate CarriesAll(parse: ImageParser, msgs: seq<ChatMessage>, at: seq<int>, out: seq<AnthropicMessage>) {
    Listed(msgs, at) && |out| == |at| && forall k | 0 <= k < |at| :: Carries(parse, msgs[at[k]], out[k])
  }

  lemma CarriesNext(parse: ImageParser, msgs: seq<ChatMessage>, at: seq<int>, out: seq<AnthropicMessage>,
                    m: ChatMessage, more: seq<AnthropicMessage>)
    requires CarriesAll(parse, msgs, at, out)
    requires if m.role == System then more == [] else |more| == 1 && Carries(parse, m, more[0])
    ensures CarriesAll(parse, msgs + [m], if m.role == System then at else at + [|msgs|], out + more)
  {
    hide Carries, Listed;
    ListedNext(msgs, at, m);
    var next := if m.role == System then at else at + [|msgs|];
    ListedWithin(msgs, at);
    ListedWithin(msgs + [m], next);
    forall k | 0 <= k < |next| ensures Carries(parse, (msgs + [m])[next[k]], (out + more)[k]) {
      if k < |at| { assert Carries(parse, msgs[at[k]], out[k]); }
    }
  }

  lemma CarriesNone(parse: ImageParser)
    ensures CarriesAll(parse, [], [], AnthropicOf(parse, []))
  {
  }

  lemma ListedWithin(msgs: seq<ChatMessage>, at: seq<int>)
    requires Listed(msgs, at)
    ensures forall k | 0 <= k < |at| :: 0 <= at[k] < |msgs|
  {
  }

  /** The Messages API is told, message by message and in order, everything but the system prompts and the reasoning:
      texts, pictures, calls with their arguments spelled out, and what each tool put out. */
  lemma {:induction false} AnthropicSaysAll(parse: ImageParser, msgs: seq<ChatMessage>) returns (at: seq<int>)
    ensures CarriesAll(parse, msgs, at, AnthropicOf(parse, msgs))
  {
    hide *;
    at := [];
    if msgs == [] {
      CarriesNone(parse);
    } else {
      var n := |msgs| - 1;
      var front, m := msgs[..n], msgs[n];
      at := AnthropicSaysAll(parse, front);
      AnthropicCarries(parse, m);
      CarriesNext(parse, front, at, AnthropicOf(parse, front), m, AnthropicOne(parse, m));
      AnthropicStep(parse, msgs, n);
      FrontOf(msgs, |msgs|);
      assert front + [m] == msgs;
      if m.role != System { at := at + [n]; }
    }
  }

  // ---------------------------------------------------------------- Responses

  lemma {:induction false} ThoughtsAppend(a: seq<ProviderItem>, b: seq<ProviderItem>)
    ensures Thoughts(a + b) == Thoughts(a) + Thoughts(b)
  {
    if a == [] {
      assert a + b == b;
    } else {
      assert (a + b)[1..] == a[1..] + b;
      ThoughtsAppend(a[1..], b);
    }
  }

  lemma {:induction false} ThoughtsReplayed(items: seq<ProviderItem>)
    ensures ItemsSay(ReasoningItems(items)) == Thoughts(items)
  {
    if items != [] {
      var n := |items| - 1;
      ThoughtsReplayed(items[..n]);
      ThoughtsAppend(items[..n], [items[n]]);
      assert items[..n] + [items[n]] == items;
    }
  }

  lemma ItemsSayAppend(a: seq<Item>, b: seq<Item>)
    ensures ItemsSay(a + b) == ItemsSay(a) + ItemsSay(b)
  {
  }

  const NO_IMAGES: ImageParser := _ => None

  lemma {:induction false} NoPictures(images: seq<string>)
    ensures Pictures(NO_IMAGES, images) == []
  {
    if images != [] { NoPictures(images[1..]); }
  }

  lemma ResponsesCarries(m: ChatMessage)
    ensures ItemsSay(ResponsesOne(m)) == SaysIn(NO_IMAGES, true, m)
  {
    NoPictures(m.images);
    if m.role == Assistant {
      var thoughts, calls := ReasoningItems(m.providerItems), FunctionCalls(m.toolCalls);
      var text := if m.content != "" then [Message(Assistant, m.content)] else [];
      ThoughtsReplayed(m.providerItems);
      ItemsSayAppend(thoughts + text, calls);
      ItemsSayAppend(thoughts, text);
      assert ItemsSay(calls) == Uses(m.toolCalls);
    }
  }

  lemma {:induction false} SaysAppend(parse: ImageParser, reasoning: bool, a: seq<ChatMessage>, b: seq<ChatMessage>)
    ensures Says(parse, reasoning, a + b) == Says(parse, reasoning, a) + Says(parse, reasoning, b)
  {
    if a == [] {
      assert a + b == b;
    } else {
      assert (a + b)[1..] == a[1..] + b;
      SaysAppend(parse, reasoning, a[1..], b);
      hide SaysIn;
    }
  }

  /** The Responses API is told everything but the system prompts and the images, in order: texts, encrypted
      reasoning, calls and what each tool put out. */
  lemma {:induction false} ResponsesSaysAll(msgs: seq<ChatMessage>)
    ensures ItemsSay(ResponsesOf(msgs)) == Says(NO_IMAGES, true, msgs)
  {
    if msgs != [] {
      var n := |msgs| - 1;
      ResponsesSaysAll(msgs[..n]);
      ResponsesCarries(msgs[n]);
      ItemsSayAppend(ResponsesOf(msgs[..n]), ResponsesOne(msgs[n]));
      SaysAppend(NO_IMAGES, true, msgs[..n], [msgs[n]]);
      assert msgs[..n] + [msgs[n]] == msgs && [msgs[n]][1..] == [];
      hide SaysIn, ResponsesOne, ItemSays;
    }
  }

  // ---------------------------------------------------------------- system prompts

  /** What the system messages say, in order. */
  function Prompts(msgs: seq<ChatMessage>): seq<string> {
    if msgs == [] then [] else (if msgs[0].role == System then [msgs[0].content] else []) + Prompts(msgs[1..])
  }

  lemma {:induction false} PromptsAppend(a: seq<ChatMessage>, b: seq<ChatMessage>)
    ensures Prompts(a + b) == Prompts(a) + Prompts(b)
  {
    if a == [] {
      assert a + b == b;
    } else {
      assert (a + b)[1..] == a[1..] + b;
      PromptsAppend(a[1..], b);
    }
  }

  const RULE := "\n\n---\n\n"

  function Gathered(prompts: seq<string>): string {
    if prompts == [] then "" else AddSystem(Gathered(prompts[..|prompts| - 1]), prompts[|prompts| - 1])
  }

  lemma {:induction false} SystemTextGathers(msgs: seq<ChatMessage>)
    ensures SystemText(msgs) == Gathered(Prompts(msgs))
  {
    if msgs != [] {
      var n := |msgs| - 1;
      var front, m := msgs[..n], msgs[n];
      SystemTextGathers(front);
      PromptsAppend(front, [m]);
      assert front + [m] == msgs && [m][1..] == [] && Prompts([]) == [];
      var before := Prompts(front);
      assert Prompts(msgs) == if m.role == System then before + [m.content] else before;
      assert (before + [m.content])[..|before|] == before;
      hide AddSystem, Prompts;
    }
  }

  lemma JoinStarts(parts: seq<string>)
    requires parts != [] && parts[0] != ""
    ensures Join(parts, RULE) != ""
  {
    JoinAppend(parts[..1], parts[1..], RULE);
    assert parts[..1] + parts[1..] == parts;
  }

  lemma {:induction false} GatheredJoins(prompts: seq<string>) returns (n: nat)
    ensures n <= |prompts| && (forall k | 0 <= k < n :: prompts[k] == "") && (n < |prompts| ==> prompts[n] != "")
    ensures Gathered(prompts) == Join(prompts[n..], RULE)
  {
    n := 0;
    if prompts != [] {
      var front, last := prompts[..|prompts| - 1], prompts[|prompts| - 1];
      n := GatheredJoins(front);
      var held := front[n..];
      assert prompts[n..] == held + [last];
      JoinAppend(held, [last], RULE);
      JoinAppend([last], [], RULE);
      if held != [] { JoinStarts(held); }
      hide Join;
      assert held == [] ==> Gathered(front) == "" by { NothingJoined(); }
      if held == [] && last == "" { n := |prompts|; }
    }
  }

  lemma NothingJoined()
    ensures Join([], RULE) == ""
  {
  }

  /** Both native formats send every system prompt from the first that is not empty, in order, rules between them. */
  lemma SystemTextJoins(msgs: seq<ChatMessage>) returns (n: nat)
    ensures var prompts := Prompts(msgs);
            n <= |prompts| && (forall k | 0 <= k < n :: prompts[k] == "") && (n < |prompts| ==> prompts[n] != "") &&
            SystemText(msgs) == Join(prompts[n..], "\n\n---\n\n")
  {
    SystemTextGathers(msgs);
    n := GatheredJoins(Prompts(msgs));
  }

  // ---------------------------------------------------------------- one leading system message

  function NonEmpty(parts: seq<string>): seq<string> {
    if parts == [] then []
    else (if parts[0] != "" then [parts[0]] else []) + NonEmpty(parts[1..])
  }

  lemma {:induction false} NonEmptyAppend(a: seq<string>, b: seq<string>)
    ensures NonEmpty(a + b) == NonEmpty(a) + NonEmpty(b)
  {
    if a == [] {
      assert a + b == b;
    } else {
      assert (a + b)[1..] == a[1..] + b;
      NonEmptyAppend(a[1..], b);
    }
  }

  /** m is the first system message. */
  ghost predicate LeadsSystems(msgs: seq<ChatMessage>, f: int) {
    0 <= f < |msgs| && msgs[f].role == System && forall i | 0 <= i < f :: msgs[i].role != System
  }

  lemma PromptsNext(msgs: seq<ChatMessage>, m: ChatMessage)
    ensures Prompts(msgs + [m]) == Prompts(msgs) + (if m.role == System then [m.content] else [])
  {
    PromptsAppend(msgs, [m]);
    assert [m][1..] == [];
  }

  lemma NonEmptyNext(parts: seq<string>, part: string)
    ensures NonEmpty(parts + [part]) == NonEmpty(parts) + (if part != "" then [part] else [])
  {
    NonEmptyAppend(parts, [part]);
    assert [part][1..] == [];
  }

  lemma {:induction false} SystemsSay(msgs: seq<ChatMessage>)
    ensures Contents(Systems(msgs)) == NonEmpty(Prompts(msgs))
  {
    if msgs != [] {
      hide *;
      var n := |msgs| - 1;
      var front, m := msgs[..n], msgs[n];
      SystemsSay(front);
      FilterStep(msgs, n);
      FrontOf(msgs, |msgs|);
      assert front + [m] == msgs;
      PromptsNext(front, m);
      ContentsNext(Systems(front), m);
      NonEmptyNext(Prompts(front), m.content);
      assert Prompts(front) + [] == Prompts(front);
    }
  }

  lemma {:induction false} FirstOfSystems(msgs: seq<ChatMessage>, f: nat)
    requires LeadsSystems(msgs, f)
    ensures Systems(msgs) != [] && Systems(msgs)[0] == msgs[f]
  {
    hide Systems, Others;
    var n := |msgs| - 1;
    FilterStep(msgs, n);
    FrontOf(msgs, |msgs|);
    if f < n {
      FirstOfSystems(msgs[..n], f);
    } else {
      forall m | m in msgs[..n] ensures m.role != System {}
      NoneSystem(msgs[..n]);
    }
  }

  /** The leading message a compatible upstream gets is the first system message with the text of all of them that
      have any, in order, a blank line between them. */
  lemma LeadSaysAll(msgs: seq<ChatMessage>, f: nat)
    requires LeadsSystems(msgs, f)
    ensures Normalized(msgs) != [] &&
            Normalized(msgs)[0] == msgs[f].(content := Join(NonEmpty(Prompts(msgs)), "\n\n"))
  {
    SystemsSay(msgs);
    FirstOfSystems(msgs, f);
    NormalForm(msgs);
    hide Systems, Contents, NonEmpty, Join;
  }
}
