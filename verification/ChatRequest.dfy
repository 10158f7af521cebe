/** From a Chat request to an Anthropic one: system text, tool traffic and the repaired history. */
module ChatRequest {
  import opened Wrappers
  import opened Normalize
  import opened HistoryRepair
  import opened RepairTwice
  import opened Selections

  /** `url` is "" for a part without an image. */
  datatype Part = Part(kind: string, text: string, url: string)

  datatype ChatContent = NoContent | Plain(text: string) | Parts(parts: seq<Part>) | Untyped(decoded: Option<seq<Part>>)

  /** `input` is the decoded arguments object of the call. */
  datatype Call = Call(id: string, name: string, input: string)

  datatype ChatMessage = ChatMessage(role: string, content: ChatContent, reasoning: string, toolCalls: seq<Call>, toolCallId: string)

  // ----- Specification of one message -----

  function TextOf(parts: seq<Part>): string {
    if parts == [] then ""
    else
      var p := parts[|parts| - 1];
      TextOf(parts[..|parts| - 1]) + (if p.kind == "text" then p.text else "")
  }

  function ImagesOf(parts: seq<Part>): seq<Block> {
    if parts == [] then []
    else
      var p := parts[|parts| - 1];
      ImagesOf(parts[..|parts| - 1]) + (if p.kind != "text" && p.url != "" then [Image(p.url)] else [])
  }

  function ContentText(c: ChatContent): string {
    match c
    case NoContent => ""
    case Plain(t) => t
    case Parts(ps) => TextOf(ps)
    case Untyped(d) => TextOf(d.GetOr([]))
  }

  function ContentImages(c: ChatContent): seq<Block> {
    match c
    case NoContent => []
    case Plain(_) => []
    case Parts(ps) => ImagesOf(ps)
    case Untyped(d) => ImagesOf(d.GetOr([]))
  }

  function CallBlocks(calls: seq<Call>): seq<Block> {
    if calls == [] then []
    else
      var c := calls[|calls| - 1];
      CallBlocks(calls[..|calls| - 1]) + [ToolUse(c.id, c.name, c.input)]
  }

  function TextBlocks(t: string): seq<Block> {
    if t != "" then [Text(t)] else []
  }

  function SpokenBlocks(m: ChatMessage): seq<Block> {
    if m.role == "assistant" then
      TextBlocks(ContentText(m.content)) + (if m.reasoning != "" then [Thinking(m.reasoning)] else []) + CallBlocks(m.toolCalls)
    else TextBlocks(ContentText(m.content)) + ContentImages(m.content)
  }

  function ToolAnswer(m: ChatMessage): Block {
    var t := ContentText(m.content);
    ToolResult(m.toolCallId, if t == "" then "(empty)" else t, false)
  }

  /** What the model should see of one chat message, whatever surrounds it. */
  function Heard(m: ChatMessage): Tags {
    if m.role == "system" then []
    else if m.role == "tool" then [("user", ToolAnswer(m))]
    else Tag(if m.role == "assistant" then "assistant" else "user", SpokenBlocks(m))
  }

  function Traffic(chat: seq<ChatMessage>): Tags {
    if chat == [] then [] else Traffic(chat[..|chat| - 1]) + Heard(chat[|chat| - 1])
  }

  // ----- Specification of the loop -----

  datatype Draft = Draft(system: string, messages: seq<Message>, pending: seq<Block>)

  function Flush(d: Draft): Draft {
    if d.pending == [] then d
    else d.(messages := d.messages + [Message("user", Blocks(d.pending))], pending := [])
  }

  function Add(d: Draft, m: ChatMessage): Draft {
    if m.role == "system" then
      var t := ContentText(m.content);
      if t == "" then d else d.(system := d.system + (if d.system != "" then "\n\n" else "") + t)
    else if m.role == "tool" then d.(pending := d.pending + [ToolAnswer(m)])
    else
      var f, blocks := Flush(d), SpokenBlocks(m);
      if blocks == [] then f
      else f.(messages := f.messages + [Message(if m.role == "assistant" then "assistant" else "user", Blocks(blocks))])
  }

  function Drafted(chat: seq<ChatMessage>): Draft {
    if chat == [] then Draft("", [], []) else Add(Drafted(chat[..|chat| - 1]), chat[|chat| - 1])
  }

  function Converted(chat: seq<ChatMessage>): seq<Message> {
    Normalized(Flush(Drafted(chat)).messages)
  }

  // ----- The loops -----

  method SplitParts(parts: seq<Part>) returns (text: string, images: seq<Block>)
    ensures text == TextOf(parts) && images == ImagesOf(parts)
  {
    text, images := "", [];
    for i := 0 to |parts|
      invariant text == TextOf(parts[..i]) && images == ImagesOf(parts[..i])
    {
      assert parts[..i + 1][..i] == parts[..i];
      if parts[i].kind == "text" {
        text := text + parts[i].text;
      } else if parts[i].url != "" {
        images := images + [Image(parts[i].url)];
      }
    }
    assert parts[..|parts|] == parts;
  }

  method Split(c: ChatContent) returns (text: string, images: seq<Block>)
    ensures text == ContentText(c) && images == ContentImages(c)
  {
    match c {
      case NoContent => text, images := "", [];
      case Plain(t) => text, images := t, [];
      case Parts(ps) => text, images := SplitParts(ps);
      case Untyped(d) => text, images := SplitParts(d.GetOr([]));
    }
  }

  method Called(toolCalls: seq<Call>) returns (blocks: seq<Block>)
    ensures blocks == CallBlocks(toolCalls)
  {
    blocks := [];
    for i := 0 to |toolCalls|
      invariant blocks == CallBlocks(toolCalls[..i])
    {
      assert toolCalls[..i + 1][..i] == toolCalls[..i];
      var c := toolCalls[i];
      blocks := blocks + [ToolUse(c.id, c.name, c.input)];
    }
    assert toolCalls[..|toolCalls|] == toolCalls;
  }

  method Spoken(m: ChatMessage) returns (blocks: seq<Block>)
    ensures blocks == SpokenBlocks(m)
  {
    var text, images := Split(m.content);
    blocks := [];
    if text != "" {
      blocks := [Text(text)];
    }
    if m.role == "assistant" {
      if m.reasoning != "" {
        blocks := blocks + [Thinking(m.reasoning)];
      }
      var calls := Called(m.toolCalls);
      blocks := blocks + calls;
    } else {
      blocks := blocks + images;
    }
  }

  method ConvertMessages(chat: seq<ChatMessage>) returns (system: string, messages: seq<Message>)
    ensures system == Drafted(chat).system
    ensures messages == Converted(chat)
  {
    system := "";
    var msgs: seq<Message> := [];
    var pending: seq<Block> := [];
    for i := 0 to |chat|
      invariant Drafted(chat[..i]) == Draft(system, msgs, pending)
    {
      assert chat[..i + 1][..i] == chat[..i];
      var m := chat[i];
      if m.role == "system" {
        var text, _ := Split(m.content);
        if text == "" {
          continue;
        }
        if system != "" {
          system := system + "\n\n";
        }
        system := system + text;
        continue;
      }
      if m.role == "tool" {
        var text, _ := Split(m.content);
        pending := pending + [ToolResult(m.toolCallId, if text == "" then "(empty)" else text, false)];
        continue;
      }
      if pending != [] {
        msgs := msgs + [Message("user", Blocks(pending))];
        pending := [];
      }
      var blocks := Spoken(m);
      if blocks == [] {
        continue;
      }
      msgs := msgs + [Message(if m.role == "assistant" then "assistant" else "user", Blocks(blocks))];
    }
    assert chat[..|chat|] == chat;
    if pending != [] {
      msgs := msgs + [Message("user", Blocks(pending))];
    }
    messages := NormalizeMessages(msgs);
  }

  // ----- The deferred tool answers keep their place -----

  lemma {:induction false} TaggedAdd(ms: seq<Message>, role: string, bs: seq<Block>)
    ensures Tagged(ms + [Message(role, Blocks(bs))]) == Tagged(ms) + Tag(role, bs)
  {
    assert (ms + [Message(role, Blocks(bs))])[..|ms|] == ms;
  }

  /** Everything drafted so far, the answers still held back at the end. */
  lemma {:induction false} FlushTags(d: Draft)
    ensures Tagged(Flush(d).messages) == Tagged(d.messages) + Tag("user", d.pending)
  {
    TaggedAdd(d.messages, "user", d.pending);
  }

  lemma {:induction false} AddTags(d: Draft, m: ChatMessage)
    ensures Tagged(Flush(Add(d, m)).messages) == Tagged(Flush(d).messages) + Heard(m)
  {
    var e := Add(d, m);
    FlushTags(d);
    FlushTags(e);
    hide Tagged, SpokenBlocks, ToolAnswer;
    var f := Flush(d);
    if m.role == "system" {
      assert e.messages == d.messages && e.pending == d.pending;
    } else if m.role == "tool" {
      assert Tag("user", d.pending + [ToolAnswer(m)]) == Tag("user", d.pending) + Heard(m);
      assert (Tagged(d.messages) + Tag("user", d.pending)) + Heard(m) == Tagged(d.messages) + (Tag("user", d.pending) + Heard(m));
    } else {
      assert e.pending == [];
      TaggedAdd(f.messages, if m.role == "assistant" then "assistant" else "user", SpokenBlocks(m));
      assert Tag("user", []) == [];
    }
  }

  /** The blocks handed to the repair are those of the chat, in the chat's order, under the right roles. */
  lemma {:induction false} DraftCarriesTraffic(chat: seq<ChatMessage>)
    ensures Tagged(Flush(Drafted(chat)).messages) == Traffic(chat)
  {
    if chat != [] {
      DraftCarriesTraffic(chat[..|chat| - 1]);
      AddTags(Drafted(chat[..|chat| - 1]), chat[|chat| - 1]);
      hide Add, Heard, Tagged, Flush;
    }
  }

  // ----- What a chat says, read off its fields -----

  predicate IsTextPart(p: Part) {
    p.kind == "text"
  }

  predicate HasImage(p: Part) {
    p.kind != "text" && p.url != ""
  }

  function PartText(p: Part): string {
    p.text
  }

  function PartImage(p: Part): Block {
    Image(p.url)
  }

  ghost predicate IsTextOf(parts: seq<Part>, t: string) {
    exists ts: seq<string> :: Selected(parts, ts, IsTextPart, PartText) && Flat(ts) == t
  }

  /** `t` is the text of the content: the texts of its text parts, in order. */
  ghost predicate IsText(c: ChatContent, t: string) {
    match c
    case NoContent => t == ""
    case Plain(u) => t == u
    case Parts(ps) => IsTextOf(ps, t)
    case Untyped(d) => if d.Some? then IsTextOf(d.value, t) else t == ""
  }

  /** `bs` are its images, one for each other part that has an address, in order. */
  ghost predicate IsImages(c: ChatContent, bs: seq<Block>) {
    match c
    case NoContent => bs == []
    case Plain(_) => bs == []
    case Parts(ps) => Selected(ps, bs, HasImage, PartImage)
    case Untyped(d) => if d.Some? then Selected(d.value, bs, HasImage, PartImage) else bs == []
  }

  /** What an assistant message holds behind its text: the reasoning, and each call with its id, name and input. */
  ghost predicate IsDeeds(m: ChatMessage, bs: seq<Block>) {
    var n := if m.reasoning == "" then 0 else 1;
    && |bs| == n + |m.toolCalls|
    && (n == 1 ==> bs[0] == Thinking(m.reasoning))
    && forall k :: 0 <= k < |m.toolCalls| ==>
         bs[n + k] == ToolUse(m.toolCalls[k].id, m.toolCalls[k].name, m.toolCalls[k].input)
  }

  /** A message says its text, if any, and then its reasoning and calls, or its images; a tool message answers its call. */
  ghost predicate Says(m: ChatMessage, tags: Tags) {
    if m.role == "system" then tags == []
    else if m.role == "tool" then
      exists t :: IsText(m.content, t) && tags == [("user", ToolResult(m.toolCallId, if t == "" then "(empty)" else t, false))]
    else
      exists t, rest :: IsText(m.content, t) && (if m.role == "assistant" then IsDeeds(m, rest) else IsImages(m.content, rest))
        && tags == Tag(if m.role == "assistant" then "assistant" else "user", (if t == "" then [] else [Text(t)]) + rest)
  }

  ghost predicate IsTraffic(chat: seq<ChatMessage>, tags: Tags) {
    exists said: seq<Tags> :: |said| == |chat| && (forall i :: 0 <= i < |chat| ==> Says(chat[i], said[i])) && Flat(said) == tags
  }

  function Paragraphs(ts: seq<string>): string {
    if ts == [] then ""
    else if |ts| == 1 then ts[0]
    else Paragraphs(ts[..|ts| - 1]) + "\n\n" + ts[|ts| - 1]
  }

  predicate Full(t: string) {
    t != ""
  }

  function Same(t: string): string {
    t
  }

  /** The texts of the system messages that have one, as paragraphs. */
  ghost predicate IsSystem(chat: seq<ChatMessage>, system: string) {
    exists said: seq<string>, full: seq<string> ::
      && |said| == |chat|
      && (forall i :: 0 <= i < |chat| ==> if chat[i].role == "system" then IsText(chat[i].content, said[i]) else said[i] == "")
      && Selected(said, full, Full, Same) && system == Paragraphs(full)
  }

  lemma {:induction false} TextOfIs(parts: seq<Part>) returns (ts: seq<string>)
    ensures Selected(parts, ts, IsTextPart, PartText) && Flat(ts) == TextOf(parts)
  {
    if parts == [] {
      ts := [];
      SelectedNone(IsTextPart, PartText);
    } else {
      var front, p := parts[..|parts| - 1], parts[|parts| - 1];
      ts := TextOfIs(front);
      SelectedPush(front, ts, IsTextPart, PartText, p);
      FlatPush(ts, p.text);
      assert parts == front + [p];
      hide Selected, Flat;
      assert TextOf(front) + "" == TextOf(front);
      ts := if p.kind == "text" then ts + [p.text] else ts;
    }
  }

  lemma {:induction false} ImagesOfIs(parts: seq<Part>)
    ensures Selected(parts, ImagesOf(parts), HasImage, PartImage)
  {
    if parts == [] {
      SelectedNone(HasImage, PartImage);
    } else {
      var front, p := parts[..|parts| - 1], parts[|parts| - 1];
      ImagesOfIs(front);
      SelectedPush(front, ImagesOf(front), HasImage, PartImage, p);
      assert parts == front + [p];
      hide Selected;
      assert ImagesOf(front) + [] == ImagesOf(front);
    }
  }

  lemma {:induction false} ContentIs(c: ChatContent)
    ensures IsText(c, ContentText(c)) && IsImages(c, ContentImages(c))
  {
    match c
    case NoContent =>
    case Plain(_) =>
    case Parts(ps) =>
      var ts := TextOfIs(ps);
      ImagesOfIs(ps);
    case Untyped(d) =>
      if d.Some? {
        var ts := TextOfIs(d.value);
        ImagesOfIs(d.value);
      }
  }

  lemma {:induction false} CallBlocksAre(calls: seq<Call>)
    ensures |CallBlocks(calls)| == |calls|
    ensures forall k :: 0 <= k < |calls| ==> CallBlocks(calls)[k] == ToolUse(calls[k].id, calls[k].name, calls[k].input)
  {
    if calls != [] {
      CallBlocksAre(calls[..|calls| - 1]);
    }
  }

  lemma {:induction false} SaysAnswer(m: ChatMessage, t: string)
    requires m.role == "tool" && IsText(m.content, t)
    ensures Says(m, [("user", ToolResult(m.toolCallId, if t == "" then "(empty)" else t, false))])
  {
    hide IsText;
  }

  lemma {:induction false} SaysBlocks(m: ChatMessage, t: string, rest: seq<Block>)
    requires m.role != "system" && m.role != "tool" && IsText(m.content, t)
    requires if m.role == "assistant" then IsDeeds(m, rest) else IsImages(m.content, rest)
    ensures Says(m, Tag(if m.role == "assistant" then "assistant" else "user", (if t == "" then [] else [Text(t)]) + rest))
  {
    hide IsText, IsDeeds, IsImages, Tag;
  }

  lemma {:induction false} SaysNothing(m: ChatMessage)
    requires m.role == "system"
    ensures Says(m, [])
  {
  }

  function Deeds(m: ChatMessage): seq<Block> {
    (if m.reasoning != "" then [Thinking(m.reasoning)] else []) + CallBlocks(m.toolCalls)
  }

  lemma {:induction false} DeedsAre(m: ChatMessage)
    ensures IsDeeds(m, Deeds(m))
  {
    CallBlocksAre(m.toolCalls);
    hide CallBlocks;
  }

  /** What is heard, with the parts named. */
  lemma {:induction false} HeardParts(m: ChatMessage)
    ensures var t := ContentText(m.content);
            Heard(m) ==
              if m.role == "system" then []
              else if m.role == "tool" then [("user", ToolResult(m.toolCallId, if t == "" then "(empty)" else t, false))]
              else Tag(if m.role == "assistant" then "assistant" else "user",
                       (if t == "" then [] else [Text(t)]) + (if m.role == "assistant" then Deeds(m) else ContentImages(m.content)))
  {
    hide ContentText, ContentImages, CallBlocks, Tag;
    var t := ContentText(m.content);
    if m.role == "assistant" {
      assert SpokenBlocks(m) == (if t == "" then [] else [Text(t)]) + Deeds(m);
    }
  }

  lemma {:induction false} HeardIsSaid(m: ChatMessage)
    ensures Says(m, Heard(m))
  {
    hide *;
    var t := ContentText(m.content);
    ContentIs(m.content);
    DeedsAre(m);
    HeardParts(m);
    if m.role == "system" {
      SaysNothing(m);
    } else if m.role == "tool" {
      SaysAnswer(m, t);
    } else {
      SaysBlocks(m, t, if m.role == "assistant" then Deeds(m) else ContentImages(m.content));
    }
  }

  /** The traffic that the conversion is measured against is what the messages say, one after the other. */
  lemma {:induction false} TrafficSaid(chat: seq<ChatMessage>) returns (said: seq<Tags>)
    ensures |said| == |chat| && (forall i :: 0 <= i < |chat| ==> Says(chat[i], said[i])) && Flat(said) == Traffic(chat)
  {
    if chat == [] {
      said := [];
    } else {
      var front, m := chat[..|chat| - 1], chat[|chat| - 1];
      var before := TrafficSaid(front);
      HeardIsSaid(m);
      FlatPush(before, Heard(m));
      hide Says, Heard, Flat;
      said := before + [Heard(m)];
    }
  }

  /** The text a message adds to the system prompt. */
  function SystemText(m: ChatMessage): string {
    if m.role == "system" then ContentText(m.content) else ""
  }

  lemma {:induction false} SystemTextIs(m: ChatMessage)
    ensures if m.role == "system" then IsText(m.content, SystemText(m)) else SystemText(m) == ""
  {
    ContentIs(m.content);
    hide IsText, ContentText;
  }

  lemma {:induction false} NothingDrafted()
    ensures Drafted([]) == Draft("", [], []) && Paragraphs([]) == "" && Selected([], [], Full, Same)
  {
    SelectedNone(Full, Same);
  }

  lemma {:induction false} DraftedPush(chat: seq<ChatMessage>, m: ChatMessage)
    ensures Drafted(chat + [m]) == Add(Drafted(chat), m)
  {
    assert (chat + [m])[..|chat|] == chat;
    hide Add;
  }

  lemma {:induction false} SystemSaid(chat: seq<ChatMessage>) returns (said: seq<string>, full: seq<string>)
    ensures |said| == |chat|
    ensures forall i :: 0 <= i < |chat| ==> if chat[i].role == "system" then IsText(chat[i].content, said[i]) else said[i] == ""
    ensures Selected(said, full, Full, Same) && Drafted(chat).system == Paragraphs(full)
    ensures full == [] <==> Drafted(chat).system == ""
  {
    hide *;
    if chat == [] {
      said, full := [], [];
      NothingDrafted();
    } else {
      var front, m := chat[..|chat| - 1], chat[|chat| - 1];
      assert chat == front + [m];
      var before, ts := SystemSaid(front);
      var t := SystemText(m);
      SystemTextIs(m);
      said := before + [t];
      FullIs(t);
      SelectedPush(before, ts, Full, Same, t);
      full := if t != "" then ts + [t] else ts;
      DraftedPush(front, m);
      SystemAdded(Drafted(front), m);
      ParagraphsPush(ts, t);
    }
  }

  lemma {:induction false} FullIs(t: string)
    ensures Full(t) <==> t != ""
    ensures Same(t) == t
  {
  }

  lemma {:induction false} ParagraphsPush(ts: seq<string>, t: string)
    ensures Paragraphs(ts + [t]) == if ts == [] then t else Paragraphs(ts) + "\n\n" + t
  {
    assert (ts + [t])[..|ts|] == ts;
  }

  lemma {:induction false} SystemAdded(d: Draft, m: ChatMessage)
    ensures var t := SystemText(m);
            Add(d, m).system == if t == "" then d.system else if d.system == "" then t else d.system + "\n\n" + t
  {
    hide ContentText, SpokenBlocks;
    assert d.system == "" ==> d.system + "" + ContentText(m.content) == ContentText(m.content);
  }

  /** The system prompt is that of the chat. */
  lemma {:induction false} SystemIs(chat: seq<ChatMessage>)
    ensures IsSystem(chat, Drafted(chat).system)
  {
    var said, full := SystemSaid(chat);
    hide Selected, IsText, Drafted, Paragraphs;
  }

  lemma {:induction false} NoResultsSpoken(m: ChatMessage)
    ensures forall b :: b in SpokenBlocks(m) ==> !b.ToolResult?
    ensures m.role != "assistant" ==> forall b :: b in SpokenBlocks(m) ==> !b.ToolUse?
  {
    OnlyCalls(m.toolCalls);
    match m.content
    case NoContent =>
    case Plain(_) =>
    case Parts(ps) => OnlyImages(ps);
    case Untyped(d) => OnlyImages(d.GetOr([]));
  }

  lemma {:induction false} OnlyCalls(calls: seq<Call>)
    ensures forall b :: b in CallBlocks(calls) ==> b.ToolUse?
  {
    if calls != [] {
      OnlyCalls(calls[..|calls| - 1]);
    }
  }

  lemma {:induction false} OnlyImages(parts: seq<Part>)
    ensures forall b :: b in ImagesOf(parts) ==> b.Image?
  {
    if parts != [] {
      OnlyImages(parts[..|parts| - 1]);
    }
  }

  lemma {:induction false} TrafficPlaced(chat: seq<ChatMessage>)
    ensures forall p :: p in Traffic(chat) ==>
              !Misplaced(p) && (p.0 == "user" || p.0 == "assistant") && (p.1.ToolResult? ==> p.1.output != "")
  {
    if chat != [] {
      TrafficPlaced(chat[..|chat| - 1]);
      NoResultsSpoken(chat[|chat| - 1]);
      hide SpokenBlocks, ContentText;
      assert Traffic(chat) == Traffic(chat[..|chat| - 1]) + Heard(chat[|chat| - 1]);
    }
  }

  // ----- Only two roles -----

  predicate TwoRoles(ms: seq<Message>) {
    forall m :: m in ms ==> m.role == "user" || m.role == "assistant"
  }

  lemma {:induction false} MergeTwoRoles(out: seq<Message>, ms: seq<Message>)
    requires TwoRoles(out) && TwoRoles(ms)
    ensures TwoRoles(MergeAll(out, ms))
  {
    if ms != [] {
      MergeTwoRoles(out, ms[..|ms| - 1]);
      assert ms[|ms| - 1] in ms;
    }
  }

  lemma {:induction false} RebuildTwoRoles(results: map<string, Block>, ms: seq<Message>)
    requires TwoRoles(ms)
    ensures TwoRoles(RebuildAll(results, ms))
  {
    if ms != [] {
      var front, m := ms[..|ms| - 1], ms[|ms| - 1];
      RebuildTwoRoles(results, front);
      assert m in ms;
      OneTwoRoles(results, m);
      hide Rebuild;
      assert RebuildAll(results, ms) == RebuildAll(results, front) + Rebuild(results, m);
    }
  }

  lemma {:induction false} OneTwoRoles(results: map<string, Block>, m: Message)
    requires m.role == "user" || m.role == "assistant"
    ensures TwoRoles(Rebuild(results, m))
  {
    hide Kept, Answers;
  }

  lemma {:induction false} DraftTwoRoles(chat: seq<ChatMessage>)
    ensures TwoRoles(Drafted(chat).messages)
  {
    if chat != [] {
      DraftTwoRoles(chat[..|chat| - 1]);
      hide SpokenBlocks, ContentText;
    }
  }

  // ----- Main result -----

  /**
   * The traffic of a chat is what its messages say. Whatever history a Chat client sends, the request has
   * alternating user and assistant messages, every call answered at the head of the next message and no
   * other answer. All other content keeps its order and role; a call is kept exactly when some tool
   * message answers its id; each answer is the last one given for that id and never empty; and repairing
   * again changes nothing.
   */
  lemma {:induction false} EveryRequestIsPaired(chat: seq<ChatMessage>)
    ensures var out, traffic := Converted(chat), Traffic(chat);
            && IsTraffic(chat, traffic)
            && Acceptable(out) && TwoRoles(out)
            && Survivors(Tagged(out)) == Survivors(traffic)
            && Calls(Tagged(out)) == AnsweredIn(Results(traffic), Calls(traffic))
            && (forall p :: p in Tagged(out) && p.1.ToolResult? ==> p.1.output != "" && IsLastResult(traffic, p.1.useId, p.1))
            && Normalized(out) == out
  {
    var draft := Flush(Drafted(chat)).messages;
    DraftCarriesTraffic(chat);
    var said := TrafficSaid(chat);
    TrafficPlaced(chat);
    AcceptableIff(draft);
    Conservation(draft);
    Idempotent(draft);
    ConvertedTwoRoles(chat);
    hide Normalized, Consistent, Tagged, Traffic, Survivors, Calls, Results, AnsweredIn, IsLastResult, Says, Flat;
    forall p | p in Tagged(Converted(chat)) && p.1.ToolResult?
      ensures p.1.output != "" && IsLastResult(Traffic(chat), p.1.useId, p.1)
    {
      assert !Misplaced(p);
      AnswersAreLast(draft, p);
      LastIsIn(Traffic(chat), p.1.useId, p.1);
    }
  }

  lemma {:induction false} LastIsIn(tags: Tags, id: string, b: Block)
    requires IsLastResult(tags, id, b)
    ensures exists p :: p in tags && p.1 == b
  {
  }

  lemma {:induction false} ConvertedTwoRoles(chat: seq<ChatMessage>)
    ensures TwoRoles(Converted(chat))
  {
    var draft := Flush(Drafted(chat)).messages;
    DraftTwoRoles(chat);
    MergeTwoRoles([], draft);
    var results := Results(Tagged(Merged(draft)));
    RebuildTwoRoles(results, Merged(draft));
    MergeTwoRoles([], RebuildAll(results, Merged(draft)));
  }
}
