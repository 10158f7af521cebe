/**
 * Repairing an Anthropic message history: same-role neighbours are merged, every tool call that
 * nobody answers is dropped, and every answer is moved right behind its call.
 */
module Normalize {
  import opened Wrappers
  import opened Selections

  datatype Block =
    | Text(text: string)
    | Thinking(thinking: string)
    | Image(url: string)
    | ToolUse(id: string, name: string, input: string)
    | ToolResult(useId: string, output: string, isError: bool)
    | OtherBlock(kind: string)

  /** The shapes a message's content comes in; an item of a loose list may fail to decode. */
  datatype Content = Nothing | Str(text: string) | Blocks(blocks: seq<Block>) | Loose(items: seq<Option<Block>>)

  datatype Message = Message(role: string, content: Content)

  // ----- Specification of the repair -----

  function Decoded(items: seq<Option<Block>>): seq<Block> {
    if items == [] then []
    else Decoded(items[..|items| - 1]) + (if items[|items| - 1].Some? then [items[|items| - 1].value] else [])
  }

  function BlocksOf(c: Content): seq<Block> {
    match c
    case Nothing => []
    case Str(t) => if t == "" then [] else [Text(t)]
    case Blocks(bs) => bs
    case Loose(items) => Decoded(items)
  }

  function MergeInto(out: seq<Message>, m: Message): seq<Message> {
    if out != [] && out[|out| - 1].role == m.role then
      out[|out| - 1 := Message(m.role, Blocks(BlocksOf(out[|out| - 1].content) + BlocksOf(m.content)))]
    else out + [m]
  }

  function MergeAll(out: seq<Message>, ms: seq<Message>): seq<Message> {
    if ms == [] then out else MergeInto(MergeAll(out, ms[..|ms| - 1]), ms[|ms| - 1])
  }

  function Merged(ms: seq<Message>): seq<Message> {
    MergeAll([], ms)
  }

  /** All blocks of a history, each with the role of its message, in order. */
  function Tagged(ms: seq<Message>): seq<(string, Block)> {
    if ms == [] then []
    else Tagged(ms[..|ms| - 1]) + Tag(ms[|ms| - 1].role, BlocksOf(ms[|ms| - 1].content))
  }

  function Tag(role: string, bs: seq<Block>): seq<(string, Block)> {
    seq(|bs|, i requires 0 <= i < |bs| => (role, bs[i]))
  }

  predicate IsTool(b: Block) {
    b.ToolUse? || b.ToolResult?
  }

  predicate HasTools(ms: seq<Message>) {
    exists p :: p in Tagged(ms) && IsTool(p.1)
  }

  /** The tool results by the id they answer; a later result replaces an earlier one. */
  function Results(tags: seq<(string, Block)>): map<string, Block> {
    if tags == [] then map[]
    else
      var b, rest := tags[|tags| - 1].1, Results(tags[..|tags| - 1]);
      if b.ToolResult? && b.useId != "" then rest[b.useId := b] else rest
  }

  predicate KeptBy(role: string, results: map<string, Block>, b: Block) {
    if role == "assistant" then b.ToolUse? ==> b.id in results else !b.ToolResult?
  }

  function Kept(role: string, results: map<string, Block>, bs: seq<Block>): seq<Block> {
    if bs == [] then []
    else
      var b := bs[|bs| - 1];
      Kept(role, results, bs[..|bs| - 1]) + (if KeptBy(role, results, b) then [b] else [])
  }

  function Answers(results: map<string, Block>, bs: seq<Block>): seq<Block> {
    if bs == [] then []
    else
      var b := bs[|bs| - 1];
      Answers(results, bs[..|bs| - 1]) + (if b.ToolUse? && b.id in results then [results[b.id]] else [])
  }

  /** What one message becomes: itself without what is dropped, and after a caller the answers to its calls. */
  function Rebuild(results: map<string, Block>, m: Message): seq<Message> {
    var bs := BlocksOf(m.content);
    var kept := Kept(m.role, results, bs);
    if kept == [] then []
    else
      var pending := if m.role == "assistant" then Answers(results, bs) else [];
      [Message(m.role, Blocks(kept))] + (if pending != [] then [Message("user", Blocks(pending))] else [])
  }

  function RebuildAll(results: map<string, Block>, ms: seq<Message>): seq<Message> {
    if ms == [] then [] else RebuildAll(results, ms[..|ms| - 1]) + Rebuild(results, ms[|ms| - 1])
  }

  function Normalized(ms: seq<Message>): seq<Message> {
    var merged := Merged(ms);
    if !HasTools(merged) then merged else Merged(RebuildAll(Results(Tagged(merged)), merged))
  }

  // ----- The loops -----

  method AnthropicBlocks(c: Content) returns (out: seq<Block>)
    ensures out == BlocksOf(c)
  {
    match c {
      case Nothing => out := [];
      case Str(t) => out := if t == "" then [] else [Text(t)];
      case Blocks(bs) => out := bs;
      case Loose(items) =>
        out := [];
        for i := 0 to |items|
          invariant out == Decoded(items[..i])
        {
          assert items[..i + 1][..i] == items[..i];
          if items[i].Some? {
            out := out + [items[i].value];
          }
        }
        assert items[..|items|] == items;
    }
  }

  predicate Decodes(item: Option<Block>) {
    item.Some?
  }

  function BlockIn(item: Option<Block>): Block {
    item.GetOr(OtherBlock(""))
  }

  /** Text is one block unless it is empty, and of a loose list every item that decodes is a block, in order. */
  lemma {:induction false} BlocksAre(c: Content)
    ensures c.Str? ==> BlocksOf(c) == if c.text == "" then [] else [Text(c.text)]
    ensures c.Blocks? ==> BlocksOf(c) == c.blocks
    ensures c.Loose? ==> Selected(c.items, BlocksOf(c), Decodes, BlockIn)
    ensures c.Nothing? ==> BlocksOf(c) == []
  {
    if c.Loose? {
      DecodedAre(c.items);
    }
  }

  lemma {:induction false} DecodedAre(items: seq<Option<Block>>)
    ensures Selected(items, Decoded(items), Decodes, BlockIn)
  {
    if items == [] {
      SelectedNone(Decodes, BlockIn);
    } else {
      var front, item := items[..|items| - 1], items[|items| - 1];
      DecodedAre(front);
      SelectedPush(front, Decoded(front), Decodes, BlockIn, item);
      assert items == front + [item];
      hide Selected;
      assert Decoded(front) + [] == Decoded(front);
    }
  }

  method MergeConsecutive(ms: seq<Message>) returns (out: seq<Message>)
    ensures out == Merged(ms)
  {
    out := [];
    for i := 0 to |ms|
      invariant out == Merged(ms[..i])
    {
      assert ms[..i + 1][..i] == ms[..i];
      var m := ms[i];
      if |out| > 0 && out[|out| - 1].role == m.role {
        var prev := AnthropicBlocks(out[|out| - 1].content);
        var more := AnthropicBlocks(m.content);
        out := out[|out| - 1 := Message(m.role, Blocks(prev + more))];
      } else {
        out := out + [m];
      }
    }
    assert ms[..|ms|] == ms;
  }

  lemma {:induction false} TaggedPush(ms: seq<Message>, i: nat)
    requires i < |ms|
    ensures Tagged(ms[..i + 1]) == Tagged(ms[..i]) + Tag(ms[i].role, BlocksOf(ms[i].content))
  {
    assert ms[..i + 1][..i] == ms[..i];
  }

  method HasToolBlock(bs: seq<Block>) returns (found: bool)
    ensures found <==> exists b :: b in bs && IsTool(b)
  {
    for j := 0 to |bs|
      invariant forall k :: 0 <= k < j ==> !IsTool(bs[k])
    {
      if bs[j].ToolUse? || bs[j].ToolResult? {
        assert bs[j] in bs && IsTool(bs[j]);
        return true;
      }
    }
    found := false;
  }

  lemma {:induction false} HasToolsPush(ms: seq<Message>, i: nat)
    requires i < |ms|
    ensures HasTools(ms[..i + 1]) <==> HasTools(ms[..i]) || exists b :: b in BlocksOf(ms[i].content) && IsTool(b)
  {
    TaggedPush(ms, i);
    var bs := BlocksOf(ms[i].content);
    var tags := Tag(ms[i].role, bs);
    hide Tagged;
    if b :| b in bs && IsTool(b) {
      var k :| 0 <= k < |bs| && bs[k] == b;
      assert tags[k] in Tagged(ms[..i + 1]);
    }
    if p :| p in Tagged(ms[..i]) && IsTool(p.1) {
      assert p in Tagged(ms[..i + 1]);
    }
  }

  method HasToolInteraction(ms: seq<Message>) returns (found: bool)
    ensures found <==> HasTools(ms)
  {
    found := false;
    for i := 0 to |ms|
      invariant found <==> HasTools(ms[..i])
    {
      HasToolsPush(ms, i);
      var bs := AnthropicBlocks(ms[i].content);
      var here := HasToolBlock(bs);
      found := found || here;
    }
    assert ms[..|ms|] == ms;
  }

  method IndexBlocks(index: map<string, Block>, ghost before: seq<(string, Block)>, role: string, bs: seq<Block>)
      returns (out: map<string, Block>)
    requires index == Results(before)
    ensures out == Results(before + Tag(role, bs))
  {
    ghost var tags := Tag(role, bs);
    assert forall k :: 0 <= k < |bs| ==> tags[k] == (role, bs[k]);
    assert before + tags[..0] == before;
    hide Tag, Results;
    out := index;
    for j := 0 to |bs|
      invariant out == Results(before + tags[..j])
    {
      ResultsPush(before, tags, j);
      if bs[j].ToolResult? && bs[j].useId != "" {
        out := out[bs[j].useId := bs[j]];
      }
    }
    assert tags[..|bs|] == tags;
  }

  lemma {:induction false} ResultsPush(before: seq<(string, Block)>, tags: seq<(string, Block)>, j: nat)
    requires j < |tags|
    ensures var b, rest := tags[j].1, Results(before + tags[..j]);
            Results(before + tags[..j + 1]) == if b.ToolResult? && b.useId != "" then rest[b.useId := b] else rest
  {
    var t := before + tags[..j + 1];
    assert t[..|t| - 1] == before + tags[..j] && t[|t| - 1] == tags[j];
  }

  method IndexResults(ms: seq<Message>) returns (index: map<string, Block>)
    ensures index == Results(Tagged(ms))
  {
    index := map[];
    for i := 0 to |ms|
      invariant index == Results(Tagged(ms[..i]))
    {
      TaggedPush(ms, i);
      var bs := AnthropicBlocks(ms[i].content);
      index := IndexBlocks(index, Tagged(ms[..i]), ms[i].role, bs);
    }
    assert ms[..|ms|] == ms;
  }

  lemma {:induction false} KeptPush(role: string, results: map<string, Block>, bs: seq<Block>, j: nat)
    requires j < |bs|
    ensures Kept(role, results, bs[..j + 1]) == Kept(role, results, bs[..j]) + (if KeptBy(role, results, bs[j]) then [bs[j]] else [])
    ensures Answers(results, bs[..j + 1])
         == Answers(results, bs[..j]) + (if bs[j].ToolUse? && bs[j].id in results then [results[bs[j].id]] else [])
  {
    assert bs[..j + 1][..j] == bs[..j];
  }

  /** A caller keeps its answered calls and everything else, and is owed the answers. */
  method KeepAnswered(results: map<string, Block>, bs: seq<Block>) returns (kept: seq<Block>, pending: seq<Block>)
    ensures kept == Kept("assistant", results, bs) && pending == Answers(results, bs)
  {
    kept, pending := [], [];
    for j := 0 to |bs|
      invariant kept == Kept("assistant", results, bs[..j])
      invariant pending == Answers(results, bs[..j])
    {
      KeptPush("assistant", results, bs, j);
      hide Kept, Answers;
      var b := bs[j];
      if b.ToolUse? {
        if b.id in results {
          kept := kept + [b];
          pending := pending + [results[b.id]];
        }
      } else {
        kept := kept + [b];
      }
    }
    assert bs[..|bs|] == bs;
  }

  /** Any other message keeps everything but results. */
  method DropResults(role: string, results: map<string, Block>, bs: seq<Block>) returns (kept: seq<Block>)
    requires role != "assistant"
    ensures kept == Kept(role, results, bs)
  {
    kept := [];
    for j := 0 to |bs|
      invariant kept == Kept(role, results, bs[..j])
    {
      KeptPush(role, results, bs, j);
      hide Kept, Answers;
      if !bs[j].ToolResult? {
        kept := kept + [bs[j]];
      }
    }
    assert bs[..|bs|] == bs;
  }

  method RebuildMessage(results: map<string, Block>, m: Message) returns (out: seq<Message>)
    ensures out == Rebuild(results, m)
  {
    hide Kept, Answers, BlocksOf;
    var bs := AnthropicBlocks(m.content);
    var kept: seq<Block>, pending: seq<Block> := [], [];
    if m.role == "assistant" {
      kept, pending := KeepAnswered(results, bs);
    } else {
      kept := DropResults(m.role, results, bs);
    }
    if kept == [] {
      return [];
    }
    out := [Message(m.role, Blocks(kept))];
    if pending != [] {
      out := out + [Message("user", Blocks(pending))];
    }
  }

  lemma {:induction false} NothingToRepair()
    ensures Normalized([]) == []
  {
    assert Merged([]) == [];
  }

  method NormalizeMessages(ms: seq<Message>) returns (out: seq<Message>)
    ensures out == Normalized(ms)
  {
    hide Rebuild, Results, HasTools, MergeInto, Tagged;
    if ms == [] {
      NothingToRepair();
      return [];
    }
    var merged := MergeConsecutive(ms);
    var tools := HasToolInteraction(merged);
    if !tools {
      return merged;
    }
    var results := IndexResults(merged);
    var rebuilt: seq<Message> := [];
    for i := 0 to |merged|
      invariant rebuilt == RebuildAll(results, merged[..i])
    {
      assert merged[..i + 1][..i] == merged[..i];
      var some := RebuildMessage(results, merged[i]);
      rebuilt := rebuilt + some;
    }
    assert merged[..|merged|] == merged;
    out := MergeConsecutive(rebuilt);
  }
}
