/** What the history repair guarantees, whatever history a client sends. */
module HistoryRepair {
  import opened Normalize

  type Tags = seq<(string, Block)>

  // ----- The invariants of the Anthropic API -----

  function UseIds(bs: seq<Block>): seq<string> {
    if bs == [] then []
    else UseIds(bs[..|bs| - 1]) + (if bs[|bs| - 1].ToolUse? then [bs[|bs| - 1].id] else [])
  }

  function ResultIds(bs: seq<Block>): seq<string> {
    if bs == [] then []
    else ResultIds(bs[..|bs| - 1]) + (if bs[|bs| - 1].ToolResult? then [bs[|bs| - 1].useId] else [])
  }

  /** The calls the history leaves open: those of its last message. */
  function OpenCalls(ms: seq<Message>): seq<string> {
    if ms == [] || ms[|ms| - 1].role != "assistant" then [] else UseIds(BlocksOf(ms[|ms| - 1].content))
  }

  /** The results in `bs` are exactly the answers to `ids`, in order, and they come first. */
  predicate AnswersFirst(ids: seq<string>, bs: seq<Block>) {
    && ResultIds(bs) == ids
    && |ids| <= |bs|
    && forall k :: 0 <= k < |ids| ==> bs[k].ToolResult?
  }

  predicate Fits(ms: seq<Message>, m: Message) {
    var bs := BlocksOf(m.content);
    && (ms != [] ==> ms[|ms| - 1].role != m.role)
    && (OpenCalls(ms) != [] ==> m.role == "user")
    && (m.role != "assistant" ==> AnswersFirst(OpenCalls(ms), bs))
  }

  predicate Consistent(ms: seq<Message>) {
    ms != [] ==> Consistent(ms[..|ms| - 1]) && Fits(ms[..|ms| - 1], ms[|ms| - 1])
  }

  /**
   * Roles alternate; the calls of an assistant message are answered at the head of the very next user
   * message, in order; and no message but an assistant's holds any other result.
   */
  predicate WellPaired(ms: seq<Message>) {
    Consistent(ms) && OpenCalls(ms) == []
  }

  /** No result in an assistant message, no call in any other. */
  predicate Misplaced(p: (string, Block)) {
    if p.0 == "assistant" then p.1.ToolResult? else p.1.ToolUse?
  }

  ghost predicate WellPlaced(ms: seq<Message>) {
    forall p :: p in Tagged(ms) ==> !Misplaced(p)
  }

  /** The three invariants of the API: well paired, with calls and results only where they belong. */
  ghost predicate Acceptable(ms: seq<Message>) {
    WellPaired(ms) && WellPlaced(ms)
  }

  // ----- What is conserved -----

  /** Everything but calls of assistant messages and results in the others. */
  predicate Survives(p: (string, Block)) {
    if p.0 == "assistant" then !p.1.ToolUse? else !p.1.ToolResult?
  }

  function Survivors(tags: Tags): Tags {
    if tags == [] then []
    else Survivors(tags[..|tags| - 1]) + (if Survives(tags[|tags| - 1]) then [tags[|tags| - 1]] else [])
  }

  predicate IsCall(p: (string, Block)) {
    p.0 == "assistant" && p.1.ToolUse?
  }

  function Calls(tags: Tags): seq<Block> {
    if tags == [] then []
    else Calls(tags[..|tags| - 1]) + (if IsCall(tags[|tags| - 1]) then [tags[|tags| - 1].1] else [])
  }

  function AnsweredIn(results: map<string, Block>, calls: seq<Block>): seq<Block> {
    if calls == [] then []
    else
      var b := calls[|calls| - 1];
      AnsweredIn(results, calls[..|calls| - 1]) + (if b.ToolUse? && b.id in results then [b] else [])
  }

  // ----- Sequences of tags -----

  lemma {:induction false} TagConcat(role: string, a: seq<Block>, b: seq<Block>)
    ensures Tag(role, a + b) == Tag(role, a) + Tag(role, b)
  {
  }

  lemma {:induction false} TaggedConcat(a: seq<Message>, b: seq<Message>)
    ensures Tagged(a + b) == Tagged(a) + Tagged(b)
  {
    if b == [] {
      assert a + b == a;
    } else {
      var front, m := b[..|b| - 1], b[|b| - 1];
      TaggedConcat(a, front);
      assert (a + b)[..|a + b| - 1] == a + front && (a + b)[|a + b| - 1] == m;
      assert Tagged(a) + (Tagged(front) + Tag(m.role, BlocksOf(m.content))) == (Tagged(a) + Tagged(front)) + Tag(m.role, BlocksOf(m.content));
    }
  }

  lemma {:induction false} SurvivorsConcat(a: Tags, b: Tags)
    ensures Survivors(a + b) == Survivors(a) + Survivors(b)
  {
    if b == [] {
      assert a + b == a;
    } else {
      SurvivorsConcat(a, b[..|b| - 1]);
      assert (a + b)[..|a + b| - 1] == a + b[..|b| - 1];
    }
  }

  lemma {:induction false} CallsConcat(a: Tags, b: Tags)
    ensures Calls(a + b) == Calls(a) + Calls(b)
  {
    if b == [] {
      assert a + b == a;
    } else {
      CallsConcat(a, b[..|b| - 1]);
      assert (a + b)[..|a + b| - 1] == a + b[..|b| - 1];
    }
  }

  lemma {:induction false} AnsweredConcat(results: map<string, Block>, a: seq<Block>, b: seq<Block>)
    ensures AnsweredIn(results, a + b) == AnsweredIn(results, a) + AnsweredIn(results, b)
  {
    if b == [] {
      assert a + b == a;
    } else {
      AnsweredConcat(results, a, b[..|b| - 1]);
      assert (a + b)[..|a + b| - 1] == a + b[..|b| - 1];
    }
  }

  lemma {:induction false} UseIdsConcat(a: seq<Block>, b: seq<Block>)
    ensures UseIds(a + b) == UseIds(a) + UseIds(b)
  {
    if b == [] {
      assert a + b == a;
    } else {
      UseIdsConcat(a, b[..|b| - 1]);
      assert (a + b)[..|a + b| - 1] == a + b[..|b| - 1];
    }
  }

  lemma {:induction false} ResultIdsConcat(a: seq<Block>, b: seq<Block>)
    ensures ResultIds(a + b) == ResultIds(a) + ResultIds(b)
  {
    if b == [] {
      assert a + b == a;
    } else {
      ResultIdsConcat(a, b[..|b| - 1]);
      assert (a + b)[..|a + b| - 1] == a + b[..|b| - 1];
    }
  }

  // ----- Merging keeps every block under its role -----

  lemma {:induction false} TaggedOne(m: Message)
    ensures Tagged([m]) == Tag(m.role, BlocksOf(m.content))
  {
    assert [m][..0] == [];
  }

  lemma {:induction false} TaggedMergeInto(out: seq<Message>, m: Message)
    ensures Tagged(MergeInto(out, m)) == Tagged(out) + Tag(m.role, BlocksOf(m.content))
  {
    if out != [] && out[|out| - 1].role == m.role {
      var front, prev := out[..|out| - 1], out[|out| - 1];
      var both := Message(m.role, Blocks(BlocksOf(prev.content) + BlocksOf(m.content)));
      assert MergeInto(out, m) == front + [both];
      assert out == front + [prev];
      hide MergeInto;
      TaggedPushed(front, both);
      TaggedPushed(front, prev);
      hide Tagged;
      TagConcat(m.role, BlocksOf(prev.content), BlocksOf(m.content));
      hide Tag;
      var x, y, z := Tagged(front), Tag(m.role, BlocksOf(prev.content)), Tag(m.role, BlocksOf(m.content));
      assert (x + y) + z == x + (y + z);
    } else {
      TaggedPushed(out, m);
    }
  }

  lemma {:induction false} TaggedPushed(front: seq<Message>, m: Message)
    ensures Tagged(front + [m]) == Tagged(front) + Tag(m.role, BlocksOf(m.content))
  {
    assert (front + [m])[..|front|] == front;
  }

  lemma {:induction false} TaggedMergeAll(out: seq<Message>, ms: seq<Message>)
    ensures Tagged(MergeAll(out, ms)) == Tagged(out) + Tagged(ms)
  {
    hide MergeInto;
    if ms != [] {
      TaggedMergeAll(out, ms[..|ms| - 1]);
      TaggedMergeInto(MergeAll(out, ms[..|ms| - 1]), ms[|ms| - 1]);
    }
  }

  lemma {:induction false} MergeAllConcat(out: seq<Message>, a: seq<Message>, b: seq<Message>)
    ensures MergeAll(out, a + b) == MergeAll(MergeAll(out, a), b)
  {
    if b == [] {
      assert a + b == a;
    } else {
      MergeAllConcat(out, a, b[..|b| - 1]);
      assert (a + b)[..|a + b| - 1] == a + b[..|b| - 1];
    }
  }

  predicate Alternating(ms: seq<Message>) {
    forall i :: 0 <= i < |ms| - 1 ==> ms[i].role != ms[i + 1].role
  }

  lemma {:induction false} MergedAlternates(ms: seq<Message>)
    ensures Alternating(Merged(ms))
  {
    if ms != [] {
      MergedAlternates(ms[..|ms| - 1]);
    }
  }

  lemma {:induction false} AlternatingIsMerged(ms: seq<Message>)
    requires Alternating(ms)
    ensures Merged(ms) == ms
  {
    if ms != [] {
      var front := ms[..|ms| - 1];
      AlternatingIsMerged(front);
      assert ms == front + [ms[|ms| - 1]];
      assert front != [] ==> ms[|front| - 1].role != ms[|front|].role;
    }
  }

  // ----- The index of results -----

  predicate AnswersId(b: Block, id: string) {
    b.ToolResult? && b.useId == id
  }

  ghost predicate LastAt(tags: Tags, i: int, id: string) {
    && 0 <= i < |tags| && AnswersId(tags[i].1, id)
    && forall j :: i < j < |tags| ==> !AnswersId(tags[j].1, id)
  }

  /** `b` is the last result in `tags` that answers `id`. */
  ghost predicate IsLastResult(tags: Tags, id: string, b: Block) {
    exists i :: LastAt(tags, i, id) && tags[i].1 == b
  }

  lemma {:induction false} ResultsAreLast(tags: Tags)
    ensures forall id :: id in Results(tags) ==> id != "" && IsLastResult(tags, id, Results(tags)[id])
    ensures forall p :: p in tags && p.1.ToolResult? && p.1.useId != "" ==> p.1.useId in Results(tags)
  {
    if tags != [] {
      var front, p := tags[..|tags| - 1], tags[|tags| - 1];
      ResultsAreLast(front);
      assert tags == front + [p];
      forall id | id in Results(tags)
        ensures id != "" && IsLastResult(tags, id, Results(tags)[id])
      {
        LastPush(front, p, id);
      }
      hide IsLastResult;
    }
  }

  lemma {:induction false} LastPush(front: Tags, p: (string, Block), id: string)
    requires id in Results(front) ==> id != "" && IsLastResult(front, id, Results(front)[id])
    requires id in Results(front + [p])
    ensures id != "" && IsLastResult(front + [p], id, Results(front + [p])[id])
  {
    var tags := front + [p];
    assert tags[..|front|] == front && tags[|front|] == p;
    if p.1.ToolResult? && p.1.useId == id != "" {
      assert Results(tags)[id] == p.1;
      hide Results;
      assert LastAt(tags, |front|, id) && tags[|front|].1 == p.1;
    } else {
      assert Results(tags)[id] == Results(front)[id];
      hide Results;
      StillLast(front, p, id, Results(front)[id]);
    }
  }

  lemma {:induction false} StillLast(tags: Tags, p: (string, Block), id: string, b: Block)
    requires IsLastResult(tags, id, b) && !AnswersId(p.1, id)
    ensures IsLastResult(tags + [p], id, b)
  {
    var i :| LastAt(tags, i, id) && tags[i].1 == b;
    assert LastAt(tags + [p], i, id);
  }

  /** Every entry is a result filed under its own, non-empty id. */
  predicate Filed(results: map<string, Block>) {
    forall id :: id in results ==> id != "" && results[id].ToolResult? && results[id].useId == id
  }

  lemma {:induction false} ResultsFiled(tags: Tags)
    ensures Filed(Results(tags))
  {
    ResultsAreLast(tags);
  }

  // ----- Conservation through the rebuild -----

  lemma {:induction false} OneTag(role: string, results: map<string, Block>, b: Block)
    ensures Tag(role, [b]) == [(role, b)]
    ensures Survivors([(role, b)]) == if Survives((role, b)) then [(role, b)] else []
    ensures Calls([(role, b)]) == if IsCall((role, b)) then [b] else []
    ensures AnsweredIn(results, Calls([(role, b)])) == if IsCall((role, b)) && b.id in results then [b] else []
  {
    assert [(role, b)][..0] == [] && [b][..0] == [];
  }

  function KeptOne(role: string, results: map<string, Block>, b: Block): seq<Block> {
    if KeptBy(role, results, b) then [b] else []
  }

  lemma {:induction false} KeptStep(role: string, results: map<string, Block>, bs: seq<Block>)
    requires bs != []
    ensures Kept(role, results, bs) == Kept(role, results, bs[..|bs| - 1]) + KeptOne(role, results, bs[|bs| - 1])
  {
  }

  lemma {:induction false} OneConserves(role: string, results: map<string, Block>, b: Block)
    ensures Survivors(Tag(role, KeptOne(role, results, b))) == Survivors(Tag(role, [b]))
    ensures Calls(Tag(role, KeptOne(role, results, b))) == AnsweredIn(results, Calls(Tag(role, [b])))
  {
    OneTag(role, results, b);
    assert Tag(role, []) == [];
  }

  lemma {:induction false} KeptConserves(role: string, results: map<string, Block>, bs: seq<Block>)
    ensures Survivors(Tag(role, Kept(role, results, bs))) == Survivors(Tag(role, bs))
    ensures Calls(Tag(role, Kept(role, results, bs))) == AnsweredIn(results, Calls(Tag(role, bs)))
  {
    if bs == [] {
      assert Tag(role, []) == [];
    } else {
      hide *;
      var front, b := bs[..|bs| - 1], bs[|bs| - 1];
      KeptConserves(role, results, front);
      KeptStep(role, results, bs);
      OneConserves(role, results, b);
      TagPushed(role, front, [b]);
      assert bs == front + [b];
      TagPushed(role, Kept(role, results, front), KeptOne(role, results, b));
      AnsweredConcat(results, Calls(Tag(role, front)), Calls(Tag(role, [b])));
    }
  }

  lemma {:induction false} TagPushed(role: string, a: seq<Block>, b: seq<Block>)
    ensures Survivors(Tag(role, a + b)) == Survivors(Tag(role, a)) + Survivors(Tag(role, b))
    ensures Calls(Tag(role, a + b)) == Calls(Tag(role, a)) + Calls(Tag(role, b))
  {
    hide Survivors, Calls;
    TagConcat(role, a, b);
    SurvivorsConcat(Tag(role, a), Tag(role, b));
    CallsConcat(Tag(role, a), Tag(role, b));
  }

  lemma {:induction false} AnswersPush(results: map<string, Block>, front: seq<Block>, b: Block)
    ensures Answers(results, front + [b]) == Answers(results, front) + AnswerOne(results, b)
  {
    assert (front + [b])[..|front|] == front;
  }

  /** The answer to one block. */
  function AnswerOne(results: map<string, Block>, b: Block): seq<Block> {
    if b.ToolUse? && b.id in results then [results[b.id]] else []
  }

  lemma {:induction false} NothingAnswered(results: map<string, Block>)
    ensures Answers(results, []) == Kept("assistant", results, []) == []
    ensures UseIds([]) == ResultIds([]) == []
  {
  }

  lemma {:induction false} OneAnswer(results: map<string, Block>, b: Block)
    requires Filed(results)
    ensures forall x :: x in AnswerOne(results, b) ==> x.ToolResult? && x.useId in results && x == results[x.useId]
    ensures ResultIds(AnswerOne(results, b)) == UseIds(KeptOne("assistant", results, b))
    ensures UseIds(AnswerOne(results, b)) == []
    ensures AnswerOne(results, b) != [] ==> KeptOne("assistant", results, b) != []
  {
    NothingAnswered(results);
    IdsOfOne(b);
    if b.ToolUse? && b.id in results {
      IdsOfOne(results[b.id]);
    }
    hide UseIds, ResultIds;
  }

  lemma {:induction false} IdsOfOne(b: Block)
    ensures UseIds([b]) == if b.ToolUse? then [b.id] else []
    ensures ResultIds([b]) == if b.ToolResult? then [b.useId] else []
  {
    assert [b][..0] == [];
  }

  lemma {:induction false} AnswersAreResults(results: map<string, Block>, bs: seq<Block>)
    requires Filed(results)
    ensures forall b :: b in Answers(results, bs) ==> b.ToolResult? && b.useId in results && b == results[b.useId]
    ensures ResultIds(Answers(results, bs)) == UseIds(Kept("assistant", results, bs))
    ensures UseIds(Answers(results, bs)) == []
    ensures Answers(results, bs) != [] ==> Kept("assistant", results, bs) != []
  {
    hide *;
    NothingAnswered(results);
    if bs != [] {
      var front, b := bs[..|bs| - 1], bs[|bs| - 1];
      assert bs == front + [b];
      AnswersAreResults(results, front);
      AnswersPush(results, front, b);
      KeptStep("assistant", results, bs);
      OneAnswer(results, b);
      var af, ao := Answers(results, front), AnswerOne(results, b);
      ResultIdsConcat(af, ao);
      UseIdsConcat(af, ao);
      UseIdsConcat(Kept("assistant", results, front), KeptOne("assistant", results, b));
      assert forall x :: x in af + ao ==> x in af || x in ao;
    }
  }

  lemma {:induction false} AnswersVanish(bs: seq<Block>)
    requires forall b :: b in bs ==> b.ToolResult?
    ensures Survivors(Tag("user", bs)) == [] && Calls(Tag("user", bs)) == []
  {
    if bs != [] {
      AnswersVanish(bs[..|bs| - 1]);
      assert Tag("user", bs)[..|bs| - 1] == Tag("user", bs[..|bs| - 1]);
    }
  }

  lemma {:induction false} RebuildConserves(results: map<string, Block>, m: Message)
    requires Filed(results)
    ensures Survivors(Tagged(Rebuild(results, m))) == Survivors(Tag(m.role, BlocksOf(m.content)))
    ensures Calls(Tagged(Rebuild(results, m))) == AnsweredIn(results, Calls(Tag(m.role, BlocksOf(m.content))))
  {
    var bs := BlocksOf(m.content);
    var kept := Kept(m.role, results, bs);
    KeptConserves(m.role, results, bs);
    if kept != [] {
      var first := Message(m.role, Blocks(kept));
      TaggedOne(first);
      var pending := if m.role == "assistant" then Answers(results, bs) else [];
      if pending != [] {
        AnswersAreResults(results, bs);
        AnswersVanish(pending);
        var second := Message("user", Blocks(pending));
        TaggedOne(second);
        TaggedConcat([first], [second]);
        SurvivorsConcat(Tagged([first]), Tagged([second]));
        CallsConcat(Tagged([first]), Tagged([second]));
      }
    }
  }

  lemma {:induction false} RebuildAllConserves(results: map<string, Block>, ms: seq<Message>)
    requires Filed(results)
    ensures Survivors(Tagged(RebuildAll(results, ms))) == Survivors(Tagged(ms))
    ensures Calls(Tagged(RebuildAll(results, ms))) == AnsweredIn(results, Calls(Tagged(ms)))
  {
    if ms != [] {
      var front, m := ms[..|ms| - 1], ms[|ms| - 1];
      RebuildAllConserves(results, front);
      RebuildConserves(results, m);
      TaggedConcat(RebuildAll(results, front), Rebuild(results, m));
      var tags := Tag(m.role, BlocksOf(m.content));
      SurvivorsConcat(Tagged(RebuildAll(results, front)), Tagged(Rebuild(results, m)));
      SurvivorsConcat(Tagged(front), tags);
      CallsConcat(Tagged(RebuildAll(results, front)), Tagged(Rebuild(results, m)));
      CallsConcat(Tagged(front), tags);
      AnsweredConcat(results, Calls(Tagged(front)), Calls(tags));
    }
  }

  lemma {:induction false} NoToolsNoCalls(tags: Tags)
    requires forall p :: p in tags ==> !IsTool(p.1)
    ensures Calls(tags) == []
  {
    if tags != [] {
      NoToolsNoCalls(tags[..|tags| - 1]);
    }
  }

  /**
   * The repair loses and invents nothing but tool traffic: all other blocks keep their order and role,
   * and of the calls exactly those with an answer somewhere in the history are kept, in order.
   */
  lemma {:induction false} Conservation(ms: seq<Message>)
    ensures Survivors(Tagged(Normalized(ms))) == Survivors(Tagged(ms))
    ensures Calls(Tagged(Normalized(ms))) == AnsweredIn(Results(Tagged(ms)), Calls(Tagged(ms)))
  {
    var merged := Merged(ms);
    TaggedMergeAll([], ms);
    assert Tagged(merged) == Tagged(ms);
    if HasTools(merged) {
      var results := Results(Tagged(merged));
      ResultsFiled(Tagged(merged));
      RebuildAllConserves(results, merged);
      TaggedMergeAll([], RebuildAll(results, merged));
      assert [] + Tagged(RebuildAll(results, merged)) == Tagged(RebuildAll(results, merged));
    } else {
      NoToolsNoCalls(Tagged(ms));
    }
  }

  // ----- The invariants through the second merge -----

  lemma {:induction false} AllResults(bs: seq<Block>)
    requires forall b :: b in bs ==> b.ToolResult?
    ensures |ResultIds(bs)| == |bs| && UseIds(bs) == []
  {
    if bs != [] {
      AllResults(bs[..|bs| - 1]);
    }
  }

  lemma {:induction false} ConsistentPush(ms: seq<Message>, m: Message)
    ensures Consistent(ms + [m]) <==> Consistent(ms) && Fits(ms, m)
    ensures OpenCalls(ms + [m]) == if m.role == "assistant" then UseIds(BlocksOf(m.content)) else []
  {
    assert (ms + [m])[..|ms|] == ms;
  }

  /** Merging into the last message replaces it by a longer one. */
  lemma {:induction false} MergeIntoLast(out: seq<Message>, m: Message)
    requires out != [] && out[|out| - 1].role == m.role
    ensures MergeInto(out, m) ==
            out[..|out| - 1] + [Message(m.role, Blocks(BlocksOf(out[|out| - 1].content) + BlocksOf(m.content)))]
    ensures out == out[..|out| - 1] + [out[|out| - 1]]
  {
  }

  /** A message that fits still fits with more blocks that carry no result, or any if it is a caller. */
  lemma {:induction false} FitsLonger(front: seq<Message>, m: Message, more: seq<Block>)
    requires Fits(front, m) && (m.role != "assistant" ==> ResultIds(more) == [])
    ensures Fits(front, Message(m.role, Blocks(BlocksOf(m.content) + more)))
    ensures UseIds(BlocksOf(m.content) + more) == UseIds(BlocksOf(m.content)) + UseIds(more)
  {
    var bs := BlocksOf(m.content);
    UseIdsConcat(bs, more);
    ResultIdsConcat(bs, more);
    hide UseIds, ResultIds, OpenCalls;
    assert ResultIds(bs) + [] == ResultIds(bs);
    assert forall k :: 0 <= k < |bs| ==> (bs + more)[k] == bs[k];
  }

  lemma {:induction false} MergeLonger(out: seq<Message>, m: Message)
    requires WellPaired(out) && out != [] && out[|out| - 1].role == m.role
    requires m.role != "assistant" ==> ResultIds(BlocksOf(m.content)) == []
    ensures Consistent(MergeInto(out, m))
    ensures OpenCalls(MergeInto(out, m)) == if m.role == "assistant" then UseIds(BlocksOf(m.content)) else []
    ensures MergeInto(out, m) != [] && MergeInto(out, m)[|MergeInto(out, m)| - 1].role == m.role
  {
    var front, prev, bs := out[..|out| - 1], out[|out| - 1], BlocksOf(m.content);
    var t := Message(m.role, Blocks(BlocksOf(prev.content) + bs));
    MergeIntoLast(out, m);
    ConsistentPush(front, prev);
    ConsistentPush(front, t);
    hide Fits, Consistent, UseIds, ResultIds, MergeInto, OpenCalls;
    FitsLonger(front, prev, bs);
    assert [] + UseIds(bs) == UseIds(bs);
  }

  lemma {:induction false} MergeOther(out: seq<Message>, m: Message)
    requires WellPaired(out) && m.role != "assistant"
    requires ResultIds(BlocksOf(m.content)) == []
    ensures WellPaired(MergeInto(out, m))
  {
    if out != [] && out[|out| - 1].role == m.role {
      MergeLonger(out, m);
    } else {
      ConsistentPush(out, m);
      hide Consistent, UseIds, ResultIds, OpenCalls;
    }
  }

  lemma {:induction false} MergeAssistant(out: seq<Message>, m: Message)
    requires WellPaired(out) && m.role == "assistant"
    ensures Consistent(MergeInto(out, m)) && OpenCalls(MergeInto(out, m)) == UseIds(BlocksOf(m.content))
    ensures MergeInto(out, m) != [] && MergeInto(out, m)[|MergeInto(out, m)| - 1].role == "assistant"
  {
    if out != [] && out[|out| - 1].role == m.role {
      MergeLonger(out, m);
    } else {
      ConsistentPush(out, m);
      hide Consistent, UseIds, ResultIds, OpenCalls;
    }
  }

  lemma {:induction false} MergeAnswers(out: seq<Message>, pending: seq<Block>)
    requires Consistent(out) && out != [] && out[|out| - 1].role == "assistant"
    requires forall b :: b in pending ==> b.ToolResult?
    requires ResultIds(pending) == OpenCalls(out)
    ensures WellPaired(MergeInto(out, Message("user", Blocks(pending))))
  {
    AllResults(pending);
    ConsistentPush(out, Message("user", Blocks(pending)));
    hide Consistent, UseIds, ResultIds, OpenCalls;
  }

  lemma {:induction false} KeptResults(role: string, results: map<string, Block>, bs: seq<Block>)
    ensures role != "assistant" ==> ResultIds(Kept(role, results, bs)) == []
  {
    if bs != [] {
      var front, b := bs[..|bs| - 1], bs[|bs| - 1];
      KeptResults(role, results, front);
      var kf, k := Kept(role, results, front), Kept(role, results, bs);
      if KeptBy(role, results, b) {
        assert k == kf + [b] && k[..|kf|] == kf;
      } else {
        assert k == kf;
      }
    }
  }

  lemma {:induction false} RebuildPaired(out: seq<Message>, results: map<string, Block>, m: Message)
    requires WellPaired(out) && Filed(results)
    ensures WellPaired(MergeAll(out, Rebuild(results, m)))
  {
    var bs := BlocksOf(m.content);
    var kept := Kept(m.role, results, bs);
    KeptResults(m.role, results, bs);
    if kept != [] {
      var first := Message(m.role, Blocks(kept));
      MergeAllOne(out, first);
      if m.role == "assistant" {
        MergeAssistant(out, first);
        AnswersAreResults(results, bs);
        var pending := Answers(results, bs);
        if pending != [] {
          var second := Message("user", Blocks(pending));
          MergeAnswers(MergeInto(out, first), pending);
          MergeAllConcat(out, [first], [second]);
          MergeAllOne(MergeInto(out, first), second);
        }
      } else {
        MergeOther(out, first);
      }
    }
  }

  lemma {:induction false} MergeAllOne(out: seq<Message>, m: Message)
    ensures MergeAll(out, [m]) == MergeInto(out, m)
  {
    assert [m][..0] == [];
  }

  lemma {:induction false} RebuildAllPaired(results: map<string, Block>, ms: seq<Message>)
    requires Filed(results)
    ensures WellPaired(Merged(RebuildAll(results, ms)))
  {
    if ms != [] {
      var front, m := ms[..|ms| - 1], ms[|ms| - 1];
      RebuildAllPaired(results, front);
      RebuildPaired(Merged(RebuildAll(results, front)), results, m);
      MergeAllConcat([], RebuildAll(results, front), Rebuild(results, m));
    }
  }

  // ----- What sat under the wrong role stays there -----

  lemma {:induction false} MisplacedSurvive(tags: Tags)
    ensures (exists p :: p in tags && Misplaced(p)) <==> (exists p :: p in Survivors(tags) && Misplaced(p))
  {
    if tags != [] {
      var front, p := tags[..|tags| - 1], tags[|tags| - 1];
      MisplacedSurvive(front);
      assert tags == front + [p];
      if q :| q in tags && Misplaced(q) {
        if q in front {
          assert exists r :: r in Survivors(front) && Misplaced(r);
        } else {
          assert q in Survivors(tags);
        }
      }
      if q :| q in Survivors(tags) && Misplaced(q) {
        if q in Survivors(front) {
          assert exists r :: r in front && Misplaced(r);
        } else {
          assert q in tags;
        }
      }
    }
  }

  lemma {:induction false} UntooledPaired(ms: seq<Message>)
    requires Alternating(ms) && forall p :: p in Tagged(ms) ==> !IsTool(p.1)
    ensures WellPaired(ms)
  {
    if ms != [] {
      var front, m := ms[..|ms| - 1], ms[|ms| - 1];
      var bs := BlocksOf(m.content);
      assert Tagged(ms) == Tagged(front) + Tag(m.role, bs);
      assert front != [] ==> ms[|front| - 1].role != ms[|front|].role;
      UntooledPaired(front);
      forall b | b in bs
        ensures !IsTool(b)
      {
        var i :| 0 <= i < |bs| && bs[i] == b;
        assert Tag(m.role, bs)[i] in Tagged(ms);
      }
      NoToolsNoIds(bs);
    }
  }

  lemma {:induction false} NoToolsNoIds(bs: seq<Block>)
    requires forall b :: b in bs ==> !IsTool(b)
    ensures UseIds(bs) == [] && ResultIds(bs) == []
  {
    if bs != [] {
      assert bs[|bs| - 1] in bs;
      NoToolsNoIds(bs[..|bs| - 1]);
    }
  }

  lemma {:induction false} MergedTags(ms: seq<Message>)
    ensures Tagged(Merged(ms)) == Tagged(ms)
  {
    TaggedMergeAll([], ms);
    assert [] + Tagged(ms) == Tagged(ms);
  }

  /** Every repaired history, whatever it was, pairs the calls of its assistant messages with their answers. */
  lemma {:induction false} AlwaysPaired(ms: seq<Message>)
    ensures WellPaired(Normalized(ms))
  {
    var merged := Merged(ms);
    MergedAlternates(ms);
    if HasTools(merged) {
      ResultsFiled(Tagged(merged));
      RebuildAllPaired(Results(Tagged(merged)), merged);
    } else {
      UntooledPaired(merged);
    }
  }

  /** It meets the API's three invariants exactly when nothing sat under the wrong role to begin with. */
  lemma {:induction false} AcceptableIff(ms: seq<Message>)
    ensures Acceptable(Normalized(ms)) <==> WellPlaced(ms)
  {
    AlwaysPaired(ms);
    Conservation(ms);
    MisplacedSurvive(Tagged(Normalized(ms)));
    MisplacedSurvive(Tagged(ms));
    hide Normalized, Consistent, Tagged, Survivors;
    assert WellPlaced(Normalized(ms)) <==> !exists p :: p in Tagged(Normalized(ms)) && Misplaced(p);
    assert WellPlaced(ms) <==> !exists p :: p in Tagged(ms) && Misplaced(p);
  }

  // ----- The answers, and repairing twice -----

  /** Contents are non-empty block lists, and every answer outside assistant messages is the one filed under its id. */
  ghost predicate Tidy(results: map<string, Block>, ms: seq<Message>) {
    forall m :: m in ms ==> TidyMessage(results, m)
  }

  ghost predicate TidyMessage(results: map<string, Block>, m: Message) {
    m.content.Blocks? && m.content.blocks != [] && (m.role != "assistant" ==> AllFiled(results, m.content.blocks))
  }

  ghost predicate AllFiled(results: map<string, Block>, bs: seq<Block>) {
    forall b :: b in bs && b.ToolResult? ==> b.useId in results && b == results[b.useId]
  }

  lemma {:induction false} MergeTidy(results: map<string, Block>, out: seq<Message>, m: Message)
    requires Tidy(results, out) && TidyMessage(results, m)
    ensures Tidy(results, MergeInto(out, m))
  {
    if out != [] && out[|out| - 1].role == m.role {
      var prev := out[|out| - 1];
      assert prev in out;
      var bs := BlocksOf(prev.content) + BlocksOf(m.content);
      assert bs != [] by {
        assert bs[0] == prev.content.blocks[0];
      }
      assert TidyMessage(results, Message(m.role, Blocks(bs)));
    }
  }

  lemma {:induction false} KeptOf(role: string, results: map<string, Block>, bs: seq<Block>)
    ensures forall b :: b in Kept(role, results, bs) ==> b in bs && KeptBy(role, results, b)
  {
    if bs != [] {
      KeptOf(role, results, bs[..|bs| - 1]);
    }
  }

  lemma {:induction false} RebuildTidy(out: seq<Message>, results: map<string, Block>, m: Message)
    requires Tidy(results, out) && Filed(results)
    ensures Tidy(results, MergeAll(out, Rebuild(results, m)))
  {
    var bs := BlocksOf(m.content);
    var kept := Kept(m.role, results, bs);
    KeptOf(m.role, results, bs);
    if kept != [] {
      var first := Message(m.role, Blocks(kept));
      assert m.role != "assistant" ==> forall b :: b in kept ==> !b.ToolResult?;
      MergeTidy(results, out, first);
      MergeAllOne(out, first);
      var pending := if m.role == "assistant" then Answers(results, bs) else [];
      if pending != [] {
        AnswersAreResults(results, bs);
        var second := Message("user", Blocks(pending));
        MergeTidy(results, MergeInto(out, first), second);
        MergeAllConcat(out, [first], [second]);
        MergeAllOne(MergeInto(out, first), second);
      }
    }
  }

  lemma {:induction false} RebuildAllTidy(results: map<string, Block>, ms: seq<Message>)
    requires Filed(results)
    ensures Tidy(results, Merged(RebuildAll(results, ms)))
  {
    if ms != [] {
      var front, m := ms[..|ms| - 1], ms[|ms| - 1];
      RebuildAllTidy(results, front);
      RebuildTidy(Merged(RebuildAll(results, front)), results, m);
      MergeAllConcat([], RebuildAll(results, front), Rebuild(results, m));
    }
  }

  /** A result outside assistant messages. */
  predicate IsAnswer(p: (string, Block)) {
    p.0 != "assistant" && p.1.ToolResult?
  }

  lemma {:induction false} TidyTags(results: map<string, Block>, ms: seq<Message>)
    requires Tidy(results, ms)
    ensures forall p :: p in Tagged(ms) && IsAnswer(p) ==> p.1.useId in results && p.1 == results[p.1.useId]
  {
    if ms != [] {
      assert ms[|ms| - 1] in ms;
      TidyTags(results, ms[..|ms| - 1]);
    }
  }

  /** Each answer in the repaired history is the last one the original history gave for its id. */
  lemma {:induction false} AnswersAreLast(ms: seq<Message>, p: (string, Block))
    requires p in Tagged(Normalized(ms)) && IsAnswer(p)
    ensures IsLastResult(Tagged(ms), p.1.useId, p.1)
  {
    var merged := Merged(ms);
    MergedTags(ms);
    if HasTools(merged) {
      var results := Results(Tagged(merged));
      ResultsFiled(Tagged(merged));
      RebuildAllTidy(results, merged);
      TidyTags(results, Normalized(ms));
      ResultsAreLast(Tagged(ms));
    } else {
      assert IsTool(p.1);
    }
  }
}
