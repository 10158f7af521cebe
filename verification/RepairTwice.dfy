/**
 * When repairing a history twice is repairing it once. The second repair files the results anew, and a
 * result that sits in an assistant message, which the first repair left where it was, may then be filed in
 * place of the answer that was delivered. It is the order of the two in the repaired history that decides,
 * and that order can be read off the original one.
 */
module RepairTwice {
  import opened Wrappers
  import opened Normalize
  import opened HistoryRepair
  import opened Reassembly

  // ----- When repairing again changes nothing -----

  function LastResult(bs: seq<Block>, id: string): Option<Block> {
    if bs == [] then None
    else
      var b := bs[|bs| - 1];
      if b.ToolResult? && b.useId == id then Some(b) else LastResult(bs[..|bs| - 1], id)
  }

  /**
   * The last word on `id` once the history is rebuilt: the answer behind its last call, or a result that
   * sits in a later assistant message.
   */
  function LastWord(results: map<string, Block>, ms: seq<Message>, id: string): Option<Block> {
    if ms == [] then None
    else
      var m := ms[|ms| - 1];
      var bs := BlocksOf(m.content);
      if m.role == "assistant" && id in UseIds(bs) && id in results then Some(results[id])
      else if m.role == "assistant" && LastResult(bs, id).Some? then LastResult(bs, id)
      else LastWord(results, ms[..|ms| - 1], id)
  }

  /** No result in an assistant message overrules the answer of a call before it. */
  ghost predicate Settled(ms: seq<Message>) {
    var results := Results(Tagged(ms));
    forall id :: id in results && HasCall(Tagged(ms), id) ==> LastWord(results, Merged(ms), id) == Some(results[id])
  }

  function Lookup(results: map<string, Block>, id: string): Option<Block> {
    if id in results then Some(results[id]) else None
  }

  lemma {:induction false} ResultsConcat(a: Tags, b: Tags, id: string)
    ensures Lookup(Results(a + b), id) == if id in Results(b) then Some(Results(b)[id]) else Lookup(Results(a), id)
  {
    if b == [] {
      assert a + b == a;
    } else {
      assert (a + b)[..|a + b| - 1] == a + b[..|b| - 1];
      ResultsConcat(a, b[..|b| - 1], id);
    }
  }

  lemma {:induction false} KeptLookup(role: string, results: map<string, Block>, bs: seq<Block>, id: string)
    requires id != ""
    ensures Lookup(Results(Tag(role, Kept(role, results, bs))), id) == if role == "assistant" then LastResult(bs, id) else None
  {
    if bs != [] {
      var front, b := bs[..|bs| - 1], bs[|bs| - 1];
      KeptLookup(role, results, front, id);
      var kf := Kept(role, results, front);
      if KeptBy(role, results, b) {
        TagConcat(role, kf, [b]);
        OneResult(role, b, id);
        ResultsConcat(Tag(role, kf), Tag(role, [b]), id);
      } else {
        assert Kept(role, results, bs) == kf;
      }
    }
  }

  lemma {:induction false} OneResult(role: string, b: Block, id: string)
    requires id != ""
    ensures Lookup(Results(Tag(role, [b])), id) == if b.ToolResult? && b.useId == id then Some(b) else None
  {
    assert Tag(role, [b])[..0] == [];
  }

  lemma {:induction false} AnswersLookup(results: map<string, Block>, bs: seq<Block>, id: string)
    requires id != "" && Filed(results)
    ensures Lookup(Results(Tag("user", Answers(results, bs))), id)
         == if id in UseIds(bs) && id in results then Some(results[id]) else None
  {
    if bs != [] {
      var front, b := bs[..|bs| - 1], bs[|bs| - 1];
      AnswersLookup(results, front, id);
      var af := Answers(results, front);
      if b.ToolUse? && b.id in results {
        TagConcat("user", af, [results[b.id]]);
        OneResult("user", results[b.id], id);
        ResultsConcat(Tag("user", af), Tag("user", [results[b.id]]), id);
      } else {
        assert Answers(results, bs) == af;
      }
    }
  }

  /** What one rebuilt message says about `id`. */
  lemma {:induction false} RebuildLookup(results: map<string, Block>, m: Message, id: string)
    requires id != "" && Filed(results)
    ensures var bs := BlocksOf(m.content);
            && Lookup(Results(Tagged(Rebuild(results, m))), id)
               == if m.role != "assistant" then None
                  else if id in UseIds(bs) && id in results then Some(results[id])
                  else LastResult(bs, id)
  {
    var bs := BlocksOf(m.content);
    var kept, answers := Kept(m.role, results, bs), Answers(results, bs);
    KeptLookup(m.role, results, bs, id);
    AnswersLookup(results, bs, id);
    if kept == [] {
      NoneKept(m.role, results, bs);
    } else {
      var first := Message(m.role, Blocks(kept));
      TaggedOne(first);
      if m.role == "assistant" {
        if answers != [] {
          var second := Message("user", Blocks(answers));
          TaggedConcat([first], [second]);
          TaggedOne(second);
        }
        ResultsConcat(Tag(m.role, kept), Tag("user", answers), id);
        assert answers == [] ==> Tag(m.role, kept) + Tag("user", answers) == Tag(m.role, kept);
      }
    }
  }

  lemma {:induction false} NoneKept(role: string, results: map<string, Block>, bs: seq<Block>)
    requires Kept(role, results, bs) == []
    ensures role == "assistant" ==> Answers(results, bs) == []
  {
    if bs != [] {
      NoneKept(role, results, bs[..|bs| - 1]);
    }
  }

  lemma {:induction false} LastWordIs(results: map<string, Block>, ms: seq<Message>, id: string)
    requires id != "" && Filed(results)
    ensures Lookup(Results(Tagged(RebuildAll(results, ms))), id) == LastWord(results, ms, id)
  {
    if ms != [] {
      var front, m := ms[..|ms| - 1], ms[|ms| - 1];
      LastWordIs(results, front, id);
      RebuildLookup(results, m, id);
      TaggedConcat(RebuildAll(results, front), Rebuild(results, m));
      ResultsConcat(Tagged(RebuildAll(results, front)), Tagged(Rebuild(results, m)), id);
    }
  }

  /** A second index that agrees on the answers reassembles the repaired history as it is. */
  lemma {:induction false} SecondPass(again: map<string, Block>, out: seq<Message>)
    requires WellPaired(out) && Tidy(again, out) && CallsFiled(again, out)
    ensures Merged(RebuildAll(again, out)) == out
  {
    Reassembled(again, out);
    NothingOwed(again, out);
    assert out + [] == out;
  }

  lemma {:induction false} BlockIsTagged(ms: seq<Message>, m: Message, b: Block)
    requires m in ms && b in BlocksOf(m.content)
    ensures (m.role, b) in Tagged(ms)
  {
    var front, last := ms[..|ms| - 1], ms[|ms| - 1];
    if m == last {
      var i :| 0 <= i < |BlocksOf(m.content)| && BlocksOf(m.content)[i] == b;
      assert Tag(m.role, BlocksOf(m.content))[i] == (m.role, b);
    } else {
      assert ms == front + [last];
      BlockIsTagged(front, m, b);
    }
  }

  /** The answers of the repaired history are those of the second index exactly when it is settled. */
  ghost predicate Delivered(again: map<string, Block>, tags: Tags) {
    forall p :: p in tags && IsAnswer(p) ==> p.1.useId in again && again[p.1.useId] == p.1
  }

  lemma {:induction false} DeliveredTidy(results: map<string, Block>, again: map<string, Block>, out: seq<Message>)
    requires Tidy(results, out)
    ensures Tidy(again, out) <==> Delivered(again, Tagged(out))
  {
    if Delivered(again, Tagged(out)) {
      forall m | m in out
        ensures TidyMessage(again, m)
      {
        assert TidyMessage(results, m);
        forall b | b in m.content.blocks && b.ToolResult? && m.role != "assistant"
          ensures b.useId in again && b == again[b.useId]
        {
          BlockIsTagged(out, m, b);
          assert IsAnswer((m.role, b));
        }
      }
    }
    if Tidy(again, out) {
      TidyTags(again, out);
    }
  }

  lemma {:induction false} KeptCalls(results: map<string, Block>, tags: Tags, out: Tags, id: string)
    requires Calls(out) == AnsweredIn(results, Calls(tags))
    ensures HasCall(out, id) <==> HasCall(tags, id) && id in results
  {
    CallsHave(out, id);
    CallsHave(tags, id);
    AnsweredHave(results, Calls(tags), id);
  }

  lemma {:induction false} CallsHave(tags: Tags, id: string)
    ensures HasCall(tags, id) <==> exists b :: b in Calls(tags) && b.ToolUse? && b.id == id
    ensures forall b :: b in Calls(tags) ==> b.ToolUse?
  {
    if tags != [] {
      var front, p := tags[..|tags| - 1], tags[|tags| - 1];
      CallsHave(front, id);
      assert tags == front + [p];
      if HasCall(front, id) {
        var q :| q in front && IsCall(q) && q.1.id == id;
        assert q in tags;
      }
    }
  }

  lemma {:induction false} AnsweredHave(results: map<string, Block>, calls: seq<Block>, id: string)
    requires forall b :: b in calls ==> b.ToolUse?
    ensures (exists b :: b in AnsweredIn(results, calls) && b.ToolUse? && b.id == id)
       <==> id in results && exists b :: b in calls && b.ToolUse? && b.id == id
  {
    if calls != [] {
      var front, b := calls[..|calls| - 1], calls[|calls| - 1];
      assert b in calls;
      AnsweredHave(results, front, id);
      assert calls == front + [b];
    }
  }

  /** The repaired history `out` of the merged history `ms`, in terms of the two indexes. */
  ghost predicate RepairedBy(results: map<string, Block>, again: map<string, Block>, ms: seq<Message>, out: Tags) {
    && Filed(results)
    && (forall id :: id != "" ==> Lookup(again, id) == LastWord(results, ms, id))
    && (forall p :: p in out && IsAnswer(p) ==> p.1.useId in results && p.1 == results[p.1.useId] && HasCall(out, p.1.useId))
    && (forall id :: HasCall(out, id) ==> HasAnswer(out, id))
    && (forall id :: HasCall(out, id) <==> HasCall(Tagged(ms), id) && id in results)
  }

  lemma {:induction false} NormalizedTags(ms: seq<Message>)
    requires HasTools(Merged(ms))
    ensures Tagged(Normalized(ms)) == Tagged(RebuildAll(Results(Tagged(ms)), Merged(ms)))
    ensures Normalized(ms) == Merged(RebuildAll(Results(Tagged(ms)), Merged(ms)))
  {
    MergedTags(ms);
    hide Tagged, Results, RebuildAll, MergeAll, HasTools;
    MergedTags(RebuildAll(Results(Tagged(ms)), Merged(ms)));
  }

  lemma {:induction false} RepairedAnswers(ms: seq<Message>)
    requires HasTools(Merged(ms))
    ensures var results, out := Results(Tagged(ms)), Tagged(Normalized(ms));
            forall p :: p in out && IsAnswer(p) ==> p.1.useId in results && p.1 == results[p.1.useId] && HasCall(out, p.1.useId)
  {
    NormalizedTags(ms);
    ResultsFiled(Tagged(ms));
    hide Tagged, Results, Normalized, RebuildAll, MergeAll, HasTools, HasCall, Consistent;
    RebuildAllTidy(Results(Tagged(ms)), Merged(ms));
    TidyTags(Results(Tagged(ms)), Normalized(ms));
    AlwaysPaired(ms);
    AnswersCalled(Normalized(ms));
  }

  lemma {:induction false} RepairedCalls(ms: seq<Message>)
    ensures forall id :: HasCall(Tagged(Normalized(ms)), id) ==> HasAnswer(Tagged(Normalized(ms)), id)
    ensures forall id :: HasCall(Tagged(Normalized(ms)), id) <==> HasCall(Tagged(Merged(ms)), id) && id in Results(Tagged(ms))
  {
    MergedTags(ms);
    AlwaysPaired(ms);
    Conservation(ms);
    hide Tagged, Results, Normalized, MergeAll, Consistent, Calls, AnsweredIn, Survivors, HasAnswer;
    CallsAnswered(Normalized(ms));
    hide OpenCalls;
    forall id
      ensures HasCall(Tagged(Normalized(ms)), id) <==> HasCall(Tagged(Merged(ms)), id) && id in Results(Tagged(ms))
    {
      KeptCalls(Results(Tagged(ms)), Tagged(ms), Tagged(Normalized(ms)), id);
    }
    forall id | HasCall(Tagged(Normalized(ms)), id)
      ensures HasAnswer(Tagged(Normalized(ms)), id)
    {
      var q :| q in Tagged(Normalized(ms)) && IsCall(q) && q.1.id == id;
    }
  }

  lemma {:induction false} IsRepairedBy(ms: seq<Message>)
    requires HasTools(Merged(ms))
    ensures RepairedBy(Results(Tagged(ms)), Results(Tagged(Normalized(ms))), Merged(ms), Tagged(Normalized(ms)))
  {
    var results := Results(Tagged(ms));
    ResultsFiled(Tagged(ms));
    hide Tagged, Results, Normalized, RebuildAll, MergeAll, HasTools, LastWord, HasCall, HasAnswer, Filed;
    NormalizedTags(ms);
    RepairedAnswers(ms);
    RepairedCalls(ms);
    forall id | id != ""
      ensures Lookup(Results(Tagged(Normalized(ms))), id) == LastWord(results, Merged(ms), id)
    {
      LastWordIs(results, Merged(ms), id);
    }
  }

  lemma {:induction false} RepairedDelivers(results: map<string, Block>, again: map<string, Block>, ms: seq<Message>, out: Tags)
    requires RepairedBy(results, again, ms, out)
    ensures (forall id :: id in results && HasCall(Tagged(ms), id) ==> LastWord(results, ms, id) == Some(results[id]))
       <==> Delivered(again, out)
  {
    hide LastWord, Tagged;
    if Delivered(again, out) {
      forall id | id in results && HasCall(Tagged(ms), id)
        ensures LastWord(results, ms, id) == Some(results[id])
      {
        assert HasCall(out, id) && HasAnswer(out, id);
        assert Lookup(again, id) == LastWord(results, ms, id);
      }
    }
    if forall id :: id in results && HasCall(Tagged(ms), id) ==> LastWord(results, ms, id) == Some(results[id]) {
      forall p | p in out && IsAnswer(p)
        ensures p.1.useId in again && again[p.1.useId] == p.1
      {
        var id := p.1.useId;
        assert HasCall(out, id);
        assert Lookup(again, id) == LastWord(results, ms, id);
      }
    }
  }

  lemma {:induction false} SettledDelivers(ms: seq<Message>)
    requires HasTools(Merged(ms))
    ensures var out := Normalized(ms);
            Settled(ms) <==> Delivered(Results(Tagged(out)), Tagged(out))
  {
    IsRepairedBy(ms);
    MergedTags(ms);
    hide RepairedBy, Delivered, Normalized, Tagged, Results, LastWord, MergeAll;
    RepairedDelivers(Results(Tagged(ms)), Results(Tagged(Normalized(ms))), Merged(ms), Tagged(Normalized(ms)));
  }

  // ----- Main result -----

  /** Repairing a repaired history changes nothing exactly when the original was settled. */
  lemma {:induction false} IdempotentIff(ms: seq<Message>)
    ensures Normalized(Normalized(ms)) == Normalized(ms) <==> Settled(ms)
  {
    var merged, out := Merged(ms), Normalized(ms);
    AlwaysPaired(ms);
    ConsistentAlternates(out);
    AlternatingIsMerged(out);
    if !HasTools(merged) {
      UntooledSettled(ms);
    } else {
      SettledDelivers(ms);
      TooledIff(ms);
    }
  }

  lemma {:induction false} UntooledSettled(ms: seq<Message>)
    requires !HasTools(Merged(ms))
    ensures Settled(ms)
    ensures Normalized(Normalized(ms)) == Normalized(ms) <== Merged(Normalized(ms)) == Normalized(ms)
  {
    MergedTags(ms);
    assert forall p :: p in Tagged(ms) ==> !IsTool(p.1);
    assert forall p :: p in Tagged(ms) ==> !IsCall(p);
  }

  lemma {:induction false} TooledIff(ms: seq<Message>)
    requires HasTools(Merged(ms)) && Merged(Normalized(ms)) == Normalized(ms)
    ensures var out := Normalized(ms);
            Normalized(out) == out <==> Delivered(Results(Tagged(out)), Tagged(out))
  {
    var out := Normalized(ms);
    var results, again := Results(Tagged(Merged(ms))), Results(Tagged(out));
    ResultsFiled(Tagged(Merged(ms)));
    ResultsFiled(Tagged(out));
    RebuildAllTidy(results, Merged(ms));
    AlwaysPaired(ms);
    DeliveredTidy(results, again, out);
    hide Tagged, Results, Consistent, RebuildAll, MergeAll, Tidy;
    if HasTools(out) {
      RebuildAllTidy(again, out);
      if Delivered(again, Tagged(out)) {
        AnsweredFiled(again, out);
        SecondPass(again, out);
      }
    } else {
      forall p | p in Tagged(out)
        ensures !IsTool(p.1)
      {
      }
    }
  }

  lemma {:induction false} AnsweredFiled(again: map<string, Block>, out: seq<Message>)
    requires WellPaired(out) && Delivered(again, Tagged(out))
    ensures CallsFiled(again, out)
  {
    CallsAnswered(out);
    forall p | p in Tagged(out) && IsCall(p)
      ensures p.1.id in again
    {
      assert HasAnswer(Tagged(out), p.1.id);
    }
  }

  /** In particular when no result sits in an assistant message, whatever ids and results are repeated. */
  lemma {:induction false} Idempotent(ms: seq<Message>)
    requires forall p :: p in Tagged(ms) && p.0 == "assistant" ==> !p.1.ToolResult?
    ensures Normalized(Normalized(ms)) == Normalized(ms)
  {
    IdempotentIff(ms);
    MergedTags(ms);
    var results := Results(Tagged(ms));
    forall id | id in results && HasCall(Tagged(ms), id)
      ensures LastWord(results, Merged(ms), id) == Some(results[id])
    {
      OnlyAnswers(results, Merged(ms), id);
    }
  }

  lemma {:induction false} OnlyAnswers(results: map<string, Block>, ms: seq<Message>, id: string)
    requires forall p :: p in Tagged(ms) && p.0 == "assistant" ==> !p.1.ToolResult?
    requires id in results
    ensures LastWord(results, ms, id) == if HasCall(Tagged(ms), id) then Some(results[id]) else None
  {
    if ms != [] {
      var front, m := ms[..|ms| - 1], ms[|ms| - 1];
      var bs := BlocksOf(m.content);
      var tags := Tag(m.role, bs);
      assert Tagged(ms) == Tagged(front) + tags;
      OnlyAnswers(results, front, id);
      UseIdsOf(bs);
      if m.role == "assistant" {
        forall i | 0 <= i < |bs|
          ensures !bs[i].ToolResult?
        {
          assert tags[i] in Tagged(ms);
        }
        NoLastResult(bs, id);
      }
      CallHere(front, m, id);
    }
  }

  lemma {:induction false} NoLastResult(bs: seq<Block>, id: string)
    requires forall i :: 0 <= i < |bs| ==> !bs[i].ToolResult?
    ensures LastResult(bs, id) == None
  {
    if bs != [] {
      NoLastResult(bs[..|bs| - 1], id);
    }
  }

  lemma {:induction false} CallHere(front: seq<Message>, m: Message, id: string)
    ensures HasCall(Tagged(front) + Tag(m.role, BlocksOf(m.content)), id)
       <==> HasCall(Tagged(front), id) || (m.role == "assistant" && id in UseIds(BlocksOf(m.content)))
  {
    var bs := BlocksOf(m.content);
    var tags, all := Tag(m.role, bs), Tagged(front) + Tag(m.role, BlocksOf(m.content));
    UseIdsOf(bs);
    hide Tagged;
    if HasCall(Tagged(front), id) {
      var q :| q in Tagged(front) && IsCall(q) && q.1.id == id;
      assert q in all;
    }
    if m.role == "assistant" && id in UseIds(bs) {
      var c :| c in bs && c.ToolUse? && c.id == id;
      var i :| 0 <= i < |bs| && bs[i] == c;
      assert tags[i] in all;
    }
    if HasCall(all, id) {
      var q :| q in all && IsCall(q) && q.1.id == id;
      assert q !in Tagged(front) ==> q in tags && q.1 in bs;
    }
  }

  /** A result in an assistant message can overrule an answer: then the second repair delivers it instead. */
  lemma {:induction false} Unsettled(use: Block, first: Block, last: Block, note: Block)
    requires use.ToolUse? && first.ToolResult? && last.ToolResult? && note.Text?
    requires use.id == first.useId == last.useId != "" && first != last
    ensures var ms := [Message("assistant", Blocks([use])), Message("user", Blocks([note])),
                       Message("assistant", Blocks([first])), Message("user", Blocks([last]))];
            Normalized(Normalized(ms)) != Normalized(ms)
  {
    var m1, m2 := Message("assistant", Blocks([use])), Message("user", Blocks([note]));
    var m3, m4 := Message("assistant", Blocks([first])), Message("user", Blocks([last]));
    var ms := [m1, m2, m3, m4];
    FourTags(use, note, first, last);
    FourMerged(m1, m2, m3, m4);
    FourResults(use, note, first, last);
    FourWords(Results(Tagged(ms)), m1, m2, m3, m4, use.id, first);
    assert Tagged(ms)[0] in Tagged(ms) && IsCall(Tagged(ms)[0]);
    hide Tagged, Results, LastWord, MergeAll, Normalized;
    assert HasCall(Tagged(ms), use.id);
    IdempotentIff(ms);
  }

  lemma {:induction false} FourMerged(m1: Message, m2: Message, m3: Message, m4: Message)
    requires m1.role == m3.role != m2.role == m4.role
    ensures Merged([m1, m2, m3, m4]) == [m1, m2, m3, m4]
  {
    AlternatingIsMerged([m1, m2, m3, m4]);
  }

  lemma {:induction false} FourResults(a: Block, b: Block, c: Block, d: Block)
    requires d.ToolResult? && d.useId != ""
    ensures var results := Results([("assistant", a), ("user", b), ("assistant", c), ("user", d)]);
            d.useId in results && results[d.useId] == d
  {
  }

  lemma {:induction false} FourWords(results: map<string, Block>, m1: Message, m2: Message, m3: Message, m4: Message, id: string, b: Block)
    requires m3.role == "assistant" && m3.content == Blocks([b]) && b.ToolResult? && b.useId == id && m4.role == "user"
    ensures LastWord(results, [m1, m2, m3, m4], id) == Some(b)
  {
    var ms := [m1, m2, m3, m4];
    assert ms[..3] == [m1, m2, m3];
    assert [b][..0] == [];
    assert UseIds([b]) == [] && LastResult([b], id) == Some(b);
    assert LastWord(results, ms[..3], id) == Some(b);
  }

  lemma {:induction false} FourTags(a: Block, b: Block, c: Block, d: Block)
    ensures Tagged([Message("assistant", Blocks([a])), Message("user", Blocks([b])),
                    Message("assistant", Blocks([c])), Message("user", Blocks([d]))])
         == [("assistant", a), ("user", b), ("assistant", c), ("user", d)]
  {
    var m1, m2 := Message("assistant", Blocks([a])), Message("user", Blocks([b]));
    var m3, m4 := Message("assistant", Blocks([c])), Message("user", Blocks([d]));
    TaggedOne(m1);
    TaggedOne(m2);
    TaggedOne(m3);
    TaggedOne(m4);
    assert forall b: Block, role :: Tag(role, [b]) == [(role, b)];
    hide Tagged, Tag;
    TaggedConcat([m1], [m2]);
    TaggedConcat([m1] + [m2], [m3]);
    TaggedConcat([m1] + [m2] + [m3], [m4]);
    assert [m1, m2, m3, m4] == [m1] + [m2] + [m3] + [m4];
  }

  lemma {:induction false} NoUsesNoAnswers(results: map<string, Block>, bs: seq<Block>)
    requires UseIds(bs) == []
    ensures Answers(results, bs) == []
  {
    if bs != [] {
      NoUsesNoAnswers(results, bs[..|bs| - 1]);
    }
  }

  lemma {:induction false} NothingOwed(results: map<string, Block>, ms: seq<Message>)
    requires OpenCalls(ms) == []
    ensures Owed(results, ms) == []
  {
    if ms != [] && ms[|ms| - 1].role == "assistant" {
      NoUsesNoAnswers(results, BlocksOf(ms[|ms| - 1].content));
    }
  }
}
