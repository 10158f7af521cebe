/**
 * A repaired history rebuilds itself. The second repair takes a well-paired history apart: each caller is
 * followed by the answers it is owed, and the results at the head of the next message are dropped. The
 * merge that follows puts the same answers in their place, so the history is what it was whenever the
 * second index files for each call the answer that is already there.
 */
module Reassembly {
  import opened Normalize
  import opened HistoryRepair

  /** The answers still owed after `ms`, as the message that will deliver them. */
  function Owed(results: map<string, Block>, ms: seq<Message>): seq<Message> {
    var pending := if ms == [] || ms[|ms| - 1].role != "assistant" then [] else Answers(results, BlocksOf(ms[|ms| - 1].content));
    if pending == [] then [] else [Message("user", Blocks(pending))]
  }

  lemma {:induction false} KeptAll(role: string, results: map<string, Block>, bs: seq<Block>)
    requires forall b :: b in bs ==> KeptBy(role, results, b)
    ensures Kept(role, results, bs) == bs
  {
    hide *;
    if bs == [] {
      KeptNone(role, results);
    } else {
      var front, b := bs[..|bs| - 1], bs[|bs| - 1];
      assert bs == front + [b] && b in bs;
      assert forall c :: c in front ==> c in bs;
      KeptAll(role, results, front);
      KeptStep(role, results, bs);
      KeptOneIs(role, results, b);
    }
  }

  lemma {:induction false} KeptNone(role: string, results: map<string, Block>)
    ensures Kept(role, results, []) == []
  {
  }

  lemma {:induction false} KeptOneIs(role: string, results: map<string, Block>, b: Block)
    requires KeptBy(role, results, b)
    ensures KeptOne(role, results, b) == [b]
  {
  }

  ghost predicate CallsKnown(results: map<string, Block>, bs: seq<Block>) {
    forall b :: b in bs && b.ToolUse? ==> b.id in results
  }

  lemma {:induction false} AnswersOfIds(results: map<string, Block>, bs: seq<Block>, answers: seq<Block>)
    requires CallsKnown(results, bs)
    requires forall b :: b in answers ==> b.ToolResult? && b.useId in results && b == results[b.useId]
    requires ResultIds(answers) == UseIds(bs)
    ensures Answers(results, bs) == answers
  {
    hide *;
    AllResults(answers);
    NothingAnswered(results);
    if bs != [] {
      var front, b := bs[..|bs| - 1], bs[|bs| - 1];
      assert bs == front + [b];
      CallsKnownFront(results, front, b);
      IdsPush(results, bs);
      if b.ToolUse? {
        var rest, last := answers[..|answers| - 1], answers[|answers| - 1];
        assert answers == rest + [last] && last in answers;
        assert forall c :: c in rest ==> c in answers;
        LastId(answers, UseIds(front), b.id);
        AnswersOfIds(results, front, rest);
      } else {
        AnswersOfIds(results, front, answers);
        assert answers + [] == answers;
      }
    }
  }

  lemma {:induction false} CallsKnownFront(results: map<string, Block>, front: seq<Block>, b: Block)
    requires CallsKnown(results, front + [b])
    ensures CallsKnown(results, front) && (b.ToolUse? ==> b.id in results)
  {
    assert b in front + [b];
    assert forall c :: c in front ==> c in front + [b];
  }

  lemma {:induction false} IdsPush(results: map<string, Block>, bs: seq<Block>)
    requires bs != []
    ensures var front, b := bs[..|bs| - 1], bs[|bs| - 1];
            && UseIds(bs) == (if b.ToolUse? then UseIds(front) + [b.id] else UseIds(front))
            && Answers(results, bs) == Answers(results, front) + (if b.ToolUse? && b.id in results then [results[b.id]] else [])
  {
    assert UseIds(bs[..|bs| - 1]) + [] == UseIds(bs[..|bs| - 1]);
  }

  lemma {:induction false} LastId(answers: seq<Block>, ids: seq<string>, id: string)
    requires answers != [] && answers[|answers| - 1].ToolResult?
    requires ResultIds(answers) == ids + [id]
    ensures ResultIds(answers[..|answers| - 1]) == ids && answers[|answers| - 1].useId == id
  {
    var r := ResultIds(answers);
    assert r == ResultIds(answers[..|answers| - 1]) + [answers[|answers| - 1].useId];
    assert r[|r| - 1] == id && r[..|r| - 1] == ids;
  }

  /** A message that delivers the answers owed, split into those answers and the rest. */
  lemma {:induction false} SplitAnswers(role: string, results: map<string, Block>, bs: seq<Block>, n: nat)
    requires role != "assistant"
    requires n <= |bs| && |ResultIds(bs)| == n && forall k :: 0 <= k < n ==> bs[k].ToolResult?
    ensures Kept(role, results, bs) == bs[n..]
    ensures ResultIds(bs[..n]) == ResultIds(bs)
  {
    if |bs| == n {
      AllKeptOut(role, results, bs);
      assert bs[n..] == [] && bs[..n] == bs;
    } else {
      var front, b := bs[..|bs| - 1], bs[|bs| - 1];
      assert !b.ToolResult? by {
        if b.ToolResult? {
          AllResults(front[..n]);
          PrefixIds(front, n);
        }
      }
      SplitAnswers(role, results, front, n);
      assert bs[n..] == front[n..] + [b] && bs[..n] == front[..n];
    }
  }

  lemma {:induction false} AllKeptOut(role: string, results: map<string, Block>, bs: seq<Block>)
    requires role != "assistant" && forall k :: 0 <= k < |bs| ==> bs[k].ToolResult?
    ensures Kept(role, results, bs) == []
  {
    if bs != [] {
      AllKeptOut(role, results, bs[..|bs| - 1]);
    }
  }

  lemma {:induction false} PrefixIds(bs: seq<Block>, n: nat)
    requires n <= |bs|
    ensures |ResultIds(bs[..n])| <= |ResultIds(bs)|
  {
    ResultIdsConcat(bs[..n], bs[n..]);
    assert bs[..n] + bs[n..] == bs;
  }

  ghost predicate CallsFiled(results: map<string, Block>, ms: seq<Message>) {
    forall p :: p in Tagged(ms) && IsCall(p) ==> p.1.id in results
  }

  lemma {:induction false} CallsFiledSplit(results: map<string, Block>, front: seq<Message>, m: Message)
    requires CallsFiled(results, front + [m])
    ensures CallsFiled(results, front)
    ensures m.role == "assistant" ==> CallsKnown(results, BlocksOf(m.content))
  {
    var ms, tags := front + [m], Tag(m.role, BlocksOf(m.content));
    assert ms[..|front|] == front;
    assert Tagged(ms) == Tagged(front) + tags;
    forall b | b in BlocksOf(m.content) && b.ToolUse? && m.role == "assistant"
      ensures b.id in results
    {
      var i :| 0 <= i < |tags| && BlocksOf(m.content)[i] == b;
      assert tags[i] in Tagged(ms);
    }
  }

  ghost predicate LastCallsKnown(results: map<string, Block>, ms: seq<Message>) {
    ms != [] && ms[|ms| - 1].role == "assistant" ==> CallsKnown(results, BlocksOf(ms[|ms| - 1].content))
  }

  lemma {:induction false} CallerRebuilt(results: map<string, Block>, front: seq<Message>, m: Message)
    requires m.role == "assistant" && TidyMessage(results, m)
    requires CallsKnown(results, BlocksOf(m.content))
    ensures Rebuild(results, m) == [m] + Owed(results, front + [m])
  {
    var bs := m.content.blocks;
    KeptAll(m.role, results, bs);
    OwedToLast(results, front, m);
    hide Kept, Answers, Owed, TidyMessage, CallsKnown;
    assert m == Message(m.role, Blocks(bs));
  }

  lemma {:induction false} OwedToLast(results: map<string, Block>, front: seq<Message>, m: Message)
    requires m.role == "assistant"
    ensures var pending := Answers(results, BlocksOf(m.content));
            Owed(results, front + [m]) == if pending == [] then [] else [Message("user", Blocks(pending))]
  {
    assert (front + [m])[|front|] == m;
    hide Answers, BlocksOf;
  }

  lemma {:induction false} AppendsOwed(front: seq<Message>, m: Message, owed: seq<Message>)
    requires m.role == "assistant" && (front != [] ==> front[|front| - 1].role != m.role)
    requires owed == [] || (|owed| == 1 && owed[0].role == "user")
    ensures MergeAll(front, [m] + owed) == front + [m] + owed
  {
    MergeAllConcat(front, [m], owed);
    MergeAllOne(front, m);
    assert MergeInto(front, m) == front + [m];
    if owed != [] {
      assert owed == [owed[0]];
      MergeAllOne(front + [m], owed[0]);
    } else {
      assert front + [m] + [] == front + [m];
    }
  }

  /** One caller, rebuilt: itself, followed by the answers it is owed. */
  lemma {:induction false} ReassembleCaller(results: map<string, Block>, front: seq<Message>, m: Message)
    requires m.role == "assistant" && TidyMessage(results, m)
    requires Fits(front, m)
    requires CallsKnown(results, BlocksOf(m.content))
    ensures MergeAll(front, Rebuild(results, m)) == front + [m] + Owed(results, front + [m])
  {
    hide Rebuild, Kept, Answers, UseIds, ResultIds, CallsKnown, MergeAll, TidyMessage, AnswersFirst, OpenCalls;
    CallerRebuilt(results, front, m);
    AppendsOwed(front, m, Owed(results, front + [m]));
  }

  /** The answers at the head of a message, and what follows them. */
  lemma {:induction false} SplitMessage(role: string, results: map<string, Block>, ids: seq<string>, bs: seq<Block>)
      returns (head: seq<Block>, rest: seq<Block>)
    requires role != "assistant" && AnswersFirst(ids, bs)
    ensures bs == head + rest
    ensures ResultIds(head) == ids && forall b :: b in head ==> b.ToolResult?
    ensures Kept(role, results, bs) == rest
  {
    hide ResultIds, Kept;
    SplitAnswers(role, results, bs, |ids|);
    head, rest := bs[..|ids|], bs[|ids|..];
  }

  /** The answers owed after `front` are the results at the head of the message that fits next. */
  lemma {:induction false} OwedIs(results: map<string, Block>, front: seq<Message>, head: seq<Block>)
    requires ResultIds(head) == OpenCalls(front)
    requires forall b :: b in head ==> b.ToolResult? && b.useId in results && b == results[b.useId]
    requires LastCallsKnown(results, front)
    ensures Owed(results, front) == if head == [] then [] else [Message("user", Blocks(head))]
    ensures head != [] <==> OpenCalls(front) != []
  {
    AllResults(head);
    hide ResultIds, UseIds, CallsKnown;
    if front != [] && front[|front| - 1].role == "assistant" {
      AnswersOfIds(results, BlocksOf(front[|front| - 1].content), head);
    }
  }

  /** One other message, rebuilt behind the answers already delivered: the message as it was. */
  lemma {:induction false} ReassembleOther(results: map<string, Block>, front: seq<Message>, m: Message)
    requires m.role != "assistant" && TidyMessage(results, m) && Fits(front, m)
    requires LastCallsKnown(results, front)
    ensures MergeAll(front + Owed(results, front), Rebuild(results, m)) == front + [m]
  {
    var head, rest := SplitMessage(m.role, results, OpenCalls(front), BlocksOf(m.content));
    assert front != [] ==> front[|front| - 1].role != m.role;
    assert OpenCalls(front) != [] ==> m.role == "user";
    assert m.content == Blocks(head + rest) && head + rest != [];
    assert forall b :: b in head ==> b in BlocksOf(m.content);
    RestIs(results, m, rest);
    hide Fits, OpenCalls, Owed, Rebuild, Kept, ResultIds, UseIds, MergeAll, LastCallsKnown;
    OwedIs(results, front, head);
    MergeTail(front, Owed(results, front), m, head, rest);
  }

  lemma {:induction false} RestIs(results: map<string, Block>, m: Message, rest: seq<Block>)
    requires m.role != "assistant" && Kept(m.role, results, BlocksOf(m.content)) == rest
    ensures Rebuild(results, m) == if rest == [] then [] else [Message(m.role, Blocks(rest))]
  {
  }

  /** The head of a message, delivered first, and its rest merge into the message. */
  lemma {:induction false} MergeTail(front: seq<Message>, owed: seq<Message>, m: Message, head: seq<Block>, rest: seq<Block>)
    requires m.content == Blocks(head + rest) && head + rest != []
    requires front != [] ==> front[|front| - 1].role != m.role
    requires owed == if head == [] then [] else [Message("user", Blocks(head))]
    requires head != [] ==> m.role == "user"
    ensures MergeAll(front + owed, if rest == [] then [] else [Message(m.role, Blocks(rest))]) == front + [m]
  {
    hide *;
    assert m == Message(m.role, Blocks(head + rest));
    if rest == [] {
      assert head + rest == head;
      MergeNone(front + owed);
    } else if head == [] {
      assert head + rest == rest && front + owed == front;
      MergeApart(front, m);
    } else {
      MergeOnto(front, head, rest);
    }
  }

  lemma {:induction false} MergeNone(out: seq<Message>)
    ensures MergeAll(out, []) == out
  {
  }

  lemma {:induction false} MergeApart(out: seq<Message>, m: Message)
    requires out != [] ==> out[|out| - 1].role != m.role
    ensures MergeAll(out, [m]) == out + [m]
  {
    MergeAllOne(out, m);
    hide MergeAll;
  }

  lemma {:induction false} MergeOnto(out: seq<Message>, head: seq<Block>, rest: seq<Block>)
    ensures MergeAll(out + [Message("user", Blocks(head))], [Message("user", Blocks(rest))]) == out + [Message("user", Blocks(head + rest))]
  {
    var all := out + [Message("user", Blocks(head))];
    MergeAllOne(all, Message("user", Blocks(rest)));
    MergeIntoLast(all, Message("user", Blocks(rest)));
    assert all[..|all| - 1] == out;
    hide MergeAll, MergeInto;
  }

  lemma {:induction false} ReassembleStep(results: map<string, Block>, front: seq<Message>, m: Message)
    requires Fits(front, m) && TidyMessage(results, m) && CallsFiled(results, front + [m])
    ensures MergeAll(front + Owed(results, front), Rebuild(results, m)) == front + [m] + Owed(results, front + [m])
  {
    CallsFiledSplit(results, front, m);
    if m.role == "assistant" {
      assert front != [] ==> front[|front| - 1].role != "assistant";
      hide *;
      OwedByCaller(results, front);
      assert front + [] == front;
      ReassembleCaller(results, front, m);
    } else {
      LastCallsFiled(results, front);
      hide *;
      ReassembleOther(results, front, m);
      OwedByCaller(results, front + [m]);
      assert front + [m] + [] == front + [m];
    }
  }

  lemma {:induction false} LastCallsFiled(results: map<string, Block>, ms: seq<Message>)
    requires CallsFiled(results, ms)
    ensures LastCallsKnown(results, ms)
  {
    if ms != [] {
      assert ms == ms[..|ms| - 1] + [ms[|ms| - 1]];
      CallsFiledSplit(results, ms[..|ms| - 1], ms[|ms| - 1]);
    }
  }

  lemma {:induction false} Reassembled(results: map<string, Block>, ms: seq<Message>)
    requires Consistent(ms) && Tidy(results, ms) && CallsFiled(results, ms)
    ensures Merged(RebuildAll(results, ms)) == ms + Owed(results, ms)
  {
    hide *;
    if ms == [] {
      NothingReassembled(results);
    } else {
      var front, m := ms[..|ms| - 1], ms[|ms| - 1];
      assert ms == front + [m];
      ShorterReady(results, ms);
      RebuildPush(results, ms);
      Reassembled(results, front);
      ReassembleStep(results, front, m);
    }
  }

  lemma {:induction false} NothingReassembled(results: map<string, Block>)
    ensures Merged(RebuildAll(results, [])) == [] + Owed(results, [])
  {
  }

  lemma {:induction false} ShorterReady(results: map<string, Block>, ms: seq<Message>)
    requires ms != [] && Consistent(ms) && Tidy(results, ms) && CallsFiled(results, ms)
    ensures var front, m := ms[..|ms| - 1], ms[|ms| - 1];
            && Consistent(front) && Tidy(results, front) && CallsFiled(results, front)
            && Fits(front, m) && TidyMessage(results, m)
  {
    hide *;
    var front, m := ms[..|ms| - 1], ms[|ms| - 1];
    assert ms == front + [m];
    ConsistentFront(ms);
    TidyFront(results, front, m);
    CallsFiledSplit(results, front, m);
  }

  lemma {:induction false} ConsistentFront(ms: seq<Message>)
    requires ms != [] && Consistent(ms)
    ensures Consistent(ms[..|ms| - 1]) && Fits(ms[..|ms| - 1], ms[|ms| - 1])
  {
    hide Fits;
  }

  lemma {:induction false} TidyFront(results: map<string, Block>, front: seq<Message>, m: Message)
    requires Tidy(results, front + [m])
    ensures Tidy(results, front) && TidyMessage(results, m)
  {
    hide TidyMessage;
    assert forall n :: n in front ==> n in front + [m];
    assert m in front + [m];
  }

  lemma {:induction false} RebuildPush(results: map<string, Block>, ms: seq<Message>)
    requires ms != []
    ensures var front, m := ms[..|ms| - 1], ms[|ms| - 1];
            Merged(RebuildAll(results, ms)) == MergeAll(Merged(RebuildAll(results, front)), Rebuild(results, m))
  {
    hide MergeAll, Rebuild;
    MergeAllConcat([], RebuildAll(results, ms[..|ms| - 1]), Rebuild(results, ms[|ms| - 1]));
  }

  lemma {:induction false} OwedByCaller(results: map<string, Block>, ms: seq<Message>)
    requires ms != [] ==> ms[|ms| - 1].role != "assistant"
    ensures Owed(results, ms) == []
  {
  }

  lemma {:induction false} ConsistentAlternates(ms: seq<Message>)
    requires Consistent(ms)
    ensures Alternating(ms)
  {
    if ms != [] {
      ConsistentAlternates(ms[..|ms| - 1]);
      forall i | 0 <= i < |ms| - 1
        ensures ms[i].role != ms[i + 1].role
      {
        if i + 1 < |ms| - 1 {
          assert ms[..|ms| - 1][i] == ms[i] && ms[..|ms| - 1][i + 1] == ms[i + 1];
        }
      }
    }
  }

  lemma {:induction false} IdsOfBlocks(bs: seq<Block>)
    ensures forall b :: b in bs && b.ToolUse? ==> b.id in UseIds(bs)
    ensures forall id :: id in ResultIds(bs) ==> exists b :: b in bs && b.ToolResult? && b.useId == id
  {
    if bs != [] {
      var front, b := bs[..|bs| - 1], bs[|bs| - 1];
      IdsOfBlocks(front);
      assert bs == front + [b];
      forall id | id in ResultIds(bs)
        ensures exists c :: c in bs && c.ToolResult? && c.useId == id
      {
        if id in ResultIds(front) {
          var c :| c in front && c.ToolResult? && c.useId == id;
          assert c in bs;
        } else {
          assert b in bs;
        }
      }
    }
  }

  ghost predicate HasAnswer(tags: Tags, id: string) {
    exists q :: q in tags && IsAnswer(q) && q.1.useId == id
  }

  /** In a consistent history every call is answered, save those of the last message. */
  lemma {:induction false} CallsAnswered(ms: seq<Message>)
    requires Consistent(ms)
    ensures forall p :: p in Tagged(ms) && IsCall(p) ==> HasAnswer(Tagged(ms), p.1.id) || p.1.id in OpenCalls(ms)
  {
    if ms != [] {
      var front, m := ms[..|ms| - 1], ms[|ms| - 1];
      CallsAnswered(front);
      var bs := BlocksOf(m.content);
      var tags := Tag(m.role, bs);
      IdsOfBlocks(bs);
      assert Tagged(ms) == Tagged(front) + tags;
      forall p | p in Tagged(ms) && IsCall(p)
        ensures HasAnswer(Tagged(ms), p.1.id) || p.1.id in OpenCalls(ms)
      {
        if p in tags {
          assert p.1 in bs;
        } else if HasAnswer(Tagged(front), p.1.id) {
          var q :| q in Tagged(front) && IsAnswer(q) && q.1.useId == p.1.id;
          assert q in Tagged(ms);
        } else {
          assert p.1.id in OpenCalls(front) && m.role != "assistant";
          var c :| c in bs && c.ToolResult? && c.useId == p.1.id;
          var i :| 0 <= i < |bs| && bs[i] == c;
          assert tags[i] in Tagged(ms);
        }
      }
    }
  }

  ghost predicate HasCall(tags: Tags, id: string) {
    exists q :: q in tags && IsCall(q) && q.1.id == id
  }

  lemma {:induction false} OpenCallsAreCalls(ms: seq<Message>)
    ensures forall id :: id in OpenCalls(ms) ==> HasCall(Tagged(ms), id)
  {
    if ms != [] && ms[|ms| - 1].role == "assistant" {
      var m := ms[|ms| - 1];
      var bs := BlocksOf(m.content);
      UseIdsOf(bs);
      forall id | id in OpenCalls(ms)
        ensures HasCall(Tagged(ms), id)
      {
        var c :| c in bs && c.ToolUse? && c.id == id;
        var i :| 0 <= i < |bs| && bs[i] == c;
        assert Tag(m.role, bs)[i] in Tagged(ms);
      }
    }
  }

  lemma {:induction false} UseIdsOf(bs: seq<Block>)
    ensures forall id :: id in UseIds(bs) <==> exists b :: b in bs && b.ToolUse? && b.id == id
  {
    if bs != [] {
      var front, b := bs[..|bs| - 1], bs[|bs| - 1];
      UseIdsOf(front);
      assert bs == front + [b];
    }
  }

  lemma {:induction false} ResultIdsOf(bs: seq<Block>)
    ensures forall b :: b in bs && b.ToolResult? ==> b.useId in ResultIds(bs)
  {
    if bs != [] {
      var front, b := bs[..|bs| - 1], bs[|bs| - 1];
      ResultIdsOf(front);
      assert bs == front + [b];
    }
  }

  /** In a consistent history every answer answers a call. */
  lemma {:induction false} AnswersCalled(ms: seq<Message>)
    requires Consistent(ms)
    ensures forall p :: p in Tagged(ms) && IsAnswer(p) ==> HasCall(Tagged(ms), p.1.useId)
  {
    if ms != [] {
      var front, m := ms[..|ms| - 1], ms[|ms| - 1];
      AnswersCalled(front);
      OpenCallsAreCalls(front);
      ResultIdsOf(BlocksOf(m.content));
      var tags := Tag(m.role, BlocksOf(m.content));
      assert Tagged(ms) == Tagged(front) + tags;
      hide Tagged, OpenCalls;
      forall p | p in Tagged(ms) && IsAnswer(p)
        ensures HasCall(Tagged(ms), p.1.useId)
      {
        assert p !in Tagged(front) ==> p.1.useId in OpenCalls(front);
        var q :| q in Tagged(front) && IsCall(q) && q.1.id == p.1.useId;
        assert q in Tagged(ms);
      }
    }
  }
}
