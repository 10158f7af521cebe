/**
 * The answer a client assembles from a Chat stream beside the one it assembles after the round trip: the
 * same text and reasoning, and the same calls in the same order under new numbers. Their arguments are
 * the same too, or, once an announcing frame has misdirected its own, some call has lost arguments for
 * good. Each kind of frame keeps the two answers in this relation.
 */
module AnswerLink {
  import opened Wrappers
  import opened StreamTypes
  import opened BlockLifecycle
  import opened StreamEcho

  ghost predicate SameCalls(a: seq<ToolView>, b: seq<ToolView>) {
    && |a| == |b|
    && forall k :: 0 <= k < |a| ==> b[k].index == k && b[k].id == a[k].id && b[k].name == a[k].name
  }

  ghost predicate SameArgs(a: seq<ToolView>, b: seq<ToolView>)
    requires |a| == |b|
  {
    forall k :: 0 <= k < |a| ==> b[k].args == a[k].args
  }

  /** Block `toolBlocks[i]` carries the k-th call, and `bt` says so. */
  ghost predicate Numbered(toolBlocks: map<int, int>, bt: map<int, int>, tools: seq<ToolView>) {
    && (forall k :: 0 <= k < |tools| ==>
          tools[k].index in toolBlocks && toolBlocks[tools[k].index] in bt && bt[toolBlocks[tools[k].index]] == k)
    && (forall blk :: blk in bt ==> 0 <= bt[blk] < |tools| && tools[bt[blk]].index in toolBlocks && toolBlocks[tools[bt[blk]].index] == blk)
  }

  /** Some call that does not sit in the first block has lost arguments. */
  ghost predicate Lossy(toolBlocks: map<int, int>, a: seq<ToolView>, b: seq<ToolView>)
    requires |a| == |b| && forall k :: 0 <= k < |a| ==> a[k].index in toolBlocks
  {
    exists k :: 0 <= k < |a| && toolBlocks[a[k].index] > 0 && |b[k].args| < |a[k].args|
  }

  ghost predicate Linked(toolBlocks: map<int, int>, bt: map<int, int>, count: nat, a: Answer, b: Answer, bare: bool) {
    && b.text == a.text && b.reasoning == a.reasoning && b.finish == None
    && count == |a.tools|
    && Distinct(a.tools) && Indices(a.tools) == toolBlocks.Keys
    && SameCalls(a.tools, b.tools)
    && Numbered(toolBlocks, bt, a.tools)
    && (if bare then SameArgs(a.tools, b.tools) else Lossy(toolBlocks, a.tools, b.tools))
  }

  lemma {:induction false} FindAt(tools: seq<ToolView>, k: nat)
    requires k < |tools| && Distinct(tools)
    ensures FindTool(tools, tools[k].index) == k
  {
  }

  lemma {:induction false} Known(tools: seq<ToolView>, x: int)
    ensures FindTool(tools, x) < |tools| <==> x in Indices(tools)
  {
    var k := FindTool(tools, x);
    if k < |tools| {
      assert tools[k] in tools;
    }
  }

  lemma {:induction false} AssembledPush(fs: seq<Frame>, f: Frame)
    ensures Assembled(fs + [f]) == Assemble(Assembled(fs), f)
  {
    assert (fs + [f])[..|fs|] == fs;
  }

  function AddArgs(tools: seq<ToolView>, k: nat, args: string): seq<ToolView>
    requires k < |tools|
  {
    tools[k := tools[k].(args := tools[k].args + args)]
  }

  lemma {:induction false} AddArgsKeeps(tools: seq<ToolView>, k: nat, args: string)
    requires k < |tools|
    ensures forall j :: 0 <= j < |tools| ==> AddArgs(tools, k, args)[j] == tools[j].(args := AddArgs(tools, k, args)[j].args)
    ensures Indices(AddArgs(tools, k, args)) == Indices(tools)
    ensures Distinct(tools) ==> Distinct(AddArgs(tools, k, args))
  {
    var at := AddArgs(tools, k, args);
    forall x | x in Indices(tools)
      ensures x in Indices(at)
    {
      var j :| 0 <= j < |tools| && tools[j].index == x;
      assert at[j].index == x;
    }
    forall x | x in Indices(at)
      ensures x in Indices(tools)
    {
      var j :| 0 <= j < |at| && at[j].index == x;
      assert tools[j].index == x;
    }
  }

  lemma {:induction false} AddArgsArgs(toolBlocks: map<int, int>, a: seq<ToolView>, b: seq<ToolView>, bare: bool, k: nat, args: string)
    requires |a| == |b| && k < |a| && forall j :: 0 <= j < |a| ==> a[j].index in toolBlocks
    requires if bare then SameArgs(a, b) else Lossy(toolBlocks, a, b)
    ensures forall j :: 0 <= j < |a| ==> AddArgs(a, k, args)[j].index in toolBlocks
    ensures if bare then SameArgs(AddArgs(a, k, args), AddArgs(b, k, args)) else Lossy(toolBlocks, AddArgs(a, k, args), AddArgs(b, k, args))
  {
    if !bare {
      var j :| 0 <= j < |a| && toolBlocks[a[j].index] > 0 && |b[j].args| < |a[j].args|;
      assert toolBlocks[AddArgs(a, k, args)[j].index] > 0 && |AddArgs(b, k, args)[j].args| < |AddArgs(a, k, args)[j].args|;
    }
  }

  lemma {:induction false} AddArgsNumbered(toolBlocks: map<int, int>, bt: map<int, int>, a: seq<ToolView>, b: seq<ToolView>, k: nat, args: string)
    requires SameCalls(a, b) && Numbered(toolBlocks, bt, a) && k < |a|
    ensures SameCalls(AddArgs(a, k, args), AddArgs(b, k, args))
    ensures Numbered(toolBlocks, bt, AddArgs(a, k, args))
  {
    AddArgsKeeps(a, k, args);
    AddArgsKeeps(b, k, args);
    hide AddArgs, Indices, Distinct;
  }

  /** More arguments for a call both sides know: they reach the same call. */
  lemma {:induction false} ArgsLinked(toolBlocks: map<int, int>, bt: map<int, int>, count: nat, a: Answer, b: Answer, bare: bool, k: nat, args: string)
    requires Linked(toolBlocks, bt, count, a, b, bare) && k < |a.tools|
    ensures Linked(toolBlocks, bt, count, a.(tools := AddArgs(a.tools, k, args)), b.(tools := AddArgs(b.tools, k, args)), bare)
  {
    AddArgsKeeps(a.tools, k, args);
    AddArgsNumbered(toolBlocks, bt, a.tools, b.tools, k, args);
    AddArgsArgs(toolBlocks, a.tools, b.tools, bare, k, args);
    hide SameArgs, Lossy, Numbered, SameCalls, Distinct, Indices;
  }

  /** The call a frame of a known index adds to, as both sides number it. */
  lemma {:induction false} KnownCall(n: int, toolBlocks: map<int, int>, bt: map<int, int>, count: nat, a: Answer, b: Answer, bare: bool, tc: ToolCall)
      returns (k: nat)
    requires Linked(toolBlocks, bt, count, a, b, bare) && tc.index in toolBlocks
    ensures k < |a.tools| && SameCalls(a.tools, b.tools)
    ensures Assemble(a, Tool(tc)) == a.(tools := AddArgs(a.tools, k, tc.Args()))
    ensures Echo(n, toolBlocks, bt, count, Tool(tc)) == if tc.Args() != "" then [ArgsFrame(k, tc.Args())] else []
  {
    Known(a.tools, tc.index);
    k := FindTool(a.tools, tc.index);
    assert bt[toolBlocks[tc.index]] == k;
    hide Numbered, SameArgs, Lossy;
  }

  lemma {:induction false} EchoKnown(n: int, toolBlocks: map<int, int>, bt: map<int, int>, count: nat, a: Answer, gs: seq<Frame>, bare: bool, tc: ToolCall)
    requires Linked(toolBlocks, bt, count, a, Assembled(gs), bare) && tc.index in toolBlocks
    ensures Linked(toolBlocks, bt, count, Assemble(a, Tool(tc)), Assembled(gs + Echo(n, toolBlocks, bt, count, Tool(tc))), bare)
  {
    hide *;
    var b := Assembled(gs);
    var k := KnownCall(n, toolBlocks, bt, count, a, b, bare, tc);
    ArgsLinked(toolBlocks, bt, count, a, b, bare, k, tc.Args());
    SameLength(a.tools, b.tools);
    AddedArgs(gs, k, tc.Args(), b, a);
    if tc.Args() == "" {
      assert gs + [] == gs;
    }
  }

  lemma {:induction false} SameLength(a: seq<ToolView>, b: seq<ToolView>)
    requires SameCalls(a, b)
    ensures |a| == |b|
  {
  }

  /** Arguments echoed for call k are added to call k. */
  lemma {:induction false} AddedArgs(gs: seq<Frame>, k: nat, args: string, b: Answer, a: Answer)
    requires b == Assembled(gs) && SameCalls(a.tools, b.tools) && k < |b.tools|
    ensures Assembled(gs + [ArgsFrame(k, args)]) == b.(tools := AddArgs(b.tools, k, args))
    ensures args == "" ==> AddArgs(b.tools, k, args) == b.tools
  {
    AssembledPush(gs, ArgsFrame(k, args));
    SameCallsDistinct(a.tools, b.tools);
    FindAt(b.tools, k);
    hide Assembled, SameCalls, Distinct;
    if args == "" {
      assert b.tools[k].args + "" == b.tools[k].args;
    }
  }

  lemma {:induction false} SameCallsDistinct(a: seq<ToolView>, b: seq<ToolView>)
    requires SameCalls(a, b)
    ensures Distinct(b) && |a| !in Indices(b)
  {
  }

  function Announced(tools: seq<ToolView>, index: int, tc: ToolCall): seq<ToolView> {
    tools + [ToolView(index, tc.id, tc.Name(), "")]
  }

  lemma {:induction false} AnnouncedKeeps(tools: seq<ToolView>, index: int, tc: ToolCall)
    requires Distinct(tools) && index !in Indices(tools)
    ensures Distinct(Announced(tools, index, tc)) && Indices(Announced(tools, index, tc)) == Indices(tools) + {index}
  {
    var at := Announced(tools, index, tc);
    forall k | 0 <= k < |tools|
      ensures at[k].index != index
    {
      assert tools[k] in tools;
    }
    assert at[|tools|].index == index;
    forall x | x in Indices(tools)
      ensures x in Indices(at)
    {
      var j :| 0 <= j < |tools| && tools[j].index == x;
      assert at[j].index == x;
    }
  }

  lemma {:induction false} AnnouncedNumbered(n: int, toolBlocks: map<int, int>, bt: map<int, int>, tools: seq<ToolView>, tc: ToolCall)
    requires Numbered(toolBlocks, bt, tools) && Placed(toolBlocks, n) && 0 <= n && tc.index !in toolBlocks
    ensures n !in bt
    ensures Numbered(toolBlocks[tc.index := n], bt[n := |tools|], Announced(tools, tc.index, tc))
  {
    forall blk | blk in bt
      ensures blk < n
    {
      assert toolBlocks[tools[bt[blk]].index] == blk;
    }
  }

  lemma {:induction false} AnnouncedArgs(n: int, toolBlocks: map<int, int>, a: seq<ToolView>, b: seq<ToolView>, bare: bool, tc: ToolCall)
    requires |a| == |b| && forall j :: 0 <= j < |a| ==> a[j].index in toolBlocks
    requires tc.index !in toolBlocks
    requires if bare then SameArgs(a, b) else Lossy(toolBlocks, a, b)
    ensures var at, bu, tb := Announced(a, tc.index, tc), Announced(b, |a|, tc), toolBlocks[tc.index := n];
            && (forall j :: 0 <= j < |at| ==> at[j].index in tb)
            && if bare then SameArgs(at, bu) else Lossy(tb, at, bu)
  {
    var at, bu, tb := Announced(a, tc.index, tc), Announced(b, |a|, tc), toolBlocks[tc.index := n];
    if !bare {
      var k :| 0 <= k < |a| && toolBlocks[a[k].index] > 0 && |b[k].args| < |a[k].args|;
      assert tb[at[k].index] > 0 && |bu[k].args| < |at[k].args|;
    }
  }

  /** A new call is announced on both sides, first without its arguments. */
  lemma {:induction false} AnnounceLinked(n: int, toolBlocks: map<int, int>, bt: map<int, int>, count: nat, a: Answer, b: Answer, bare: bool, tc: ToolCall)
    requires Linked(toolBlocks, bt, count, a, b, bare) && tc.index !in toolBlocks
    requires Placed(toolBlocks, n) && 0 <= n
    ensures n !in bt
    ensures Linked(toolBlocks[tc.index := n], bt[n := count], count + 1,
                   a.(tools := Announced(a.tools, tc.index, tc)), b.(tools := Announced(b.tools, count, tc)), bare)
  {
    AnnouncedKeeps(a.tools, tc.index, tc);
    AnnouncedNumbered(n, toolBlocks, bt, a.tools, tc);
    AnnouncedArgs(n, toolBlocks, a.tools, b.tools, bare, tc);
    hide Numbered, Lossy, SameArgs;
    assert toolBlocks[tc.index := n].Keys == toolBlocks.Keys + {tc.index};
  }

  /** Both sides after a frame that announces a call: the arguments it carries arrive only in the first block. */
  lemma {:induction false} EchoNew(n: int, toolBlocks: map<int, int>, bt: map<int, int>, count: nat, a: Answer, gs: seq<Frame>, bare: bool, tc: ToolCall)
    requires Linked(toolBlocks, bt, count, a, Assembled(gs), bare) && tc.index !in toolBlocks
    requires Placed(toolBlocks, n) && 0 <= n
    ensures Linked(toolBlocks[tc.index := n], bt[n := count], count + 1,
                   Assemble(a, Tool(tc)), Assembled(gs + Echo(n, toolBlocks, bt, count, Tool(tc))),
                   bare && !(tc.Args() != "" && n > 0))
  {
    var gs1 := gs + [AnnounceFrame(count, tc)];
    var a1 := a.(tools := Announced(a.tools, tc.index, tc));
    var tb', bt' := toolBlocks[tc.index := n], bt[n := count];
    var echo := Echo(n, toolBlocks, bt, count, Tool(tc));
    assert gs + echo == if tc.Args() != "" && 0 in bt' then gs1 + [ArgsFrame(bt'[0], tc.Args())] else gs1;
    hide *;
    AnnounceBoth(n, toolBlocks, bt, count, a, gs, bare, tc);
    AnnouncedLast(a.tools, tc.index, tc);
    assert tb'[a1.tools[count].index] == n;
    if tc.Args() != "" {
      if 0 in bt' {
        EchoArgs(tb', bt', count, a1, gs1, bare, n, tc.Args());
      } else {
        MisdirectedLinked(tb', bt', count, a1, Assembled(gs1), bare, tc.Args());
      }
    }
  }

  lemma {:induction false} AnnouncedLast(tools: seq<ToolView>, index: int, tc: ToolCall)
    ensures |Announced(tools, index, tc)| == |tools| + 1
    ensures Announced(tools, index, tc)[|tools|].index == index && Announced(tools, index, tc)[|tools|].args == ""
  {
  }

  function AnnounceFrame(k: int, tc: ToolCall): Frame {
    Tool(ToolCall(k, tc.id, Some(FunctionCall(tc.Name(), ""))))
  }

  lemma {:induction false} AnnounceBoth(n: int, toolBlocks: map<int, int>, bt: map<int, int>, count: nat, a: Answer, gs: seq<Frame>, bare: bool, tc: ToolCall)
    requires Linked(toolBlocks, bt, count, a, Assembled(gs), bare) && tc.index !in toolBlocks
    requires Placed(toolBlocks, n) && 0 <= n
    ensures var a1, b1 := a.(tools := Announced(a.tools, tc.index, tc)), Assembled(gs + [AnnounceFrame(count, tc)]);
            && Linked(toolBlocks[tc.index := n], bt[n := count], count + 1, a1, b1, bare)
            && count == |a.tools|
            && b1.tools[count].args == ""
            && Assemble(a, Tool(tc)) == a1.(tools := AddArgs(a1.tools, count, tc.Args()))
            && (tc.Args() == "" ==> Assemble(a, Tool(tc)) == a1)
  {
    var b := Assembled(gs);
    AnnounceLinked(n, toolBlocks, bt, count, a, b, bare, tc);
    AssembleNew(a, tc);
    AssembledPush(gs, AnnounceFrame(count, tc));
    SameCallsDistinct(a.tools, b.tools);
    Known(b.tools, count);
    assert Assembled(gs + [AnnounceFrame(count, tc)]) == b.(tools := Announced(b.tools, count, tc));
  }

  lemma {:induction false} AssembleNew(a: Answer, tc: ToolCall)
    requires Distinct(a.tools) && tc.index !in Indices(a.tools)
    ensures Assemble(a, Tool(tc)) == a.(tools := AddArgs(Announced(a.tools, tc.index, tc), |a.tools|, tc.Args()))
    ensures tc.Args() == "" ==> Assemble(a, Tool(tc)) == a.(tools := Announced(a.tools, tc.index, tc))
  {
    Known(a.tools, tc.index);
    assert "" + tc.Args() == tc.Args();
    assert a.tools + [ToolView(tc.index, tc.id, tc.Name(), tc.Args())]
        == AddArgs(Announced(a.tools, tc.index, tc), |a.tools|, tc.Args());
  }

  /** The announcing frame's arguments, addressed to block 0, right after the announcement as block n. */
  lemma {:induction false} EchoArgs(toolBlocks: map<int, int>, bt: map<int, int>, count: nat, a: Answer, gs: seq<Frame>, bare: bool, n: int, args: string)
    requires Linked(toolBlocks, bt, count + 1, a, Assembled(gs), bare) && args != ""
    requires 0 in bt && n >= 0 && toolBlocks[a.tools[count].index] == n
    requires Assembled(gs).tools[count].args == a.tools[count].args == ""
    ensures Linked(toolBlocks, bt, count + 1, a.(tools := AddArgs(a.tools, count, args)),
                   Assembled(gs + [ArgsFrame(bt[0], args)]), bare && n == 0)
  {
    var b := Assembled(gs);
    AssembledPush(gs, ArgsFrame(bt[0], args));
    SameCallsDistinct(a.tools, b.tools);
    FindAt(b.tools, bt[0]);
    assert Assembled(gs + [ArgsFrame(bt[0], args)]) == b.(tools := AddArgs(b.tools, bt[0], args));
    if n == 0 {
      assert bt[0] == count;
      ArgsLinked(toolBlocks, bt, count + 1, a, b, bare, count, args);
    } else {
      MisdirectedLinked(toolBlocks, bt, count, a, b, bare, args);
    }
  }

  /** Arguments sent to block 0 instead of the new call's block: the new call stays short of them. */
  lemma {:induction false} MisdirectedLinked(toolBlocks: map<int, int>, bt: map<int, int>, count: nat, a: Answer, b: Answer, bare: bool, args: string)
    requires Linked(toolBlocks, bt, count + 1, a, b, bare) && args != ""
    requires toolBlocks[a.tools[count].index] > 0 && b.tools[count].args == a.tools[count].args == ""
    ensures Linked(toolBlocks, bt, count + 1, a.(tools := AddArgs(a.tools, count, args)), b, false)
    ensures 0 in bt ==> Linked(toolBlocks, bt, count + 1, a.(tools := AddArgs(a.tools, count, args)), b.(tools := AddArgs(b.tools, bt[0], args)), false)
  {
    var at := AddArgs(a.tools, count, args);
    AddArgsKeeps(a.tools, count, args);
    assert toolBlocks[at[count].index] > 0 && |b.tools[count].args| < |at[count].args|;
    if 0 in bt {
      var k := bt[0];
      assert k != count;
      AddArgsKeeps(b.tools, k, args);
      assert |AddArgs(b.tools, k, args)[count].args| < |at[count].args|;
      hide SameArgs, AddArgs, Indices, Distinct;
    } else {
      hide SameArgs, AddArgs, Indices, Distinct;
    }
  }
}
