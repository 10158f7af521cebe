/** What a client that assembles an Anthropic stream ends up with, and how both translators keep it. */
module ClientViews {
  import opened Wrappers
  import opened StreamTypes
  import opened ChatToAnthropic
  import opened BlockLifecycle
  import opened StreamEcho
  import opened AnswerLink
  import opened StreamRoundTrip
  import opened StreamUsage
  import Down = AnthropicToChat

  // ----- The Anthropic client -----

  /** Text and thinking as they add up, and the tool calls, each with the index of its block. */
  datatype Reply = Reply(text: string, thinking: string, tools: seq<ToolView>)

  /** The tool call that the block `index` holds by now, if it holds one. */
  function ToolAt(tools: seq<ToolView>, index: int): (r: Option<nat>)
    ensures r.Some? ==> r.value < |tools| && tools[r.value].index == index
    ensures r.Some? ==> forall k :: r.value < k < |tools| ==> tools[k].index != index
    ensures r.None? ==> forall k :: 0 <= k < |tools| ==> tools[k].index != index
  {
    if tools == [] then None
    else if tools[|tools| - 1].index == index then Some(|tools| - 1)
    else ToolAt(tools[..|tools| - 1], index)
  }

  function ReadDelta(v: Reply, index: int, d: BlockDelta): Reply {
    match d
    case TextDelta(t) => v.(text := v.text + t)
    case ThinkingDelta(t) => v.(thinking := v.thinking + t)
    case InputJsonDelta(p) =>
      var k := ToolAt(v.tools, index);
      if k.None? then v
      else v.(tools := v.tools[k.value := v.tools[k.value].(args := v.tools[k.value].args + p)])
    case OtherDelta => v
  }

  function ReadEvent(v: Reply, e: Event): Reply {
    match e
    case BlockStart(index, header) =>
      if header.Some? && header.value.ToolBlock? then
        v.(tools := v.tools + [ToolView(index.GetOr(0), header.value.id, header.value.name, "")])
      else v
    case BlockChange(index, delta) => if delta.Some? then ReadDelta(v, index.GetOr(0), delta.value) else v
    case _ => v
  }

  function Read(events: seq<Event>): Reply {
    if events == [] then Reply("", "", []) else ReadEvent(Read(events[..|events| - 1]), events[|events| - 1])
  }

  // ----- Down: the Chat client sees the same -----

  /** The Chat client has the same text, reasoning and calls, numbered from zero. */
  predicate SameReply(v: Reply, a: Answer) {
    && a.text == v.text && a.reasoning == v.thinking && |a.tools| == |v.tools|
    && forall k :: 0 <= k < |a.tools| ==> a.tools[k] == v.tools[k].(index := k)
  }

  /** `bt` leads from each block index to the last call that was started under it. */
  ghost predicate Points(bt: map<int, int>, k: nat, tools: seq<ToolView>) {
    && k == |tools|
    && forall i :: (i in bt <==> ToolAt(tools, i).Some?) && (i in bt ==> Some(bt[i]) == ToolAt(tools, i))
  }

  lemma {:induction false} ToolAtPush(tools: seq<ToolView>, t: ToolView, i: int)
    ensures ToolAt(tools + [t], i) == if t.index == i then Some(|tools|) else ToolAt(tools, i)
  {
    assert (tools + [t])[..|tools|] == tools;
  }

  lemma {:induction false} PointsOn(bt: map<int, int>, k: nat, tools: seq<ToolView>, t: ToolView)
    requires Points(bt, k, tools)
    ensures Points(bt[t.index := k], k + 1, tools + [t])
  {
    hide ToolAt;
    forall i
      ensures (i in bt[t.index := k] <==> ToolAt(tools + [t], i).Some?)
      ensures i in bt[t.index := k] ==> Some(bt[t.index := k][i]) == ToolAt(tools + [t], i)
    {
      ToolAtPush(tools, t, i);
    }
  }

  lemma {:induction false} PointsStill(bt: map<int, int>, k: nat, tools: seq<ToolView>, j: nat, args: string)
    requires Points(bt, k, tools) && j < |tools|
    ensures Points(bt, k, tools[j := tools[j].(args := args)])
  {
    forall i
      ensures ToolAt(tools[j := tools[j].(args := args)], i) == ToolAt(tools, i)
    {
      SameToolAt(tools, tools[j := tools[j].(args := args)], i);
    }
  }

  lemma {:induction false} SameToolAt(us: seq<ToolView>, vs: seq<ToolView>, i: int)
    requires |us| == |vs| && forall k :: 0 <= k < |us| ==> us[k].index == vs[k].index
    ensures ToolAt(us, i) == ToolAt(vs, i)
  {
    if us != [] {
      SameToolAt(us[..|us| - 1], vs[..|vs| - 1], i);
    }
  }

  /** A new call stands behind the others, under its own number. */
  lemma {:induction false} SeesCall(v: Reply, a: Answer, index: int, id: string, name: string)
    requires SameReply(v, a)
    ensures SameReply(v.(tools := v.tools + [ToolView(index, id, name, "")]),
                      Assemble(a, Tool(ToolCall(|v.tools|, id, Some(FunctionCall(name, ""))))))
  {
    assert FindTool(a.tools, |v.tools|) == |a.tools|;
  }

  /** Arguments are added to the call of that number. */
  lemma {:induction false} SeesArgs(v: Reply, a: Answer, k: nat, args: string)
    requires SameReply(v, a) && k < |v.tools|
    ensures SameReply(v.(tools := v.tools[k := v.tools[k].(args := v.tools[k].args + args)]), Assemble(a, ArgsFrame(k, args)))
  {
    assert a.tools[k].index == k;
    assert FindTool(a.tools, k) == k;
  }

  ghost predicate InView(d: Down.DownState, v: Reply, gs: seq<Frame>) {
    Points(d.blockToTool, d.toolIndex, v.tools) && SameReply(v, Assembled(gs))
  }

  lemma {:induction false} DeltaInView(d: Down.DownState, v: Reply, gs: seq<Frame>, index: int, delta: BlockDelta)
    requires InView(d, v, gs)
    ensures var r := Down.DownEvent(d, BlockChange(Some(index), Some(delta)));
            InView(r.state, ReadDelta(v, index, delta), gs + StreamFrames(r.chunks))
  {
    DeltaEcho(d, index, delta);
    assert gs + [] == gs;
    hide StreamFrames, Assembled, Assemble, Down.DownEvent;
    match delta
    case TextDelta(t) => TextSeen(gs, t);
    case ThinkingDelta(t) => TextSeen(gs, t);
    case OtherDelta =>
    case InputJsonDelta(p) =>
      var k := ToolAt(v.tools, index);
      if k.Some? {
        hide ToolAt;
        PointsStill(d.blockToTool, d.toolIndex, v.tools, k.value, v.tools[k.value].args + p);
        SeesArgs(v, Assembled(gs), k.value, p);
        AssembledPush(gs, ArgsFrame(k.value, p));
        NothingAdded(v.tools, k.value);
      }
  }

  lemma {:induction false} NothingAdded(tools: seq<ToolView>, k: nat)
    requires k < |tools|
    ensures tools[k := tools[k].(args := tools[k].args + "")] == tools
  {
    assert tools[k].args + "" == tools[k].args;
  }

  lemma {:induction false} TextSeen(gs: seq<Frame>, t: string)
    ensures var a := Assembled(gs);
            && Assembled(gs + [Text(t)]) == a.(text := a.text + t)
            && Assembled(gs + [Reasoning(t)]) == a.(reasoning := a.reasoning + t)
            && a.text + "" == a.text && a.reasoning + "" == a.reasoning
  {
    AssembledPush(gs, Text(t));
    AssembledPush(gs, Reasoning(t));
    hide Assembled;
  }

  lemma {:induction false} CallInView(d: Down.DownState, v: Reply, gs: seq<Frame>, index: int, id: string, name: string)
    requires InView(d, v, gs)
    ensures var r := Down.DownEvent(d, BlockStart(Some(index), Some(ToolBlock(id, name))));
            InView(r.state, v.(tools := v.tools + [ToolView(index, id, name, "")]), gs + StreamFrames(r.chunks))
  {
    var tc := ToolCall(0, id, Some(FunctionCall(name, "")));
    OpenToolEcho(d, index, tc);
    hide Down.DownEvent, StreamFrames, Assembled, Assemble, ToolAt;
    PointsOn(d.blockToTool, d.toolIndex, v.tools, ToolView(index, id, name, ""));
    SeesCall(v, Assembled(gs), index, id, name);
    AssembledPush(gs, Tool(ToolCall(d.toolIndex, id, Some(FunctionCall(name, "")))));
  }

  lemma {:induction false} StopEcho(d: Down.DownState)
    ensures var r := Down.DownEvent(d, MessageStop);
            && StreamFrames(r.chunks) == [Finish(if d.finishReason == "" then "stop" else d.finishReason)]
            && r.state.blockToTool == d.blockToTool && r.state.toolIndex == d.toolIndex
  {
    var reason := if d.finishReason == "" then "stop" else d.finishReason;
    EmitFrames(d, Down.EMPTY, Some(reason), Some(Down.FinishUsage(d)));
    assert ToolFrames([]) == [];
    hide StreamFrames;
  }

  lemma {:induction false} StopInView(d: Down.DownState, v: Reply, gs: seq<Frame>)
    requires InView(d, v, gs)
    ensures var r := Down.DownEvent(d, MessageStop);
            InView(r.state, v, gs + StreamFrames(r.chunks))
  {
    StopEcho(d);
    hide Down.DownEvent, StreamFrames, Assembled, ToolAt;
    AssembledPush(gs, Finish(if d.finishReason == "" then "stop" else d.finishReason));
  }

  lemma {:induction false} IndexDefault(d: Down.DownState, e: Event)
    ensures e.BlockStart? ==> Down.DownEvent(d, e) == Down.DownEvent(d, BlockStart(Some(e.index.GetOr(0)), e.header))
    ensures e.BlockChange? ==> Down.DownEvent(d, e) == Down.DownEvent(d, BlockChange(Some(e.index.GetOr(0)), e.delta))
  {
  }

  lemma {:induction false} Unseen(d: Down.DownState, e: Event)
    requires !e.MessageStop?
    requires e.BlockStart? ==> !(e.header.Some? && e.header.value.ToolBlock?)
    requires e.BlockChange? ==> e.delta.None?
    ensures var r := Down.DownEvent(d, e);
            r.chunks == [] && r.state.blockToTool == d.blockToTool && r.state.toolIndex == d.toolIndex
  {
  }

  lemma {:induction false} EventInView(d: Down.DownState, v: Reply, gs: seq<Frame>, e: Event)
    requires InView(d, v, gs)
    ensures var r := Down.DownEvent(d, e);
            InView(r.state, ReadEvent(v, e), gs + StreamFrames(r.chunks))
  {
    IndexDefault(d, e);
    if e.MessageStop? {
      StopInView(d, v, gs);
    } else if e.BlockStart? && e.header.Some? && e.header.value.ToolBlock? {
      CallInView(d, v, gs, e.index.GetOr(0), e.header.value.id, e.header.value.name);
    } else if e.BlockChange? && e.delta.Some? {
      DeltaInView(d, v, gs, e.index.GetOr(0), e.delta.value);
    } else {
      Unseen(d, e);
      hide Down.DownEvent, SameReply, ToolAt;
      assert gs + [] == gs;
    }
  }

  lemma {:induction false} EventsInView(events: seq<Event>)
    ensures var r := Down.DownEvents(Down.INITIAL, events);
            InView(r.state, Read(events), StreamFrames(r.chunks))
  {
    if events == [] {
      NothingEcho(Down.INITIAL);
    } else {
      var front, e := events[..|events| - 1], events[|events| - 1];
      EventsInView(front);
      var r := Down.DownEvents(Down.INITIAL, front);
      hide Down.DownEvent, InView, ReadEvent, StreamFrames;
      EventInView(r.state, Read(front), StreamFrames(r.chunks), e);
      StreamFramesAppend(r.chunks, Down.DownEvent(r.state, e).chunks);
    }
  }

  /**
   * Whatever an Anthropic upstream sends, in whatever order, the client of the translated stream assembles
   * the text, the thinking and the calls that a client of the upstream itself would.
   */
  lemma {:induction false} DownKeepsReply(events: seq<Event>)
    ensures SameReply(Read(events), Assembled(StreamFrames(Down.DownEvents(Down.INITIAL, events).chunks)))
  {
    EventsInView(events);
  }

  // ----- Up: the Anthropic client sees the same -----

  /** The same calls in the same order. */
  predicate SameTools(us: seq<ToolView>, vs: seq<ToolView>) {
    |us| == |vs| && forall k :: 0 <= k < |us| ==> us[k].id == vs[k].id && us[k].name == vs[k].name
  }

  /**
   * A client of the translated Chat stream assembles the text, the reasoning and the calls in order, each
   * with its id and name; and all arguments, exactly when no call is announced with arguments behind other content.
   */
  lemma {:induction false} UpKeepsReply(chunks: seq<Chunk>)
    requires chunks != []
    ensures var a, v := Assembled(StreamFrames(chunks)), Read(UpRun(chunks).events);
            && v.text == a.text && v.thinking == a.reasoning && SameTools(a.tools, v.tools)
            && ((forall k :: 0 <= k < |a.tools| ==> v.tools[k].args == a.tools[k].args) <==> AnnouncedBare(StreamFrames(chunks)))
  {
    RoundTrip(chunks);
    DownKeepsReply(UpRun(chunks).events);
    hide *;
    BackIs(chunks);
    ViewsAgree(Read(UpRun(chunks).events), Assembled(StreamFrames(chunks)), Assembled(StreamFrames(ThereAndBack(chunks).chunks)));
  }

  lemma {:induction false} BackIs(chunks: seq<Chunk>)
    ensures ThereAndBack(chunks) == Down.DownEvents(Down.INITIAL, UpRun(chunks).events)
  {
  }

  lemma {:induction false} ViewsAgree(v: Reply, a: Answer, b: Answer)
    requires SameReply(v, b) && SameCalls(a.tools, b.tools) && b.text == a.text && b.reasoning == a.reasoning
    ensures v.text == a.text && v.thinking == a.reasoning && SameTools(a.tools, v.tools)
    ensures (forall k :: 0 <= k < |a.tools| ==> v.tools[k].args == a.tools[k].args) <==> SameArgs(a.tools, b.tools)
  {
  }

  // ----- Up: how the message opens and why it stops -----

  /** `i` is the last frame that carries a finish reason. */
  predicate LastFinish(fs: seq<Frame>, i: int) {
    0 <= i < |fs| && fs[i].Finish? && forall j :: i < j < |fs| ==> !fs[j].Finish?
  }

  /** The stop reason that the last finish reason stands for, and the calls announced before it. */
  ghost predicate StopsFor(reason: string, fs: seq<Frame>) {
    forall i :: LastFinish(fs, i) ==>
      reason == if SeenTools(fs[..i]) != {} || fs[i].reason == "tool_calls" then "tool_use"
                else if fs[i].reason == "length" then "max_tokens"
                else "end_turn"
  }

  ghost predicate Remembers(stopReason: string, fs: seq<Frame>) {
    && StopsFor(stopReason, fs)
    && (stopReason == "" <==> forall i :: 0 <= i < |fs| ==> !fs[i].Finish?)
  }

  lemma {:induction false} FrameRemembered(s: UpState, fs: seq<Frame>, f: Frame)
    requires Tracks(s, fs) && Remembers(s.stopReason, fs)
    ensures Remembers(UpFrame(s, f).state.stopReason, fs + [f])
  {
    FrameEffect(s, f);
    TracksSeen(s, fs);
    hide Tracks, SeenTools;
    if f.Finish? {
      assert |s.toolBlocks| > 0 <==> SeenTools(fs) != {};
      hide Remembers;
      NewlyRemembered(UpFrame(s, f).state.stopReason, fs, f);
    } else {
      hide UpFrame;
      StillRemembered(s.stopReason, fs, f);
    }
  }

  lemma {:induction false} NewlyRemembered(reason: string, fs: seq<Frame>, f: Frame)
    requires f.Finish?
    requires reason == if SeenTools(fs) != {} || f.reason == "tool_calls" then "tool_use"
                       else if f.reason == "length" then "max_tokens"
                       else "end_turn"
    ensures Remembers(reason, fs + [f])
  {
    var all := fs + [f];
    assert all[|fs|] == f && all[..|fs|] == fs;
    hide SeenTools;
  }

  lemma {:induction false} StillRemembered(reason: string, fs: seq<Frame>, f: Frame)
    requires !f.Finish? && Remembers(reason, fs)
    ensures Remembers(reason, fs + [f])
  {
    var all := fs + [f];
    hide SeenTools;
    forall i | LastFinish(all, i)
      ensures LastFinish(fs, i) && all[..i] == fs[..i] && all[i] == fs[i]
    {
      assert forall j :: 0 <= j < |fs| ==> all[j] == fs[j];
    }
    assert forall i :: 0 <= i < |fs| ==> all[i] == fs[i];
  }

  lemma {:induction false} FramesRemembered(s: UpState, before: seq<Frame>, fs: seq<Frame>)
    requires Tracks(s, before) && Remembers(s.stopReason, before)
    ensures Tracks(UpFrames(s, fs).state, before + fs) && Remembers(UpFrames(s, fs).state.stopReason, before + fs)
  {
    hide UpFrame, Tracks, Remembers;
    if fs == [] {
      assert before + fs == before;
    } else {
      var front, f := fs[..|fs| - 1], fs[|fs| - 1];
      FramesRemembered(s, before, front);
      FrameTracks(UpFrames(s, front).state, before + front, f);
      FrameRemembered(UpFrames(s, front).state, before + front, f);
      assert before + fs == (before + front) + [f];
    }
  }

  lemma {:induction false} ChunksRemembered(chunks: seq<Chunk>)
    ensures var s := UpChunks(INITIAL, chunks).state;
            Tracks(s, StreamFrames(chunks)) && Remembers(s.stopReason, StreamFrames(chunks))
  {
    ChunksScan(false, false, chunks);
    if chunks != [] {
      var front, c := chunks[..|chunks| - 1], chunks[|chunks| - 1];
      ChunksRemembered(front);
      var s := UpChunks(INITIAL, front).state;
      HeaderKeepsBlocks(s, c);
      var b := Begin(Header(s, c)).state;
      hide Header, Remembers, TracksAt;
      FramesRemembered(b, StreamFrames(front), ChoicesFrames(c.choices));
    }
  }

  /**
   * A message stops with the reason that the last finish reason of the stream stands for: "tool_use" when a
   * call was announced before it, and "end_turn" when none was given.
   */
  lemma {:induction false} UpStopReason(chunks: seq<Chunk>)
    requires chunks != []
    ensures var events, fs := UpRun(chunks).events, StreamFrames(chunks);
            && |events| >= 2 && events[|events| - 2].MessageDelta? && events[|events| - 1] == MessageStop
            && StopsFor(events[|events| - 2].stopReason, fs)
            && ((forall i :: 0 <= i < |fs| ==> !fs[i].Finish?) ==> events[|events| - 2].stopReason == "end_turn")
  {
    ChunksRemembered(chunks);
    ChunksScan(false, false, chunks);
    hide UpChunks, StreamFrames, Tracks, SeenTools;
  }

  /** A message opens with the id and the model of the first chunk, and counts what that one reported. */
  lemma {:induction false} UpOpening(chunks: seq<Chunk>)
    requires chunks != []
    ensures UpRun(chunks).events != []
    ensures UpRun(chunks).events[0]
         == MessageStart(Some(Message(chunks[0].id, chunks[0].model, AnthropicUsage(FirstInput(chunks), 1, 0, 0))))
  {
    ChunksOpen(chunks);
    hide UpChunks, FirstInput;
  }

  lemma {:induction false} ChunksOpen(chunks: seq<Chunk>)
    requires chunks != []
    ensures var r := UpChunks(INITIAL, chunks);
            && r.state.started && r.events != []
            && r.events[0] == MessageStart(Some(Message(chunks[0].id, chunks[0].model, AnthropicUsage(FirstInput(chunks), 1, 0, 0))))
  {
    ChunksPushed(chunks);
    var front, c := chunks[..|chunks| - 1], chunks[|chunks| - 1];
    if front == [] {
      ChunksPushed([]);
      UpFramesFlags(Begin(Header(INITIAL, c)).state, ChoicesFrames(c.choices));
      hide UpChunks, UpFrames;
    } else {
      ChunksOpen(front);
      UpChunkFlags(UpChunks(INITIAL, front).state, c);
      hide UpChunks, UpChunk, FirstInput;
    }
  }

  lemma {:induction false} UpChunkFlags(s: UpState, c: Chunk)
    ensures UpChunk(s, c).state.started
  {
    HeaderKeepsBlocks(s, c);
    UpFramesFlags(Begin(Header(s, c)).state, ChoicesFrames(c.choices));
    hide Header, UpFrames;
  }

  // ----- Down: what the chunks are named after, and what the closing one says -----

  predicate GivesId(e: Event) {
    Opens(e) && e.message.value.id != ""
  }

  predicate GivesModel(e: Event) {
    Opens(e) && e.message.value.model != ""
  }

  predicate Opens(e: Event) {
    e.MessageStart? && e.message.Some?
  }

  predicate GivesReason(e: Event) {
    e.MessageDelta? && e.stopReason != ""
  }

  /** The last event of its kind. */
  ghost predicate LastOf(events: seq<Event>, i: int, kind: Event -> bool) {
    0 <= i < |events| && kind(events[i]) && forall j :: i < j < |events| ==> !kind(events[j])
  }

  ghost predicate NoneOf(events: seq<Event>, kind: Event -> bool) {
    forall e :: e in events ==> !kind(e)
  }

  lemma {:induction false} LastOfPush(events: seq<Event>, e: Event, kind: Event -> bool)
    ensures kind(e) ==> forall i :: LastOf(events + [e], i, kind) <==> i == |events|
    ensures !kind(e) ==> forall i :: LastOf(events + [e], i, kind) <==> LastOf(events, i, kind)
    ensures NoneOf(events + [e], kind) <==> NoneOf(events, kind) && !kind(e)
    ensures forall i :: 0 <= i < |events| ==> (events + [e])[i] == events[i] && (events + [e])[..i] == events[..i]
    ensures (events + [e])[|events|] == e && (events + [e])[..|events|] == events
  {
    var all := events + [e];
    assert all[|events|] == e && all[..|events|] == events;
    assert forall i :: 0 <= i < |events| ==> all[i] == events[i] && all[..i] == events[..i];
    forall i
      ensures LastOf(all, i, kind) <==> if kind(e) then i == |events| else LastOf(events, i, kind)
    {
      if LastOf(events, i, kind) && !kind(e) {
        assert forall j :: i < j < |all| ==> j == |events| || all[j] == events[j];
      }
    }
    assert forall f :: f in all <==> f in events || f == e;
  }

  /** The chunks carry the last id and the last model that a message came with. */
  ghost predicate NamedAfter(id: string, model: string, events: seq<Event>) {
    && (forall i :: LastOf(events, i, GivesId) ==> id == events[i].message.value.id) && (NoneOf(events, GivesId) ==> id == "")
    && (forall i :: LastOf(events, i, GivesModel) ==> model == events[i].message.value.model) && (NoneOf(events, GivesModel) ==> model == "")
  }

  /** The prompt counts of the last message that came with some. */
  ghost predicate PromptOf(input: int, cacheRead: int, cacheCreate: int, events: seq<Event>) {
    && (forall i :: LastOf(events, i, Opens) ==> events[i].message.value.usage == AnthropicUsage(input, events[i].message.value.usage.output, cacheRead, cacheCreate))
    && (NoneOf(events, Opens) ==> input == cacheRead == cacheCreate == 0)
  }

  /** The largest completion count reported, or 0. */
  ghost predicate MostOutput(x: int, events: seq<Event>) {
    && x >= 0
    && (forall e :: e in events && e.MessageDelta? && e.usage.Some? ==> e.usage.value.output <= x)
    && (x == 0 || exists e :: e in events && e.MessageDelta? && e.usage.Some? && e.usage.value.output == x)
  }

  /** The finish reason that the last stop reason stands for, and the calls started before it. */
  ghost predicate FinishesFor(reason: string, events: seq<Event>) {
    forall i :: LastOf(events, i, GivesReason) ==>
      reason == if Read(events[..i]).tools != [] || events[i].stopReason == "tool_use" then "tool_calls"
                else if events[i].stopReason == "max_tokens" || events[i].stopReason == "pause_turn" then "length"
                else "stop"
  }

  ghost predicate Told(d: Down.DownState, events: seq<Event>) {
    && NamedAfter(d.id, d.model, events)
    && PromptOf(d.inputTokens, d.cacheRead, d.cacheCreate, events)
    && MostOutput(d.outputTokens, events)
    && FinishesFor(d.finishReason, events) && (NoneOf(events, GivesReason) <==> d.finishReason == "")
    && (d.started <==> exists e :: e in events && e.MessageStart?)
    && !d.finalized
  }

  /** The fields that only a message, its start or its end, can change. */
  predicate SameTold(d: Down.DownState, e: Down.DownState) {
    && d.id == e.id && d.model == e.model && d.started == e.started && d.finalized == e.finalized
    && d.inputTokens == e.inputTokens && d.cacheRead == e.cacheRead && d.cacheCreate == e.cacheCreate
    && d.outputTokens == e.outputTokens && d.finishReason == e.finishReason
  }

  lemma {:induction false} OthersTellNothing(d: Down.DownState, e: Event)
    requires !e.MessageStart? && !e.MessageDelta?
    ensures SameTold(Down.DownEvent(d, e).state, d)
  {
  }

  lemma {:induction false} StartTells(d: Down.DownState, m: Option<Message>)
    ensures var t := Down.DownEvent(d, MessageStart(m)).state;
            && t.started && t.finalized == d.finalized && t.outputTokens == d.outputTokens && t.finishReason == d.finishReason
            && t.id == (if m.Some? && m.value.id != "" then m.value.id else d.id)
            && t.model == (if m.Some? && m.value.model != "" then m.value.model else d.model)
            && (m.None? ==> t.inputTokens == d.inputTokens && t.cacheRead == d.cacheRead && t.cacheCreate == d.cacheCreate)
            && (m.Some? ==> m.value.usage == AnthropicUsage(t.inputTokens, m.value.usage.output, t.cacheRead, t.cacheCreate))
  {
  }

  lemma {:induction false} DeltaTells(d: Down.DownState, reason: string, usage: Option<AnthropicUsage>)
    ensures var t := Down.DownEvent(d, MessageDelta(reason, usage)).state;
            && SameTold(t.(outputTokens := d.outputTokens, finishReason := d.finishReason), d)
            && t.outputTokens == (if usage.Some? then Max(d.outputTokens, usage.value.output) else d.outputTokens)
            && t.finishReason == if reason == "" then d.finishReason
                                 else if d.toolIndex > 0 || reason == "tool_use" then "tool_calls"
                                 else if reason == "max_tokens" || reason == "pause_turn" then "length"
                                 else "stop"
  {
  }

  lemma {:induction false} NamesOn(d: Down.DownState, events: seq<Event>, e: Event)
    requires NamedAfter(d.id, d.model, events)
    ensures var t := Down.DownEvent(d, e).state;
            NamedAfter(t.id, t.model, events + [e])
  {
    LastOfPush(events, e, GivesId);
    LastOfPush(events, e, GivesModel);
    if e.MessageStart? {
      StartTells(d, e.message);
    } else if e.MessageDelta? {
      DeltaTells(d, e.stopReason, e.usage);
    } else {
      OthersTellNothing(d, e);
    }
    hide Down.DownEvent, LastOf, NoneOf;
  }

  lemma {:induction false} PromptOn(d: Down.DownState, events: seq<Event>, e: Event)
    requires PromptOf(d.inputTokens, d.cacheRead, d.cacheCreate, events)
    ensures var t := Down.DownEvent(d, e).state;
            PromptOf(t.inputTokens, t.cacheRead, t.cacheCreate, events + [e])
  {
    LastOfPush(events, e, Opens);
    if e.MessageStart? {
      StartTells(d, e.message);
    } else if e.MessageDelta? {
      DeltaTells(d, e.stopReason, e.usage);
    } else {
      OthersTellNothing(d, e);
    }
    hide Down.DownEvent, LastOf, NoneOf;
  }

  lemma {:induction false} OutputOn(d: Down.DownState, events: seq<Event>, e: Event)
    requires MostOutput(d.outputTokens, events)
    ensures MostOutput(Down.DownEvent(d, e).state.outputTokens, events + [e])
  {
    var x := Down.DownEvent(d, e).state.outputTokens;
    if e.MessageStart? {
      StartTells(d, e.message);
    } else if e.MessageDelta? {
      DeltaTells(d, e.stopReason, e.usage);
    } else {
      OthersTellNothing(d, e);
    }
    hide Down.DownEvent;
    assert e in events + [e];
    if x == d.outputTokens && x != 0 {
      var f :| f in events && f.MessageDelta? && f.usage.Some? && f.usage.value.output == x;
      assert f in events + [e];
    }
  }

  /** Only an event that gives a reason changes it, and a known call decides it. */
  lemma {:induction false} ReasonChanges(d: Down.DownState, e: Event)
    ensures Down.DownEvent(d, e).state.finishReason
         == if !GivesReason(e) then d.finishReason
            else if d.toolIndex > 0 || e.stopReason == "tool_use" then "tool_calls"
            else if e.stopReason == "max_tokens" || e.stopReason == "pause_turn" then "length"
            else "stop"
  {
    if e.MessageStart? {
      StartTells(d, e.message);
    } else if e.MessageDelta? {
      DeltaTells(d, e.stopReason, e.usage);
    } else {
      OthersTellNothing(d, e);
    }
    hide Down.DownEvent;
  }

  lemma {:induction false} ReasonOn(d: Down.DownState, events: seq<Event>, e: Event)
    requires FinishesFor(d.finishReason, events) && (NoneOf(events, GivesReason) <==> d.finishReason == "")
    requires d.toolIndex == |Read(events).tools|
    ensures var t := Down.DownEvent(d, e).state;
            FinishesFor(t.finishReason, events + [e]) && (NoneOf(events + [e], GivesReason) <==> t.finishReason == "")
  {
    LastOfPush(events, e, GivesReason);
    ReasonChanges(d, e);
    var reason := Down.DownEvent(d, e).state.finishReason;
    hide Down.DownEvent, NoneOf, Read;
    var all := events + [e];
    forall i | LastOf(all, i, GivesReason)
      ensures reason == if Read(all[..i]).tools != [] || all[i].stopReason == "tool_use" then "tool_calls"
                        else if all[i].stopReason == "max_tokens" || all[i].stopReason == "pause_turn" then "length"
                        else "stop"
    {
      if !GivesReason(e) {
        assert LastOf(events, i, GivesReason);
      }
    }
  }

  lemma {:induction false} StartedOn(d: Down.DownState, events: seq<Event>, e: Event)
    requires (d.started <==> exists f :: f in events && f.MessageStart?) && !d.finalized
    ensures var t := Down.DownEvent(d, e).state;
            (t.started <==> exists f :: f in events + [e] && f.MessageStart?) && !t.finalized
  {
    if e.MessageStart? {
      StartTells(d, e.message);
      assert e in events + [e];
    } else if e.MessageDelta? {
      DeltaTells(d, e.stopReason, e.usage);
    } else {
      OthersTellNothing(d, e);
    }
    hide Down.DownEvent;
    assert forall f :: f in events + [e] <==> f in events || f == e;
  }

  lemma {:induction false} OneMoreTold(d: Down.DownState, events: seq<Event>, e: Event)
    requires Told(d, events) && d.toolIndex == |Read(events).tools|
    ensures Told(Down.DownEvent(d, e).state, events + [e])
  {
    hide *;
    ToldIs(d, events);
    NamesOn(d, events, e);
    PromptOn(d, events, e);
    OutputOn(d, events, e);
    ReasonOn(d, events, e);
    StartedOn(d, events, e);
    ToldIs(Down.DownEvent(d, e).state, events + [e]);
  }

  lemma {:induction false} NothingTold()
    ensures Told(Down.DownEvents(Down.INITIAL, []).state, [])
  {
  }

  lemma {:induction false} EventsTold(events: seq<Event>)
    ensures Told(Down.DownEvents(Down.INITIAL, events).state, events)
  {
    hide *;
    if events == [] {
      NothingTold();
    } else {
      var front, e := events[..|events| - 1], events[|events| - 1];
      EventsTold(front);
      EventsInView(front);
      assert events == front + [e];
      var r := Down.DownEvents(Down.INITIAL, front);
      CallsCounted(r.state, Read(front), StreamFrames(r.chunks));
      OneMoreTold(r.state, front, e);
      DownPush(front, e);
    }
  }

  lemma {:induction false} DownPush(front: seq<Event>, e: Event)
    ensures Down.DownEvents(Down.INITIAL, front + [e]).state == Down.DownEvent(Down.DownEvents(Down.INITIAL, front).state, e).state
  {
    assert (front + [e])[..|front|] == front;
    hide Down.DownEvent;
  }

  lemma {:induction false} CallsCounted(d: Down.DownState, v: Reply, gs: seq<Frame>)
    requires InView(d, v, gs)
    ensures d.toolIndex == |v.tools|
  {
  }

  lemma {:induction false} ToldIs(d: Down.DownState, events: seq<Event>)
    ensures Told(d, events) <==>
              && NamedAfter(d.id, d.model, events)
              && PromptOf(d.inputTokens, d.cacheRead, d.cacheCreate, events)
              && MostOutput(d.outputTokens, events)
              && FinishesFor(d.finishReason, events) && (NoneOf(events, GivesReason) <==> d.finishReason == "")
              && (d.started <==> exists e :: e in events && e.MessageStart?) && !d.finalized
  {
  }

  /** The chunk that ends the translation of `events`: why it ends, and all that was counted. */
  ghost predicate ClosesFor(c: Chunk, events: seq<Event>) {
    && NamedAfter(c.id, c.model, events)
    && |c.choices| == 1 && c.choices[0].finish.Some? && FinishesFor(c.choices[0].finish.value, events)
    && (NoneOf(events, GivesReason) ==> c.choices[0].finish == Some("stop"))
    && c.usage.Some? && MostOutput(c.usage.value.completion, events)
    && c.usage.value.total == c.usage.value.prompt + c.usage.value.completion
    && exists input, cacheRead, cacheCreate :: PromptOf(input, cacheRead, cacheCreate, events)
         && c.usage.value.prompt == input + cacheRead + cacheCreate
         && c.usage.value.cached == if cacheRead > 0 then Some(cacheRead) else None
  }

  /** Every chunk carries the id and the model known by then. */
  lemma {:induction false} DownNames(events: seq<Event>, e: Event)
    requires !e.MessageStart?
    ensures forall c :: c in Down.DownEvent(Down.DownEvents(Down.INITIAL, events).state, e).chunks ==> NamedAfter(c.id, c.model, events)
  {
    EventsTold(events);
    var d := Down.DownEvents(Down.INITIAL, events).state;
    hide Down.DownEvents, NamedAfter;
    EmittedNames(d, e);
  }

  lemma {:induction false} EmittedNames(d: Down.DownState, e: Event)
    ensures forall c :: c in Down.DownEvent(d, e).chunks ==> c.id == d.id && c.model == d.model
    ensures e.MessageStart? ==> Down.DownEvent(d, e).chunks == []
  {
  }

  lemma {:induction false} StopSays(d: Down.DownState)
    ensures var r := Down.DownEvent(d, MessageStop);
            && r.done && |r.chunks| == 1 && r.chunks[0].id == d.id && r.chunks[0].model == d.model
            && |r.chunks[0].choices| == 1
            && r.chunks[0].choices[0].finish == Some(if d.finishReason == "" then "stop" else d.finishReason)
            && r.chunks[0].usage.Some?
            && var u, prompt := r.chunks[0].usage.value, d.inputTokens + d.cacheRead + d.cacheCreate;
               u == ChatUsage(prompt, d.outputTokens, prompt + d.outputTokens, if d.cacheRead > 0 then Some(d.cacheRead) else None)
    ensures !d.finalized ==> Down.DownFinalize(d).chunks == if d.started then Down.DownEvent(d, MessageStop).chunks else []
  {
  }

  /** A stream ends, at message_stop or when it breaks off behind a message_start, with the chunk its events call for. */
  lemma {:induction false} DownClosing(events: seq<Event>)
    ensures var d := Down.DownEvents(Down.INITIAL, events).state;
            var r := Down.DownEvent(d, MessageStop);
            && r.done && |r.chunks| == 1 && ClosesFor(r.chunks[0], events)
            && Down.DownFinalize(d).chunks == if exists e :: e in events && e.MessageStart? then r.chunks else []
  {
    EventsTold(events);
    var d := Down.DownEvents(Down.INITIAL, events).state;
    StopSays(d);
    hide *;
    ToldIs(d, events);
    ClosesIs(Down.DownEvent(d, MessageStop).chunks[0], d, events);
  }

  lemma {:induction false} ClosesIs(c: Chunk, d: Down.DownState, events: seq<Event>)
    requires NamedAfter(d.id, d.model, events) && PromptOf(d.inputTokens, d.cacheRead, d.cacheCreate, events)
    requires MostOutput(d.outputTokens, events)
    requires FinishesFor(d.finishReason, events) && (NoneOf(events, GivesReason) <==> d.finishReason == "")
    requires c.id == d.id && c.model == d.model && |c.choices| == 1
    requires c.choices[0].finish == Some(if d.finishReason == "" then "stop" else d.finishReason)
    requires var prompt := d.inputTokens + d.cacheRead + d.cacheCreate;
             c.usage == Some(ChatUsage(prompt, d.outputTokens, prompt + d.outputTokens, if d.cacheRead > 0 then Some(d.cacheRead) else None))
    ensures ClosesFor(c, events)
  {
    hide NamedAfter, PromptOf, MostOutput, FinishesFor;
    if d.finishReason == "" {
      NoReason(events);
    }
    assert PromptOf(d.inputTokens, d.cacheRead, d.cacheCreate, events);
  }

  lemma {:induction false} NoReason(events: seq<Event>)
    requires NoneOf(events, GivesReason)
    ensures FinishesFor("stop", events)
  {
    hide Read;
  }
}
