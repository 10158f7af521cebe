/** What is left of a Chat stream that was translated to Anthropic events and back. */
module StreamRoundTrip {
  import opened Wrappers
  import opened StreamTypes
  import opened ChatToAnthropic
  import opened BlockLifecycle
  import opened StreamEcho
  import opened AnswerLink
  import Down = AnthropicToChat

  /** Every tool call is announced without arguments, unless its announcement is the first content of all. */
  predicate AnnouncedBare(fs: seq<Frame>) {
    fs != [] ==>
      && AnnouncedBare(fs[..|fs| - 1])
      && !Misdirected(fs[..|fs| - 1], fs[|fs| - 1])
  }

  predicate Misdirected(before: seq<Frame>, f: Frame) {
    f.Tool? && f.call.Args() != "" && f.call.index !in SeenTools(before) && AnyContent(before)
  }

  /** The finish reason a Chat stream ends with after the round trip. */
  function CanonicalFinish(a: Answer): string {
    if a.tools != [] || a.finish == Some("tool_calls") then "tool_calls"
    else if a.finish == Some("length") then "length"
    else "stop"
  }

  // ----- The two machines in sequence -----

  /** The stop reason remembered on the way up, as far as the finish reason on the way down depends on it. */
  predicate Reasoned(a: Answer, stopReason: string) {
    && (a.finish.None? <==> stopReason == "")
    && (a.finish.Some? && a.tools == [] ==> stopReason == StopReason(a.finish.value, 0))
  }

  ghost predicate InStep(s: UpState, d: Down.DownState, fs: seq<Frame>, gs: seq<Frame>) {
    && Tracks(s, fs)
    && Linked(s.toolBlocks, d.blockToTool, d.toolIndex, Assembled(fs), Assembled(gs), AnnouncedBare(fs))
    && d.finishReason == ""
    && Reasoned(Assembled(fs), s.stopReason)
  }

  lemma {:induction false} FrameInStep(s: UpState, d: Down.DownState, fs: seq<Frame>, gs: seq<Frame>, f: Frame)
    requires InStep(s, d, fs, gs)
    ensures InStep(UpFrame(s, f).state, NumberedAfter(s.blockIndex, s.toolBlocks, d, f),
                   fs + [f], gs + Echo(s.blockIndex, s.toolBlocks, d.blockToTool, d.toolIndex, f))
  {
    var a := Assembled(fs);
    assert Indices(a.tools) == s.toolBlocks.Keys;
    hide UpFrame, Linked, Tracks, Echo, Assembled, Assemble, Reasoned, Indices, AnnouncedBare, Misdirected;
    FrameTracks(s, fs, f);
    FrameLinked(s, d, a, gs, AnnouncedBare(fs), fs, f);
    AssembledPush(fs, f);
    BarePush(fs, f);
    ReasonedStep(s, a, f);
  }

  lemma {:induction false} BarePush(fs: seq<Frame>, f: Frame)
    ensures AnnouncedBare(fs + [f]) == (AnnouncedBare(fs) && !Misdirected(fs, f))
  {
    assert (fs + [f])[..|fs|] == fs;
  }

  lemma {:induction false} ReasonedStep(s: UpState, a: Answer, f: Frame)
    requires Reasoned(a, s.stopReason) && Indices(a.tools) == s.toolBlocks.Keys
    ensures Reasoned(Assemble(a, f), UpFrame(s, f).state.stopReason)
  {
    NoToolsNoBlocks(s.toolBlocks, a.tools);
    FrameEffect(s, f);
    if !f.Finish? {
      hide UpFrame;
    }
  }

  lemma {:induction false} TracksSeen(s: UpState, fs: seq<Frame>)
    requires Tracks(s, fs)
    ensures s.toolBlocks.Keys == SeenTools(fs) && (s.blockIndex > 0 <==> AnyContent(fs)) && s.blockIndex >= 0
    ensures Placed(s.toolBlocks, s.blockIndex)
  {
  }

  lemma {:induction false} FrameLinked(s: UpState, d: Down.DownState, a: Answer, gs: seq<Frame>, bare: bool, fs: seq<Frame>, f: Frame)
    requires Tracks(s, fs)
    requires Linked(s.toolBlocks, d.blockToTool, d.toolIndex, a, Assembled(gs), bare)
    ensures var e := NumberedAfter(s.blockIndex, s.toolBlocks, d, f);
            Linked(UpFrame(s, f).state.toolBlocks, e.blockToTool, e.toolIndex, Assemble(a, f),
                   Assembled(gs + Echo(s.blockIndex, s.toolBlocks, d.blockToTool, d.toolIndex, f)),
                   bare && !Misdirected(fs, f))
  {
    FrameEffect(s, f);
    hide UpFrame, SameCalls, SameArgs, Numbered, Lossy, Distinct, Indices, Tracks, SeenTools, AnyContent;
    match f
    case Reasoning(_) => AssembledPush(gs, f);
    case Text(_) => AssembledPush(gs, f);
    case Finish(_) => assert gs + [] == gs;
    case Tool(tc) =>
      hide Linked;
      TracksSeen(s, fs);
      if tc.index in s.toolBlocks {
        EchoKnown(s.blockIndex, s.toolBlocks, d.blockToTool, d.toolIndex, a, gs, bare, tc);
      } else {
        EchoNew(s.blockIndex, s.toolBlocks, d.blockToTool, d.toolIndex, a, gs, bare, tc);
      }
  }

  lemma {:induction false} NoToolsNoBlocks(toolBlocks: map<int, int>, tools: seq<ToolView>)
    requires Indices(tools) == toolBlocks.Keys
    ensures |toolBlocks| == 0 <==> tools == []
  {
    if tools != [] {
      assert tools[0].index in Indices(tools);
      assert toolBlocks != map[];
    } else {
      assert Indices(tools) == {};
      assert toolBlocks == map[];
    }
  }

  lemma {:induction false} ToolFramesProper(calls: seq<ToolCall>)
    ensures Proper(ToolFrames(calls))
  {
    if calls != [] {
      ToolFramesProper(calls[..|calls| - 1]);
    }
  }

  lemma {:induction false} ChoicesFramesProper(choices: seq<Choice>)
    ensures Proper(ChoicesFrames(choices))
  {
    if choices != [] {
      ChoicesFramesProper(choices[..|choices| - 1]);
      ChoiceFramesProper(choices[|choices| - 1]);
      hide ChoiceFrames;
    }
  }

  lemma {:induction false} ChoiceFramesProper(c: Choice)
    ensures Proper(ChoiceFrames(c))
  {
    ToolFramesProper(c.delta.toolCalls);
    hide ToolFrames;
    assert Proper(ReasoningFrames(c.delta)) && Proper(TextFrames(c.delta)) && Proper(FinishFrames(c));
  }

  lemma {:induction false} FramesInStep(s: UpState, d: Down.DownState, fs: seq<Frame>, gs: seq<Frame>, more: seq<Frame>)
    requires InStep(s, d, fs, gs) && Proper(more)
    ensures var r := UpFrames(s, more);
            var q := Down.DownEvents(d, r.events);
            InStep(r.state, q.state, fs + more, gs + StreamFrames(q.chunks)) && !q.done
  {
    hide InStep, UpFrame, Down.DownEvents, StreamFrames;
    NothingEcho(d);
    if more == [] {
      assert fs + more == fs && gs + [] == gs;
    } else {
      var front, f := more[..|more| - 1], more[|more| - 1];
      assert Proper(front) && Proper([f]);
      hide Proper;
      FramesInStep(s, d, fs, gs, front);
      var r := UpFrames(s, front);
      var q := Down.DownEvents(d, r.events);
      OneMoreFrame(r.state, d, r.events, fs + front, gs, f);
      assert (fs + front) + [f] == fs + more;
    }
  }

  lemma {:induction false} OneMoreFrame(s: UpState, d: Down.DownState, events: seq<Event>, fs: seq<Frame>, gs: seq<Frame>, f: Frame)
    requires var q := Down.DownEvents(d, events);
             !q.done && InStep(s, q.state, fs, gs + StreamFrames(q.chunks))
    requires Proper([f])
    ensures var u := UpFrame(s, f);
            var q := Down.DownEvents(d, events + u.events);
            !q.done && InStep(u.state, q.state, fs + [f], gs + StreamFrames(q.chunks))
  {
    hide UpFrame, Down.DownEvents, Proper, InStep, Kept, NumberedAfter, StreamFrames, Echo;
    var u := UpFrame(s, f);
    var q := Down.DownEvents(d, events);
    var t := Down.DownEvents(q.state, u.events);
    FrameEcho(q.state, s, f);
    FrameInStep(s, q.state, fs, gs + StreamFrames(q.chunks), f);
    Down.DownAppend(d, events, u.events);
    StreamFramesAppend(q.chunks, t.chunks);
    var e := Echo(s.blockIndex, s.toolBlocks, q.state.blockToTool, q.state.toolIndex, f);
    assert gs + StreamFrames(q.chunks) + e == gs + (StreamFrames(q.chunks) + e);
    KeptInStep(u.state, NumberedAfter(s.blockIndex, s.toolBlocks, q.state, f), t.state, fs + [f], gs + (StreamFrames(q.chunks) + e));
  }

  lemma {:induction false} KeptInStep(s: UpState, d: Down.DownState, e: Down.DownState, fs: seq<Frame>, gs: seq<Frame>)
    requires InStep(s, d, fs, gs) && Kept(d, e)
    ensures InStep(s, e, fs, gs)
  {
  }

  lemma {:induction false} BeginInStep(s: UpState, d: Down.DownState, c: Chunk, fs: seq<Frame>, gs: seq<Frame>)
    requires InStep(s, d, fs, gs)
    ensures var b := Begin(Header(s, c));
            var q := Down.DownEvents(d, b.events);
            InStep(b.state, q.state, fs, gs) && q.chunks == [] && !q.done
  {
    HeaderKeepsBlocks(s, c);
    var h := Header(s, c);
    NothingEcho(d);
    if !h.started {
      Down.DownOne(d, Begin(h).events[0]);
    }
    hide Linked, TracksAt;
  }

  lemma {:induction false} ChunksInStep(chunks: seq<Chunk>)
    ensures var r := UpChunks(INITIAL, chunks);
            var q := Down.DownEvents(Down.INITIAL, r.events);
            InStep(r.state, q.state, StreamFrames(chunks), StreamFrames(q.chunks)) && !q.done
  {
    if chunks == [] {
      NothingEcho(Down.INITIAL);
      assert Tracks(INITIAL, []);
    } else {
      var front, c := chunks[..|chunks| - 1], chunks[|chunks| - 1];
      ChunksInStep(front);
      var r := UpChunks(INITIAL, front);
      OneMoreChunk(r.state, r.events, StreamFrames(front), c);
    }
  }

  lemma {:induction false} OneMoreChunk(s: UpState, events: seq<Event>, fs: seq<Frame>, c: Chunk)
    requires var q := Down.DownEvents(Down.INITIAL, events);
             !q.done && InStep(s, q.state, fs, StreamFrames(q.chunks))
    ensures var u := UpChunk(s, c);
            var q := Down.DownEvents(Down.INITIAL, events + u.events);
            !q.done && InStep(u.state, q.state, fs + ChoicesFrames(c.choices), StreamFrames(q.chunks))
  {
    hide Down.DownEvents, Begin, Header, UpFrames, StreamFrames, InStep;
    var q := Down.DownEvents(Down.INITIAL, events);
    var b := Begin(Header(s, c));
    BeginInStep(s, q.state, c, fs, StreamFrames(q.chunks));
    var q1 := Down.DownEvents(q.state, b.events);
    Down.DownAppend(Down.INITIAL, events, b.events);
    assert q.chunks + [] == q.chunks;
    ChoicesFramesProper(c.choices);
    var u := UpFrames(b.state, ChoicesFrames(c.choices));
    FramesInStep(b.state, q1.state, fs, StreamFrames(q.chunks), ChoicesFrames(c.choices));
    var q2 := Down.DownEvents(q1.state, u.events);
    Down.DownAppend(Down.INITIAL, events + b.events, u.events);
    StreamFramesAppend(q.chunks, q2.chunks);
    assert (events + b.events) + u.events == events + (b.events + u.events);
  }

  // ----- Main results -----

  /** The Chat stream that comes back when every translated event is translated again. */
  function ThereAndBack(chunks: seq<Chunk>): Down.DownResult {
    Down.DownEvents(Down.INITIAL, UpRun(chunks).events)
  }

  lemma {:induction false} FinishEcho(d: Down.DownState, reason: string, usage: AnthropicUsage)
    requires reason != ""
    ensures var q := Down.DownEvents(d, [MessageDelta(reason, Some(usage)), MessageStop]);
            && q.done && |q.chunks| == 1
            && StreamFrames(q.chunks) == [Finish(Down.ChatFinish(reason, d.toolIndex))]
            && q.chunks[0].usage.Some?
            && q.chunks[0].usage.value.completion == Max(d.outputTokens, usage.output)
            && q.chunks[0].usage.value.prompt == d.inputTokens + d.cacheRead + d.cacheCreate
  {
    hide Down.DownEvents, StreamFrames, Down.Complete;
    var e := MessageDelta(reason, Some(usage));
    var d1 := d.(finishReason := Down.ChatFinish(reason, d.toolIndex), outputTokens := Max(d.outputTokens, usage.output));
    Down.DownOne(d, e);
    assert Down.DownEvent(d, e) == Down.DownResult(d1, [], false);
    Down.DownOne(d1, MessageStop);
    assert Down.DownEvent(d1, MessageStop) == Down.Complete(d1);
    CompleteEcho(d1);
    hide Down.DownEvent;
    Down.DownAppend(d, [e], [MessageStop]);
    assert [e] + [MessageStop] == [e, MessageStop];
    assert [] + Down.Complete(d1).chunks == Down.Complete(d1).chunks;
  }

  lemma {:induction false} CompleteEcho(d: Down.DownState)
    requires d.finishReason != ""
    ensures var q := Down.Complete(d);
            && q.done && |q.chunks| == 1
            && StreamFrames(q.chunks) == [Finish(d.finishReason)]
            && q.chunks[0].usage == Some(Down.FinishUsage(d))
  {
    EmitFrames(d, Down.EMPTY, Some(d.finishReason), Some(Down.FinishUsage(d)));
    hide StreamFrames;
    assert ToolFrames([]) == [];
  }

  lemma {:induction false} FinalizeEcho(s: UpState, d: Down.DownState)
    requires s.started && !s.finalized
    ensures var q := Down.DownEvents(d, UpFinalize(s).events);
            && q.done && |q.chunks| == 1
            && StreamFrames(q.chunks) == [Finish(Down.ChatFinish(if s.stopReason == "" then "end_turn" else s.stopReason, d.toolIndex))]
            && q.chunks[0].usage.Some?
            && q.chunks[0].usage.value.completion == Max(d.outputTokens, s.outputTokens)
            && q.chunks[0].usage.value.prompt == d.inputTokens + d.cacheRead + d.cacheCreate
  {
    hide Down.DownEvents, StreamFrames;
    var reason := if s.stopReason == "" then "end_turn" else s.stopReason;
    var usage := AnthropicUsage(s.inputTokens, s.outputTokens, s.cacheRead, 0);
    var c := Close(s.(finalized := true));
    CloseEcho(d, s.(finalized := true));
    FinishEcho(d, reason, usage);
    var end := [MessageDelta(reason, Some(usage)), MessageStop];
    assert UpFinalize(s).events == c.events + end;
    Down.DownAppend(d, c.events, end);
    assert [] + Down.DownEvents(d, end).chunks == Down.DownEvents(d, end).chunks;
  }

  /**
   * Translated there and back, a stream yields the same text, the same reasoning and the same tool
   * calls, numbered from zero in order of appearance, under one finish reason; and every call keeps its
   * arguments exactly when no call is announced with arguments behind other content.
   */
  lemma {:induction false} RoundTrip(chunks: seq<Chunk>)
    requires chunks != []
    ensures var a, b := Assembled(StreamFrames(chunks)), Assembled(StreamFrames(ThereAndBack(chunks).chunks));
            && b.text == a.text && b.reasoning == a.reasoning
            && SameCalls(a.tools, b.tools)
            && (SameArgs(a.tools, b.tools) <==> AnnouncedBare(StreamFrames(chunks)))
            && b.finish == Some(CanonicalFinish(a))
            && ThereAndBack(chunks).done
  {
    ChunksInStep(chunks);
    ChunksScan(false, false, chunks);
    var r := UpChunks(INITIAL, chunks);
    var q := Down.DownEvents(Down.INITIAL, r.events);
    hide Tracks, StreamFrames, Down.DownEvents, UpChunks, Assembled, AnnouncedBare;
    FinalizeEcho(r.state, q.state);
    var f := UpFinalize(r.state);
    var t := Down.DownEvents(q.state, f.events);
    hide UpFinalize, SameArgs, Lossy, Numbered;
    Down.DownAppend(Down.INITIAL, r.events, f.events);
    StreamFramesAppend(q.chunks, t.chunks);
    AssembledPush(StreamFrames(q.chunks), StreamFrames(t.chunks)[0]);
  }

  /** A chunk with one choice that only holds `d`. */
  function ChunkOf(d: Delta): Chunk {
    Chunk("", "", [Choice(d, None)], None)
  }

  /** Text, and then a call announced together with its arguments: they go to the text's block and are lost. */
  lemma {:induction false} ShadowedArgumentsAreLost(text: string, call: ToolCall)
    requires text != "" && call.Args() != ""
    ensures var chunks := [ChunkOf(Delta("", text, "", [])), ChunkOf(Delta("", "", "", [call]))];
            var a, b := Assembled(StreamFrames(chunks)), Assembled(StreamFrames(ThereAndBack(chunks).chunks));
            && !WellFormed(true, UpRun(chunks).events)
            && |a.tools| == |b.tools| && !SameArgs(a.tools, b.tools)
  {
    var chunks := [ChunkOf(Delta("", text, "", [])), ChunkOf(Delta("", "", "", [call]))];
    TwoFrames(text, call);
    EveryStreamIsOneMessage(chunks);
    RoundTrip(chunks);
  }

  lemma {:induction false} TwoFrames(text: string, call: ToolCall)
    requires text != "" && call.Args() != ""
    ensures var fs := StreamFrames([ChunkOf(Delta("", text, "", [])), ChunkOf(Delta("", "", "", [call]))]);
            fs == [Text(text), Tool(call)] && !InOrder(fs) && !AnnouncedBare(fs)
  {
    var one, two := ChunkOf(Delta("", text, "", [])), ChunkOf(Delta("", "", "", [call]));
    var fs := [Text(text), Tool(call)];
    assert ToolFrames([call]) == [Tool(call)];
    OneChoice(one.choices[0]);
    OneChoice(two.choices[0]);
    assert ChoiceFrames(one.choices[0]) == [Text(text)] && ChoiceFrames(two.choices[0]) == [Tool(call)];
    assert [one, two][..1] == [one] && [one][..0] == [];
    hide ChoicesFrames, ChoiceFrames;
    assert StreamFrames([one]) == [Text(text)];
    assert StreamFrames([one, two]) == fs;
    assert fs[..1] == [Text(text)] && [Text(text)][..0] == [];
    assert SeenTools([Text(text)]) == {} && AnyContent([Text(text)]);
    assert Misdirected(fs[..1], fs[1]) && !FrameInOrder(fs[..1], fs[1]);
  }

  lemma {:induction false} OneChoice(c: Choice)
    ensures ChoicesFrames([c]) == ChoiceFrames(c)
  {
    assert [c][..0] == [];
    assert ChoicesFrames([]) == [];
    hide ChoiceFrames;
  }
}
