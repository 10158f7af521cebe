/** The Anthropic stream protocol as an automaton, and what the Chat-to-Anthropic translator keeps of it. */
module BlockLifecycle {
  import opened Wrappers
  import opened StreamTypes
  import opened ChatToAnthropic

  /** `Idle(n)`: n blocks are complete. `InBlock(i, k)`: block i, of kind k, is open. */
  datatype Phase = Fresh | Idle(next: int) | InBlock(index: int, kind: Kind) | Tail | Ended | Broken

  function KindOf(h: BlockHeader): Kind {
    match h
    case TextBlock => PlainText
    case ThinkingBlock => Thinking
    case ToolBlock(_, _) => ToolUse
    case OtherBlock => NoBlock
  }

  /** A delta belongs to the open block; without `strict`, argument deltas may go to any block started so far. */
  predicate Addressed(strict: bool, open: int, kind: Kind, index: int, d: BlockDelta) {
    match d
    case TextDelta(_) => kind == PlainText && index == open
    case ThinkingDelta(_) => kind == Thinking && index == open
    case InputJsonDelta(_) => if strict then kind == ToolUse && index == open else 0 <= index <= open
    case OtherDelta => false
  }

  function Advance(strict: bool, p: Phase, e: Event): Phase {
    match p
    case Fresh => if e.MessageStart? then Idle(0) else Broken
    case Idle(n) =>
      if e.BlockStart? && e.index == Some(n) && e.header.Some? then InBlock(n, KindOf(e.header.value))
      else if e.MessageDelta? then Tail
      else Broken
    case InBlock(i, k) =>
      if e == BlockStop(Some(i)) then Idle(i + 1)
      else if e.BlockChange? && e.index.Some? && e.delta.Some? && Addressed(strict, i, k, e.index.value, e.delta.value) then p
      else Broken
    case Tail => if e.MessageStop? then Ended else Broken
    case Ended => Broken
    case Broken => Broken
  }

  function Scan(strict: bool, p: Phase, events: seq<Event>): Phase {
    if events == [] then p
    else Advance(strict, Scan(strict, p, events[..|events| - 1]), events[|events| - 1])
  }

  /** Nothing at all, or one complete message. */
  predicate WellFormed(strict: bool, events: seq<Event>) {
    events == [] || Scan(strict, Fresh, events) == Ended
  }

  lemma {:induction false} ScanAppend(strict: bool, p: Phase, a: seq<Event>, b: seq<Event>)
    ensures Scan(strict, p, a + b) == Scan(strict, Scan(strict, p, a), b)
  {
    if b == [] {
      assert a + b == a;
    } else {
      ScanAppend(strict, p, a, b[..|b| - 1]);
      assert (a + b)[..|a + b| - 1] == a + b[..|b| - 1];
    }
  }

  lemma {:induction false} ScanOne(strict: bool, p: Phase, e: Event)
    ensures Scan(strict, p, [e]) == Advance(strict, p, e)
  {
    assert [e][..0] == [];
  }

  lemma {:induction false} BrokenStays(strict: bool, events: seq<Event>)
    ensures Scan(strict, Broken, events) == Broken
  {
    if events != [] {
      BrokenStays(strict, events[..|events| - 1]);
    }
  }

  lemma {:induction false} NothingAfterEnd(strict: bool, events: seq<Event>)
    requires events != []
    ensures Scan(strict, Ended, events) == Broken
  {
    if |events| > 1 {
      NothingAfterEnd(strict, events[..|events| - 1]);
    } else {
      assert events[..0] == [];
    }
  }

  // ----- When the Chat frames come in order -----

  /** The tool call whose block is the open one after `fs`: the last content opened no other block. */
  function OpenTool(fs: seq<Frame>): Option<int> {
    if fs == [] then None
    else
      var front := fs[..|fs| - 1];
      match fs[|fs| - 1]
      case Reasoning(_) => None
      case Text(_) => None
      case Tool(tc) => if tc.index in SeenTools(front) then OpenTool(front) else Some(tc.index)
      case Finish(_) => OpenTool(front)
  }

  /**
   * Arguments come either for the tool call announced last, with no other content in between, or on
   * the announcing frame itself when that is the very first content of the stream.
   */
  predicate FrameInOrder(before: seq<Frame>, f: Frame) {
    f.Tool? && f.call.Args() != "" ==>
      if f.call.index in SeenTools(before) then OpenTool(before) == Some(f.call.index)
      else !AnyContent(before)
  }

  predicate InOrder(fs: seq<Frame>) {
    fs != [] ==> InOrder(fs[..|fs| - 1]) && FrameInOrder(fs[..|fs| - 1], fs[|fs| - 1])
  }

  // ----- The translator's state after the frames `fs` -----

  /** Each tool call has a block of its own among the first n. */
  ghost predicate Placed(toolBlocks: map<int, int>, n: int) {
    && (forall i :: i in toolBlocks ==> 0 <= toolBlocks[i] < n)
    && (forall i, j :: i in toolBlocks && j in toolBlocks && i != j ==> toolBlocks[i] != toolBlocks[j])
  }

  ghost predicate TracksAt(n: int, open: Kind, toolBlocks: map<int, int>, fs: seq<Frame>) {
    && n >= 0
    && (open == NoBlock <==> n == 0)
    && (n > 0 <==> AnyContent(fs))
    && toolBlocks.Keys == SeenTools(fs)
    && Placed(toolBlocks, n)
    && (open == ToolUse <==> OpenTool(fs).Some?)
    && (OpenTool(fs).Some? ==> OpenTool(fs).value in toolBlocks && toolBlocks[OpenTool(fs).value] == n - 1)
  }

  ghost predicate Tracks(s: UpState, fs: seq<Frame>) {
    TracksAt(s.blockIndex, s.openKind, s.toolBlocks, fs)
  }

  function PhaseOf(s: UpState): Phase {
    if s.openKind == NoBlock then Idle(s.blockIndex) else InBlock(s.blockIndex - 1, s.openKind)
  }

  lemma {:induction false} FrameTracks(s: UpState, fs: seq<Frame>, f: Frame)
    requires Tracks(s, fs)
    ensures Tracks(UpFrame(s, f).state, fs + [f])
  {
    FrameEffect(s, f);
    hide UpFrame, TracksAt;
    match f
    case Finish(_) => StillTracks(s.blockIndex, s.openKind, s.toolBlocks, fs, f);
    case Reasoning(_) => ContentTracks(s.blockIndex, s.openKind, s.toolBlocks, fs, f, Thinking);
    case Text(_) => ContentTracks(s.blockIndex, s.openKind, s.toolBlocks, fs, f, PlainText);
    case Tool(tc) =>
      if tc.index in s.toolBlocks {
        StillTracks(s.blockIndex, s.openKind, s.toolBlocks, fs, f);
      } else {
        AnnounceTracks(s.blockIndex, s.openKind, s.toolBlocks, fs, tc);
      }
  }

  lemma {:induction false} StillTracks(n: int, open: Kind, toolBlocks: map<int, int>, fs: seq<Frame>, f: Frame)
    requires TracksAt(n, open, toolBlocks, fs)
    requires f.Finish? || (f.Tool? && f.call.index in toolBlocks)
    ensures TracksAt(n, open, toolBlocks, fs + [f])
  {
    assert (fs + [f])[..|fs|] == fs;
    assert SeenTools(fs + [f]) == SeenTools(fs);
    hide Placed;
  }

  lemma {:induction false} ContentTracks(n: int, open: Kind, toolBlocks: map<int, int>, fs: seq<Frame>, f: Frame, kind: Kind)
    requires TracksAt(n, open, toolBlocks, fs)
    requires f.Reasoning? || f.Text?
    requires kind == Thinking || kind == PlainText
    ensures TracksAt(if open == kind then n else n + 1, kind, toolBlocks, fs + [f])
  {
    assert (fs + [f])[..|fs|] == fs;
    assert SeenTools(fs + [f]) == SeenTools(fs);
    assert Placed(toolBlocks, n + 1);
    hide Placed;
  }

  lemma {:induction false} AnnounceTracks(n: int, open: Kind, toolBlocks: map<int, int>, fs: seq<Frame>, tc: ToolCall)
    requires TracksAt(n, open, toolBlocks, fs)
    requires tc.index !in toolBlocks
    ensures TracksAt(n + 1, ToolUse, toolBlocks[tc.index := n], fs + [Tool(tc)])
  {
    assert (fs + [Tool(tc)])[..|fs|] == fs;
    PlacedGrows(toolBlocks, n, tc.index);
    hide Placed;
    assert SeenTools(fs + [Tool(tc)]) == SeenTools(fs) + {tc.index};
    assert toolBlocks[tc.index := n].Keys == toolBlocks.Keys + {tc.index};
  }

  /** What one frame does to the block bookkeeping. */
  lemma {:induction false} FrameEffect(s: UpState, f: Frame)
    ensures var t := UpFrame(s, f).state;
            match f
            case Finish(_) => t == s.(stopReason := t.stopReason)
            case Reasoning(_) => t == s.(openKind := Thinking, blockIndex := if s.openKind == Thinking then s.blockIndex else s.blockIndex + 1)
            case Text(_) => t == s.(openKind := PlainText, blockIndex := if s.openKind == PlainText then s.blockIndex else s.blockIndex + 1)
            case Tool(tc) =>
              if tc.index in s.toolBlocks then t == s
              else t == s.(openKind := ToolUse, blockIndex := s.blockIndex + 1, toolBlocks := s.toolBlocks[tc.index := s.blockIndex])
  {
  }

  lemma {:induction false} PlacedGrows(toolBlocks: map<int, int>, n: int, i: int)
    requires Placed(toolBlocks, n) && 0 <= n && i !in toolBlocks
    ensures Placed(toolBlocks[i := n], n + 1)
  {
  }

  lemma {:induction false} FrameScan(strict: bool, s: UpState, fs: seq<Frame>, f: Frame)
    requires Tracks(s, fs)
    ensures Scan(strict, PhaseOf(s), UpFrame(s, f).events)
         == if !strict || FrameInOrder(fs, f) then PhaseOf(UpFrame(s, f).state) else Broken
  {
    hide Scan;
    match f
    case Finish(_) =>
      ScanNone(strict, PhaseOf(s));
    case Reasoning(t) =>
      EnterScan(strict, s, Thinking, ThinkingBlock);
      DeltaScan(strict, s, Enter(s, Thinking, ThinkingBlock), ThinkingDelta(t));
    case Text(t) =>
      EnterScan(strict, s, PlainText, TextBlock);
      DeltaScan(strict, s, Enter(s, PlainText, TextBlock), TextDelta(t));
    case Tool(tc) =>
      AnnounceScan(strict, s, tc);
      var r := Announce(s, tc);
      ScanAppend(strict, PhaseOf(s), r.events, ArgsEvents(ArgsAddress(s, tc), tc));
      ArgsScan(strict, s, fs, tc);
  }

  /** An open tool call is the one whose block is the last one opened. */
  lemma {:induction false} OpenToolIs(n: int, open: Kind, toolBlocks: map<int, int>, fs: seq<Frame>, i: int)
    requires TracksAt(n, open, toolBlocks, fs) && i in toolBlocks
    ensures OpenTool(fs) == Some(i) <==> open == ToolUse && toolBlocks[i] == n - 1
  {
    if open == ToolUse {
      var j := OpenTool(fs).value;
      assert i != j ==> toolBlocks[i] != toolBlocks[j];
      assert i == j ==> OpenTool(fs) == Some(i);
    }
  }

  lemma {:induction false} ArgsScan(strict: bool, s: UpState, fs: seq<Frame>, tc: ToolCall)
    requires Tracks(s, fs)
    ensures Scan(strict, PhaseOf(Announce(s, tc).state), ArgsEvents(ArgsAddress(s, tc), tc))
         == if !strict || FrameInOrder(fs, Tool(tc)) then PhaseOf(Announce(s, tc).state) else Broken
  {
    var r := Announce(s, tc);
    if tc.Args() == "" {
      ScanNone(strict, PhaseOf(r.state));
    } else {
      ScanOne(strict, PhaseOf(r.state), ArgsEvents(ArgsAddress(s, tc), tc)[0]);
      if tc.index in s.toolBlocks {
        OpenToolIs(s.blockIndex, s.openKind, s.toolBlocks, fs, tc.index);
      } else {
        assert PhaseOf(r.state) == InBlock(s.blockIndex, ToolUse);
      }
    }
  }

  lemma {:induction false} ScanNone(strict: bool, p: Phase)
    ensures Scan(strict, p, []) == p
  {
  }

  /** After switching to the block of its own kind, a text or thinking delta is correctly addressed. */
  lemma {:induction false} DeltaScan(strict: bool, s: UpState, r: UpResult, d: BlockDelta)
    requires Scan(strict, PhaseOf(s), r.events) == PhaseOf(r.state)
    requires r.state.blockIndex > 0
    requires (d.TextDelta? && r.state.openKind == PlainText) || (d.ThinkingDelta? && r.state.openKind == Thinking)
    ensures Scan(strict, PhaseOf(s), r.events + [BlockChange(Some(CurrentIndex(r.state)), Some(d))]) == PhaseOf(r.state)
  {
    var e := BlockChange(Some(CurrentIndex(r.state)), Some(d));
    ScanAppend(strict, PhaseOf(s), r.events, [e]);
    ScanOne(strict, PhaseOf(r.state), e);
  }

  lemma {:induction false} CloseScan(strict: bool, s: UpState)
    requires s.blockIndex >= 0 && (s.openKind == NoBlock <==> s.blockIndex == 0)
    ensures Scan(strict, PhaseOf(s), Close(s).events) == Idle(s.blockIndex)
  {
    if s.openKind != NoBlock {
      ScanOne(strict, PhaseOf(s), Close(s).events[0]);
    }
  }

  lemma {:induction false} OpenScan(strict: bool, s: UpState, kind: Kind, header: BlockHeader)
    requires s.blockIndex >= 0 && (s.openKind == NoBlock <==> s.blockIndex == 0)
    requires kind == KindOf(header) != NoBlock
    ensures var c := Close(s);
            var o := Open(c.state, kind, header);
            Scan(strict, PhaseOf(s), c.events + o.events) == PhaseOf(o.state)
  {
    var c := Close(s);
    var o := Open(c.state, kind, header);
    CloseScan(strict, s);
    ScanAppend(strict, PhaseOf(s), c.events, o.events);
    ScanOne(strict, Idle(s.blockIndex), o.events[0]);
  }

  lemma {:induction false} EnterScan(strict: bool, s: UpState, kind: Kind, header: BlockHeader)
    requires s.blockIndex >= 0 && (s.openKind == NoBlock <==> s.blockIndex == 0)
    requires kind == KindOf(header) != NoBlock
    ensures Scan(strict, PhaseOf(s), Enter(s, kind, header).events) == PhaseOf(Enter(s, kind, header).state)
    ensures Enter(s, kind, header).state.openKind == kind
    ensures Enter(s, kind, header).state.blockIndex > 0
  {
    OpenScan(strict, s, kind, header);
  }

  lemma {:induction false} AnnounceScan(strict: bool, s: UpState, tc: ToolCall)
    requires s.blockIndex >= 0 && (s.openKind == NoBlock <==> s.blockIndex == 0)
    ensures Scan(strict, PhaseOf(s), Announce(s, tc).events) == PhaseOf(Announce(s, tc).state)
  {
    OpenScan(strict, s, ToolUse, ToolBlock(tc.id, tc.Name()));
  }

  /** Where the automaton stands after the events for `fs`, for frames in order or not. */
  function Expected(strict: bool, s: UpState, fs: seq<Frame>): Phase {
    if !strict || InOrder(fs) then PhaseOf(s) else Broken
  }

  lemma {:induction false} FramesScan(strict: bool, s: UpState, before: seq<Frame>, fs: seq<Frame>)
    requires Tracks(s, before)
    ensures Tracks(UpFrames(s, fs).state, before + fs)
    ensures Scan(strict, Expected(strict, s, before), UpFrames(s, fs).events)
         == Expected(strict, UpFrames(s, fs).state, before + fs)
  {
    hide UpFrame, Advance;
    if fs == [] {
      assert before + fs == before;
    } else {
      var front, f := fs[..|fs| - 1], fs[|fs| - 1];
      FramesScan(strict, s, before, front);
      var r := UpFrames(s, front);
      var last := UpFrame(r.state, f);
      FrameTracks(r.state, before + front, f);
      FrameScan(strict, r.state, before + front, f);
      BrokenStays(strict, last.events);
      assert before + fs == (before + front) + [f];
      assert (before + fs)[..|before + fs| - 1] == before + front;
      ScanAppend(strict, Expected(strict, s, before), r.events, last.events);
    }
  }

  lemma {:induction false} ChunkScan(strict: bool, s: UpState, before: seq<Frame>, c: Chunk)
    requires Tracks(s, before) && (!s.started ==> before == [])
    ensures var r := UpChunk(s, c);
            && Tracks(r.state, before + ChoicesFrames(c.choices))
            && r.state.started && r.state.finalized == s.finalized
            && Scan(strict, if s.started then Expected(strict, s, before) else Fresh, r.events)
            == Expected(strict, r.state, before + ChoicesFrames(c.choices))
  {
    HeaderKeepsBlocks(s, c);
    var h := Header(s, c);
    var b := Begin(h);
    var fs := ChoicesFrames(c.choices);
    if !s.started {
      StartScan(strict, h);
    }
    var from := if s.started then Expected(strict, s, before) else Fresh;
    assert Scan(strict, from, b.events) == Expected(strict, b.state, before);
    UpFramesFlags(b.state, fs);
    FramesScan(strict, b.state, before, fs);
    hide Scan, Expected, UpFrames, Begin;
    ScanAppend(strict, from, b.events, UpFrames(b.state, fs).events);
  }

  /** The state in which a stream starts; `finalized` when an end marker came before any chunk. */
  function Start(finalized: bool): UpState {
    INITIAL.(finalized := finalized)
  }

  lemma {:induction false} ChunksScan(strict: bool, finalized: bool, chunks: seq<Chunk>)
    ensures var r := UpChunks(Start(finalized), chunks);
            && Tracks(r.state, StreamFrames(chunks))
            && r.state.finalized == finalized
            && (r.state.started <==> chunks != [])
            && (chunks == [] ==> r == UpResult(Start(finalized), []))
            && (chunks != [] ==> Scan(strict, Fresh, r.events) == Expected(strict, r.state, StreamFrames(chunks)))
  {
    if chunks != [] {
      var front, c := chunks[..|chunks| - 1], chunks[|chunks| - 1];
      ChunksScan(strict, finalized, front);
      var r := UpChunks(Start(finalized), front);
      ChunkScan(strict, r.state, StreamFrames(front), c);
      ScanAppend(strict, Fresh, r.events, UpChunk(r.state, c).events);
      ScanNone(strict, Fresh);
      hide UpChunk, Expected, Tracks, Scan, Advance;
    }
  }

  lemma {:induction false} HeaderKeepsBlocks(s: UpState, c: Chunk)
    ensures var h := Header(s, c);
            && h.blockIndex == s.blockIndex && h.openKind == s.openKind && h.toolBlocks == s.toolBlocks
            && h.started == s.started && h.finalized == s.finalized && h.stopReason == s.stopReason
  {
  }

  lemma {:induction false} StartScan(strict: bool, s: UpState)
    requires !s.started && s.blockIndex == 0 && s.openKind == NoBlock
    ensures Scan(strict, Fresh, Begin(s).events) == Expected(strict, Begin(s).state, [])
  {
    ScanOne(strict, Fresh, Begin(s).events[0]);
  }

  lemma {:induction false} UpFrameFlags(s: UpState, f: Frame)
    ensures UpFrame(s, f).state.started == s.started && UpFrame(s, f).state.finalized == s.finalized
  {
  }

  lemma {:induction false} UpFramesFlags(s: UpState, fs: seq<Frame>)
    ensures UpFrames(s, fs).state.started == s.started && UpFrames(s, fs).state.finalized == s.finalized
  {
    hide UpFrame;
    if fs != [] {
      UpFramesFlags(s, fs[..|fs| - 1]);
      UpFrameFlags(UpFrames(s, fs[..|fs| - 1]).state, fs[|fs| - 1]);
    }
  }

  // ----- Main results -----

  /**
   * A whole translated stream is empty or one message whose life cycle is intact, and argument deltas
   * respect it too exactly when the Chat frames come in order.
   */
  lemma {:induction false} RunWellFormed(strict: bool, chunks: seq<Chunk>)
    ensures WellFormed(strict, UpRun(chunks).events) <==> chunks == [] || !strict || InOrder(StreamFrames(chunks))
    ensures UpRun(chunks).events == [] <==> chunks == []
    ensures chunks != [] && (!strict || InOrder(StreamFrames(chunks))) ==> Scan(strict, Fresh, UpRun(chunks).events) == Ended
  {
    ChunksScan(strict, false, chunks);
    var r := UpChunks(INITIAL, chunks);
    var f := UpFinalize(r.state);
    ScanAppend(strict, Fresh, r.events, f.events);
    if chunks != [] {
      FinalizeScan(strict, r.state);
      BrokenStays(strict, f.events);
    }
  }

  lemma {:induction false} FinalizeScan(strict: bool, s: UpState)
    requires s.started && !s.finalized
    ensures Scan(strict, PhaseOf(s), UpFinalize(s).events) == Ended
    ensures UpFinalize(s).state.finalized && UpFinalize(s).events != []
  {
    var c := Close(s.(finalized := true));
    var tail := UpFinalize(s).events[|c.events|..];
    assert UpFinalize(s).events == c.events + tail;
    assert tail[0].MessageDelta? && tail[1] == MessageStop && |tail| == 2;
    assert c.events != [] ==> c.events == [BlockStop(Some(s.blockIndex - 1))];
    TailScan(strict, s.blockIndex, tail);
    ScanAppend(strict, PhaseOf(s), c.events, tail);
    hide Scan, UpFinalize;
    if c.events == [] {
      ScanNone(strict, PhaseOf(s));
    } else {
      ScanOne(strict, PhaseOf(s), c.events[0]);
    }
  }

  lemma {:induction false} TailScan(strict: bool, n: int, tail: seq<Event>)
    requires |tail| == 2 && tail[0].MessageDelta? && tail[1] == MessageStop
    ensures Scan(strict, Idle(n), tail) == Ended
  {
    ScanOne(strict, Idle(n), tail[0]);
    assert tail[..1] == [tail[0]];
  }

  /** The protocol's three promises for every stream, read as one statement. */
  lemma {:induction false} EveryStreamIsOneMessage(chunks: seq<Chunk>)
    ensures WellFormed(false, UpRun(chunks).events)
    ensures WellFormed(true, UpRun(chunks).events) <==> chunks == [] || InOrder(StreamFrames(chunks))
  {
    RunWellFormed(false, chunks);
    RunWellFormed(true, chunks);
  }
}
