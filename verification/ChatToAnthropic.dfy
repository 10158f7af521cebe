/**
 * The translator from Chat chunks to Anthropic events: a state machine that gives the flat Chat
 * increments the strict block life cycle (start, deltas, stop) of the Anthropic stream.
 */
module ChatToAnthropic {
  import opened Wrappers
  import opened StreamTypes

  datatype Kind = NoBlock | Thinking | PlainText | ToolUse

  datatype UpState = UpState(
    started: bool, finalized: bool, id: string, model: string,
    blockIndex: int, openKind: Kind, toolBlocks: map<int, int>,
    inputTokens: int, outputTokens: int, cacheRead: int, stopReason: string)

  datatype UpResult = UpResult(state: UpState, events: seq<Event>)

  const INITIAL := UpState(false, false, "", "", 0, NoBlock, map[], 0, 0, 0, "")

  // ----- Specification of one step -----

  function StopReason(finish: string, toolCalls: nat): string {
    if toolCalls > 0 then "tool_use"
    else if finish == "length" then "max_tokens"
    else if finish == "tool_calls" then "tool_use"
    else "end_turn"
  }

  /** The cached share of the prompt, never more than the prompt itself. */
  function CachedShare(u: ChatUsage): int {
    var cached := u.cached.GetOr(0);
    if cached > u.prompt then u.prompt else cached
  }

  function Header(s: UpState, c: Chunk): UpState {
    var named := s.(id := if c.id != "" then c.id else s.id, model := if c.model != "" then c.model else s.model);
    if c.usage.None? then named
    else
      var u := c.usage.value;
      named.(inputTokens := Max(s.inputTokens, u.prompt - CachedShare(u)),
             outputTokens := Max(s.outputTokens, u.completion),
             cacheRead := Max(s.cacheRead, CachedShare(u)))
  }

  function Begin(s: UpState): UpResult {
    if s.started then UpResult(s, [])
    else UpResult(s.(started := true),
                  [MessageStart(Some(Message(s.id, s.model, AnthropicUsage(s.inputTokens, 1, 0, 0))))])
  }

  function Close(s: UpState): UpResult {
    if s.openKind == NoBlock then UpResult(s, [])
    else UpResult(s.(openKind := NoBlock), [BlockStop(Some(s.blockIndex - 1))])
  }

  function Open(s: UpState, kind: Kind, header: BlockHeader): UpResult {
    UpResult(s.(blockIndex := s.blockIndex + 1, openKind := kind), [BlockStart(Some(s.blockIndex), Some(header))])
  }

  /** Make `kind` the open block: nothing to do when it already is, else close the current one first. */
  function Enter(s: UpState, kind: Kind, header: BlockHeader): UpResult {
    if s.openKind == kind then UpResult(s, [])
    else
      var c := Close(s);
      var o := Open(c.state, kind, header);
      UpResult(o.state, c.events + o.events)
  }

  function CurrentIndex(s: UpState): int {
    if s.blockIndex - 1 < 0 then 0 else s.blockIndex - 1
  }

  /** A tool call seen for the first time always opens a block of its own. */
  function Announce(s: UpState, tc: ToolCall): UpResult {
    if tc.index in s.toolBlocks then UpResult(s, [])
    else
      var c := Close(s);
      var o := Open(c.state, ToolUse, ToolBlock(tc.id, tc.Name()));
      UpResult(o.state.(toolBlocks := s.toolBlocks[tc.index := c.state.blockIndex]), c.events + o.events)
  }

  /**
   * Where an arguments delta is sent. On the frame that opens the tool call the inner declaration
   * of the block index shadows the outer one, so the address stays at its zero value.
   */
  function ArgsAddress(s: UpState, tc: ToolCall): int {
    if tc.index in s.toolBlocks then s.toolBlocks[tc.index] else 0
  }

  function ArgsEvents(address: int, tc: ToolCall): seq<Event> {
    if tc.Args() != "" then [BlockChange(Some(address), Some(InputJsonDelta(tc.Args())))] else []
  }

  function UpFrame(s: UpState, f: Frame): UpResult {
    match f
    case Reasoning(t) =>
      var r := Enter(s, Thinking, ThinkingBlock);
      UpResult(r.state, r.events + [BlockChange(Some(CurrentIndex(r.state)), Some(ThinkingDelta(t)))])
    case Text(t) =>
      var r := Enter(s, PlainText, TextBlock);
      UpResult(r.state, r.events + [BlockChange(Some(CurrentIndex(r.state)), Some(TextDelta(t)))])
    case Tool(tc) =>
      var r := Announce(s, tc);
      UpResult(r.state, r.events + ArgsEvents(ArgsAddress(s, tc), tc))
    case Finish(reason) =>
      UpResult(s.(stopReason := StopReason(reason, |s.toolBlocks|)), [])
  }

  function UpFrames(s: UpState, fs: seq<Frame>): UpResult {
    if fs == [] then UpResult(s, [])
    else
      var r := UpFrames(s, fs[..|fs| - 1]);
      var last := UpFrame(r.state, fs[|fs| - 1]);
      UpResult(last.state, r.events + last.events)
  }

  function UpChunk(s: UpState, c: Chunk): UpResult {
    var b := Begin(Header(s, c));
    var r := UpFrames(b.state, ChoicesFrames(c.choices));
    UpResult(r.state, b.events + r.events)
  }

  function UpChunks(s: UpState, chunks: seq<Chunk>): UpResult {
    if chunks == [] then UpResult(s, [])
    else
      var r := UpChunks(s, chunks[..|chunks| - 1]);
      var last := UpChunk(r.state, chunks[|chunks| - 1]);
      UpResult(last.state, r.events + last.events)
  }

  function UpFinalize(s: UpState): UpResult {
    if s.finalized then UpResult(s, [])
    else if !s.started then UpResult(s.(finalized := true), [])
    else
      var c := Close(s.(finalized := true));
      UpResult(c.state,
               c.events + [MessageDelta(if s.stopReason == "" then "end_turn" else s.stopReason,
                                        Some(AnthropicUsage(s.inputTokens, s.outputTokens, s.cacheRead, 0))),
                           MessageStop])
  }

  /** A whole upstream stream: every chunk, then the end of the stream. */
  function UpRun(chunks: seq<Chunk>): UpResult {
    var r := UpChunks(INITIAL, chunks);
    var f := UpFinalize(r.state);
    UpResult(f.state, r.events + f.events)
  }

  lemma {:induction false} UpFramesPush(s: UpState, fs: seq<Frame>, f: Frame)
    ensures UpFrames(s, fs + [f]).state == UpFrame(UpFrames(s, fs).state, f).state
    ensures UpFrames(s, fs + [f]).events == UpFrames(s, fs).events + UpFrame(UpFrames(s, fs).state, f).events
  {
    assert (fs + [f])[..|fs + [f]| - 1] == fs;
  }

  lemma {:induction false} UpFramesAppend(s: UpState, a: seq<Frame>, b: seq<Frame>)
    ensures UpFrames(s, a + b).state == UpFrames(UpFrames(s, a).state, b).state
    ensures UpFrames(s, a + b).events == UpFrames(s, a).events + UpFrames(UpFrames(s, a).state, b).events
  {
    hide UpFrame;
    if b == [] {
      assert a + b == a;
      assert UpFrames(s, a).events + [] == UpFrames(s, a).events;
    } else {
      var front, f := b[..|b| - 1], b[|b| - 1];
      var m := UpFrames(s, a);
      UpFramesAppend(s, a, front);
      UpFramesPush(s, a + front, f);
      assert a + b == (a + front) + [f];
      var z := UpFrames(m.state, front);
      var y := UpFrame(z.state, f);
      UpFramesPush(m.state, front, f);
      assert front + [f] == b;
      assert (m.events + z.events) + y.events == m.events + (z.events + y.events);
    }
  }

  // ----- The translator object -----

  class ChatToAnthropicStream {
    var started: bool
    var finalized: bool
    var id: string
    var model: string
    var blockIndex: int
    var openKind: Kind
    var toolBlocks: map<int, int>
    var inputTokens: int
    var outputTokens: int
    var cacheRead: int
    var stopReason: string

    ghost function View(): UpState
      reads this
    {
      UpState(started, finalized, id, model, blockIndex, openKind, toolBlocks,
              inputTokens, outputTokens, cacheRead, stopReason)
    }

    constructor ()
      ensures View() == INITIAL
    {
      started, finalized, id, model := false, false, "", "";
      blockIndex, openKind, toolBlocks := 0, NoBlock, map[];
      inputTokens, outputTokens, cacheRead, stopReason := 0, 0, 0, "";
    }

    method CloseBlock() returns (out: seq<Event>)
      modifies this
      ensures UpResult(View(), out) == Close(old(View()))
    {
      if openKind == NoBlock {
        return [];
      }
      var idx := blockIndex - 1;
      openKind := NoBlock;
      return [BlockStop(Some(idx))];
    }

    method AllocBlock() returns (idx: int)
      modifies this
      ensures View() == old(View()).(blockIndex := old(blockIndex) + 1)
      ensures idx == old(blockIndex)
    {
      idx := blockIndex;
      blockIndex := blockIndex + 1;
    }

    method OpenBlock(kind: Kind, header: BlockHeader) returns (idx: int, out: seq<Event>)
      modifies this
      ensures UpResult(View(), out) == Open(old(View()), kind, header)
      ensures idx == old(blockIndex)
    {
      idx := AllocBlock();
      openKind := kind;
      out := [BlockStart(Some(idx), Some(header))];
    }

    /** A text or thinking increment: switch the open block when it is of another kind, then emit the delta. */
    method Increment(kind: Kind, header: BlockHeader, delta: BlockDelta) returns (out: seq<Event>)
      modifies this
      ensures View() == Enter(old(View()), kind, header).state
      ensures out == Enter(old(View()), kind, header).events + [BlockChange(Some(CurrentIndex(View())), Some(delta))]
    {
      out := [];
      if openKind != kind {
        var closed := CloseBlock();
        var _, opening := OpenBlock(kind, header);
        out := closed + opening;
      }
      var idx := blockIndex - 1;
      if idx < 0 {
        idx := 0;
      }
      out := out + [BlockChange(Some(idx), Some(delta))];
    }

    method ProcessToolCall(tc: ToolCall) returns (out: seq<Event>)
      modifies this
      ensures UpResult(View(), out) == UpFrame(old(View()), Tool(tc))
    {
      var known := tc.index in toolBlocks;
      var address := if known then toolBlocks[tc.index] else 0;
      out := [];
      if !known {
        var closed := CloseBlock();
        var opening, evs := OpenBlock(ToolUse, ToolBlock(tc.id, tc.Name()));
        toolBlocks := toolBlocks[tc.index := opening];
        out := closed + evs;
      }
      if tc.Args() != "" {
        out := out + [BlockChange(Some(address), Some(InputJsonDelta(tc.Args())))];
      }
    }

    method ProcessToolCalls(calls: seq<ToolCall>) returns (out: seq<Event>)
      modifies this
      ensures UpResult(View(), out) == UpFrames(old(View()), ToolFrames(calls))
    {
      ghost var s := View();
      assert UpFrames(s, ToolFrames([])) == UpResult(s, []);
      hide UpFrames, UpFrame, View;
      out := [];
      for i := 0 to |calls|
        invariant UpResult(View(), out) == UpFrames(s, ToolFrames(calls[..i]))
      {
        assert calls[..i + 1][..|calls[..i + 1]| - 1] == calls[..i];
        UpFramesPush(s, ToolFrames(calls[..i]), Tool(calls[i]));
        var evs := ProcessToolCall(calls[i]);
        out := out + evs;
      }
      assert calls[..|calls|] == calls;
    }

    method ProcessReasoning(d: Delta) returns (out: seq<Event>)
      modifies this
      ensures UpResult(View(), out) == UpFrames(old(View()), ReasoningFrames(d))
    {
      out := [];
      if d.reasoning != "" {
        UpFramesPush(View(), [], Reasoning(d.reasoning));
        out := Increment(Thinking, ThinkingBlock, ThinkingDelta(d.reasoning));
        assert [] + [Reasoning(d.reasoning)] == ReasoningFrames(d);
      }
    }

    method ProcessContent(d: Delta) returns (out: seq<Event>)
      modifies this
      ensures UpResult(View(), out) == UpFrames(old(View()), TextFrames(d))
    {
      out := [];
      if d.content != "" {
        UpFramesPush(View(), [], Text(d.content));
        out := Increment(PlainText, TextBlock, TextDelta(d.content));
        assert [] + [Text(d.content)] == TextFrames(d);
      }
    }

    method ProcessFinish(choice: Choice)
      modifies this
      ensures UpResult(View(), []) == UpFrames(old(View()), FinishFrames(choice))
    {
      if choice.finish.Some? && choice.finish.value != "" {
        UpFramesPush(View(), [], Finish(choice.finish.value));
        stopReason := StopReason(choice.finish.value, |toolBlocks|);
        assert [] + [Finish(choice.finish.value)] == FinishFrames(choice);
      }
    }

    method ProcessChoice(choice: Choice) returns (out: seq<Event>)
      modifies this
      ensures UpResult(View(), out) == UpFrames(old(View()), ChoiceFrames(choice))
    {
      hide UpFrames, ReasoningFrames, TextFrames, ToolFrames, FinishFrames, View;
      ghost var s := View();
      var d := choice.delta;
      var reasoning := ProcessReasoning(d);
      var content := ProcessContent(d);
      UpFramesAppend(s, ReasoningFrames(d), TextFrames(d));
      var tools := ProcessToolCalls(d.toolCalls);
      UpFramesAppend(s, ReasoningFrames(d) + TextFrames(d), ToolFrames(d.toolCalls));
      ProcessFinish(choice);
      UpFramesAppend(s, ReasoningFrames(d) + TextFrames(d) + ToolFrames(d.toolCalls), FinishFrames(choice));
      out := reasoning + content + tools;
      assert out == out + [];
    }

    method ProcessChoices(choices: seq<Choice>) returns (out: seq<Event>)
      modifies this
      ensures UpResult(View(), out) == UpFrames(old(View()), ChoicesFrames(choices))
    {
      ghost var s := View();
      assert UpFrames(s, ChoicesFrames([])) == UpResult(s, []);
      hide UpFrames, ChoiceFrames, View;
      out := [];
      for i := 0 to |choices|
        invariant UpResult(View(), out) == UpFrames(s, ChoicesFrames(choices[..i]))
      {
        assert choices[..i + 1][..|choices[..i + 1]| - 1] == choices[..i];
        UpFramesAppend(s, ChoicesFrames(choices[..i]), ChoiceFrames(choices[i]));
        var evs := ProcessChoice(choices[i]);
        out := out + evs;
      }
      assert choices[..|choices|] == choices;
    }

    method ReadHeader(c: Chunk)
      modifies this
      ensures View() == Header(old(View()), c)
    {
      if c.id != "" {
        id := c.id;
      }
      if c.model != "" {
        model := c.model;
      }
      if c.usage.Some? {
        var u := c.usage.value;
        var cached := u.cached.GetOr(0);
        if cached > u.prompt {
          cached := u.prompt;
        }
        inputTokens := Max(inputTokens, u.prompt - cached);
        outputTokens := Max(outputTokens, u.completion);
        cacheRead := Max(cacheRead, cached);
      }
    }

    method Process(chunk: Option<Chunk>) returns (out: seq<Event>)
      modifies this
      ensures chunk.None? ==> View() == old(View()) && out == []
      ensures chunk.Some? ==> UpResult(View(), out) == UpChunk(old(View()), chunk.value)
    {
      if chunk.None? {
        return [];
      }
      var c := chunk.value;
      ReadHeader(c);
      out := [];
      if !started {
        started := true;
        out := [MessageStart(Some(Message(id, model, AnthropicUsage(inputTokens, 1, 0, 0))))];
      }
      var rest := ProcessChoices(c.choices);
      out := out + rest;
    }

    method Finalize() returns (out: seq<Event>)
      modifies this
      ensures UpResult(View(), out) == UpFinalize(old(View()))
      ensures old(finalized) ==> out == []
    {
      if finalized {
        return [];
      }
      finalized := true;
      if !started {
        return [];
      }
      out := CloseBlock();
      var reason := stopReason;
      if reason == "" {
        reason := "end_turn";
      }
      out := out + [MessageDelta(reason, Some(AnthropicUsage(inputTokens, outputTokens, cacheRead, 0)))];
      out := out + [MessageStop];
      assert out == Close(old(View()).(finalized := true)).events + [out[|out| - 2], MessageStop];
    }
  }
}
