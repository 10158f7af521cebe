/**
 * What one Chat frame becomes on its way through both translators. Text and reasoning come back as they
 * were. A tool call comes back under the next free number, first as an announcement without arguments;
 * its arguments follow if the block they were addressed to is that of a tool call. The second
 * translator's fields change in no other way.
 */
module StreamEcho {
  import opened Wrappers
  import opened StreamTypes
  import opened ChatToAnthropic
  import Down = AnthropicToChat

  function ArgsFrame(k: int, args: string): Frame {
    Tool(ToolCall(k, "", Some(FunctionCall("", args))))
  }

  /** The frames emitted for `f` when n blocks exist and `bt` numbers the tool blocks among them, k in all. */
  function Echo(n: int, toolBlocks: map<int, int>, bt: map<int, int>, k: nat, f: Frame): seq<Frame> {
    match f
    case Reasoning(_) => [f]
    case Text(_) => [f]
    case Finish(_) => []
    case Tool(tc) =>
      if tc.index in toolBlocks then
        if tc.Args() != "" && toolBlocks[tc.index] in bt then [ArgsFrame(bt[toolBlocks[tc.index]], tc.Args())] else []
      else
        [Tool(ToolCall(k, tc.id, Some(FunctionCall(tc.Name(), ""))))]
        + (if tc.Args() != "" && 0 in bt[n := k] then [ArgsFrame(bt[n := k][0], tc.Args())] else [])
  }

  /** The part of the second translator's state that numbers tool calls; the rest stays as it was, save `roleSent`. */
  ghost predicate Kept(d: Down.DownState, e: Down.DownState) {
    e == d.(roleSent := e.roleSent)
  }

  lemma {:induction false} EmitFrames(d: Down.DownState, delta: Delta, finish: Option<string>, usage: Option<ChatUsage>)
    ensures var r := Down.Emit(d, delta, finish, usage);
            StreamFrames(r.chunks) == ChoiceFrames(Choice(delta, finish)) && Kept(d, r.state)
  {
    var r := Down.Emit(d, delta, finish, usage);
    var c := r.chunks[0];
    assert r.chunks[..0] == [] && c.choices[..0] == [];
    assert ChoicesFrames(c.choices) == ChoiceFrames(c.choices[0]);
    assert ChoiceFrames(c.choices[0]) == ChoiceFrames(Choice(delta, finish));
  }

  lemma {:induction false} OneCall(tc: ToolCall)
    ensures ChoiceFrames(Choice(Down.EMPTY.(toolCalls := [tc]), None)) == [Tool(tc)]
  {
    assert [tc][..0] == [];
    assert ToolFrames([tc]) == ToolFrames([]) + [Tool(tc)];
    assert Choice(Down.EMPTY.(toolCalls := [tc]), None).delta.toolCalls == [tc];
  }

  lemma {:induction false} DeltaEcho(d: Down.DownState, index: int, delta: BlockDelta)
    ensures var r := Down.DownEvent(d, BlockChange(Some(index), Some(delta)));
            && Kept(d, r.state)
            && StreamFrames(r.chunks) ==
               match delta
               case TextDelta(t) => if t != "" then [Text(t)] else []
               case ThinkingDelta(t) => if t != "" then [Reasoning(t)] else []
               case InputJsonDelta(p) => if index in d.blockToTool && p != "" then [ArgsFrame(d.blockToTool[index], p)] else []
               case OtherDelta => []
  {
    match delta
    case TextDelta(t) => EmitFrames(d, Down.EMPTY.(content := t), None, None);
    case ThinkingDelta(t) => EmitFrames(d, Down.EMPTY.(reasoning := t), None, None);
    case InputJsonDelta(p) =>
      if index in d.blockToTool && p != "" {
        var tc := ToolCall(d.blockToTool[index], "", Some(FunctionCall("", p)));
        EmitFrames(d, Down.EMPTY.(toolCalls := [tc]), None, None);
        OneCall(tc);
      }
    case OtherDelta =>
  }

  lemma {:induction false} CloseEcho(d: Down.DownState, s: UpState)
    ensures Down.DownEvents(d, Close(s).events) == Down.DownResult(d, [], false)
  {
    if s.openKind != NoBlock {
      Down.DownOne(d, Close(s).events[0]);
    }
  }

  /** Switching to a text or thinking block is invisible to the Chat client. */
  lemma {:induction false} EnterEcho(d: Down.DownState, s: UpState, kind: Kind, header: BlockHeader)
    requires !header.ToolBlock?
    ensures Down.DownEvents(d, Enter(s, kind, header).events) == Down.DownResult(d, [], false)
  {
    if s.openKind != kind {
      var c := Close(s);
      var o := Open(c.state, kind, header);
      CloseEcho(d, s);
      Down.DownOne(d, o.events[0]);
      Down.DownAppend(d, c.events, o.events);
    }
  }

  /** The state of the second translator after the events for one frame. */
  function NumberedAfter(n: int, toolBlocks: map<int, int>, d: Down.DownState, f: Frame): Down.DownState {
    if f.Tool? && f.call.index !in toolBlocks then
      d.(toolIndex := d.toolIndex + 1, blockToTool := d.blockToTool[n := d.toolIndex])
    else d
  }

  lemma {:induction false} AnnounceEcho(d: Down.DownState, s: UpState, tc: ToolCall)
    requires tc.index !in s.toolBlocks
    ensures var r := Down.DownEvents(d, Announce(s, tc).events);
            && Kept(NumberedAfter(s.blockIndex, s.toolBlocks, d, Tool(tc)), r.state)
            && StreamFrames(r.chunks) == [Tool(ToolCall(d.toolIndex, tc.id, Some(FunctionCall(tc.Name(), ""))))]
            && !r.done
  {
    hide Down.DownEvents, Down.DownEvent, StreamFrames, Kept;
    var c := Close(s);
    var o := Open(c.state, ToolUse, ToolBlock(tc.id, tc.Name()));
    CloseEcho(d, s);
    Down.DownOne(d, o.events[0]);
    Down.DownAppend(d, c.events, o.events);
    OpenToolEcho(d, s.blockIndex, tc);
    var one := Down.DownEvent(d, o.events[0]);
    assert [] + one.chunks == one.chunks;
  }

  lemma {:induction false} OpenToolEcho(d: Down.DownState, index: int, tc: ToolCall)
    ensures var r := Down.DownEvent(d, BlockStart(Some(index), Some(ToolBlock(tc.id, tc.Name()))));
            && Kept(d.(toolIndex := d.toolIndex + 1, blockToTool := d.blockToTool[index := d.toolIndex]), r.state)
            && StreamFrames(r.chunks) == [Tool(ToolCall(d.toolIndex, tc.id, Some(FunctionCall(tc.Name(), ""))))]
            && !r.done
  {
    var e := d.(toolIndex := d.toolIndex + 1, blockToTool := d.blockToTool[index := d.toolIndex]);
    var call := ToolCall(d.toolIndex, tc.id, Some(FunctionCall(tc.Name(), "")));
    EmitFrames(e, Down.EMPTY.(toolCalls := [call]), None, None);
    OneCall(call);
    hide StreamFrames;
  }

  /** Text and thinking frames never are empty. */
  ghost predicate Proper(fs: seq<Frame>) {
    forall f :: f in fs ==> (f.Reasoning? ==> f.thinking != "") && (f.Text? ==> f.text != "")
  }

  lemma {:induction false} FrameEcho(d: Down.DownState, s: UpState, f: Frame)
    requires Proper([f])
    ensures var r := Down.DownEvents(d, UpFrame(s, f).events);
            && Kept(NumberedAfter(s.blockIndex, s.toolBlocks, d, f), r.state)
            && StreamFrames(r.chunks) == Echo(s.blockIndex, s.toolBlocks, d.blockToTool, d.toolIndex, f)
            && !r.done
  {
    hide Down.DownEvents, Down.DownEvent, Enter, Announce, StreamFrames;
    assert f in [f];
    match f
    case Finish(_) => NothingEcho(d);
    case Reasoning(t) =>
      EnterEcho(d, s, Thinking, ThinkingBlock);
      NothingEcho(d);
      var r := Enter(s, Thinking, ThinkingBlock);
      ThenDelta(d, r.events, d, [], CurrentIndex(r.state), ThinkingDelta(t));
    case Text(t) =>
      EnterEcho(d, s, PlainText, TextBlock);
      NothingEcho(d);
      var r := Enter(s, PlainText, TextBlock);
      ThenDelta(d, r.events, d, [], CurrentIndex(r.state), TextDelta(t));
    case Tool(tc) => ToolEcho(d, s, tc);
  }

  lemma {:induction false} NothingEcho(d: Down.DownState)
    ensures Down.DownEvents(d, []) == Down.DownResult(d, [], false)
    ensures StreamFrames([]) == []
  {
  }

  lemma {:induction false} ToolEcho(d: Down.DownState, s: UpState, tc: ToolCall)
    ensures var r := Down.DownEvents(d, Announce(s, tc).events + ArgsEvents(ArgsAddress(s, tc), tc));
            && Kept(NumberedAfter(s.blockIndex, s.toolBlocks, d, Tool(tc)), r.state)
            && StreamFrames(r.chunks) == Echo(s.blockIndex, s.toolBlocks, d.blockToTool, d.toolIndex, Tool(tc))
            && !r.done
  {
    if tc.index in s.toolBlocks {
      NothingEcho(d);
      KeptTransitive(d, d, d);
      assert Announce(s, tc).events == [];
      ArgsEcho(d, [], d, [], ArgsAddress(s, tc), tc);
    } else {
      AnnouncedEcho(d, s, tc);
    }
  }

  lemma {:induction false} AnnouncedEcho(d: Down.DownState, s: UpState, tc: ToolCall)
    requires tc.index !in s.toolBlocks
    ensures var r := Down.DownEvents(d, Announce(s, tc).events + ArgsEvents(ArgsAddress(s, tc), tc));
            && Kept(NumberedAfter(s.blockIndex, s.toolBlocks, d, Tool(tc)), r.state)
            && StreamFrames(r.chunks) == Echo(s.blockIndex, s.toolBlocks, d.blockToTool, d.toolIndex, Tool(tc))
            && !r.done
  {
    hide Down.DownEvents, Down.DownEvent, Announce, StreamFrames, Kept, ArgsEvents;
    AnnounceEcho(d, s, tc);
    var events := Announce(s, tc).events;
    var mid := Down.DownEvents(d, events);
    var next := NumberedAfter(s.blockIndex, s.toolBlocks, d, Tool(tc));
    ArgsEcho(d, events, mid.state, StreamFrames(mid.chunks), 0, tc);
    KeptTransitive(next, mid.state, Down.DownEvents(d, events + ArgsEvents(0, tc)).state);
  }

  lemma {:induction false} KeptTransitive(d: Down.DownState, e: Down.DownState, f: Down.DownState)
    ensures Kept(d, d)
    ensures Kept(d, e) && Kept(e, f) ==> Kept(d, f)
    ensures Kept(d, e) ==> d.blockToTool == e.blockToTool && d.toolIndex == e.toolIndex && d.finishReason == e.finishReason
  {
  }

  lemma {:induction false} ArgsEcho(d: Down.DownState, events: seq<Event>, mid: Down.DownState, out: seq<Frame>, index: int, tc: ToolCall)
    requires Down.DownEvents(d, events).state == mid && StreamFrames(Down.DownEvents(d, events).chunks) == out
    requires !Down.DownEvents(d, events).done
    ensures var r := Down.DownEvents(d, events + ArgsEvents(index, tc));
            && Kept(mid, r.state) && !r.done
            && StreamFrames(r.chunks) ==
               out + (if tc.Args() != "" && index in mid.blockToTool then [ArgsFrame(mid.blockToTool[index], tc.Args())] else [])
  {
    if tc.Args() != "" {
      ThenDelta(d, events, mid, out, index, InputJsonDelta(tc.Args()));
    } else {
      assert events + ArgsEvents(index, tc) == events;
      assert out + [] == out;
    }
  }

  lemma {:induction false} NeverDone(d: Down.DownState, e: Event)
    ensures !e.MessageStop? ==> !Down.DownEvent(d, e).done
  {
  }

  lemma {:induction false} ThenDelta(d: Down.DownState, events: seq<Event>, mid: Down.DownState, out: seq<Frame>, index: int, delta: BlockDelta)
    requires Down.DownEvents(d, events).state == mid && StreamFrames(Down.DownEvents(d, events).chunks) == out
    requires !Down.DownEvents(d, events).done
    ensures var r := Down.DownEvents(d, events + [BlockChange(Some(index), Some(delta))]);
            var t := Down.DownEvent(mid, BlockChange(Some(index), Some(delta)));
            r.state == t.state && Kept(mid, t.state) && StreamFrames(r.chunks) == out + StreamFrames(t.chunks) && !r.done
    ensures StreamFrames(Down.DownEvent(mid, BlockChange(Some(index), Some(delta))).chunks) ==
            match delta
            case TextDelta(t) => if t != "" then [Text(t)] else []
            case ThinkingDelta(t) => if t != "" then [Reasoning(t)] else []
            case InputJsonDelta(p) => if index in mid.blockToTool && p != "" then [ArgsFrame(mid.blockToTool[index], p)] else []
            case OtherDelta => []
  {
    hide *;
    var e := BlockChange(Some(index), Some(delta));
    NeverDone(mid, e);
    Down.DownAppend(d, events, [e]);
    Down.DownOne(mid, e);
    DeltaEcho(mid, index, delta);
    StreamFramesAppend(Down.DownEvents(d, events).chunks, Down.DownEvent(mid, e).chunks);
  }
}
