/**
 * The loop that reads the upstream payloads, feeds the translators and ends the stream: at the end
 * marker if there is one, else when the upstream closes.
 */
module StreamDriver {
  import opened Wrappers
  import opened StreamTypes
  import Selections
  import opened ChatToAnthropic
  import opened BlockLifecycle
  import Down = AnthropicToChat

  /** One SSE data line: the `[DONE]` marker, a chunk, or something that does not parse as one. */
  datatype Payload = Done | Garbled | Data(chunk: Chunk)

  datatype Driven = Driven(state: UpState, events: seq<Event>, sawDone: bool)

  // ----- Specification -----

  function Feed(d: Driven, p: Payload): Driven {
    match p
    case Done => var f := UpFinalize(d.state); Driven(f.state, d.events + f.events, true)
    case Garbled => d
    case Data(c) => var r := UpChunk(d.state, c); Driven(r.state, d.events + r.events, d.sawDone)
  }

  function Fed(payloads: seq<Payload>): Driven {
    if payloads == [] then Driven(INITIAL, [], false)
    else Feed(Fed(payloads[..|payloads| - 1]), payloads[|payloads| - 1])
  }

  function Translated(payloads: seq<Payload>): seq<Event> {
    var d := Fed(payloads);
    if d.sawDone then d.events else d.events + UpFinalize(d.state).events
  }

  /** The chunks that arrive before the first end marker. */
  function Before(payloads: seq<Payload>): seq<Chunk> {
    if payloads == [] then []
    else
      var front, p := payloads[..|payloads| - 1], payloads[|payloads| - 1];
      if p.Data? && Done !in front then Before(front) + [p.chunk] else Before(front)
  }

  /** The chunks that arrive after it. */
  function After(payloads: seq<Payload>): seq<Chunk> {
    if payloads == [] then []
    else
      var front, p := payloads[..|payloads| - 1], payloads[|payloads| - 1];
      if p.Data? && Done in front then After(front) + [p.chunk] else After(front)
  }

  /** A frame that carries nothing for the client, given the tool calls already announced. */
  predicate QuietFrame(seen: set<int>, f: Frame) {
    f.Finish? || (f.Tool? && f.call.index in seen && f.call.Args() == "")
  }

  ghost predicate Quiet(seen: set<int>, fs: seq<Frame>) {
    forall f :: f in fs ==> QuietFrame(seen, f)
  }

  /** Nothing that would reach the client follows the end marker. */
  ghost predicate QuietAfterDone(payloads: seq<Payload>) {
    && (Before(payloads) == [] ==> After(payloads) == [])
    && Quiet(SeenTools(StreamFrames(Before(payloads))), StreamFrames(After(payloads)))
  }

  lemma {:induction false} FedPush(front: seq<Payload>, p: Payload)
    ensures Fed(front + [p]) == Feed(Fed(front), p)
  {
    assert (front + [p])[..|front|] == front;
    hide Feed;
  }

  // ----- The loop -----

  /** `failed`: not one event was produced, so the caller may still fail over. */
  method TranslateChatToAnthropic(payloads: seq<Payload>) returns (out: seq<Event>, truncated: bool, failed: bool)
    ensures out == Translated(payloads)
    ensures truncated <==> Done !in payloads
    ensures failed <==> out == []
  {
    var translator := new ChatToAnthropicStream();
    out := [];
    var sawTerminator := false;
    hide UpChunk, UpFinalize;
    for i := 0 to |payloads|
      invariant Fed(payloads[..i]) == Driven(translator.View(), out, sawTerminator)
      invariant sawTerminator <==> Done in payloads[..i]
    {
      FedPush(payloads[..i], payloads[i]);
      assert payloads[..i + 1] == payloads[..i] + [payloads[i]];
      match payloads[i] {
        case Done =>
          sawTerminator := true;
          var evs := translator.Finalize();
          out := out + evs;
        case Garbled =>
        case Data(chunk) =>
          var evs := translator.Process(Some(chunk));
          out := out + evs;
      }
    }
    assert payloads[..|payloads|] == payloads;
    truncated := !sawTerminator;
    if truncated {
      var evs := translator.Finalize();
      out := out + evs;
    }
    failed := out == [];
  }

  // ----- What the loop amounts to -----

  lemma {:induction false} UpChunksPush(s: UpState, chunks: seq<Chunk>, c: Chunk)
    ensures var r := UpChunks(s, chunks);
            var u := UpChunk(r.state, c);
            UpChunks(s, chunks + [c]) == UpResult(u.state, r.events + u.events)
  {
    assert (chunks + [c])[..|chunks|] == chunks;
  }

  lemma {:induction false} UpFinalizeTwice(s: UpState)
    ensures UpFinalize(UpFinalize(s).state) == UpResult(UpFinalize(s).state, [])
    ensures UpFinalize(s).state.finalized
  {
  }

  /** The state and output of a stream that carried `before` and, after the end marker if `marked`, `after`. */
  ghost predicate FedAs(d: Driven, marked: bool, before: seq<Chunk>, after: seq<Chunk>) {
    && d.sawDone == marked
    && (!marked ==>
          after == []
          && var r := UpChunks(INITIAL, before);
             d.state == r.state && d.events == r.events)
    && (marked ==>
          var r := UpRun(before);
          var x := UpChunks(r.state, after);
          d.state == x.state && x.state.finalized && d.events == r.events + x.events)
  }

  lemma {:induction false} FeedData(d: Driven, marked: bool, before: seq<Chunk>, after: seq<Chunk>, c: Chunk)
    requires FedAs(d, marked, before, after)
    ensures FedAs(Feed(d, Data(c)), marked, if marked then before else before + [c], if marked then after + [c] else after)
  {
    hide UpChunk, UpChunks, UpRun;
    if marked {
      var r := UpRun(before);
      UpChunksPush(r.state, after, c);
      var x := UpChunks(r.state, after);
      UpChunkFinalized(x.state, c);
      assert (r.events + x.events) + UpChunk(x.state, c).events == r.events + (x.events + UpChunk(x.state, c).events);
    } else {
      UpChunksPush(INITIAL, before, c);
    }
  }

  lemma {:induction false} FeedDone(d: Driven, marked: bool, before: seq<Chunk>, after: seq<Chunk>)
    requires FedAs(d, marked, before, after)
    ensures FedAs(Feed(d, Done), true, before, after)
  {
    if marked {
      FinalizedStays(d.state);
      assert d.events + [] == d.events;
    } else {
      UpFinalizeTwice(d.state);
      NoChunks(UpRun(before).state);
      hide UpFinalize, UpChunks;
      assert UpRun(before).events + [] == UpRun(before).events;
    }
  }

  lemma {:induction false} NoChunks(s: UpState)
    ensures UpChunks(s, []) == UpResult(s, [])
  {
  }

  /** The events are those of the stream before the marker, then whatever chunks after it still produce. */
  lemma {:induction false} FedIs(payloads: seq<Payload>)
    ensures FedAs(Fed(payloads), Done in payloads, Before(payloads), After(payloads))
  {
    if payloads == [] {
      NoChunks(INITIAL);
    } else {
      hide FedAs, Feed;
      var front, p := payloads[..|payloads| - 1], payloads[|payloads| - 1];
      FedIs(front);
      assert payloads == front + [p];
      match p
      case Garbled => FeedGarbled(Fed(front));
      case Done => FeedDone(Fed(front), Done in front, Before(front), After(front));
      case Data(c) => FeedData(Fed(front), Done in front, Before(front), After(front), c);
    }
  }

  lemma {:induction false} FeedGarbled(d: Driven)
    ensures Feed(d, Garbled) == d
  {
  }

  lemma {:induction false} UpChunkFinalized(s: UpState, c: Chunk)
    ensures UpChunk(s, c).state.finalized == s.finalized
    ensures UpChunk(s, c).state.started
  {
    HeaderKeepsBlocks(s, c);
    UpFramesFlags(Begin(Header(s, c)).state, ChoicesFrames(c.choices));
  }

  lemma {:induction false} FinalizedStays(s: UpState)
    requires s.finalized
    ensures UpFinalize(s) == UpResult(s, [])
  {
  }

  lemma {:induction false} TranslatedIs(payloads: seq<Payload>)
    ensures Done !in payloads ==> Translated(payloads) == UpRun(Before(payloads)).events
    ensures Done in payloads ==>
              Translated(payloads) == UpRun(Before(payloads)).events + UpChunks(UpRun(Before(payloads)).state, After(payloads)).events
  {
    FedIs(payloads);
    hide UpFinalize, UpChunks, Fed;
  }

  // ----- Which late chunks are silent -----

  lemma {:induction false} FrameSilent(s: UpState, f: Frame)
    ensures UpFrame(s, f).events == [] <==> QuietFrame(s.toolBlocks.Keys, f)
    ensures QuietFrame(s.toolBlocks.Keys, f) ==> UpFrame(s, f).state.toolBlocks == s.toolBlocks
  {
  }

  lemma {:induction false} FramesSilent(s: UpState, fs: seq<Frame>)
    ensures UpFrames(s, fs).events == [] <==> Quiet(s.toolBlocks.Keys, fs)
    ensures Quiet(s.toolBlocks.Keys, fs) ==> UpFrames(s, fs).state.toolBlocks == s.toolBlocks
  {
    hide UpFrame;
    if fs != [] {
      var front, f := fs[..|fs| - 1], fs[|fs| - 1];
      FramesSilent(s, front);
      FrameSilent(UpFrames(s, front).state, f);
      assert fs == front + [f];
      assert Quiet(s.toolBlocks.Keys, fs) <==> Quiet(s.toolBlocks.Keys, front) && QuietFrame(s.toolBlocks.Keys, f);
    }
  }

  lemma {:induction false} ChunksSilent(s: UpState, chunks: seq<Chunk>)
    requires s.started
    ensures UpChunks(s, chunks).state.started
    ensures UpChunks(s, chunks).events == [] <==> Quiet(s.toolBlocks.Keys, StreamFrames(chunks))
    ensures Quiet(s.toolBlocks.Keys, StreamFrames(chunks)) ==> UpChunks(s, chunks).state.toolBlocks == s.toolBlocks
  {
    if chunks != [] {
      var front, c := chunks[..|chunks| - 1], chunks[|chunks| - 1];
      ChunksSilent(s, front);
      var r := UpChunks(s, front);
      HeaderKeepsBlocks(r.state, c);
      var h := Header(r.state, c);
      hide Header;
      FramesSilent(h, ChoicesFrames(c.choices));
      UpChunkFinalized(r.state, c);
      hide UpFrames, Quiet;
      QuietConcat(s.toolBlocks.Keys, StreamFrames(front), ChoicesFrames(c.choices));
    }
  }

  lemma {:induction false} QuietConcat(seen: set<int>, a: seq<Frame>, b: seq<Frame>)
    ensures Quiet(seen, a + b) <==> Quiet(seen, a) && Quiet(seen, b)
  {
    if Quiet(seen, a + b) {
      assert forall f :: f in a ==> f in a + b;
      assert forall f :: f in b ==> f in a + b;
    }
  }

  // ----- Main results -----

  /**
   * Whatever the upstream sends, the client gets nothing or one complete message exactly when nothing
   * that would reach it follows the end marker; repeated markers and unreadable lines never matter.
   */
  lemma {:induction false} DriverWellFormed(payloads: seq<Payload>)
    ensures WellFormed(false, Translated(payloads)) <==> QuietAfterDone(payloads)
  {
    hide UpChunks, UpRun, Fed, Translated, Scan, Quiet, WellFormed, StreamFrames, SeenTools;
    var before, after := Before(payloads), After(payloads);
    QuietNothing(SeenTools(StreamFrames(before)));
    TranslatedIs(payloads);
    MarkerFree(payloads);
    var r := UpRun(before);
    if after == [] {
      EveryStreamIsOneMessage(before);
      NoChunks(r.state);
      assert r.events + [] == r.events;
    } else if before == [] {
      MarkerFirst(after);
      assert [] + UpChunks(Start(true), after).events == UpChunks(Start(true), after).events;
    } else {
      LateChunks(before, after);
    }
  }

  /** Text after the end marker reaches the client behind the end of its message. */
  lemma {:induction false} LateTextSpoils(first: Chunk, late: Chunk)
    requires Text("late") in ChoicesFrames(late.choices)
    ensures !WellFormed(false, Translated([Data(first), Done, Data(late)]))
  {
    hide *;
    var payloads := [Data(first), Done, Data(late)];
    AfterPush([], Data(first));
    AfterPush([Data(first)], Done);
    AfterPush([Data(first), Done], Data(late));
    assert [] + [Data(first)] == [Data(first)] && [Data(first)] + [Done] == [Data(first), Done];
    assert [Data(first), Done] + [Data(late)] == payloads && [] + [late] == [late];
    OnlyChunk(late);
    NotQuiet(payloads);
    DriverWellFormed(payloads);
  }

  lemma {:induction false} AfterPush(front: seq<Payload>, p: Payload)
    ensures After([]) == []
    ensures After(front + [p]) == if p.Data? && Done in front then After(front) + [p.chunk] else After(front)
  {
    assert (front + [p])[..|front|] == front;
  }

  lemma {:induction false} OnlyChunk(c: Chunk)
    ensures StreamFrames([c]) == ChoicesFrames(c.choices)
  {
    assert [c][..0] == [];
    assert StreamFrames([]) == [];
    hide ChoicesFrames;
  }

  lemma {:induction false} NotQuiet(payloads: seq<Payload>)
    requires Text("late") in StreamFrames(After(payloads))
    ensures !QuietAfterDone(payloads)
  {
    hide StreamFrames, After, Before, SeenTools;
    assert !QuietFrame(SeenTools(StreamFrames(Before(payloads))), Text("late"));
  }

  lemma {:induction false} QuietNothing(seen: set<int>)
    ensures Quiet(seen, StreamFrames([]))
  {
  }

  lemma {:induction false} MarkerFree(payloads: seq<Payload>)
    ensures Done !in payloads ==> After(payloads) == []
  {
    FedIs(payloads);
  }

  /** A marker before any chunk leaves a translator that will open a message but never end it. */
  lemma {:induction false} MarkerFirst(after: seq<Chunk>)
    requires after != []
    ensures UpRun([]) == UpResult(Start(true), [])
    ensures !WellFormed(false, UpChunks(Start(true), after).events)
  {
    ChunksScan(false, true, after);
    NoChunks(INITIAL);
    hide UpChunks, Tracks;
    assert UpFinalize(INITIAL).events == [];
  }

  /** Chunks after a complete message spoil it exactly when they still produce events. */
  lemma {:induction false} LateChunks(before: seq<Chunk>, after: seq<Chunk>)
    requires before != []
    ensures WellFormed(false, UpRun(before).events + UpChunks(UpRun(before).state, after).events)
       <==> Quiet(SeenTools(StreamFrames(before)), StreamFrames(after))
  {
    hide UpChunks, UpRun, Scan, Quiet, StreamFrames, SeenTools;
    RunWellFormed(false, before);
    LateSilent(before, after);
    AfterEnd(UpRun(before).events, UpChunks(UpRun(before).state, after).events);
  }

  lemma {:induction false} AfterEnd(events: seq<Event>, late: seq<Event>)
    requires events != [] && Scan(false, Fresh, events) == Ended
    ensures WellFormed(false, events + late) <==> late == []
  {
    ScanAppend(false, Fresh, events, late);
    if late == [] {
      assert events + late == events;
    } else {
      NothingAfterEnd(false, late);
    }
  }

  lemma {:induction false} LateSilent(before: seq<Chunk>, after: seq<Chunk>)
    requires before != []
    ensures UpChunks(UpRun(before).state, after).events == []
       <==> Quiet(SeenTools(StreamFrames(before)), StreamFrames(after))
  {
    ChunksScan(false, false, before);
    RunKeepsTools(before);
    hide UpChunks, UpRun, Scan, Quiet, StreamFrames, SeenTools, Placed;
    ChunksSilent(UpRun(before).state, after);
  }

  lemma {:induction false} RunKeepsTools(chunks: seq<Chunk>)
    ensures UpRun(chunks).state.toolBlocks == UpChunks(INITIAL, chunks).state.toolBlocks
    ensures UpRun(chunks).state.started == UpChunks(INITIAL, chunks).state.started
  {
    hide UpChunks;
  }

  /** The upstream attempt counts as failed, and may be retried elsewhere, exactly when it carried no chunk. */
  lemma {:induction false} NothingProducedIff(payloads: seq<Payload>)
    ensures Translated(payloads) == [] <==> Before(payloads) == [] && After(payloads) == []
  {
    FedIs(payloads);
    TranslatedIs(payloads);
    RunWellFormed(false, Before(payloads));
    if Before(payloads) == [] && Done in payloads {
      ChunksScan(false, true, After(payloads));
      assert UpRun([]) == UpResult(Start(true), []);
    }
  }

  // ----- The other direction -----

  datatype DownDriven = DownDriven(state: Down.DownState, chunks: seq<Chunk>, dones: nat)

  function DownFed(events: seq<Option<Event>>): DownDriven {
    if events == [] then DownDriven(Down.INITIAL, [], 0)
    else
      var d, e := DownFed(events[..|events| - 1]), events[|events| - 1];
      if e.None? then d
      else
        var r := Down.DownEvent(d.state, e.value);
        DownDriven(r.state, d.chunks + r.chunks, if r.done then d.dones + 1 else d.dones)
  }

  function Stops(events: seq<Option<Event>>): nat {
    if events == [] then 0
    else Stops(events[..|events| - 1]) + (if events[|events| - 1] == Some(MessageStop) then 1 else 0)
  }

  lemma {:induction false} DownFedPush(front: seq<Option<Event>>, e: Option<Event>)
    ensures Stops(front + [e]) == Stops(front) + (if e == Some(MessageStop) then 1 else 0)
    ensures var d := DownFed(front);
            DownFed(front + [e]) ==
              if e.None? then d
              else
                var r := Down.DownEvent(d.state, e.value);
                DownDriven(r.state, d.chunks + r.chunks, if r.done then d.dones + 1 else d.dones)
  {
    assert (front + [e])[..|front|] == front;
    hide Down.DownEvent;
  }

  predicate Parses(e: Option<Event>) {
    e.Some?
  }

  function EventIn(e: Option<Event>): Event {
    e.GetOr(OtherEvent)
  }

  /** What the reverse translator makes of the lines that parse, in order, is what the client gets. */
  lemma {:induction false} DownFedIs(events: seq<Option<Event>>) returns (parsed: seq<Event>)
    ensures Selections.Selected(events, parsed, Parses, EventIn)
    ensures DownFed(events).state == Down.DownEvents(Down.INITIAL, parsed).state
    ensures DownFed(events).chunks == Down.DownEvents(Down.INITIAL, parsed).chunks
    ensures Stops(events) > 0 <==> MessageStop in parsed
  {
    if events == [] {
      parsed := [];
      Selections.SelectedNone(Parses, EventIn);
    } else {
      var front, e := events[..|events| - 1], events[|events| - 1];
      assert events == front + [e];
      var before := DownFedIs(front);
      Selections.SelectedPush(front, before, Parses, EventIn, e);
      DownFedPush(front, e);
      if e.Some? {
        parsed := before + [e.value];
        assert parsed[..|before|] == before;
      } else {
        parsed := before;
      }
      hide Selections.Selected, Down.DownEvent, DownFed, Stops;
    }
  }

  /** The translation in this direction: the lines that parse, and an ending unless they brought one. */
  lemma {:induction false} DownOutIs(events: seq<Option<Event>>) returns (parsed: seq<Event>)
    ensures Selections.Selected(events, parsed, Parses, EventIn)
    ensures var r := Down.DownEvents(Down.INITIAL, parsed);
            DownOut(events) == if MessageStop in parsed then r.chunks else r.chunks + Down.DownFinalize(r.state).chunks
  {
    parsed := DownFedIs(events);
    hide DownFed, Down.DownEvents, Stops;
  }

  lemma {:induction false} DoneAtStop(s: Down.DownState, e: Event)
    ensures Down.DownEvent(s, e).done <==> e == MessageStop
  {
  }

  lemma {:induction false} NothingFed()
    ensures DownFed([]) == DownDriven(Down.INITIAL, [], 0) && Stops([]) == 0
  {
  }

  /** The chunks sent to the client; a stream without message_stop is ended by the translator. */
  function DownOut(events: seq<Option<Event>>): seq<Chunk> {
    var d := DownFed(events);
    if Stops(events) > 0 then d.chunks else d.chunks + Down.DownFinalize(d.state).chunks
  }

  /**
   * `None` is a line that does not parse. `dones` counts the `[DONE]` markers sent to the client. Since there
   * always is one, the attempt never counts as failed, whatever the upstream sent.
   */
  method TranslateAnthropicToChat(events: seq<Option<Event>>)
      returns (out: seq<Chunk>, dones: nat, truncated: bool, failed: bool)
    ensures out == DownOut(events)
    ensures dones == if Stops(events) == 0 then 1 else Stops(events)
    ensures truncated <==> Stops(events) == 0
    ensures !failed
  {
    var translator := new Down.AnthropicToChatStream();
    out, dones := [], 0;
    var sawTerminator, wroteToClient := false, false;
    NothingFed();
    hide DownFed, Stops, Down.DownEvent;
    for i := 0 to |events|
      invariant DownFed(events[..i]) == DownDriven(translator.View(), out, dones)
      invariant dones == Stops(events[..i])
      invariant sawTerminator <==> dones > 0
      invariant wroteToClient <==> out != [] || dones > 0
    {
      assert events[..i + 1] == events[..i] + [events[i]];
      DownFedPush(events[..i], events[i]);
      if events[i].Some? {
        DoneAtStop(translator.View(), events[i].value);
        var chunks, done := translator.Process(events[i]);
        out := out + chunks;
        wroteToClient := wroteToClient || chunks != [] || done;
        if done {
          sawTerminator := true;
          dones := dones + 1;
        }
      }
    }
    assert events[..|events|] == events;
    truncated := !sawTerminator;
    if truncated {
      var chunks, _ := translator.Finalize();
      out := out + chunks;
      dones := 1;
      wroteToClient := true;
    }
    failed := !wroteToClient;
  }

  /** The event says something: it begins or ends the message, announces a tool, or carries text or thinking. */
  predicate Speaks(e: Option<Event>) {
    e.Some? &&
    match e.value
    case MessageStart(_) => true
    case MessageStop => true
    case BlockStart(_, header) => header.Some? && header.value.ToolBlock?
    case BlockChange(_, delta) =>
      delta.Some? && ((delta.value.TextDelta? && delta.value.text != "") || (delta.value.ThinkingDelta? && delta.value.thinking != ""))
    case _ => false
  }

  lemma {:induction false} EventSpeaks(s: Down.DownState, e: Event)
    ensures var r := Down.DownEvent(s, e);
            && r.state.finalized == s.finalized && (s.started ==> r.state.started)
            && (Speaks(Some(e)) ==> r.chunks != [] || r.state.started)
            && (e == MessageStop ==> r.chunks != [])
            && (!Speaks(Some(e)) && s.blockToTool == map[] ==>
                  r.chunks == [] && r.state.started == s.started && r.state.blockToTool == map[])
  {
  }

  ghost predicate Silent(events: seq<Option<Event>>) {
    forall i :: 0 <= i < |events| ==> !Speaks(events[i])
  }

  lemma {:induction false} FedSilently(events: seq<Option<Event>>)
    ensures var d := DownFed(events);
            && !d.state.finalized
            && (d.chunks == [] && !d.state.started <==> Silent(events))
            && (Silent(events) ==> d.state.blockToTool == map[] && Stops(events) == 0)
            && (Stops(events) > 0 ==> d.chunks != [])
  {
    if events != [] {
      var front, e := events[..|events| - 1], events[|events| - 1];
      FedSilently(front);
      if e.Some? {
        EventSpeaks(DownFed(front).state, e.value);
      }
      assert Speaks(Some(MessageStop));
      hide Speaks;
      assert Silent(events) <==> Silent(front) && !Speaks(e);
    }
  }

  /**
   * The client of a stream gets the end marker and nothing else, for which no other sub-group is tried,
   * exactly when the upstream said nothing: no event at all, in particular.
   */
  lemma {:induction false} NothingButTheEndIff(events: seq<Option<Event>>)
    ensures DownOut(events) == [] <==> Silent(events)
  {
    FedSilently(events);
    hide DownFed, Stops, Silent;
  }
}
