/**
 * The token counts the stream translators report. Chat counts cached prompt tokens within the prompt,
 * Anthropic counts them apart, and only the event that ends an Anthropic message carries all the counts.
 * The translator keeps the largest count of each kind on its own, which is the right total as long as one
 * chunk reports; and of a message that is translated back only part of its counts survives.
 */
module StreamUsage {
  import opened Wrappers
  import opened StreamTypes
  import opened ChatToAnthropic
  import BlockLifecycle
  import opened StreamRoundTrip
  import Down = AnthropicToChat

  function Reports(chunks: seq<Chunk>): seq<ChatUsage> {
    if chunks == [] then []
    else
      var c := chunks[|chunks| - 1];
      Reports(chunks[..|chunks| - 1]) + (if c.usage.Some? then [c.usage.value] else [])
  }

  /** The cached tokens of a report, as far as its prompt has that many. */
  function Cached(u: ChatUsage): int {
    var cached := if u.cached.Some? then u.cached.value else 0;
    if u.prompt < cached then u.prompt else cached
  }

  function Uncached(u: ChatUsage): int {
    u.prompt - Cached(u)
  }

  lemma {:induction false} CachedIs(u: ChatUsage)
    ensures CachedShare(u) == Cached(u)
  {
  }

  /** `x` is the largest count of any report, or 0. */
  ghost predicate Peak(x: int, reports: seq<ChatUsage>, count: ChatUsage -> int) {
    && x >= 0
    && (forall u :: u in reports ==> count(u) <= x)
    && (x == 0 || exists u :: u in reports && count(u) == x)
  }

  lemma {:induction false} PeakPush(x: int, reports: seq<ChatUsage>, u: ChatUsage, count: ChatUsage -> int)
    requires Peak(x, reports, count)
    ensures Peak(Max(x, count(u)), reports + [u], count)
  {
    var y := Max(x, count(u));
    if y == x && x != 0 {
      var v :| v in reports && count(v) == x;
      assert v in reports + [u];
    } else if y != 0 {
      assert u in reports + [u] && count(u) == y;
    }
  }

  // ----- Up -----

  /** Nothing but content: no event that opens or ends the message. */
  predicate InBlock(e: Event) {
    e.BlockStart? || e.BlockChange? || e.BlockStop?
  }

  predicate SameCounts(s: UpState, t: UpState) {
    s.inputTokens == t.inputTokens && s.outputTokens == t.outputTokens && s.cacheRead == t.cacheRead && s.started == t.started
  }

  lemma {:induction false} FrameInBlocks(s: UpState, f: Frame)
    ensures forall e :: e in UpFrame(s, f).events ==> InBlock(e)
    ensures SameCounts(UpFrame(s, f).state, s)
  {
  }

  lemma {:induction false} FramesInBlocks(s: UpState, fs: seq<Frame>)
    ensures forall e :: e in UpFrames(s, fs).events ==> InBlock(e)
    ensures SameCounts(UpFrames(s, fs).state, s)
  {
    if fs != [] {
      var front := fs[..|fs| - 1];
      FramesInBlocks(s, front);
      FrameInBlocks(UpFrames(s, front).state, fs[|fs| - 1]);
      hide UpFrame;
    }
  }

  /** What a message opens with: only the first chunk's report is known by then. */
  function FirstInput(chunks: seq<Chunk>): int
    requires chunks != []
  {
    if chunks[0].usage.Some? then Max(0, Uncached(chunks[0].usage.value)) else 0
  }

  ghost predicate Opened(events: seq<Event>, input: int) {
    && events != [] && events[0].MessageStart? && events[0].message.Some?
    && events[0].message.value.usage == AnthropicUsage(input, 1, 0, 0)
    && forall i :: 1 <= i < |events| ==> InBlock(events[i])
  }

  ghost predicate Counted(s: UpState, chunks: seq<Chunk>) {
    && Peak(s.inputTokens, Reports(chunks), Uncached)
    && Peak(s.cacheRead, Reports(chunks), Cached)
    && Peak(s.outputTokens, Reports(chunks), Completion)
    && (s.started <==> chunks != [])
  }

  function Completion(u: ChatUsage): int {
    u.completion
  }

  lemma {:induction false} HeaderCounts(s: UpState, chunks: seq<Chunk>, c: Chunk)
    requires Counted(s, chunks)
    ensures Reports(chunks + [c]) == Reports(chunks) + (if c.usage.Some? then [c.usage.value] else [])
    ensures Counted(Header(s, c).(started := true), chunks + [c])
    ensures chunks == [] ==> Header(s, c).inputTokens == FirstInput([c])
  {
    assert (chunks + [c])[..|chunks|] == chunks;
    if c.usage.Some? {
      CachedIs(c.usage.value);
      PeakPush(s.inputTokens, Reports(chunks), c.usage.value, Uncached);
      PeakPush(s.cacheRead, Reports(chunks), c.usage.value, Cached);
      PeakPush(s.outputTokens, Reports(chunks), c.usage.value, Completion);
    }
  }

  lemma {:induction false} ChunksPushed(chunks: seq<Chunk>)
    ensures chunks == [] ==> UpChunks(INITIAL, chunks) == UpResult(INITIAL, [])
    ensures chunks != [] ==>
              var front, c := chunks[..|chunks| - 1], chunks[|chunks| - 1];
              var r := UpChunks(INITIAL, front);
              && chunks == front + [c]
              && (front != [] ==> FirstInput(chunks) == FirstInput(front))
              && UpChunks(INITIAL, chunks) == UpResult(UpChunk(r.state, c).state, r.events + UpChunk(r.state, c).events)
  {
    hide UpChunk;
  }

  lemma {:induction false} NothingCounted()
    ensures Counted(INITIAL, [])
  {
  }

  lemma {:induction false} ChunksCounted(chunks: seq<Chunk>)
    ensures Counted(UpChunks(INITIAL, chunks).state, chunks)
    ensures chunks != [] ==> Opened(UpChunks(INITIAL, chunks).events, FirstInput(chunks))
  {
    hide *;
    ChunksPushed(chunks);
    if chunks == [] {
      NothingCounted();
    } else {
      var front, c := chunks[..|chunks| - 1], chunks[|chunks| - 1];
      ChunksCounted(front);
      var r := UpChunks(INITIAL, front);
      ChunkCounted(r.state, front, c);
      if front == [] {
        ChunksPushed(front);
        assert [] + UpChunk(r.state, c).events == UpChunk(r.state, c).events;
      } else {
        StillOpened(r.events, UpChunk(r.state, c).events, FirstInput(front));
      }
    }
  }

  lemma {:induction false} StillOpened(events: seq<Event>, more: seq<Event>, input: int)
    requires Opened(events, input) && forall e :: e in more ==> InBlock(e)
    ensures Opened(events + more, input)
  {
    forall i | 1 <= i < |events + more|
      ensures InBlock((events + more)[i])
    {
      assert i >= |events| ==> (events + more)[i] in more;
    }
  }

  lemma {:induction false} ChunkCounted(s: UpState, chunks: seq<Chunk>, c: Chunk)
    requires Counted(s, chunks)
    ensures Counted(UpChunk(s, c).state, chunks + [c])
    ensures chunks == [] ==> Opened(UpChunk(s, c).events, FirstInput([c]))
    ensures chunks != [] ==> forall e :: e in UpChunk(s, c).events ==> InBlock(e)
  {
    HeaderCounts(s, chunks, c);
    HeaderStarted(s, c);
    var h := Header(s, c);
    var b := Begin(h);
    FramesInBlocks(b.state, ChoicesFrames(c.choices));
    var more := UpFrames(b.state, ChoicesFrames(c.choices)).events;
    hide Header, Peak, UpFrames;
    if chunks == [] {
      assert Opened(b.events, FirstInput([c]));
      StillOpened(b.events, more, FirstInput([c]));
    }
  }

  lemma {:induction false} HeaderStarted(s: UpState, c: Chunk)
    ensures Header(s, c).started == s.started
  {
  }

  /** The event before the last one carries the largest counts of the reports. */
  ghost predicate EndsCounted(events: seq<Event>, reports: seq<ChatUsage>) {
    && |events| >= 2 && events[|events| - 2].MessageDelta? && events[|events| - 2].usage.Some?
    && CountsOf(events[|events| - 2].usage.value, reports)
  }

  ghost predicate CountsOf(u: AnthropicUsage, reports: seq<ChatUsage>) {
    && Peak(u.output, reports, Completion)
    && Peak(u.input, reports, Uncached)
    && Peak(u.cacheRead, reports, Cached)
    && u.cacheCreate == 0
  }

  /**
   * The event that ends a message reports the largest counts of any chunk, the prompt split into cached
   * and uncached tokens.
   */
  lemma {:induction false} UsageReported(chunks: seq<Chunk>)
    requires chunks != []
    ensures EndsCounted(UpRun(chunks).events, Reports(chunks))
  {
    ChunksCounted(chunks);
    ChunksUnended(chunks);
    hide Peak, UpChunks;
  }

  lemma {:induction false} ChunksUnended(chunks: seq<Chunk>)
    ensures !UpChunks(INITIAL, chunks).state.finalized
  {
    BlockLifecycle.ChunksScan(false, false, chunks);
  }

  /** The prompt tokens the closing event of a stream reports, cached and uncached together. */
  function ClosingPrompt(events: seq<Event>): int {
    if |events| >= 2 && events[|events| - 2].MessageDelta? && events[|events| - 2].usage.Some? then
      events[|events| - 2].usage.value.input + events[|events| - 2].usage.value.cacheRead
    else 0
  }

  /** No report has more uncached tokens than `r`, and none has more cached ones. */
  predicate LargestInBoth(r: ChatUsage, reports: seq<ChatUsage>) {
    && Uncached(r) >= 0 && Cached(r) >= 0
    && forall u :: u in reports ==> Uncached(u) <= Uncached(r) && Cached(u) <= Cached(r)
  }

  lemma {:induction false} PeakIs(x: int, reports: seq<ChatUsage>, count: ChatUsage -> int, r: ChatUsage)
    requires Peak(x, reports, count) && r in reports
    ensures x == count(r) <==> count(r) >= 0 && forall u :: u in reports ==> count(u) <= count(r)
  {
  }

  /**
   * The closing event never reports fewer prompt tokens than any chunk did; and it reports what some chunk
   * did, counting no token twice, exactly when one chunk reported the most of both kinds.
   */
  lemma {:induction false} PromptCountedOnceIff(chunks: seq<Chunk>)
    requires chunks != []
    ensures var reports, closing := Reports(chunks), ClosingPrompt(UpRun(chunks).events);
            && (forall r :: r in reports ==> r.prompt <= closing)
            && ((exists r :: r in reports && r.prompt == closing) <==> exists r :: r in reports && LargestInBoth(r, reports))
  {
    UsageReported(chunks);
    var reports, events := Reports(chunks), UpRun(chunks).events;
    var u := events[|events| - 2].usage.value;
    hide Reports, UpRun, Cached, Peak;
    forall r | r in reports
      ensures r.prompt <= ClosingPrompt(events)
      ensures r.prompt == ClosingPrompt(events) <==> LargestInBoth(r, reports)
    {
      PromptSplits(u, reports, r);
    }
  }

  lemma {:induction false} PromptSplits(u: AnthropicUsage, reports: seq<ChatUsage>, r: ChatUsage)
    requires CountsOf(u, reports) && r in reports
    ensures r.prompt <= u.input + u.cacheRead
    ensures r.prompt == u.input + u.cacheRead <==> LargestInBoth(r, reports)
  {
    PeakIs(u.input, reports, Uncached, r);
    PeakIs(u.cacheRead, reports, Cached, r);
    hide Cached;
    assert r.prompt == Uncached(r) + Cached(r);
    assert Uncached(r) <= u.input && Cached(r) <= u.cacheRead;
  }

  lemma {:induction false} ReportsOfTwo(first: Chunk, second: Chunk)
    requires first.usage.Some? && second.usage.Some?
    ensures Reports([first, second]) == [first.usage.value, second.usage.value]
  {
    assert [first, second][..1] == [first] && [first][..0] == [];
    assert Reports([]) == [];
    assert Reports([first]) == [first.usage.value];
  }

  /** Two chunks that report the same prompt, first uncached and then cached, make it count double. */
  lemma {:induction false} PromptCountedTwice(prompt: nat, completion: int)
    ensures var first := Chunk("", "", [], Some(ChatUsage(prompt, completion, prompt + completion, None)));
            var second := Chunk("", "", [], Some(ChatUsage(prompt, completion, prompt + completion, Some(prompt))));
            ClosingPrompt(UpRun([first, second]).events) == 2 * prompt
  {
    var first := Chunk("", "", [], Some(ChatUsage(prompt, completion, prompt + completion, None)));
    var second := Chunk("", "", [], Some(ChatUsage(prompt, completion, prompt + completion, Some(prompt))));
    var u1, u2 := first.usage.value, second.usage.value;
    UsageReported([first, second]);
    ReportsOfTwo(first, second);
    var events := UpRun([first, second]).events;
    var u := events[|events| - 2].usage.value;
    hide Reports, UpRun;
    assert Uncached(u1) == prompt && Cached(u1) == 0 && Uncached(u2) == 0 && Cached(u2) == prompt;
    PeakIs(u.input, [u1, u2], Uncached, u1);
    PeakIs(u.cacheRead, [u1, u2], Cached, u2);
  }

  // ----- There and back -----

  predicate SameDown(d: Down.DownState, e: Down.DownState) {
    && d.inputTokens == e.inputTokens && d.outputTokens == e.outputTokens
    && d.cacheRead == e.cacheRead && d.cacheCreate == e.cacheCreate
  }

  lemma {:induction false} BlocksKeepCounts(d: Down.DownState, events: seq<Event>)
    requires forall e :: e in events ==> InBlock(e)
    ensures SameDown(Down.DownEvents(d, events).state, d)
  {
    if events != [] {
      var front, e := events[..|events| - 1], events[|events| - 1];
      BlocksKeepCounts(d, front);
      assert e in events;
      BlockKeepsCounts(Down.DownEvents(d, front).state, e);
      hide Down.DownEvent;
    }
  }

  lemma {:induction false} BlockKeepsCounts(d: Down.DownState, e: Event)
    requires InBlock(e)
    ensures SameDown(Down.DownEvent(d, e).state, d)
  {
  }

  /** The counts known before the message ends. */
  lemma {:induction false} OpenedCounts(events: seq<Event>, input: int)
    requires Opened(events, input)
    ensures var r := Down.DownEvents(Down.INITIAL, events).state;
            r.inputTokens == input && r.outputTokens == r.cacheRead == r.cacheCreate == 0
  {
    var head, rest := [events[0]], events[1..];
    assert events == head + rest;
    Down.DownOne(Down.INITIAL, events[0]);
    Down.DownAppend(Down.INITIAL, head, rest);
    BlocksKeepCounts(Down.DownEvents(Down.INITIAL, head).state, rest);
    hide Down.DownEvents;
  }

  /**
   * Of a stream translated there and back the completion count survives; of the prompt only what the
   * very first chunk reported, without its cached share.
   */
  lemma {:induction false} UsageThereAndBack(chunks: seq<Chunk>)
    requires chunks != []
    ensures var back := ThereAndBack(chunks).chunks;
            && back != [] && back[|back| - 1].usage.Some?
            && var w := back[|back| - 1].usage.value;
               Peak(w.completion, Reports(chunks), Completion) && w.prompt == FirstInput(chunks)
  {
    ChunksCounted(chunks);
    ChunksUnended(chunks);
    var r := UpChunks(INITIAL, chunks);
    OpenedCounts(r.events, FirstInput(chunks));
    var d := Down.DownEvents(Down.INITIAL, r.events);
    hide Down.DownEvents, UpChunks, Opened;
    FinalizeEcho(r.state, d.state);
    hide UpFinalize;
    Down.DownAppend(Down.INITIAL, r.events, UpFinalize(r.state).events);
  }
}
