/** The two wire formats the stream translators sit between, and what a client sees of a Chat stream. */
module StreamTypes {
  import opened Wrappers
  import opened Selections

  function Max(x: int, y: int): int {
    if x < y then y else x
  }

  // ----- OpenAI Chat stream -----

  datatype FunctionCall = FunctionCall(name: string, arguments: string)

  datatype ToolCall = ToolCall(index: int, id: string, fn: Option<FunctionCall>) {
    function Name(): string {
      if fn.Some? then fn.value.name else ""
    }

    function Args(): string {
      if fn.Some? then fn.value.arguments else ""
    }
  }

  datatype ChatUsage = ChatUsage(prompt: int, completion: int, total: int, cached: Option<int>)

  datatype Delta = Delta(role: string, content: string, reasoning: string, toolCalls: seq<ToolCall>)

  datatype Choice = Choice(delta: Delta, finish: Option<string>)

  datatype Chunk = Chunk(id: string, model: string, choices: seq<Choice>, usage: Option<ChatUsage>)

  // ----- Anthropic event stream -----

  datatype AnthropicUsage = AnthropicUsage(input: int, output: int, cacheRead: int, cacheCreate: int)

  datatype Message = Message(id: string, model: string, usage: AnthropicUsage)

  datatype BlockHeader = TextBlock | ThinkingBlock | ToolBlock(id: string, name: string) | OtherBlock

  datatype BlockDelta = TextDelta(text: string) | ThinkingDelta(thinking: string) | InputJsonDelta(partial: string) | OtherDelta

  /** `stopReason` is "" when the delta object is missing or carries no stop reason. */
  datatype Event =
    | MessageStart(message: Option<Message>)
    | BlockStart(index: Option<int>, header: Option<BlockHeader>)
    | BlockChange(index: Option<int>, delta: Option<BlockDelta>)
    | BlockStop(index: Option<int>)
    | MessageDelta(stopReason: string, usage: Option<AnthropicUsage>)
    | MessageStop
    | OtherEvent

  // ----- Frames: the non-empty increments of a Chat stream, in the order a consumer handles them -----

  datatype Frame = Reasoning(thinking: string) | Text(text: string) | Tool(call: ToolCall) | Finish(reason: string)

  function ToolFrames(calls: seq<ToolCall>): seq<Frame> {
    if calls == [] then [] else ToolFrames(calls[..|calls| - 1]) + [Tool(calls[|calls| - 1])]
  }

  function ReasoningFrames(d: Delta): seq<Frame> {
    if d.reasoning != "" then [Reasoning(d.reasoning)] else []
  }

  function TextFrames(d: Delta): seq<Frame> {
    if d.content != "" then [Text(d.content)] else []
  }

  function FinishFrames(c: Choice): seq<Frame> {
    if c.finish.Some? && c.finish.value != "" then [Finish(c.finish.value)] else []
  }

  function ChoiceFrames(c: Choice): seq<Frame> {
    ReasoningFrames(c.delta) + TextFrames(c.delta) + ToolFrames(c.delta.toolCalls) + FinishFrames(c)
  }

  function ChoicesFrames(choices: seq<Choice>): seq<Frame> {
    if choices == [] then [] else ChoicesFrames(choices[..|choices| - 1]) + ChoiceFrames(choices[|choices| - 1])
  }

  function StreamFrames(chunks: seq<Chunk>): seq<Frame> {
    if chunks == [] then [] else StreamFrames(chunks[..|chunks| - 1]) + ChoicesFrames(chunks[|chunks| - 1].choices)
  }

  /** `fs` are the reasoning, the text, every tool call and the finish reason of a choice, in this order, as far as given. */
  ghost predicate SaidBy(c: Choice, fs: seq<Frame>) {
    var n, a := |c.delta.toolCalls|, if c.delta.reasoning == "" then 0 else 1;
    var b := if c.delta.content == "" then a else a + 1;
    var finished := c.finish.Some? && c.finish.value != "";
    && |fs| == b + n + (if finished then 1 else 0)
    && (a == 1 ==> fs[0] == Reasoning(c.delta.reasoning))
    && (b > a ==> fs[a] == Text(c.delta.content))
    && (forall k :: 0 <= k < n ==> fs[b + k] == Tool(c.delta.toolCalls[k]))
    && (finished ==> fs[b + n] == Finish(c.finish.value))
  }

  lemma {:induction false} ToolFramesAre(calls: seq<ToolCall>)
    ensures |ToolFrames(calls)| == |calls| && forall k :: 0 <= k < |calls| ==> ToolFrames(calls)[k] == Tool(calls[k])
  {
    if calls != [] {
      ToolFramesAre(calls[..|calls| - 1]);
    }
  }

  lemma {:induction false} ChoiceFramesAre(c: Choice)
    ensures SaidBy(c, ChoiceFrames(c))
  {
    ToolFramesAre(c.delta.toolCalls);
    hide ToolFrames;
  }

  lemma {:induction false} ChoicesFramesAre(choices: seq<Choice>) returns (said: seq<seq<Frame>>)
    ensures |said| == |choices| && (forall k :: 0 <= k < |choices| ==> SaidBy(choices[k], said[k]))
    ensures Flat(said) == ChoicesFrames(choices)
  {
    if choices == [] {
      said := [];
    } else {
      var before := ChoicesFramesAre(choices[..|choices| - 1]);
      var c := choices[|choices| - 1];
      ChoiceFramesAre(c);
      FlatPush(before, ChoiceFrames(c));
      hide SaidBy, Flat, ChoiceFrames;
      said := before + [ChoiceFrames(c)];
    }
  }

  ghost predicate SaidByAll(choices: seq<Choice>, fs: seq<Frame>) {
    exists said: seq<seq<Frame>> ::
      |said| == |choices| && (forall k :: 0 <= k < |choices| ==> SaidBy(choices[k], said[k])) && Flat(said) == fs
  }

  lemma {:induction false} ChoicesSay(choices: seq<Choice>)
    ensures SaidByAll(choices, ChoicesFrames(choices))
  {
    var said := ChoicesFramesAre(choices);
    hide SaidBy, Flat, ChoicesFrames;
  }

  lemma {:induction false} StreamFramesPush(chunks: seq<Chunk>, c: Chunk)
    ensures StreamFrames(chunks + [c]) == StreamFrames(chunks) + ChoicesFrames(c.choices)
    ensures StreamFrames([]) == Flat<Frame>([]) == []
  {
    assert (chunks + [c])[..|chunks|] == chunks;
    hide ChoicesFrames;
  }

  /** The frames of a stream are what its choices say, chunk by chunk. */
  lemma {:induction false} StreamFramesAre(chunks: seq<Chunk>) returns (said: seq<seq<Frame>>)
    ensures |said| == |chunks| && (forall k :: 0 <= k < |chunks| ==> SaidByAll(chunks[k].choices, said[k]))
    ensures Flat(said) == StreamFrames(chunks)
  {
    hide *;
    if chunks == [] {
      said := [];
      StreamFramesPush([], Chunk("", "", [], None));
    } else {
      var front, c := chunks[..|chunks| - 1], chunks[|chunks| - 1];
      assert chunks == front + [c];
      var before := StreamFramesAre(front);
      ChoicesSay(c.choices);
      FlatPush(before, ChoicesFrames(c.choices));
      StreamFramesPush(front, c);
      said := before + [ChoicesFrames(c.choices)];
    }
  }

  lemma {:induction false} StreamFramesAppend(a: seq<Chunk>, b: seq<Chunk>)
    ensures StreamFrames(a + b) == StreamFrames(a) + StreamFrames(b)
  {
    hide ChoicesFrames;
    if b == [] {
      assert a + b == a;
    } else {
      var front, last := b[..|b| - 1], b[|b| - 1];
      StreamFramesAppend(a, front);
      assert (a + b)[..|a + b| - 1] == a + front && (a + b)[|a + b| - 1] == last;
      var fa, fb, fl := StreamFrames(a), StreamFrames(front), ChoicesFrames(last.choices);
      assert StreamFrames(a + b) == (fa + fb) + fl;
      assert (fa + fb) + fl == fa + (fb + fl);
    }
  }

  /** The tool-call indices the frames name. */
  function SeenTools(fs: seq<Frame>): set<int> {
    if fs == [] then {}
    else
      var f := fs[|fs| - 1];
      SeenTools(fs[..|fs| - 1]) + (if f.Tool? then {f.call.index} else {})
  }

  /** Some frame carries content, so a content block has been opened. */
  predicate AnyContent(fs: seq<Frame>) {
    fs != [] && (AnyContent(fs[..|fs| - 1]) || !fs[|fs| - 1].Finish?)
  }

  // ----- What a client that assembles a Chat stream ends up with -----

  datatype ToolView = ToolView(index: int, id: string, name: string, args: string)

  datatype Answer = Answer(text: string, reasoning: string, tools: seq<ToolView>, finish: Option<string>)

  /** The first position of the tool call `index` in `tools`, or `|tools|`. */
  function FindTool(tools: seq<ToolView>, index: int): (k: nat)
    ensures k <= |tools|
    ensures k < |tools| ==> tools[k].index == index
    ensures forall j :: 0 <= j < k ==> tools[j].index != index
  {
    if tools == [] || tools[0].index == index then 0 else 1 + FindTool(tools[1..], index)
  }

  /** A tool call is announced by its first frame; later frames of the same index only add arguments. */
  function Assemble(a: Answer, f: Frame): Answer {
    match f
    case Reasoning(t) => a.(reasoning := a.reasoning + t)
    case Text(t) => a.(text := a.text + t)
    case Finish(r) => a.(finish := Some(r))
    case Tool(tc) =>
      var k := FindTool(a.tools, tc.index);
      if k < |a.tools| then
        a.(tools := a.tools[k := a.tools[k].(args := a.tools[k].args + tc.Args())])
      else
        a.(tools := a.tools + [ToolView(tc.index, tc.id, tc.Name(), tc.Args())])
  }

  function Assembled(fs: seq<Frame>): Answer {
    if fs == [] then Answer("", "", [], None) else Assemble(Assembled(fs[..|fs| - 1]), fs[|fs| - 1])
  }

  ghost function Indices(tools: seq<ToolView>): set<int> {
    set t | t in tools :: t.index
  }

  ghost predicate Distinct(tools: seq<ToolView>) {
    forall j, k :: 0 <= j < k < |tools| ==> tools[j].index != tools[k].index
  }
}
