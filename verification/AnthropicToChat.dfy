/** The translator from Anthropic events to Chat chunks. */
module AnthropicToChat {
  import opened Wrappers
  import opened StreamTypes

  datatype DownState = DownState(
    started: bool, roleSent: bool, finalized: bool, id: string, model: string,
    toolIndex: nat, blockToTool: map<int, int>,
    inputTokens: int, outputTokens: int, cacheRead: int, cacheCreate: int, finishReason: string)

  datatype DownResult = DownResult(state: DownState, chunks: seq<Chunk>, done: bool)

  const INITIAL := DownState(false, false, false, "", "", 0, map[], 0, 0, 0, 0, "")

  // ----- Specification of one step -----

  function ChatFinish(stopReason: string, toolCalls: nat): string {
    if toolCalls > 0 then "tool_calls"
    else if stopReason == "max_tokens" || stopReason == "pause_turn" then "length"
    else if stopReason == "tool_use" then "tool_calls"
    else "stop"
  }

  /** One chunk with one choice; the first chunk of the stream also carries the role. */
  function Emit(s: DownState, d: Delta, finish: Option<string>, usage: Option<ChatUsage>): DownResult {
    DownResult(s.(roleSent := true),
               [Chunk(s.id, s.model, [Choice(d.(role := if s.roleSent then d.role else "assistant"), finish)], usage)],
               false)
  }

  const EMPTY := Delta("", "", "", [])

  function OpenTool(s: DownState, index: int, id: string, name: string): DownResult {
    Emit(s.(toolIndex := s.toolIndex + 1, blockToTool := s.blockToTool[index := s.toolIndex]),
         EMPTY.(toolCalls := [ToolCall(s.toolIndex, id, Some(FunctionCall(name, "")))]), None, None)
  }

  function Change(s: DownState, index: int, d: BlockDelta): DownResult {
    match d
    case TextDelta(t) => if t != "" then Emit(s, EMPTY.(content := t), None, None) else DownResult(s, [], false)
    case ThinkingDelta(t) => if t != "" then Emit(s, EMPTY.(reasoning := t), None, None) else DownResult(s, [], false)
    case InputJsonDelta(p) =>
      if index in s.blockToTool && p != "" then
        Emit(s, EMPTY.(toolCalls := [ToolCall(s.blockToTool[index], "", Some(FunctionCall("", p)))]), None, None)
      else DownResult(s, [], false)
    case OtherDelta => DownResult(s, [], false)
  }

  function FinishUsage(s: DownState): ChatUsage {
    var prompt := s.inputTokens + s.cacheRead + s.cacheCreate;
    ChatUsage(prompt, s.outputTokens, prompt + s.outputTokens, if s.cacheRead > 0 then Some(s.cacheRead) else None)
  }

  function Complete(s: DownState): DownResult {
    Emit(s, EMPTY, Some(if s.finishReason == "" then "stop" else s.finishReason), Some(FinishUsage(s))).(done := true)
  }

  function DownEvent(s: DownState, e: Event): DownResult {
    match e
    case MessageStart(m) =>
      var t := if m.None? then s
               else s.(id := if m.value.id != "" then m.value.id else s.id,
                       model := if m.value.model != "" then m.value.model else s.model,
                       inputTokens := m.value.usage.input,
                       cacheRead := m.value.usage.cacheRead,
                       cacheCreate := m.value.usage.cacheCreate);
      DownResult(t.(started := true), [], false)
    case BlockStart(index, header) =>
      if header.Some? && header.value.ToolBlock? then OpenTool(s, index.GetOr(0), header.value.id, header.value.name)
      else DownResult(s, [], false)
    case BlockChange(index, delta) =>
      if delta.None? then DownResult(s, [], false) else Change(s, index.GetOr(0), delta.value)
    case BlockStop(_) => DownResult(s, [], false)
    case MessageDelta(stopReason, usage) =>
      var t := if stopReason != "" then s.(finishReason := ChatFinish(stopReason, s.toolIndex)) else s;
      DownResult(if usage.Some? then t.(outputTokens := Max(s.outputTokens, usage.value.output)) else t, [], false)
    case MessageStop => Complete(s)
    case OtherEvent => DownResult(s, [], false)
  }

  function DownFinalize(s: DownState): DownResult {
    if s.finalized then DownResult(s, [], false)
    else if !s.started then DownResult(s.(finalized := true), [], false)
    else Complete(s.(finalized := true))
  }

  /** `done` here says whether some event ended the stream. */
  function DownEvents(s: DownState, events: seq<Event>): DownResult {
    if events == [] then DownResult(s, [], false)
    else
      var r := DownEvents(s, events[..|events| - 1]);
      var last := DownEvent(r.state, events[|events| - 1]);
      DownResult(last.state, r.chunks + last.chunks, r.done || last.done)
  }

  lemma {:induction false} DownOne(s: DownState, e: Event)
    ensures DownEvents(s, [e]) == DownEvent(s, e)
  {
    assert [e][..0] == [];
    hide DownEvent;
    assert DownEvents(s, []) == DownResult(s, [], false);
  }

  lemma {:induction false} DownAppend(s: DownState, a: seq<Event>, b: seq<Event>)
    ensures var r := DownEvents(s, a);
            var t := DownEvents(r.state, b);
            DownEvents(s, a + b) == DownResult(t.state, r.chunks + t.chunks, r.done || t.done)
  {
    hide DownEvent;
    var r := DownEvents(s, a);
    if b == [] {
      assert a + b == a;
      assert r.chunks + [] == r.chunks;
    } else {
      var front, e := b[..|b| - 1], b[|b| - 1];
      DownAppend(s, a, front);
      assert (a + b)[..|a + b| - 1] == a + front && (a + b)[|a + b| - 1] == e;
      var t := DownEvents(r.state, front);
      var last := DownEvent(t.state, e);
      assert (r.chunks + t.chunks) + last.chunks == r.chunks + (t.chunks + last.chunks);
    }
  }

  /** Every chunk has one choice, and the first chunk, and no other, carries the role. */
  predicate RoleFirst(chunks: seq<Chunk>, sent: bool) {
    forall i :: 0 <= i < |chunks| ==>
      |chunks[i].choices| == 1 && chunks[i].choices[0].delta.role == (if i == 0 && !sent then "assistant" else "")
  }

  lemma {:induction false} EventRole(s: DownState, e: Event)
    ensures RoleFirst(DownEvent(s, e).chunks, s.roleSent) && |DownEvent(s, e).chunks| <= 1
    ensures DownEvent(s, e).state.roleSent == (s.roleSent || DownEvent(s, e).chunks != [])
  {
  }

  /** In every stream, complete or cut short, the role is announced once, on the first chunk. */
  lemma {:induction false} RoleOnce(s: DownState, events: seq<Event>)
    ensures RoleFirst(DownEvents(s, events).chunks, s.roleSent)
    ensures DownEvents(s, events).state.roleSent == (s.roleSent || DownEvents(s, events).chunks != [])
  {
    if events != [] {
      var front, e := events[..|events| - 1], events[|events| - 1];
      RoleOnce(s, front);
      EventRole(DownEvents(s, front).state, e);
      hide DownEvent;
    }
  }

  // ----- The translator object -----

  class AnthropicToChatStream {
    var started: bool
    var roleSent: bool
    var finalized: bool
    var id: string
    var model: string
    var toolIndex: nat
    var blockToTool: map<int, int>
    var inputTokens: int
    var outputTokens: int
    var cacheRead: int
    var cacheCreate: int
    var finishReason: string

    ghost function View(): DownState
      reads this
    {
      DownState(started, roleSent, finalized, id, model, toolIndex, blockToTool,
                inputTokens, outputTokens, cacheRead, cacheCreate, finishReason)
    }

    constructor ()
      ensures View() == INITIAL
    {
      started, roleSent, finalized, id, model := false, false, false, "", "";
      toolIndex, blockToTool := 0, map[];
      inputTokens, outputTokens, cacheRead, cacheCreate, finishReason := 0, 0, 0, 0, "";
    }

    method MakeChunk(delta: Delta, finish: Option<string>, usage: Option<ChatUsage>) returns (out: seq<Chunk>)
      modifies this
      ensures DownResult(View(), out, false) == Emit(old(View()), delta, finish, usage)
    {
      var d := delta;
      if !roleSent {
        roleSent := true;
        d := d.(role := "assistant");
      }
      out := [Chunk(id, model, [Choice(d, finish)], usage)];
    }

    method ProcessDelta(index: Option<int>, delta: BlockDelta) returns (out: seq<Chunk>)
      modifies this
      ensures DownResult(View(), out, false) == Change(old(View()), index.GetOr(0), delta)
    {
      out := [];
      match delta {
        case TextDelta(text) =>
          if text != "" {
            out := MakeChunk(Delta("", text, "", []), None, None);
          }
        case ThinkingDelta(thinking) =>
          if thinking != "" {
            out := MakeChunk(Delta("", "", thinking, []), None, None);
          }
        case InputJsonDelta(partial) =>
          var idx := index.GetOr(0);
          if idx !in blockToTool {
            return [];
          }
          if partial != "" {
            out := MakeChunk(Delta("", "", "", [ToolCall(blockToTool[idx], "", Some(FunctionCall("", partial)))]), None, None);
          }
        case OtherDelta =>
      }
    }

    method ReadMessage(m: Option<Message>)
      modifies this
      ensures DownResult(View(), [], false) == DownEvent(old(View()), MessageStart(m))
    {
      if m.Some? {
        if m.value.id != "" {
          id := m.value.id;
        }
        if m.value.model != "" {
          model := m.value.model;
        }
        inputTokens := m.value.usage.input;
        cacheRead := m.value.usage.cacheRead;
        cacheCreate := m.value.usage.cacheCreate;
      }
      started := true;
    }

    method FinishChunk() returns (out: seq<Chunk>)
      modifies this
      ensures DownResult(View(), out, true) == Complete(old(View()))
    {
      var reason := finishReason;
      if reason == "" {
        reason := "stop";
      }
      var prompt := inputTokens + cacheRead + cacheCreate;
      var u := ChatUsage(prompt, outputTokens, prompt + outputTokens, if cacheRead > 0 then Some(cacheRead) else None);
      out := MakeChunk(Delta("", "", "", []), Some(reason), Some(u));
    }

    method Process(ev: Option<Event>) returns (out: seq<Chunk>, done: bool)
      modifies this
      ensures ev.None? ==> View() == old(View()) && out == [] && !done
      ensures ev.Some? ==> DownResult(View(), out, done) == DownEvent(old(View()), ev.value)
    {
      out, done := [], false;
      if ev.None? {
        return;
      }
      match ev.value {
        case MessageStart(m) =>
          ReadMessage(m);
        case BlockStart(index, header) =>
          if header.Some? && header.value.ToolBlock? {
            var toolIdx := toolIndex;
            toolIndex := toolIndex + 1;
            blockToTool := blockToTool[index.GetOr(0) := toolIdx];
            out := MakeChunk(
              Delta("", "", "", [ToolCall(toolIdx, header.value.id, Some(FunctionCall(header.value.name, "")))]), None, None);
          }
        case BlockChange(index, delta) =>
          if delta.Some? {
            out := ProcessDelta(index, delta.value);
          }
        case BlockStop(_) =>
        case MessageDelta(stopReason, usage) =>
          if stopReason != "" {
            finishReason := ChatFinish(stopReason, toolIndex);
          }
          if usage.Some? {
            outputTokens := Max(outputTokens, usage.value.output);
          }
        case MessageStop =>
          out := FinishChunk();
          done := true;
        case OtherEvent =>
      }
    }

    method Finalize() returns (out: seq<Chunk>, done: bool)
      modifies this
      ensures DownResult(View(), out, done) == DownFinalize(old(View()))
      ensures old(finalized) ==> out == [] && !done
    {
      out, done := [], false;
      if finalized {
        return;
      }
      finalized := true;
      if !started {
        return;
      }
      out := FinishChunk();
      done := true;
    }
  }
}
