// The CopilotKit adapter endpoint: it forwards a CopilotKit request to the AG-UI
// agent and translates the agent's event stream into CopilotKit frames. The
// translation is a fold whose state is the running assistant text and the
// current message id. JSON encoding is a parameter (`dumps`), the agent's stream
// is a finite sequence of events with an optional failure after them.

module CopilotKitAdapter {
  import opened Wrappers
  import opened JsonValue
  import EventStream

  /** The AG-UI event types the adapter translates; every other type is ignored. */
  datatype EventType =
    | TextMessageStart
    | TextMessageContent
    | TextMessageEnd
    | ToolCallStart
    | RunCompleted
    | OtherEvent

  /** `event.get("type")` compared with the five names the adapter knows. */
  function TypeOf(event: Json): EventType {
    match Member(event, "type")
    case Some(Str(t)) =>
      if t == "TEXT_MESSAGE_START" then TextMessageStart
      else if t == "TEXT_MESSAGE_CONTENT" then TextMessageContent
      else if t == "TEXT_MESSAGE_END" then TextMessageEnd
      else if t == "TOOL_CALL_START" then ToolCallStart
      else if t == "RUN_COMPLETED" then RunCompleted
      else OtherEvent
    case _ => OtherEvent
  }

  /** `assistant_message` and `message_id`. */
  datatype State = State(text: string, messageId: Json)

  const Initial: State := State("", Null)

  /** A frame is a JSON payload, or the final `[DONE]` marker. */
  datatype Frame = Data(payload: Json) | Done

  function StartFrame(id: Json): Frame {
    Data(Obj([("type", Str("message_start")), ("id", id)]))
  }

  function ContentFrame(delta: Json): Frame {
    Data(Obj([("type", Str("content")), ("delta", delta)]))
  }

  function MessageFrame(content: string): Frame {
    Data(Obj([("type", Str("message")),
              ("message", Obj([("role", Str("assistant")), ("content", Str(content))]))]))
  }

  function ToolCallFrame(name: Json, args: Json): Frame {
    Data(Obj([("type", Str("tool_call")), ("name", name), ("args", args)]))
  }

  const DoneTypeFrame: Frame := Data(Obj([("type", Str("done"))]))

  function ErrorFrame(error: string): Frame {
    Data(Obj([("type", Str("error")), ("error", Str(error))]))
  }

  /** A frame of the form `ErrorFrame(e)` for some message `e`. */
  predicate IsErrorFrame(f: Frame) {
    f.Data? && f.payload.Obj? && |f.payload.fields| == 2 && f.payload.fields[0] == ("type", Str("error"))
    && f.payload.fields[1].0 == "error" && f.payload.fields[1].1.Str?
  }

  /** The `delta` of a content event, `""` when it has none. */
  function DeltaOf(event: Json): Json {
    Member(event, "delta").GetOr(Str(""))
  }

  /** The text a successful step adds to the running assistant text. */
  function TextDelta(event: Json): string {
    if TypeOf(event) == TextMessageContent && DeltaOf(event).Str? then DeltaOf(event).s else ""
  }

  /** The message of the exception raised by `v.get(...)` on a value that is not a dict. */
  function AttributeError(v: Json): string {
    "'" + PyTypeName(v) + "' object has no attribute 'get'"
  }

  /** The message of the exception raised by `assistant_message += delta` for a non-string delta. */
  function ConcatError(v: Json): string {
    "can only concatenate str (not \"" + PyTypeName(v) + "\") to str"
  }

  /** The event makes the translation raise: it is not a dict, or its delta is not a string. */
  predicate Raises(event: Json) {
    !event.Obj? || (TypeOf(event) == TextMessageContent && !DeltaOf(event).Str?)
  }

  datatype StepResult = Emitted(next: State, frame: Option<Frame>) | Raised(error: string)

  /** One iteration of the `async for` loop over the agent's events. */
  function Step(st: State, event: Json): (r: StepResult)
    ensures r.Raised? <==> Raises(event)
    ensures r.Emitted? ==> r.next.text == st.text + TextDelta(event)
    ensures r.Emitted? && r.frame.None? ==> r.next == st
    ensures r.Emitted? ==> r.frame != Some(Done) && (r.frame.Some? ==> !IsErrorFrame(r.frame.value))
  {
    if !event.Obj? then Raised(AttributeError(event))
    else
      match TypeOf(event)
      case TextMessageStart =>
        var id := Member(event, "messageId").GetOr(Null);
        Emitted(State(st.text, id), Some(StartFrame(id)))
      case TextMessageContent =>
        var delta := DeltaOf(event);
        if delta.Str? then Emitted(State(st.text + delta.s, st.messageId), Some(ContentFrame(delta)))
        else Raised(ConcatError(delta))
      case TextMessageEnd => Emitted(st, Some(MessageFrame(st.text)))
      case ToolCallStart =>
        var name := Member(event, "toolName").GetOr(Null);
        var args := Member(event, "arguments").GetOr(EmptyObject);
        Emitted(st, Some(ToolCallFrame(name, args)))
      case RunCompleted => Emitted(st, Some(DoneTypeFrame))
      case OtherEvent => Emitted(st, None)
  }

  /** The frame and the new state for each event type the adapter knows. */
  lemma StepTable(st: State, e: Json)
    requires e.Obj?
    ensures TypeOf(e) == TextMessageStart ==>
      var id := Member(e, "messageId").GetOr(Null);
      Step(st, e) == Emitted(st.(messageId := id), Some(StartFrame(id)))
    ensures TypeOf(e) == TextMessageContent && DeltaOf(e).Str? ==>
      Step(st, e) == Emitted(st.(text := st.text + DeltaOf(e).s), Some(ContentFrame(DeltaOf(e))))
    ensures Member(e, "delta").None? ==> DeltaOf(e) == Str("")
    ensures TypeOf(e) == TextMessageEnd ==> Step(st, e) == Emitted(st, Some(MessageFrame(st.text)))
    ensures TypeOf(e) == ToolCallStart ==>
      Step(st, e) == Emitted(st, Some(ToolCallFrame(Member(e, "toolName").GetOr(Null),
                                                    Member(e, "arguments").GetOr(EmptyObject))))
    ensures TypeOf(e) == RunCompleted ==> Step(st, e) == Emitted(st, Some(DoneTypeFrame))
    ensures TypeOf(e) == OtherEvent ==> Step(st, e) == Emitted(st, None)
  {
  }

  function FrameSeq(f: Option<Frame>): seq<Frame> {
    if f.Some? then [f.value] else []
  }

  /** Where the translation of a prefix of the events stands. */
  datatype Progress = Running(frames: seq<Frame>, state: State) | Stopped(frames: seq<Frame>, error: string)

  /** The frames yielded for `events`, and the state after them or the error that stopped them. */
  function RunEvents(events: seq<Json>): Progress
    decreases |events|
  {
    if events == [] then Running([], Initial)
    else
      match RunEvents(events[..|events| - 1])
      case Stopped(fs, e) => Stopped(fs, e)
      case Running(fs, st) =>
        match Step(st, events[|events| - 1])
        case Raised(e) => Stopped(fs, e)
        case Emitted(next, f) => Running(fs + FrameSeq(f), next)
  }

  /** What the agent's stream delivers: its events, then normal end or an exception. */
  datatype AgentStream = AgentStream(events: seq<Json>, failure: Option<string>)

  /** The whole output of `event_generator`. */
  function Generate(stream: AgentStream): seq<Frame> {
    match RunEvents(stream.events)
    case Stopped(fs, e) => fs + [ErrorFrame(e)]
    case Running(fs, _) =>
      fs + [if stream.failure.Some? then ErrorFrame(stream.failure.value) else Done]
  }

  lemma Prefix(events: seq<Json>, i: nat)
    requires i < |events|
    ensures events[..i + 1][..i] == events[..i] && events[..i + 1][i] == events[i]
  {
  }

  /** One more event after a prefix that is still running. */
  lemma RunEventsNext(events: seq<Json>, i: nat, fs: seq<Frame>, st: State)
    requires i < |events| && RunEvents(events[..i]) == Running(fs, st)
    ensures RunEvents(events[..i + 1]) == match Step(st, events[i])
      case Raised(e) => Stopped(fs, e)
      case Emitted(next, f) => Running(fs + FrameSeq(f), next)
  {
    Prefix(events, i);
  }

  /** Once stopped, later events change nothing. */
  lemma {:induction false} StoppedStays(events: seq<Json>, n: nat)
    requires n <= |events| && RunEvents(events[..n]).Stopped?
    ensures RunEvents(events) == RunEvents(events[..n])
    decreases |events| - n
  {
    if n < |events| {
      Prefix(events, n);
      StoppedStays(events, n + 1);
    } else {
      assert events[..n] == events;
    }
  }

  /** The body of the loop for one event, given `assistant_message` and `message_id`. */
  method HandleEvent(assistantMessage: string, messageId: Json, event: Json) returns (r: StepResult)
    ensures r == Step(State(assistantMessage, messageId), event)
  {
    if !event.Obj? {
      return Raised(AttributeError(event));
    }
    var eventType := TypeOf(event);
    if eventType == TextMessageStart {
      var id := Member(event, "messageId").GetOr(Null);
      r := Emitted(State(assistantMessage, id), Some(StartFrame(id)));
    } else if eventType == TextMessageContent {
      var delta := DeltaOf(event);
      if !delta.Str? {
        return Raised(ConcatError(delta));
      }
      r := Emitted(State(assistantMessage + delta.s, messageId), Some(ContentFrame(delta)));
    } else if eventType == TextMessageEnd {
      r := Emitted(State(assistantMessage, messageId), Some(MessageFrame(assistantMessage)));
    } else if eventType == ToolCallStart {
      var toolName := Member(event, "toolName").GetOr(Null);
      var toolArgs := Member(event, "arguments").GetOr(EmptyObject);
      r := Emitted(State(assistantMessage, messageId), Some(ToolCallFrame(toolName, toolArgs)));
    } else if eventType == RunCompleted {
      r := Emitted(State(assistantMessage, messageId), Some(DoneTypeFrame));
    } else {
      r := Emitted(State(assistantMessage, messageId), None);
    }
  }

  /** `event_generator`: the loop over the agent's events, then `[DONE]`, or one error frame. */
  method EventGenerator(stream: AgentStream) returns (frames: seq<Frame>)
    ensures frames == Generate(stream)
  {
    var events := stream.events;
    var assistantMessage := "";
    var messageId := Null;
    frames := [];
    var i := 0;
    while i < |events|
      invariant i <= |events|
      invariant RunEvents(events[..i]) == Running(frames, State(assistantMessage, messageId))
    {
      var event := events[i];
      RunEventsNext(events, i, frames, State(assistantMessage, messageId));
      var r := HandleEvent(assistantMessage, messageId, event);
      if r.Raised? {
        StoppedStays(events, i + 1);
        frames := frames + [ErrorFrame(r.error)];
        return;
      }
      assistantMessage, messageId := r.next.text, r.next.messageId;
      frames := frames + FrameSeq(r.frame);
      i := i + 1;
    }
    assert events[..i] == events;
    if stream.failure.Some? {
      frames := frames + [ErrorFrame(stream.failure.value)];
    } else {
      frames := frames + [Done];
    }
  }

  // ---- Properties of the translation ----

  /** The concatenation of the deltas of the content events. */
  function Deltas(events: seq<Json>): string
    decreases |events|
  {
    if events == [] then "" else Deltas(events[..|events| - 1]) + TextDelta(events[|events| - 1])
  }

  /** The translation stops exactly at an event that raises. */
  lemma {:induction false} RunningIff(events: seq<Json>)
    ensures RunEvents(events).Running? <==> forall i :: 0 <= i < |events| ==> !Raises(events[i])
    decreases |events|
  {
    if events != [] {
      var n := |events| - 1;
      var pre := events[..n];
      RunningIff(pre);
      RunningStep(events);
      if RunEvents(events).Running? {
        NoneRaiseExtends(events, pre);
      } else if RunEvents(pre).Running? {
        assert Raises(events[n]);
      } else {
        var i :| 0 <= i < n && Raises(pre[i]);
        assert pre[i] == events[i];
      }
    }
  }

  lemma NoneRaiseExtends(events: seq<Json>, pre: seq<Json>)
    requires events != [] && pre == events[..|events| - 1]
    requires forall i :: 0 <= i < |pre| ==> !Raises(pre[i])
    requires !Raises(events[|events| - 1])
    ensures forall i :: 0 <= i < |events| ==> !Raises(events[i])
  {
    forall i | 0 <= i < |events| ensures !Raises(events[i]) {
      if i < |pre| { assert pre[i] == events[i]; }
    }
  }

  lemma RunningStep(events: seq<Json>)
    requires events != []
    ensures RunEvents(events).Running?
      <==> RunEvents(events[..|events| - 1]).Running? && !Raises(events[|events| - 1])
  {
  }

  /** The running text is every delta since the stream began: START and END never reset it. */
  lemma {:induction false} TextIsDeltas(events: seq<Json>)
    requires RunEvents(events).Running?
    ensures RunEvents(events).state.text == Deltas(events)
    decreases |events|
  {
    if events != [] {
      TextIsDeltas(events[..|events| - 1]);
    }
  }

  /** A TEXT_MESSAGE_END frame carries the concatenation of every delta before it. */
  lemma EndCarriesDeltas(events: seq<Json>, i: nat)
    requires i < |events| && events[i].Obj? && TypeOf(events[i]) == TextMessageEnd
    requires RunEvents(events[..i]).Running?
    ensures RunEvents(events[..i + 1])
      == Running(RunEvents(events[..i]).frames + [MessageFrame(Deltas(events[..i]))],
                 RunEvents(events[..i]).state)
  {
    Prefix(events, i);
    TextIsDeltas(events[..i]);
  }

  /** Frames already yielded stay a prefix of the output: frames follow the event order. */
  lemma {:induction false} FramesInOrder(events: seq<Json>, n: nat)
    requires n <= |events|
    ensures RunEvents(events[..n]).frames <= RunEvents(events).frames
    decreases |events| - n
  {
    if n < |events| {
      FramesInOrder(events, n + 1);
      FramesGrow(events[..n + 1]);
      assert events[..n + 1][..n] == events[..n];
    } else {
      assert events[..n] == events;
    }
  }

  /** One more event keeps the frames yielded so far. */
  lemma FramesGrow(events: seq<Json>)
    requires |events| > 0
    ensures RunEvents(events[..|events| - 1]).frames <= RunEvents(events).frames
  {
  }

  /** The frame of one event, given only the text of the deltas before it. */
  function FrameFor(event: Json, before: string): Option<Frame> {
    match TypeOf(event)
    case TextMessageStart => Some(StartFrame(Member(event, "messageId").GetOr(Null)))
    case TextMessageContent => Some(ContentFrame(DeltaOf(event)))
    case TextMessageEnd => Some(MessageFrame(before))
    case ToolCallStart =>
      Some(ToolCallFrame(Member(event, "toolName").GetOr(Null), Member(event, "arguments").GetOr(EmptyObject)))
    case RunCompleted => Some(DoneTypeFrame)
    case OtherEvent => None
  }

  /** Event by event, with no state but the deltas so far. */
  function FramesOf(events: seq<Json>): seq<Frame>
    decreases |events|
  {
    if events == [] then []
    else
      var n := |events| - 1;
      FramesOf(events[..n]) + FrameSeq(FrameFor(events[n], Deltas(events[..n])))
  }

  /**
   * The stateful fold agrees with the per-event reading: each event contributes its own
   * frame in input order, and the message id held in the state never affects the output.
   */
  lemma {:induction false} FoldIsPerEvent(events: seq<Json>)
    requires RunEvents(events).Running?
    ensures RunEvents(events).frames == FramesOf(events)
    decreases |events|
  {
    if events != [] {
      var n := |events| - 1;
      FoldIsPerEvent(events[..n]);
      TextIsDeltas(events[..n]);
      StepFrame(RunEvents(events[..n]).state, events[n]);
    }
  }

  /** The frame of a step depends only on the event and the text so far. */
  lemma StepFrame(st: State, event: Json)
    ensures Step(st, event).Emitted? ==> Step(st, event).frame == FrameFor(event, st.text)
  {
  }

  /** Normal termination: the frames of the events, then exactly one `[DONE]`, last. */
  lemma NormalTermination(stream: AgentStream)
    requires stream.failure.None?
    requires forall i :: 0 <= i < |stream.events| ==> !Raises(stream.events[i])
    ensures Generate(stream) == FramesOf(stream.events) + [Done]
    ensures Done !in FramesOf(stream.events)
  {
    RunningIff(stream.events);
    FoldIsPerEvent(stream.events);
    NoDoneYielded(stream.events);
  }

  /** Steps never yield the `[DONE]` marker or an error frame. */
  lemma {:induction false} NoDoneYielded(events: seq<Json>)
    ensures Done !in RunEvents(events).frames
    ensures forall i :: 0 <= i < |RunEvents(events).frames| ==> !IsErrorFrame(RunEvents(events).frames[i])
    decreases |events|
  {
    if events != [] {
      NoDoneYielded(events[..|events| - 1]);
    }
  }

  /** A failure of the agent or of the translation ends the output with one error frame and no `[DONE]`. */
  lemma FailureTermination(stream: AgentStream)
    requires stream.failure.Some? || exists i :: 0 <= i < |stream.events| && Raises(stream.events[i])
    ensures Done !in Generate(stream)
    ensures IsErrorFrame(Generate(stream)[|Generate(stream)| - 1])
    ensures forall i :: 0 <= i < |Generate(stream)| - 1 ==> !IsErrorFrame(Generate(stream)[i])
  {
    NoDoneYielded(stream.events);
    var fs := RunEvents(stream.events).frames;
    var g := Generate(stream);
    assert g[..|g| - 1] == fs;
    assert forall i :: 0 <= i < |g| - 1 ==> g[i] == fs[i];
    if RunEvents(stream.events).Running? {
      RunningIff(stream.events);
    }
  }

  /** The event-stream text of the output, with `dumps` as the JSON encoder. */
  function Payload(f: Frame, dumps: Json -> string): string {
    match f
    case Data(p) => dumps(p)
    case Done => "[DONE]"
  }

  function Payloads(frames: seq<Frame>, dumps: Json -> string): (r: seq<string>)
    ensures |r| == |frames| && forall i :: 0 <= i < |frames| ==> r[i] == Payload(frames[i], dumps)
  {
    seq(|frames|, i requires 0 <= i < |frames| => Payload(frames[i], dumps))
  }

  /** Every frame goes on the wire as `data: <payload>` and a blank line. */
  function WireText(frames: seq<Frame>, dumps: Json -> string): string {
    EventStream.StreamText(Payloads(frames, dumps))
  }

  /** A client of the endpoint receives one message per frame with that frame's payload. */
  lemma ClientReceives(frames: seq<Frame>, dumps: Json -> string)
    requires forall i :: 0 <= i < |frames| ==> '\n' !in Payload(frames[i], dumps)
    ensures EventStream.Receive(WireText(frames, dumps)) == Payloads(frames, dumps)
  {
    EventStream.ReceiveFrames(Payloads(frames, dumps));
  }

  // ---- The endpoint around the generator ----

  /** The request as `request.json()` leaves it: a decoded body, or the decoding error. */
  datatype Request = Unreadable(error: string) | Body(body: Json)

  /** Values that Python's `len` accepts. */
  predicate HasLen(v: Json) {
    v.Str? || v.Arr? || v.Obj?
  }

  function LenError(v: Json): string {
    "object of type '" + PyTypeName(v) + "' has no len()"
  }

  /** The AG-UI request built from a CopilotKit body. */
  function AguiRequest(body: Json): Json {
    Obj([("messages", Member(body, "messages").GetOr(EmptyArray)), ("threadId", Member(body, "threadId").GetOr(Null))])
  }

  /** `copilotkit_adapter_endpoint`; `agent` gives the stream the agent produces for a request. */
  function Endpoint(request: Request, agent: Json -> AgentStream): (r: seq<Frame>)
    ensures r != []
  {
    match request
    case Unreadable(e) => [ErrorFrame(e)]
    case Body(body) =>
      if !body.Obj? then [ErrorFrame(AttributeError(body))]
      else
        var messages := Member(body, "messages").GetOr(EmptyArray);
        if !HasLen(messages) then [ErrorFrame(LenError(messages))]
        else Generate(agent(AguiRequest(body)))
  }

  /** A failure before streaming gives a stream of exactly one error frame. */
  lemma EndpointFailsEarly(request: Request, agent: Json -> AgentStream)
    requires request.Unreadable? || !request.body.Obj?
      || !HasLen(Member(request.body, "messages").GetOr(EmptyArray))
    ensures |Endpoint(request, agent)| == 1 && IsErrorFrame(Endpoint(request, agent)[0])
  {
  }

  /** Otherwise the agent gets the body's messages (default `[]`) and thread id (default null). */
  lemma EndpointForwards(body: Json, agent: Json -> AgentStream)
    requires body.Obj? && HasLen(Member(body, "messages").GetOr(EmptyArray))
    ensures Endpoint(Body(body), agent) == Generate(agent(AguiRequest(body)))
    ensures Member(AguiRequest(body), "messages") == Some(Member(body, "messages").GetOr(EmptyArray))
    ensures Member(AguiRequest(body), "threadId") == Some(Member(body, "threadId").GetOr(Null))
  {
    var fields := AguiRequest(body).fields;
    assert "threadId" != "messages" by {
      assert "threadId"[0] != "messages"[0];
    }
    assert fields[..1] == [fields[0]];
  }
}
