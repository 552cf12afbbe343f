// The chat page of the web UI: its conversation state, the input guard of
// `sendMessage`, and the minimal server-sent-events reader that accumulates the
// assistant's TEXT_MESSAGE_CONTENT deltas. The reader works chunk by chunk: each
// chunk is split into lines on its own, so a line split across two chunks is lost.
// The placeholder's and each delta's `setMessages` updater read `currentAgentName` and
// `assistantMessage` when React runs them, which is at the next render of the page; so
// the label on the message depends on when the page renders.
// The server, `JSON.parse`, JavaScript's string conversion and the moments React
// renders are parameters.

module ChatPage {
  import opened Wrappers
  import opened Text
  import opened JsonValue

  datatype Message = Message(role: string, content: string, agentName: Option<string>)

  const Greeting: Message := Message("assistant",
    "Hi! \U{1F44B} I'm your AG-UI assistant with code interpreter capabilities. I can help you with weather, web search, calculations, data analytics, and visualizations. What would you like to explore?",
    None)

  const ErrorReply: Message := Message("assistant", "Sorry, there was an error connecting to the server.", None)

  /** A conversation turn as it is posted to the server. */
  type Turn = (string, string)

  function Turns(ms: seq<Message>): (r: seq<Turn>)
    ensures |r| == |ms| && forall i :: 0 <= i < |ms| ==> r[i] == (ms[i].role, ms[i].content)
  {
    seq(|ms|, i requires 0 <= i < |ms| => (ms[i].role, ms[i].content))
  }

  /**
   * How the request went: `fetch` failed, the response has no body, or the chunks read.
   * `renders[i]` says whether the page renders while the reader awaits chunk `i`; the
   * page renders only while the reader waits, so this is the whole schedule.
   */
  datatype Reply = FetchFailed | NoBody | Body(chunks: seq<string>, renders: seq<bool>, readFailed: bool)

  /** JavaScript truthiness of a parsed JSON value. */
  predicate JsTruthy(j: Json) {
    match j
    case Null => false
    case Bool(b) => b
    case Int(i) => i != 0
    case Real(r) => r != 0.0
    case Str(s) => s != ""
    case Arr(_) => true
    case Obj(_) => true
  }

  /** `assistantMessage += delta`: a string is appended as it is, other values as `toText` renders them. */
  function DeltaText(delta: Json, toText: Json -> string): string {
    if delta.Str? then delta.s else toText(delta)
  }

  /**
   * The reader's variables and what the page shows. `text` and `current` are
   * `assistantMessage` and `currentAgentName`; `shownText` and `shownAgent` are what the
   * streamed message holds, as the latest `setMessages` updater to run wrote it. An updater
   * called while the reader runs waits for the next render of the page, and reads the two
   * variables then. `placed`: the placeholder's updater has run, so the message is in the
   * list. `pending`: an updater waits for a render.
   */
  datatype Reading = Reading(text: string, current: string, shownText: string, shownAgent: string,
                             placed: bool, pending: bool)

  /** Before the first chunk: the placeholder's updater waits for a render. */
  const Start: Reading := Reading("", "OrchestratorAgent", "", "", false, true)

  predicate IsContent(json: Json) {
    Member(json, "type") == Some(Str("TEXT_MESSAGE_CONTENT"))
    && Member(json, "delta").Some? && JsTruthy(Member(json, "delta").value)
  }

  predicate IsAssistantStart(json: Json) {
    Member(json, "type") == Some(Str("TEXT_MESSAGE_START")) && Member(json, "role") == Some(Str("assistant"))
  }

  /** The JSON value carried by a line, if the reader acts on it at all. */
  function LineEvent(line: string, parse: string -> Option<Json>): Option<Json> {
    if "data: " <= line && line[6..] != "[DONE]" then parse(line[6..]) else None
  }

  /** What one line asks of the reader: nothing, or an event that may start a message and may carry a delta. */
  datatype Action = Skip | Event(start: bool, delta: Option<string>)

  /**
   * The reading of one line: a `data: ` line other than `[DONE]` whose payload parses.
   * A parsed value that is not an object never matches a type test (for `null`, reading
   * `json.type` throws and the `catch` skips the line, which comes to the same).
   */
  function Classify(line: string, parse: string -> Option<Json>, toText: Json -> string): Action {
    match LineEvent(line, parse)
    case None => Skip
    case Some(json) =>
      Event(IsAssistantStart(json),
            if IsContent(json) then Some(DeltaText(Member(json, "delta").value, toText)) else None)
  }

  function LineClassifier(parse: string -> Option<Json>, toText: Json -> string): string -> Action {
    line => Classify(line, parse, toText)
  }

  /**
   * The effect of one line's action. A start only renames the current agent. A delta is
   * appended to the text, and its updater waits for the next render.
   */
  function Apply(st: Reading, a: Action): Reading {
    match a
    case Skip => st
    case Event(start, delta) =>
      var current := if start then "Assistant" else st.current;
      if delta.None? then st.(current := current)
      else st.(text := st.text + delta.value, current := current, pending := true)
  }

  /**
   * A render: the waiting updaters run in order and read the variables as they are now.
   * The placeholder's adds the message; each content updater writes text and name to it.
   */
  function Flush(st: Reading): Reading {
    if st.pending then st.(shownText := st.text, shownAgent := st.current, placed := true, pending := false)
    else st
  }

  /** What can happen next while a stream is read: the page renders, or one line is read. */
  datatype Step = Render | Line(action: Action)

  function Advance(st: Reading, s: Step): Reading {
    match s
    case Render => Flush(st)
    case Line(a) => Apply(st, a)
  }

  function Run(st: Reading, steps: seq<Step>): Reading
    decreases |steps|
  {
    if steps == [] then st else Advance(Run(st, steps[..|steps| - 1]), steps[|steps| - 1])
  }

  function LineSteps(lines: seq<string>, classify: string -> Action): (r: seq<Step>)
    ensures |r| == |lines| && forall i :: 0 <= i < |lines| ==> r[i] == Line(classify(lines[i]))
  {
    seq(|lines|, i requires 0 <= i < |lines| => Line(classify(lines[i])))
  }

  /** Whether the page renders while the reader awaits chunk `i`. */
  function RendersBefore(renders: seq<bool>, i: nat): bool {
    i < |renders| && renders[i]
  }

  /** One chunk: the render that falls while it is awaited, if any, then its lines. */
  function ChunkSteps(chunk: string, render: bool, classify: string -> Action): seq<Step> {
    (if render then [Render] else []) + LineSteps(Split(chunk, '\n'), classify)
  }

  /** The state after one more chunk: the render awaiting it, if any, then its lines. */
  function NextState(st: Reading, render: bool, chunk: string, classify: string -> Action): Reading {
    Run(if render then Flush(st) else st, LineSteps(Split(chunk, '\n'), classify))
  }

  /** The steps of reading `chunks` under the schedule `renders`. */
  function StreamSteps(chunks: seq<string>, renders: seq<bool>, classify: string -> Action): seq<Step>
    decreases |chunks|
  {
    if chunks == [] then []
    else
      var n := |chunks| - 1;
      StreamSteps(chunks[..n], renders, classify) + ChunkSteps(chunks[n], RendersBefore(renders, n), classify)
  }

  /** The reader's state after `chunks`, each split into lines on its own. */
  function ReadChunks(chunks: seq<string>, renders: seq<bool>, classify: string -> Action): Reading {
    Run(Start, StreamSteps(chunks, renders, classify))
  }

  /** The state once the stream has ended and the page has rendered what still waited. */
  function Final(chunks: seq<string>, renders: seq<bool>, classify: string -> Action): Reading {
    Flush(ReadChunks(chunks, renders, classify))
  }

  /** The assistant message as the last message shows it in state `st`. */
  function Shown(st: Reading): Message {
    Message("assistant", st.shownText, Some(st.shownAgent))
  }

  /** What the streamed message adds to the list in state `st`: nothing before the placeholder's updater has run. */
  function Visible(st: Reading): seq<Message> {
    if st.placed then [Shown(st)] else []
  }

  /** The messages a reply adds after the user's message. */
  function Outcome(reply: Reply, parse: string -> Option<Json>, toText: Json -> string): seq<Message> {
    match reply
    case FetchFailed => [ErrorReply]
    case NoBody => []
    case Body(chunks, renders, failed) =>
      [Shown(Final(chunks, renders, LineClassifier(parse, toText)))] + (if failed then [ErrorReply] else [])
  }

  lemma Append2(ms: seq<Message>, a: Message, b: Message)
    ensures ms + [a] + [b] == ms + ([a] + [b])
  {
  }

  lemma LinesPrefix(lines: seq<string>, j: nat)
    requires j < |lines|
    ensures lines[..j + 1][..j] == lines[..j] && lines[..j + 1][j] == lines[j]
  {
  }

  lemma {:induction false} RunAppend(st: Reading, a: seq<Step>, b: seq<Step>)
    ensures Run(st, a + b) == Run(Run(st, a), b)
    decreases |b|
  {
    if b == [] {
      assert a + b == a;
    } else {
      var n := |b| - 1;
      assert (a + b)[..|a + b| - 1] == a + b[..n];
      RunAppend(st, a, b[..n]);
    }
  }

  /** Reading one more line of a chunk. */
  lemma RunLine(st: Reading, lines: seq<string>, j: nat, classify: string -> Action)
    requires j < |lines|
    ensures Run(st, LineSteps(lines[..j + 1], classify)) == Apply(Run(st, LineSteps(lines[..j], classify)), classify(lines[j]))
  {
    var steps := LineSteps(lines[..j + 1], classify);
    assert steps[..|steps| - 1] == LineSteps(lines[..j], classify);
  }

  /** Reading one more chunk: the render awaiting it, if any, then its lines. */
  lemma ReadNext(chunks: seq<string>, renders: seq<bool>, classify: string -> Action, i: nat)
    requires i < |chunks|
    ensures ReadChunks(chunks[..i + 1], renders, classify)
      == NextState(ReadChunks(chunks[..i], renders, classify), RendersBefore(renders, i), chunks[i], classify)
  {
    var pre := StreamSteps(chunks[..i], renders, classify);
    var lines := LineSteps(Split(chunks[i], '\n'), classify);
    LinesPrefix(chunks, i);
    assert StreamSteps(chunks[..i + 1], renders, classify)
      == pre + ChunkSteps(chunks[i], RendersBefore(renders, i), classify);
    RunAppend(Start, pre, ChunkSteps(chunks[i], RendersBefore(renders, i), classify));
    if RendersBefore(renders, i) {
      RunAppend(Run(Start, pre), [Render], lines);
      assert [Render][..0] == [];
    } else {
      assert [] + lines == lines;
    }
  }

  /** The page component's state. */
  class Home {
    var messages: seq<Message>
    var input: string
    var isLoading: bool

    constructor()
      ensures messages == [Greeting] && input == "" && !isLoading
    {
      messages := [Greeting];
      input := "";
      isLoading := false;
    }

    /** A sample question fills the input, unless a reply is still loading. */
    method HandleQuestionClick(question: string)
      modifies this
      ensures input == if old(isLoading) then old(input) else question
      ensures messages == old(messages) && isLoading == old(isLoading)
    {
      if isLoading {
        return;
      }
      input := question;
    }

    /**
     * `sendMessage`: a blank input, or any input while loading, changes nothing;
     * otherwise the trimmed input is appended as a user message, the input is cleared,
     * the whole conversation is posted, and the reply's messages follow.
     */
    method SendMessage(server: seq<Turn> -> Reply, parse: string -> Option<Json>, toText: Json -> string)
      modifies this
      ensures JsTrim(old(input)) == "" || old(isLoading) ==>
        messages == old(messages) && input == old(input) && isLoading == old(isLoading)
      ensures JsTrim(old(input)) != "" && !old(isLoading) ==>
        var history := old(messages) + [Message("user", JsTrim(old(input)), None)];
        input == "" && !isLoading && messages == history + Outcome(server(Turns(history)), parse, toText)
    {
      if JsTrim(input) == "" || isLoading {
        return;
      }
      var userMessage := JsTrim(input);
      input := "";
      var updatedMessages := messages + [Message("user", userMessage, None)];
      messages := updatedMessages;
      isLoading := true;
      Exchange(server, parse, toText);
    }

    /** The `try`/`finally` part of `sendMessage`: post the conversation and show the reply. */
    method Exchange(server: seq<Turn> -> Reply, parse: string -> Option<Json>, toText: Json -> string)
      modifies this
      ensures messages == old(messages) + Outcome(server(Turns(old(messages))), parse, toText)
      ensures input == old(input) && !isLoading
    {
      var updatedMessages := messages;
      var reply := server(Turns(updatedMessages));
      if reply.FetchFailed? {
        messages := messages + [ErrorReply];
      } else if reply.Body? {
        ReadStream(reply.chunks, reply.renders, LineClassifier(parse, toText));
        ghost var shown := Shown(Final(reply.chunks, reply.renders, LineClassifier(parse, toText)));
        if reply.readFailed {
          messages := messages + [ErrorReply];
          Append2(updatedMessages, shown, ErrorReply);
        } else {
          assert [shown] + [] == [shown];
        }
      }
      isLoading := false;
    }

    /**
     * The placeholder's `setMessages`, the `while (true)` loop over the chunks the reader
     * delivers, and the render after it. `placed` and `pending` say whether the
     * placeholder's updater has run and whether any updater still waits for a render.
     */
    method ReadStream(chunks: seq<string>, renders: seq<bool>, classify: string -> Action)
      modifies this
      ensures messages == old(messages) + [Shown(Final(chunks, renders, classify))]
      ensures input == old(input) && isLoading == old(isLoading)
    {
      var prefix := messages;
      assert messages == prefix + Visible(Start);
      var assistantMessage := "";
      var currentAgentName := "OrchestratorAgent";
      var placed, pending := false, true;
      ghost var st := Start;
      var i := 0;
      while i < |chunks|
        invariant i <= |chunks| && st == ReadChunks(chunks[..i], renders, classify)
        invariant st.text == assistantMessage && st.current == currentAgentName
        invariant st.placed == placed && st.pending == pending && (placed || pending)
        invariant messages == prefix + Visible(st)
        invariant input == old(input) && isLoading == old(isLoading)
      {
        ReadNext(chunks, renders, classify, i);
        assistantMessage, currentAgentName, placed, pending, st :=
          ReadChunk(RendersBefore(renders, i), chunks[i], classify, prefix,
                    st, assistantMessage, currentAgentName, placed, pending);
        assert st == ReadChunks(chunks[..i + 1], renders, classify);
        assert st.text == assistantMessage && st.current == currentAgentName;
        assert st.placed == placed && st.pending == pending && (placed || pending);
        assert messages == prefix + Visible(st);
        i := i + 1;
      }
      assert chunks[..i] == chunks;
      RunUpdaters(prefix, st, assistantMessage, currentAgentName, placed, pending);
    }

    /**
     * A render: the waiting updaters run in order. The placeholder's, if it still waits,
     * appends the assistant message with the current name; each waiting content updater
     * writes the current text and name to the last message.
     */
    method RunUpdaters(ghost prefix: seq<Message>, ghost st: Reading, text: string, current: string,
                       placed: bool, pending: bool)
      requires st.text == text && st.current == current && st.placed == placed && st.pending == pending
      requires (placed || pending) && messages == prefix + Visible(st)
      modifies this
      ensures messages == prefix + [Shown(Flush(st))]
      ensures input == old(input) && isLoading == old(isLoading)
    {
      if pending {
        if !placed {
          messages := messages + [Message("assistant", "", Some(current))];
        }
        var last := |messages| - 1;
        assert messages[..last] == prefix;
        messages := messages[..last] + [messages[last].(content := text, agentName := Some(current))];
      }
    }

    /**
     * One chunk: the render that falls while the reader awaits it, if `rendered`, then the
     * split into lines and the `for` loop over them. A line only changes the variables;
     * a delta's updater waits for the next render.
     */
    method ReadChunk(rendered: bool, chunk: string, classify: string -> Action, prefix: seq<Message>,
                     ghost before: Reading, text0: string, current0: string, placed0: bool, pending0: bool)
      returns (assistantMessage: string, currentAgentName: string, placed: bool, pending: bool, ghost after: Reading)
      requires before.text == text0 && before.current == current0
      requires before.placed == placed0 && before.pending == pending0 && (placed0 || pending0)
      requires messages == prefix + Visible(before)
      modifies this
      ensures after == NextState(before, rendered, chunk, classify)
      ensures after.text == assistantMessage && after.current == currentAgentName
      ensures after.placed == placed && after.pending == pending && (placed || pending)
      ensures messages == prefix + Visible(after)
      ensures input == old(input) && isLoading == old(isLoading)
    {
      assistantMessage, currentAgentName, placed, pending := text0, current0, placed0, pending0;
      ghost var first := before;
      if rendered {
        RunUpdaters(prefix, before, assistantMessage, currentAgentName, placed, pending);
        placed, pending := true, false;
        first := Flush(before);
      }
      var lines := Split(chunk, '\n');
      after := first;
      var j := 0;
      while j < |lines|
        invariant j <= |lines| && after == Run(first, LineSteps(lines[..j], classify))
        invariant after.text == assistantMessage && after.current == currentAgentName
        invariant after.placed == placed && after.pending == pending && (placed || pending)
        invariant messages == prefix + Visible(after)
        invariant input == old(input) && isLoading == old(isLoading)
      {
        RunLine(first, lines, j, classify);
        var action := classify(lines[j]);
        if action.Event? {
          if action.start {
            currentAgentName := "Assistant";
          }
          if action.delta.Some? {
            assistantMessage := assistantMessage + action.delta.value;
            pending := true;
          }
        }
        after := Apply(after, action);
        j := j + 1;
      }
      assert lines[..j] == lines;
    }
  }

  // ---- Properties of the reader ----

  /** Lines that do not start with `data: `, `[DONE]`, and unparsable data change nothing. */
  lemma IgnoredLine(line: string, parse: string -> Option<Json>, toText: Json -> string)
    requires !("data: " <= line) || line[6..] == "[DONE]" || parse(line[6..]).None?
    ensures Classify(line, parse, toText) == Skip
    ensures forall st :: Apply(st, Classify(line, parse, toText)) == st
  {
  }

  /** The text an action adds. */
  function ActionDelta(a: Action): string {
    if a.Event? && a.delta.Some? then a.delta.value else ""
  }

  /** The deltas of `lines`, concatenated. */
  function LinesDeltas(lines: seq<string>, classify: string -> Action): string
    decreases |lines|
  {
    if lines == [] then ""
    else LinesDeltas(lines[..|lines| - 1], classify) + ActionDelta(classify(lines[|lines| - 1]))
  }

  /** The deltas of every line of every chunk, concatenated. */
  function ChunksDeltas(chunks: seq<string>, classify: string -> Action): string
    decreases |chunks|
  {
    if chunks == [] then ""
    else ChunksDeltas(chunks[..|chunks| - 1], classify) + LinesDeltas(Split(chunks[|chunks| - 1], '\n'), classify)
  }

  lemma {:induction false} ReadLinesText(st: Reading, lines: seq<string>, classify: string -> Action)
    ensures Run(st, LineSteps(lines, classify)).text == st.text + LinesDeltas(lines, classify)
    decreases |lines|
  {
    if lines != [] {
      var n := |lines| - 1;
      ReadLinesText(st, lines[..n], classify);
      RunLine(st, lines, n, classify);
      assert lines[..n + 1] == lines;
    }
  }

  /** Whatever the renders, the reader's text is the concatenation of the deltas. */
  lemma {:induction false} StreamText(chunks: seq<string>, renders: seq<bool>, classify: string -> Action)
    ensures ReadChunks(chunks, renders, classify).text == ChunksDeltas(chunks, classify)
    decreases |chunks|
  {
    if chunks != [] {
      var n := |chunks| - 1;
      StreamText(chunks[..n], renders, classify);
      ReadNext(chunks, renders, classify, n);
      var st := ReadChunks(chunks[..n], renders, classify);
      ReadLinesText(if RendersBefore(renders, n) then Flush(st) else st, Split(chunks[n], '\n'), classify);
      assert chunks[..n + 1] == chunks;
    }
  }

  /** A line that starts an assistant message. */
  predicate Starts(s: Step) {
    s.Line? && s.action.Event? && s.action.start
  }

  /** A line that carries a delta. */
  predicate Delivers(s: Step) {
    s.Line? && s.action.Event? && s.action.delta.Some?
  }

  /** The agent name after `steps`: "Assistant" once an assistant start has been read. */
  function NameAt(steps: seq<Step>): string {
    if exists i :: 0 <= i < |steps| && Starts(steps[i]) then "Assistant" else "OrchestratorAgent"
  }

  /** The position of the last line that carries a delta, or -1 when none does. */
  function LastDelta(steps: seq<Step>): (r: int)
    ensures -1 <= r < |steps|
    ensures r >= 0 ==> Delivers(steps[r])
    ensures forall i :: r < i < |steps| ==> !Delivers(steps[i])
    decreases |steps|
  {
    if steps == [] then -1
    else if Delivers(steps[|steps| - 1]) then |steps| - 1
    else LastDelta(steps[..|steps| - 1])
  }

  /** Position `k` is a render, or the render after the stream when `k` is past the last step. */
  predicate RenderPoint(steps: seq<Step>, k: nat) {
    k == |steps| || (k < |steps| && steps[k].Render?)
  }

  /**
   * What the state after `steps` satisfies: the current name reflects every start read; an
   * updater waits until the placeholder's has run; and unless an updater waits, the message
   * shows the whole text and the name as it stood at a render after the last delta.
   */
  ghost predicate Tracks(steps: seq<Step>, st: Reading) {
    && st.current == NameAt(steps)
    && (st.placed || st.pending)
    && (!st.pending ==> st.shownText == st.text)
    && (!st.pending ==>
          exists k :: LastDelta(steps) < k < |steps| && steps[k].Render? && st.shownAgent == NameAt(steps[..k]))
  }

  lemma NameStep(pre: seq<Step>, s: Step)
    ensures NameAt(pre + [s]) == if Starts(s) then "Assistant" else NameAt(pre)
  {
    var steps := pre + [s];
    assert steps[|pre|] == s;
    assert forall i :: 0 <= i < |pre| ==> steps[i] == pre[i];
  }

  lemma {:induction false} RunTracks(steps: seq<Step>)
    ensures Tracks(steps, Run(Start, steps))
    decreases |steps|
  {
    if steps != [] {
      var n := |steps| - 1;
      var pre, s := steps[..n], steps[n];
      assert steps == pre + [s];
      RunTracks(pre);
      NameStep(pre, s);
      TrackStep(pre, s, Run(Start, pre));
    }
  }

  lemma TrackStep(pre: seq<Step>, s: Step, st: Reading)
    requires Tracks(pre, st)
    ensures Tracks(pre + [s], Advance(st, s))
  {
    if s.Render? {
      TrackRender(pre, st);
    } else {
      TrackLine(pre, s, st);
    }
  }

  lemma TrackRender(pre: seq<Step>, st: Reading)
    requires Tracks(pre, st)
    ensures Tracks(pre + [Render], Flush(st))
  {
    var steps := pre + [Render];
    NameStep(pre, Render);
    assert steps[..|steps| - 1] == pre;
    assert LastDelta(steps) == LastDelta(pre);
    if st.pending {
      assert steps[..|pre|] == pre && steps[|pre|].Render?;
    } else {
      var k :| LastDelta(pre) < k < |pre| && pre[k].Render? && st.shownAgent == NameAt(pre[..k]);
      assert steps[..k] == pre[..k] && steps[k] == pre[k];
    }
  }

  lemma TrackLine(pre: seq<Step>, s: Step, st: Reading)
    requires s.Line? && Tracks(pre, st)
    ensures Tracks(pre + [s], Apply(st, s.action))
  {
    var steps := pre + [s];
    NameStep(pre, s);
    assert steps[..|steps| - 1] == pre;
    if !Delivers(s) && !st.pending {
      assert LastDelta(steps) == LastDelta(pre);
      var k :| LastDelta(pre) < k < |pre| && pre[k].Render? && st.shownAgent == NameAt(pre[..k]);
      assert steps[..k] == pre[..k] && steps[k] == pre[k];
    }
  }

  /**
   * The shown assistant message is the concatenation of the deltas received, in order,
   * whenever the page renders: nothing else ever adds to it.
   */
  lemma ShownIsDeltas(chunks: seq<string>, renders: seq<bool>, classify: string -> Action)
    ensures Shown(Final(chunks, renders, classify)).content == ChunksDeltas(chunks, classify)
  {
    StreamText(chunks, renders, classify);
    RunTracks(StreamSteps(chunks, renders, classify));
  }

  /** A line adds a delta exactly when it is a content event with a truthy delta. */
  lemma ContentLines(line: string, parse: string -> Option<Json>, toText: Json -> string)
    ensures ActionDelta(Classify(line, parse, toText)) ==
      match LineEvent(line, parse)
      case Some(json) => if IsContent(json) then DeltaText(Member(json, "delta").value, toText) else ""
      case None => ""
  {
  }

  /** `agent` is the name as it stood at a render after the last delta, or at the render after the stream. */
  ghost predicate NamedAtRender(steps: seq<Step>, agent: string) {
    exists k: nat :: LastDelta(steps) < k <= |steps| && RenderPoint(steps, k) && agent == NameAt(steps[..k])
  }

  /**
   * The agent name on the streamed message is the name as it stood at a render after the
   * last delta, or at the render after the stream. Which render that is depends on when the
   * page renders; with no delta at all, it is the render that ran the placeholder's updater.
   */
  lemma AgentShown(chunks: seq<string>, renders: seq<bool>, classify: string -> Action)
    ensures NamedAtRender(StreamSteps(chunks, renders, classify), Final(chunks, renders, classify).shownAgent)
  {
    var steps := StreamSteps(chunks, renders, classify);
    RunTracks(steps);
    FlushShows(steps, Run(Start, steps));
  }

  /** The render after the stream leaves the name of a render after the last delta. */
  lemma FlushShows(steps: seq<Step>, st: Reading)
    requires Tracks(steps, st)
    ensures NamedAtRender(steps, Flush(st).shownAgent)
  {
    if st.pending {
      assert steps[..|steps|] == steps && RenderPoint(steps, |steps|);
    } else {
      var k :| LastDelta(steps) < k < |steps| && steps[k].Render? && st.shownAgent == NameAt(steps[..k]);
      assert RenderPoint(steps, k);
    }
  }

  /** The name after a prefix is the final name when no start follows the prefix. */
  lemma PrefixName(steps: seq<Step>, k: nat)
    requires k <= |steps|
    requires forall i :: k <= i < |steps| ==> !Starts(steps[i])
    ensures NameAt(steps[..k]) == NameAt(steps)
  {
    assert forall i :: 0 <= i < k ==> steps[..k][i] == steps[i];
  }

  /** No assistant start follows the last delta. */
  predicate NoLateStart(steps: seq<Step>) {
    forall i :: LastDelta(steps) < i < |steps| ==> !Starts(steps[i])
  }

  /** When no start follows the last delta, every schedule shows the final agent name. */
  lemma AgentSettled(chunks: seq<string>, renders: seq<bool>, classify: string -> Action)
    requires NoLateStart(StreamSteps(chunks, renders, classify))
    ensures Final(chunks, renders, classify).shownAgent == NameAt(StreamSteps(chunks, renders, classify))
  {
    var steps := StreamSteps(chunks, renders, classify);
    AgentShown(chunks, renders, classify);
    var k: nat :| LastDelta(steps) < k <= |steps| && RenderPoint(steps, k)
      && Final(chunks, renders, classify).shownAgent == NameAt(steps[..k]);
    PrefixName(steps, k);
  }

  lemma {:induction false} NoRenderSteps(chunks: seq<string>, classify: string -> Action)
    ensures forall i :: 0 <= i < |StreamSteps(chunks, [], classify)| ==> StreamSteps(chunks, [], classify)[i].Line?
    decreases |chunks|
  {
    if chunks != [] {
      NoRenderSteps(chunks[..|chunks| - 1], classify);
    }
  }

  /** Without a render, the placeholder's updater still waits. */
  lemma {:induction false} UnrenderedRun(steps: seq<Step>)
    requires forall i :: 0 <= i < |steps| ==> steps[i].Line?
    ensures Run(Start, steps).pending && !Run(Start, steps).placed
    decreases |steps|
  {
    if steps != [] {
      UnrenderedRun(steps[..|steps| - 1]);
    }
  }

  /**
   * If the page does not render until the stream has ended, every updater reads the final
   * variables, so the message is labelled with the final agent name even when the start
   * came after the last delta.
   */
  lemma AgentWithoutRenders(chunks: seq<string>, classify: string -> Action)
    ensures Final(chunks, [], classify).shownAgent == NameAt(StreamSteps(chunks, [], classify))
  {
    var steps := StreamSteps(chunks, [], classify);
    NoRenderSteps(chunks, classify);
    UnrenderedRun(steps);
    RunTracks(steps);
  }

  /**
   * The render schedule decides the label. Take a content line in one chunk and an
   * assistant start in the next. A render before the first chunk runs only the
   * placeholder's updater, so the delta's still waits and reads "Assistant". A render
   * between the chunks runs the delta's before the start and leaves the orchestrator's
   * name. No render until the end shows "Assistant".
   */
  lemma RenderTimingMatters(a: string, b: string, d: string, classify: string -> Action)
    requires classify(a) == Event(false, Some(d)) && classify(b) == Event(true, None)
    requires '\n' !in a && '\n' !in b
    ensures Final([a, b], [true], classify).shownAgent == "Assistant"
    ensures Final([a, b], [false, true], classify).shownAgent == "OrchestratorAgent"
    ensures Final([a, b], [], classify).shownAgent == "Assistant"
  {
    TwoChunkSteps(a, b, classify);
    var x := [Render, Line(classify(a)), Line(classify(b))];
    assert x[..2] == [Render, Line(classify(a))] && x[..2][..1] == [Render] && [Render][..0] == [];
    var placed := Reading("", "OrchestratorAgent", "", "OrchestratorAgent", true, false);
    assert Run(Start, x[..1]) == placed;
    assert Run(Start, x[..2]) == placed.(text := d, pending := true);
    var z := [Line(classify(a)), Render, Line(classify(b))];
    assert z[..2] == [Line(classify(a)), Render] && z[..2][..1] == [Line(classify(a))] && [Line(classify(a))][..0] == [];
    assert Run(Start, z[..2]) == Reading(d, "OrchestratorAgent", d, "OrchestratorAgent", true, false);
    var y := [Line(classify(a)), Line(classify(b))];
    assert y[..1] == [Line(classify(a))] && [Line(classify(a))][..0] == [];
    assert Run(Start, y[..1]) == Start.(text := d);
  }

  lemma TwoChunkSteps(a: string, b: string, classify: string -> Action)
    requires '\n' !in a && '\n' !in b
    ensures StreamSteps([a, b], [true], classify) == [Render, Line(classify(a)), Line(classify(b))]
    ensures StreamSteps([a, b], [false, true], classify) == [Line(classify(a)), Render, Line(classify(b))]
    ensures StreamSteps([a, b], [], classify) == [Line(classify(a)), Line(classify(b))]
  {
    SplitJoin([a], '\n');
    SplitJoin([b], '\n');
    assert [a, b][..1] == [a] && [a][..0] == [];
    assert StreamSteps([a], [true], classify) == [Render, Line(classify(a))];
    assert StreamSteps([a], [false, true], classify) == [Line(classify(a))];
    assert StreamSteps([a], [], classify) == [Line(classify(a))];
  }
}
