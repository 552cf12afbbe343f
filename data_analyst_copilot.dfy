// The console side of the data-analyst copilot: the streaming display driven by
// orchestration callbacks, the plan-review decision, and the loops that drive a
// workflow run to its completion. Workflow streams are finite inputs; what the
// console prints is an appended log of written pieces.

module DataAnalystCopilot {
  import opened Wrappers
  import opened Text

  // ---------------------------------------------------------------------------
  // Callback events and the streaming display
  // ---------------------------------------------------------------------------

  datatype AgentMessage = AgentMessage(text: Option<string>, role: string)

  datatype CallbackEvent =
    | OrchestratorMessage(kind: string, text: string)
    | AgentDelta(agentId: string, delta: string)
    | AgentMessageEvent(agentId: string, message: Option<AgentMessage>)
    | FinalResult(report: Option<string>)
    | OtherCallback

  /** `_get_agent_emoji`. */
  function AgentEmoji(agentId: string): string {
    if agentId == "ResearchAgent" then "\U{1F50D}"
    else if agentId == "CoderAgent" then "\U{1F4BB}"
    else if agentId == "VisualizationAgent" then "\U{1F4CA}"
    else if agentId == "InsightsAgent" then "\U{1F9E0}"
    else if agentId == "ReportAgent" then "\U{1F4DD}"
    else "\U{1F916}"
  }

  predicate KnownAgent(agentId: string) {
    agentId == "ResearchAgent" || agentId == "CoderAgent" || agentId == "VisualizationAgent"
    || agentId == "InsightsAgent" || agentId == "ReportAgent"
  }

  /** Each of the five agents has its own emoji, and every other id gets the robot. */
  lemma AgentEmojiSpec(agentId: string)
    ensures AgentEmoji(agentId) == "\U{1F916}" <==> !KnownAgent(agentId)
    ensures |AgentEmoji(agentId)| == 1
  {
  }

  /** `c * 70`. */
  function Rule(c: char): (r: string)
    ensures |r| == 70 && forall i :: 0 <= i < 70 ==> r[i] == c
  {
    seq(70, _ => c)
  }

  /** `(msg.text or "").replace("\n", " ")[:200]`. */
  function Summary(text: Option<string>): string {
    SliceTo(ReplaceChar(text.GetOr(""), '\n', ' '), 200)
  }

  /** The summary is one line of at most 200 characters, a prefix of the text with its newlines made spaces. */
  lemma SummarySpec(text: Option<string>)
    ensures |Summary(text)| <= 200
    ensures '\n' !in Summary(text)
    ensures Summary(text) <= ReplaceChar(text.GetOr(""), '\n', ' ')
    ensures |text.GetOr("")| <= 200 ==> Summary(text) == ReplaceChar(text.GetOr(""), '\n', ' ')
  {
    var s := Summary(text);
    var whole := ReplaceChar(text.GetOr(""), '\n', ' ');
    forall i | 0 <= i < |s| ensures s[i] != '\n' {
      assert s[i] == whole[i];
    }
  }

  /** `_last_stream_agent_id` and `_stream_line_open`. */
  datatype StreamState = StreamState(lastStreamAgentId: Option<string>, streamLineOpen: bool)

  /** Whether a delta from `agentId` starts a new agent line. */
  predicate StartsLine(s: StreamState, agentId: string) {
    s.lastStreamAgentId != Some(agentId) || !s.streamLineOpen
  }

  function DeltaHeader(agentId: string): string {
    "\n" + AgentEmoji(agentId) + " [" + agentId + "]: "
  }

  /** The state after a callback event. */
  function NextState(s: StreamState, e: CallbackEvent): StreamState {
    match e
    case AgentDelta(id, _) => StreamState(Some(id), true)
    case AgentMessageEvent(_, _) => s.(streamLineOpen := false)
    case _ => s
  }

  /** What the handler writes for a callback event; `print(x)` writes `x` and a newline. */
  function Output(s: StreamState, e: CallbackEvent): seq<string> {
    match e
    case OrchestratorMessage(kind, text) =>
      ["\n\U{1F3AF} [ORCHESTRATOR:" + kind + "]\n", text + "\n", Rule('-') + "\n"]
    case AgentDelta(id, delta) =>
      (if StartsLine(s, id) then (if s.streamLineOpen then ["\n"] else []) + [DeltaHeader(id)] else [])
      + [delta]
    case AgentMessageEvent(id, msg) =>
      (if s.streamLineOpen then [" \U{2713}\n"] else [])
      + (match msg
         case None => []
         case Some(m) =>
           ["\n" + AgentEmoji(id) + " [" + id + "] " + m.role + "\n",
            "   " + Summary(m.text) + "...\n", Rule('-') + "\n"])
    case FinalResult(report) =>
      ["\n" + Rule('=') + "\n", "\U{1F4CA} FINAL ANALYSIS REPORT\n", Rule('=') + "\n"]
      + (match report case None => [] case Some(t) => [t + "\n"])
      + [Rule('=') + "\n"]
    case OtherCallback => []
  }

  /**
   * A delta prints the agent header exactly when its agent differs from the last streamed one
   * or no line is open, closing an open line first; it always ends with the delta text and
   * leaves that agent's line open.
   */
  lemma DeltaSpec(s: StreamState, id: string, delta: string)
    ensures StartsLine(s, id) && s.streamLineOpen ==> Output(s, AgentDelta(id, delta)) == ["\n", DeltaHeader(id), delta]
    ensures StartsLine(s, id) && !s.streamLineOpen ==> Output(s, AgentDelta(id, delta)) == [DeltaHeader(id), delta]
    ensures !StartsLine(s, id) ==> Output(s, AgentDelta(id, delta)) == [delta]
    ensures NextState(s, AgentDelta(id, delta)) == StreamState(Some(id), true)
  {
  }

  /** A message event closes an open line with a check mark, leaves it closed and keeps the last agent id. */
  lemma MessageSpec(s: StreamState, id: string, msg: Option<AgentMessage>)
    ensures s.streamLineOpen ==> Output(s, AgentMessageEvent(id, msg))[0] == " \U{2713}\n"
    ensures !s.streamLineOpen && msg.None? ==> Output(s, AgentMessageEvent(id, msg)) == []
    ensures NextState(s, AgentMessageEvent(id, msg)).lastStreamAgentId == s.lastStreamAgentId
    ensures !NextState(s, AgentMessageEvent(id, msg)).streamLineOpen
  {
  }

  /** The state after a sequence of callback events. */
  function StateAfter(s: StreamState, es: seq<CallbackEvent>): StreamState
    decreases |es|
  {
    if es == [] then s else NextState(StateAfter(s, es[..|es| - 1]), es[|es| - 1])
  }

  /** Everything written for a sequence of callback events. */
  function Printed(s: StreamState, es: seq<CallbackEvent>): seq<string>
    decreases |es|
  {
    if es == [] then []
    else Printed(s, es[..|es| - 1]) + Output(StateAfter(s, es[..|es| - 1]), es[|es| - 1])
  }

  function Deltas(id: string, texts: seq<string>): (r: seq<CallbackEvent>)
    ensures |r| == |texts| && forall i :: 0 <= i < |texts| ==> r[i] == AgentDelta(id, texts[i])
  {
    seq(|texts|, i requires 0 <= i < |texts| => AgentDelta(id, texts[i]))
  }

  lemma DeltasFront(id: string, texts: seq<string>)
    requires |texts| > 0
    ensures Deltas(id, texts)[..|texts| - 1] == Deltas(id, texts[..|texts| - 1])
  {
  }

  /** Further deltas from the agent whose line is open print only their texts, in order. */
  lemma {:induction false} SameAgentContinues(id: string, texts: seq<string>)
    ensures StateAfter(StreamState(Some(id), true), Deltas(id, texts)) == StreamState(Some(id), true)
    ensures Printed(StreamState(Some(id), true), Deltas(id, texts)) == texts
    decreases |texts|
  {
    if texts != [] {
      var front := texts[..|texts| - 1];
      DeltasFront(id, texts);
      SameAgentContinues(id, front);
      assert front + [texts[|texts| - 1]] == texts;
    }
  }

  /** A run of deltas from one agent, starting with no line open, prints one header and then the texts. */
  lemma {:induction false} OneHeaderPerRun(s: StreamState, id: string, texts: seq<string>)
    requires !s.streamLineOpen && |texts| > 0
    ensures Printed(s, Deltas(id, texts)) == [DeltaHeader(id)] + texts
    ensures StateAfter(s, Deltas(id, texts)) == StreamState(Some(id), true)
    decreases |texts|
  {
    var front := texts[..|texts| - 1];
    DeltasFront(id, texts);
    if |texts| == 1 {
      assert Deltas(id, front) == [];
    } else {
      OneHeaderPerRun(s, id, front);
      assert [DeltaHeader(id)] + front + [texts[|texts| - 1]] == [DeltaHeader(id)] + texts;
    }
  }

  /** `DataAnalystCopilot` with the fields the default event handler updates and the console log. */
  class Copilot {
    var lastStreamAgentId: Option<string>
    var streamLineOpen: bool
    var log: seq<string>

    constructor()
      ensures lastStreamAgentId == None && !streamLineOpen && log == []
    {
      lastStreamAgentId := None;
      streamLineOpen := false;
      log := [];
    }

    function State(): StreamState
      reads this
    {
      StreamState(lastStreamAgentId, streamLineOpen)
    }

    /** `_default_event_handler`, without the user's callback. */
    method HandleEvent(e: CallbackEvent)
      modifies this
      ensures State() == NextState(old(State()), e)
      ensures log == old(log) + Output(old(State()), e)
    {
      match e {
        case OrchestratorMessage(kind, text) =>
          log := log + ["\n\U{1F3AF} [ORCHESTRATOR:" + kind + "]\n"];
          log := log + [text + "\n"];
          log := log + [Rule('-') + "\n"];
        case AgentDelta(id, delta) =>
          HandleDelta(id, delta);
        case AgentMessageEvent(id, msg) =>
          HandleMessage(id, msg);
        case FinalResult(report) =>
          HandleFinal(report);
        case OtherCallback =>
      }
    }

    method HandleDelta(id: string, delta: string)
      modifies this
      ensures State() == NextState(old(State()), AgentDelta(id, delta))
      ensures log == old(log) + Output(old(State()), AgentDelta(id, delta))
    {
      if lastStreamAgentId != Some(id) || !streamLineOpen {
        if streamLineOpen {
          log := log + ["\n"];
        }
        log := log + [DeltaHeader(id)];
        lastStreamAgentId := Some(id);
        streamLineOpen := true;
      }
      log := log + [delta];
    }

    method HandleMessage(id: string, msg: Option<AgentMessage>)
      modifies this
      ensures State() == NextState(old(State()), AgentMessageEvent(id, msg))
      ensures log == old(log) + Output(old(State()), AgentMessageEvent(id, msg))
    {
      if streamLineOpen {
        log := log + [" \U{2713}\n"];
        streamLineOpen := false;
      }
      if msg.Some? {
        var m := msg.value;
        log := log + ["\n" + AgentEmoji(id) + " [" + id + "] " + m.role + "\n"];
        log := log + ["   " + Summary(m.text) + "...\n"];
        log := log + [Rule('-') + "\n"];
      }
    }

    method HandleFinal(report: Option<string>)
      modifies this
      ensures State() == old(State())
      ensures log == old(log) + Output(old(State()), FinalResult(report))
    {
      log := log + ["\n" + Rule('=') + "\n"];
      log := log + ["\U{1F4CA} FINAL ANALYSIS REPORT\n"];
      log := log + [Rule('=') + "\n"];
      if report.Some? {
        log := log + [report.value + "\n"];
      }
      log := log + [Rule('=') + "\n"];
    }
  }

  // ---------------------------------------------------------------------------
  // Plan review
  // ---------------------------------------------------------------------------

  datatype Decision = Approve | Reject

  datatype PlanReviewReply = PlanReviewReply(decision: Decision, editedPlan: Option<string>)

  /** `_get_plan_review_decision` given the two lines the user types; the second is read only for choice 3. */
  function PlanReviewDecision(choiceLine: string, planLine: string): PlanReviewReply {
    var choice := PyStrip(choiceLine);
    if choice == "2" then PlanReviewReply(Reject, None)
    else if choice == "3" then PlanReviewReply(Approve, Some(PyStrip(planLine)))
    else PlanReviewReply(Approve, None)
  }

  /** Only a "2" rejects; a "3" approves with the stripped edited plan; anything else approves the plan as is. */
  lemma PlanReviewSpec(choiceLine: string, planLine: string)
    ensures PlanReviewDecision(choiceLine, planLine).decision == Reject <==> PyStrip(choiceLine) == "2"
    ensures PlanReviewDecision(choiceLine, planLine).editedPlan.Some? <==> PyStrip(choiceLine) == "3"
    ensures PyStrip(choiceLine) == "3" ==> PlanReviewDecision(choiceLine, planLine).editedPlan == Some(PyStrip(planLine))
    ensures PlanReviewDecision(choiceLine, planLine).editedPlan.Some?
      ==> IsStripped(PlanReviewDecision(choiceLine, planLine).editedPlan.value, PyIsSpace)
  {
    assert "2" != "3";
    StripEnds(planLine, PyIsSpace);
  }

  // ---------------------------------------------------------------------------
  // Running the workflow
  // ---------------------------------------------------------------------------

  /** The payload of a completion event: its `text` attribute, if any, and `str(data)`. */
  datatype Data = Data(text: Option<string>, repr: string)

  datatype WorkflowEvent =
    | Completed(data: Option<Data>)
    | RequestInfo(requestId: string, isPlanReview: bool)
    | OtherWorkflowEvent

  /** `getattr(data, "text", None) or (str(data) if data is not None else "")`. */
  function ResultText(data: Option<Data>): string {
    match data
    case None => ""
    case Some(d) => if d.text.Some? && d.text.value != "" then d.text.value else d.repr
  }

  datatype Outcome = Success(result: string) | Failure(error: string)

  /** `completion` is the last completion event. */
  predicate LastCompleted(events: seq<WorkflowEvent>, j: int) {
    0 <= j < |events| && events[j].Completed?
    && forall k :: j < k < |events| ==> !events[k].Completed?
  }

  /** The data of the last completion event, if there is one. */
  function LastCompletion(events: seq<WorkflowEvent>): (r: Option<Option<Data>>)
    ensures r.None? <==> forall k :: 0 <= k < |events| ==> !events[k].Completed?
    ensures r.Some? ==> exists j :: LastCompleted(events, j) && events[j].data == r.value
    decreases |events|
  {
    if events == [] then None
    else if events[|events| - 1].Completed? then Some(events[|events| - 1].data)
    else
      var front := events[..|events| - 1];
      var r := LastCompletion(front);
      assert forall k :: 0 <= k < |front| ==> front[k] == events[k];
      assert forall j :: LastCompleted(front, j) ==> LastCompleted(events, j);
      r
  }

  /** `_analyze_direct` over the events of one run. */
  method AnalyzeDirect(events: seq<WorkflowEvent>) returns (r: Outcome)
    ensures r.Failure? <==> forall k :: 0 <= k < |events| ==> !events[k].Completed?
    ensures r.Failure? ==> r.error == "Analysis did not complete successfully"
    ensures r.Success? ==> exists j :: LastCompleted(events, j) && r.result == ResultText(events[j].data)
  {
    var completion: Option<Option<Data>> := None;
    for i := 0 to |events|
      invariant completion == LastCompletion(events[..i])
    {
      assert events[..i + 1][..i] == events[..i];
      if events[i].Completed? {
        completion := Some(events[i].data);
      }
    }
    assert events[..|events|] == events;
    if completion.Some? {
      r := Success(ResultText(completion.value));
    } else {
      r := Failure("Analysis did not complete successfully");
    }
  }

  /** The loop state of `_analyze_with_plan_review`; a pending request is kept by its id. */
  datatype Review = Review(completion: Option<Option<Data>>, pending: Option<string>)

  /** One event of a fresh run: completions are kept, plan-review requests become pending. */
  function RunEvent(st: Review, e: WorkflowEvent): Review {
    var st1 := if e.Completed? then st.(completion := Some(e.data)) else st;
    if e.RequestInfo? && e.isPlanReview then st1.(pending := Some(e.requestId)) else st1
  }

  /** One event of the reply stream: a completion is kept, a request becomes pending, anything else clears it. */
  function ResponseEvent(st: Review, e: WorkflowEvent): Review {
    if e.Completed? then st.(completion := Some(e.data))
    else if e.RequestInfo? then st.(pending := Some(e.requestId))
    else st.(pending := None)
  }

  function RunFold(st: Review, es: seq<WorkflowEvent>): Review
    decreases |es|
  {
    if es == [] then st else RunEvent(RunFold(st, es[..|es| - 1]), es[|es| - 1])
  }

  function ResponseFold(st: Review, es: seq<WorkflowEvent>): Review
    decreases |es|
  {
    if es == [] then st else ResponseEvent(ResponseFold(st, es[..|es| - 1]), es[|es| - 1])
  }

  /** The reply sent for a request. */
  datatype Sent = Sent(requestId: string, reply: PlanReviewReply)

  /** How the review loop ends: with the result, or by running out of streams or typed answers. */
  datatype ReviewOutcome =
    | Finished(result: string, sent: seq<Sent>)
    | InputExhausted(sent: seq<Sent>)

  /**
   * The review loop from stream `k` and answer `c` on: a fresh run while nothing is pending,
   * then what `ReviewTail` does.
   */
  function ReviewRun(streams: seq<seq<WorkflowEvent>>, answers: seq<(string, string)>,
                     k: nat, c: nat, st: Review, sent: seq<Sent>): ReviewOutcome
    requires k <= |streams| && c <= |answers|
    decreases |streams| - k, 1
  {
    if st.pending.None? then
      if k == |streams| then InputExhausted(sent)
      else ReviewTail(streams, answers, k + 1, c, RunFold(st, streams[k]), sent)
    else ReviewTail(streams, answers, k, c, st, sent)
  }

  /**
   * The rest of one round of the loop: stop if a completion was seen; else answer the
   * pending request and read the replies; else start a fresh run.
   */
  function ReviewTail(streams: seq<seq<WorkflowEvent>>, answers: seq<(string, string)>,
                      k: nat, c: nat, st: Review, sent: seq<Sent>): ReviewOutcome
    requires k <= |streams| && c <= |answers|
    decreases |streams| - k, 0
  {
    if st.completion.Some? then Finished(ResultText(st.completion.value), sent)
    else if st.pending.Some? then
      if k == |streams| || c == |answers| then InputExhausted(sent)
      else
        var reply := PlanReviewDecision(answers[c].0, answers[c].1);
        ReviewRun(streams, answers, k + 1, c + 1, ResponseFold(st, streams[k]),
          sent + [Sent(st.pending.value, reply)])
    else if k == |streams| then InputExhausted(sent)
    else ReviewTail(streams, answers, k + 1, c, RunFold(st, streams[k]), sent)
  }

  /** The events of a fresh run, one by one. */
  method RunStream(st: Review, events: seq<WorkflowEvent>) returns (r: Review)
    ensures r == RunFold(st, events)
  {
    r := st;
    for i := 0 to |events|
      invariant r == RunFold(st, events[..i])
    {
      assert events[..i + 1][..i] == events[..i];
      if events[i].Completed? {
        r := r.(completion := Some(events[i].data));
      }
      if events[i].RequestInfo? && events[i].isPlanReview {
        r := r.(pending := Some(events[i].requestId));
      }
    }
    assert events[..|events|] == events;
  }

  /** The events that answer a reply, one by one. */
  method ResponseStream(st: Review, events: seq<WorkflowEvent>) returns (r: Review)
    ensures r == ResponseFold(st, events)
  {
    r := st;
    for i := 0 to |events|
      invariant r == ResponseFold(st, events[..i])
    {
      assert events[..i + 1][..i] == events[..i];
      if events[i].Completed? {
        r := r.(completion := Some(events[i].data));
      } else if events[i].RequestInfo? {
        r := r.(pending := Some(events[i].requestId));
      } else {
        r := r.(pending := None);
      }
    }
    assert events[..|events|] == events;
  }

  /**
   * `_analyze_with_plan_review`: `streams` are the successive event streams the workflow
   * produces (fresh runs and reply streams, in the order the loop asks for them) and
   * `answers` the lines typed at each review.
   */
  method AnalyzeWithPlanReview(streams: seq<seq<WorkflowEvent>>, answers: seq<(string, string)>)
    returns (outcome: ReviewOutcome)
    ensures outcome == ReviewRun(streams, answers, 0, 0, Review(None, None), [])
  {
    var st := Review(None, None);
    var k := 0;
    var c := 0;
    var sent: seq<Sent> := [];
    ghost var whole := ReviewRun(streams, answers, k, c, st, sent);
    while true
      invariant k <= |streams| && c <= |answers|
      invariant whole == ReviewRun(streams, answers, k, c, st, sent)
      decreases |streams| - k
    {
      ghost var st0, k0 := st, k;
      if st.pending.None? {
        if k == |streams| {
          outcome := InputExhausted(sent);
          return;
        }
        st := RunStream(st, streams[k]);
        k := k + 1;
      }
      assert whole == ReviewTail(streams, answers, k, c, st, sent);
      if st.completion.Some? {
        outcome := Finished(ResultText(st.completion.value), sent);
        return;
      }
      if st.pending.Some? {
        if k == |streams| || c == |answers| {
          outcome := InputExhausted(sent);
          return;
        }
        var reply := PlanReviewDecision(answers[c].0, answers[c].1);
        sent := sent + [Sent(st.pending.value, reply)];
        c := c + 1;
        st := ResponseStream(st, streams[k]);
        k := k + 1;
      } else {
        assert k > k0;
        assert ReviewTail(streams, answers, k, c, st, sent) == ReviewRun(streams, answers, k, c, st, sent);
      }
    }
  }

  /** A pending request after a fresh run is the last plan-review request of that run. */
  lemma {:induction false} RunFoldSpec(st: Review, es: seq<WorkflowEvent>)
    ensures RunFold(st, es).completion.Some? <==>
      st.completion.Some? || exists k :: 0 <= k < |es| && es[k].Completed?
    ensures (exists k :: 0 <= k < |es| && es[k].Completed?) ==> RunFold(st, es).completion == LastCompletion(es)
    ensures (forall k :: 0 <= k < |es| ==> !es[k].Completed?) ==> RunFold(st, es).completion == st.completion
    decreases |es|
  {
    if es != [] {
      var front := es[..|es| - 1];
      RunFoldSpec(st, front);
      assert forall k :: 0 <= k < |front| ==> front[k] == es[k];
    }
  }

  /** A fresh run that completes ends the loop with the result of its last completion. */
  lemma CompletingRunFinishes(streams: seq<seq<WorkflowEvent>>, answers: seq<(string, string)>)
    requires |streams| > 0 && exists k :: 0 <= k < |streams[0]| && streams[0][k].Completed?
    ensures ReviewRun(streams, answers, 0, 0, Review(None, None), [])
      == Finished(ResultText(LastCompletion(streams[0]).value), [])
  {
    RunFoldSpec(Review(None, None), streams[0]);
  }

  /** Some stream from the `k`-th on delivered a completion whose result is `result`. */
  ghost predicate Delivered(streams: seq<seq<WorkflowEvent>>, k: nat, result: string) {
    exists i, d :: k <= i < |streams| && Completed(d) in streams[i] && result == ResultText(d)
  }

  /** A completion already held came from one of the streams `base` to `k - 1`. */
  ghost predicate HeldFrom(streams: seq<seq<WorkflowEvent>>, base: nat, k: nat, st: Review) {
    st.completion.Some? ==>
      exists i :: base <= i < k && i < |streams| && Completed(st.completion.value) in streams[i]
  }

  lemma LastCompletionIn(es: seq<WorkflowEvent>)
    requires LastCompletion(es).Some?
    ensures Completed(LastCompletion(es).value) in es
  {
    var j :| LastCompleted(es, j) && es[j].data == LastCompletion(es).value;
    assert es[j] == Completed(LastCompletion(es).value);
  }

  lemma HeldAfterRun(streams: seq<seq<WorkflowEvent>>, base: nat, k: nat, st: Review)
    requires base <= k < |streams| && HeldFrom(streams, base, k, st)
    ensures HeldFrom(streams, base, k + 1, RunFold(st, streams[k]))
  {
    RunFoldSpec(st, streams[k]);
    if exists j :: 0 <= j < |streams[k]| && streams[k][j].Completed? {
      LastCompletionIn(streams[k]);
    }
  }

  lemma HeldAfterReply(streams: seq<seq<WorkflowEvent>>, base: nat, k: nat, st: Review)
    requires base <= k < |streams| && HeldFrom(streams, base, k, st)
    ensures HeldFrom(streams, base, k + 1, ResponseFold(st, streams[k]))
  {
    ResponseFoldSpec(st, streams[k]);
    if exists j :: 0 <= j < |streams[k]| && streams[k][j].Completed? {
      LastCompletionIn(streams[k]);
    }
  }

  lemma HeldDelivered(streams: seq<seq<WorkflowEvent>>, base: nat, k: nat, st: Review)
    requires HeldFrom(streams, base, k, st) && st.completion.Some?
    ensures Delivered(streams, base, ResultText(st.completion.value))
  {
    var i :| base <= i < k && i < |streams| && Completed(st.completion.value) in streams[i];
  }

  /** The loop finishes only with the result of a completion event some stream delivered. */
  lemma {:induction false} FinishedHasCompletion(streams: seq<seq<WorkflowEvent>>, answers: seq<(string, string)>,
                                               base: nat, k: nat, c: nat, st: Review, sent: seq<Sent>)
    requires base <= k <= |streams| && c <= |answers|
    requires HeldFrom(streams, base, k, st)
    requires ReviewRun(streams, answers, k, c, st, sent).Finished?
    ensures Delivered(streams, base, ReviewRun(streams, answers, k, c, st, sent).result)
    decreases |streams| - k, 1
  {
    if st.pending.None? {
      HeldAfterRun(streams, base, k, st);
      TailHasCompletion(streams, answers, base, k + 1, c, RunFold(st, streams[k]), sent);
    } else {
      TailHasCompletion(streams, answers, base, k, c, st, sent);
    }
  }

  lemma {:induction false} TailHasCompletion(streams: seq<seq<WorkflowEvent>>, answers: seq<(string, string)>,
                                           base: nat, k: nat, c: nat, st: Review, sent: seq<Sent>)
    requires base <= k <= |streams| && c <= |answers|
    requires HeldFrom(streams, base, k, st)
    requires ReviewTail(streams, answers, k, c, st, sent).Finished?
    ensures Delivered(streams, base, ReviewTail(streams, answers, k, c, st, sent).result)
    decreases |streams| - k, 0
  {
    if st.completion.Some? {
      HeldDelivered(streams, base, k, st);
    } else if st.pending.Some? {
      var sent2 := sent + [Sent(st.pending.value, PlanReviewDecision(answers[c].0, answers[c].1))];
      HeldAfterReply(streams, base, k, st);
      FinishedHasCompletion(streams, answers, base, k + 1, c + 1, ResponseFold(st, streams[k]), sent2);
    } else {
      HeldAfterRun(streams, base, k, st);
      TailHasCompletion(streams, answers, base, k + 1, c, RunFold(st, streams[k]), sent);
    }
  }

  /** The whole loop finishes only with the result of a completion some stream delivered. */
  lemma ReviewResultDelivered(streams: seq<seq<WorkflowEvent>>, answers: seq<(string, string)>)
    requires ReviewRun(streams, answers, 0, 0, Review(None, None), []).Finished?
    ensures Delivered(streams, 0, ReviewRun(streams, answers, 0, 0, Review(None, None), []).result)
  {
    FinishedHasCompletion(streams, answers, 0, 0, 0, Review(None, None), []);
  }

  /** After the reply stream, the completion is the last one it delivered, if any. */
  lemma {:induction false} ResponseFoldSpec(st: Review, es: seq<WorkflowEvent>)
    ensures ResponseFold(st, es).completion.Some? <==>
      st.completion.Some? || exists k :: 0 <= k < |es| && es[k].Completed?
    ensures (exists k :: 0 <= k < |es| && es[k].Completed?) ==> ResponseFold(st, es).completion == LastCompletion(es)
    ensures (forall k :: 0 <= k < |es| ==> !es[k].Completed?) ==> ResponseFold(st, es).completion == st.completion
    decreases |es|
  {
    if es != [] {
      var front := es[..|es| - 1];
      ResponseFoldSpec(st, front);
      assert forall k :: 0 <= k < |front| ==> front[k] == es[k];
    }
  }

  /**
   * After the reply stream, a request is pending exactly when the last event other than a
   * completion was a request (or, with no such event, when one was pending before).
   */
  lemma {:induction false} ResponsePending(st: Review, es: seq<WorkflowEvent>)
    ensures |es| > 0 && !es[|es| - 1].Completed? ==>
      ResponseFold(st, es).pending == (if es[|es| - 1].RequestInfo? then Some(es[|es| - 1].requestId) else None)
    ensures (forall k :: 0 <= k < |es| ==> es[k].Completed?) ==> ResponseFold(st, es).pending == st.pending
    decreases |es|
  {
    if es != [] {
      ResponsePending(st, es[..|es| - 1]);
    }
  }
}
