// The two interactive AG-UI clients of the Agent Framework demo: the input guard
// of their chat loop, the tool-call display that accumulates streamed argument
// chunks per call and truncates long results, and the client-side tools of the
// frontend-tools client (the urgency emoji of a notification, the registry of
// tools and the location lookup with its simulated fallback).

module ToolCallDisplay {
  import opened Wrappers
  import opened Text
  import opened JsonValue

  // ---------------------------------------------------------------------------
  // The input guard
  // ---------------------------------------------------------------------------

  /** What the chat loop does with a line typed by the user. */
  datatype Input = Blank | Quit | Ask(message: string)

  /**
   * A line made only of white space (one that `strip()` empties) is refused, ":q" or "quit"
   * in any letter case ends the chat, anything else is sent.
   */
  function ReadMessage(m: string): Input {
    if AllSpace(m, PyIsSpace) then Blank
    else if Lower(m) == ":q" || Lower(m) == "quit" then Quit
    else Ask(m)
  }

  /** The guard refuses exactly the lines that strip to nothing, and sends every other line unchanged. */
  lemma InputSpec(m: string)
    ensures ReadMessage(m).Blank? <==> PyStrip(m) == ""
    ensures ReadMessage(m).Quit? <==> PyStrip(m) != "" && (Lower(m) == ":q" || Lower(m) == "quit")
    ensures ReadMessage(m).Ask? ==> ReadMessage(m).message == m
  {
    StripEmpty(m, PyIsSpace);
  }

  /** Lower-casing neither makes nor unmakes a space. */
  lemma LowerKeepsSpace(c: char)
    ensures PyIsSpace(LowerChar(c)) <==> PyIsSpace(c)
  {
  }

  lemma {:induction false} SameLowerSameBlank(a: string, b: string)
    requires Lower(a) == Lower(b)
    ensures AllSpace(a, PyIsSpace) <==> AllSpace(b, PyIsSpace)
  {
    assert |a| == |b|;
    forall k | 0 <= k < |a| ensures PyIsSpace(a[k]) <==> PyIsSpace(b[k]) {
      assert Lower(a)[k] == Lower(b)[k];
      LowerKeepsSpace(a[k]);
      LowerKeepsSpace(b[k]);
    }
  }

  /** Two lines that differ only in letter case are treated alike (both refused, both ending the chat, or both sent). */
  lemma CaseInsensitive(a: string, b: string)
    requires Lower(a) == Lower(b)
    ensures ReadMessage(a).Blank? <==> ReadMessage(b).Blank?
    ensures ReadMessage(a).Quit? <==> ReadMessage(b).Quit?
  {
    SameLowerSameBlank(a, b);
  }

  const QuitWord: string := "quit"

  /** The exit words are matched on the whole line: a padded "quit" is sent to the agent. */
  lemma PaddedQuitIsAsked()
    ensures ReadMessage(QuitWord).Quit?
    ensures ReadMessage([' '] + QuitWord) == Ask([' '] + QuitWord)
  {
    var padded := [' '] + QuitWord;
    assert Lower(QuitWord) == QuitWord;
    assert padded[1] == 'q' && !PyIsSpace(padded[1]);
    InputSpec(QuitWord);
    InputSpec(padded);
    assert Lower(padded)[0] == ' ';
  }

  /** The lines the loop sends to the agent, in order, up to the first exit word. */
  function Asked(messages: seq<string>): seq<string>
    decreases |messages|
  {
    if messages == [] then []
    else match ReadMessage(messages[0])
      case Blank => Asked(messages[1..])
      case Quit => []
      case Ask(m) => [m] + Asked(messages[1..])
  }

  /** One step of the chat loop, at the `i`-th line. */
  lemma AskedFrom(messages: seq<string>, i: nat)
    requires i < |messages|
    ensures ReadMessage(messages[i]).Blank? ==> Asked(messages[i..]) == Asked(messages[i + 1..])
    ensures ReadMessage(messages[i]).Quit? ==> Asked(messages[i..]) == []
    ensures ReadMessage(messages[i]).Ask? ==> Asked(messages[i..]) == [messages[i]] + Asked(messages[i + 1..])
  {
    assert messages[i..][0] == messages[i];
    assert messages[i..][1..] == messages[i + 1..];
  }

  lemma AppendAssoc<T>(a: seq<T>, b: seq<T>, c: seq<T>)
    ensures a + b + c == a + (b + c)
  {
  }

  /** Every line sent to the agent passed the guard, and no more lines are sent than were typed. */
  lemma {:induction false} AskedSpec(messages: seq<string>)
    ensures forall x :: x in Asked(messages) ==> ReadMessage(x) == Ask(x)
    ensures |Asked(messages)| <= |messages|
    decreases |messages|
  {
    if messages != [] {
      AskedSpec(messages[1..]);
    }
  }

  /** An exit word ends the chat: nothing typed after it is sent. */
  lemma {:induction false} QuitStops(messages: seq<string>, i: nat)
    requires i < |messages| && ReadMessage(messages[i]).Quit?
    ensures Asked(messages) == Asked(messages[..i])
    decreases i
  {
    var prefix := messages[..i];
    if i == 0 {
      assert prefix == [];
    } else {
      var rest := messages[1..];
      QuitStops(rest, i - 1);
      assert prefix[0] == messages[0];
      assert prefix[1..] == rest[..i - 1];
      match ReadMessage(messages[0]) {
        case Blank =>
          assert Asked(messages) == Asked(rest);
          assert Asked(prefix) == Asked(prefix[1..]);
        case Quit =>
        case Ask(m) =>
          assert Asked(messages) == [m] + Asked(rest);
          assert Asked(prefix) == [m] + Asked(prefix[1..]);
      }
    }
  }

  // ---------------------------------------------------------------------------
  // The tool-call display
  // ---------------------------------------------------------------------------

  /**
   * One content item of a streamed update. The arguments of a call are their `str()`
   * form, "" when the chunk is empty or absent.
   */
  datatype Content =
    | FunctionCall(name: string, arguments: string)
    | FunctionResult(result: string, exception: Option<string>)
    | OtherContent

  /** A streamed update: its text ("" when it has none) and its content items. */
  datatype Update = Update(text: string, contents: seq<Content>)

  /** What the client shows, without colours and labels. */
  datatype Shown =
    | TextShown(text: string)
    | ToolStarted(name: string)
    | Arguments(args: string)
    | Executed
    | Error(message: string)
    | Result(text: string)
    | AssistantPrompt

  /** The two variables `current_tool_name` and `accumulated_args`. */
  datatype Tracking = Tracking(currentToolName: Option<string>, accumulatedArgs: string)

  /** The state at the start of each turn, and after each result. */
  const Fresh: Tracking := Tracking(None, "")

  const ResultLimit: nat := 200

  /** A result is shown whole up to 200 characters; a longer one is cut to its first 200 followed by "...". */
  function TruncateResult(s: string): string {
    if |s| > ResultLimit then s[..ResultLimit] + "..." else s
  }

  /** The shown result starts with the result, is never more than three characters longer than the limit, and is the result itself when it fits. */
  lemma TruncateSpec(s: string)
    ensures |TruncateResult(s)| <= ResultLimit + 3
    ensures |s| <= ResultLimit ==> TruncateResult(s) == s
    ensures |s| > ResultLimit ==> s[..ResultLimit] <= TruncateResult(s) && |TruncateResult(s)| == ResultLimit + 3
    ensures TruncateResult(s)[..if |s| < ResultLimit then |s| else ResultLimit] <= s
  {
  }

  /** Truncating a shown result again changes nothing. */
  lemma TruncateIdempotent(s: string)
    ensures TruncateResult(TruncateResult(s)) == TruncateResult(s)
  {
    if |s| > ResultLimit {
      var r := TruncateResult(s);
      assert r[..ResultLimit] == s[..ResultLimit];
    }
  }

  /** The variables after one content item. */
  function Track(t: Tracking, c: Content): Tracking {
    match c
    case FunctionCall(n, a) =>
      var t1 := if t.currentToolName != Some(n) then Tracking(Some(n), "") else t;
      if a != "" then t1.(accumulatedArgs := t1.accumulatedArgs + a) else t1
    case FunctionResult(_, _) => Fresh
    case OtherContent => t
  }

  /** What showing a result prints, given the arguments accumulated for it. */
  function ResultShown(args: string, result: string, exception: Option<string>): seq<Shown> {
    (if args != "" then [Arguments(args)] else [])
    + [Executed, if exception.Some? then Error(exception.value) else Result(TruncateResult(result))]
    + [AssistantPrompt]
  }

  /** What one content item prints. */
  function Shows(t: Tracking, c: Content): seq<Shown> {
    match c
    case FunctionCall(n, _) => if t.currentToolName != Some(n) then [ToolStarted(n)] else []
    case FunctionResult(r, e) => ResultShown(t.accumulatedArgs, r, e)
    case OtherContent => []
  }

  /** The variables after a sequence of content items, handled in order. */
  function TrackAll(t: Tracking, cs: seq<Content>): Tracking
    decreases |cs|
  {
    if cs == [] then t else TrackAll(Track(t, cs[0]), cs[1..])
  }

  /** What a sequence of content items prints, in order. */
  function ShownAll(t: Tracking, cs: seq<Content>): seq<Shown>
    decreases |cs|
  {
    if cs == [] then [] else Shows(t, cs[0]) + ShownAll(Track(t, cs[0]), cs[1..])
  }

  /** Content items are handled one after the other. */
  lemma {:induction false} TrackAllAppend(t: Tracking, xs: seq<Content>, ys: seq<Content>)
    ensures TrackAll(t, xs + ys) == TrackAll(TrackAll(t, xs), ys)
    decreases |xs|
  {
    if xs == [] {
      assert xs + ys == ys;
    } else {
      assert (xs + ys)[0] == xs[0];
      assert (xs + ys)[1..] == xs[1..] + ys;
      TrackAllAppend(Track(t, xs[0]), xs[1..], ys);
    }
  }

  /** What content items print, one after the other. */
  lemma {:induction false} ShownAllAppend(t: Tracking, xs: seq<Content>, ys: seq<Content>)
    ensures ShownAll(t, xs + ys) == ShownAll(t, xs) + ShownAll(TrackAll(t, xs), ys)
    decreases |xs|
  {
    if xs == [] {
      assert xs + ys == ys;
    } else {
      var t1 := Track(t, xs[0]);
      assert (xs + ys)[0] == xs[0];
      assert (xs + ys)[1..] == xs[1..] + ys;
      ShownAllAppend(t1, xs[1..], ys);
      var head := Shows(t, xs[0]);
      assert head + ShownAll(t1, xs[1..]) + ShownAll(TrackAll(t1, xs[1..]), ys)
        == head + (ShownAll(t1, xs[1..]) + ShownAll(TrackAll(t1, xs[1..]), ys));
    }
  }

  /** The argument chunks of one call, in arrival order. */
  function Concat(chunks: seq<string>): string
    decreases |chunks|
  {
    if chunks == [] then "" else chunks[0] + Concat(chunks[1..])
  }

  /** The call items of one tool streaming `chunks` as its arguments. */
  function Calls(name: string, chunks: seq<string>): (r: seq<Content>)
    ensures |r| == |chunks| && forall i :: 0 <= i < |chunks| ==> r[i] == FunctionCall(name, chunks[i])
  {
    seq(|chunks|, i requires 0 <= i < |chunks| => FunctionCall(name, chunks[i]))
  }

  lemma CallsTail(name: string, chunks: seq<string>)
    requires |chunks| > 0
    ensures Calls(name, chunks)[0] == FunctionCall(name, chunks[0])
    ensures Calls(name, chunks)[1..] == Calls(name, chunks[1..])
  {
  }

  /** More chunks of the current call append to its arguments in arrival order and print nothing. */
  lemma {:induction false} SameCallAppends(t: Tracking, name: string, chunks: seq<string>)
    requires t.currentToolName == Some(name)
    ensures TrackAll(t, Calls(name, chunks)) == Tracking(Some(name), t.accumulatedArgs + Concat(chunks))
    ensures ShownAll(t, Calls(name, chunks)) == []
    decreases |chunks|
  {
    if chunks == [] {
      assert Calls(name, chunks) == [];
    } else {
      var t1 := Tracking(Some(name), t.accumulatedArgs + chunks[0]);
      SameCallStep(t, name, chunks);
      SameCallAppends(t1, name, chunks[1..]);
      assert t.accumulatedArgs + chunks[0] + Concat(chunks[1..]) == t.accumulatedArgs + (chunks[0] + Concat(chunks[1..]));
    }
  }

  /** One chunk of the current call appends to its arguments and prints nothing. */
  lemma SameCallStep(t: Tracking, name: string, chunks: seq<string>)
    requires t.currentToolName == Some(name) && |chunks| > 0
    ensures TrackAll(t, Calls(name, chunks))
      == TrackAll(Tracking(Some(name), t.accumulatedArgs + chunks[0]), Calls(name, chunks[1..]))
    ensures ShownAll(t, Calls(name, chunks))
      == ShownAll(Tracking(Some(name), t.accumulatedArgs + chunks[0]), Calls(name, chunks[1..]))
  {
    CallsTail(name, chunks);
    var t1 := Track(t, FunctionCall(name, chunks[0]));
    assert t1 == Tracking(Some(name), t.accumulatedArgs + chunks[0]);
    assert Shows(t, FunctionCall(name, chunks[0])) == [];
  }

  /** A call to a tool other than the current one starts afresh: one header, and its own chunks as the arguments. */
  lemma NewCallAccumulates(t: Tracking, name: string, chunks: seq<string>)
    requires |chunks| > 0 && t.currentToolName != Some(name)
    ensures TrackAll(t, Calls(name, chunks)) == Tracking(Some(name), Concat(chunks))
    ensures ShownAll(t, Calls(name, chunks)) == [ToolStarted(name)]
  {
    CallsTail(name, chunks);
    var t1 := Track(t, FunctionCall(name, chunks[0]));
    assert t1 == Tracking(Some(name), chunks[0]);
    SameCallAppends(t1, name, chunks[1..]);
  }

  /** A result resets the variables whatever came before it. */
  lemma ResultResets(t: Tracking, cs: seq<Content>, result: string, exception: Option<string>)
    ensures TrackAll(t, cs + [FunctionResult(result, exception)]) == Fresh
  {
    TrackAllAppend(t, cs, [FunctionResult(result, exception)]);
  }

  /**
   * A whole tool call: one header, then the accumulated arguments (when there are any), the
   * execution notice and either the error or the truncated result; afterwards both variables
   * are reset.
   */
  lemma CompleteCall(t: Tracking, name: string, chunks: seq<string>, result: string, exception: Option<string>)
    requires |chunks| > 0 && t.currentToolName != Some(name)
    ensures TrackAll(t, Calls(name, chunks) + [FunctionResult(result, exception)]) == Fresh
    ensures ShownAll(t, Calls(name, chunks) + [FunctionResult(result, exception)])
      == [ToolStarted(name)]
         + (if Concat(chunks) != "" then [Arguments(Concat(chunks))] else [])
         + [Executed, if exception.Some? then Error(exception.value) else Result(TruncateResult(result))]
         + [AssistantPrompt]
  {
    var done := [FunctionResult(result, exception)];
    var calls := Calls(name, chunks);
    NewCallAccumulates(t, name, chunks);
    ShownAllAppend(t, calls, done);
    ResultResets(t, calls, result, exception);
    assert done[1..] == [];
    assert ShownAll(TrackAll(t, calls), done) == ResultShown(Concat(chunks), result, exception);
  }

  /** The variables after the updates of a turn, starting afresh. */
  function TurnState(updates: seq<Update>): Tracking
    decreases |updates|
  {
    if updates == [] then Fresh
    else TrackAll(TurnState(updates[..|updates| - 1]), updates[|updates| - 1].contents)
  }

  function UpdateShown(t: Tracking, u: Update): seq<Shown> {
    (if u.text != "" then [TextShown(u.text)] else []) + ShownAll(t, u.contents)
  }

  /** What a turn prints for the updates of the agent's reply. */
  function TurnShown(updates: seq<Update>): seq<Shown>
    decreases |updates|
  {
    if updates == [] then []
    else TurnShown(updates[..|updates| - 1]) + UpdateShown(TurnState(updates[..|updates| - 1]), updates[|updates| - 1])
  }

  /** One more update of the reply. */
  lemma TurnStep(updates: seq<Update>, i: nat)
    requires i < |updates|
    ensures TurnState(updates[..i + 1]) == TrackAll(TurnState(updates[..i]), updates[i].contents)
    ensures TurnShown(updates[..i + 1]) == TurnShown(updates[..i]) + UpdateShown(TurnState(updates[..i]), updates[i])
  {
    assert updates[..i + 1][..i] == updates[..i];
  }

  /** The body of the inner loop: one content item. */
  method HandleContent(currentToolName: Option<string>, accumulatedArgs: string, c: Content)
    returns (name': Option<string>, args': string, shown: seq<Shown>)
    ensures Tracking(name', args') == Track(Tracking(currentToolName, accumulatedArgs), c)
    ensures shown == Shows(Tracking(currentToolName, accumulatedArgs), c)
  {
    name', args', shown := currentToolName, accumulatedArgs, [];
    match c {
      case FunctionCall(name, arguments) =>
        if name' != Some(name) {
          name' := Some(name);
          args' := "";
          shown := shown + [ToolStarted(name)];
        }
        if arguments != "" {
          args' := args' + arguments;
        }
      case FunctionResult(result, exception) =>
        if args' != "" {
          shown := shown + [Arguments(args')];
        }
        shown := shown + [Executed];
        if exception.Some? {
          shown := shown + [Error(exception.value)];
        } else {
          var resultStr := result;
          if |resultStr| > ResultLimit {
            resultStr := resultStr[..ResultLimit] + "...";
          }
          shown := shown + [Result(resultStr)];
        }
        name' := None;
        args' := "";
        shown := shown + [AssistantPrompt];
      case OtherContent =>
    }
  }

  /** The inner loop, over the content items of one update. */
  method HandleContents(currentToolName: Option<string>, accumulatedArgs: string, contents: seq<Content>)
    returns (name': Option<string>, args': string, shown: seq<Shown>)
    ensures Tracking(name', args') == TrackAll(Tracking(currentToolName, accumulatedArgs), contents)
    ensures shown == ShownAll(Tracking(currentToolName, accumulatedArgs), contents)
  {
    ghost var t0 := Tracking(currentToolName, accumulatedArgs);
    name', args', shown := currentToolName, accumulatedArgs, [];
    for j := 0 to |contents|
      invariant Tracking(name', args') == TrackAll(t0, contents[..j])
      invariant shown == ShownAll(t0, contents[..j])
    {
      assert contents[..j + 1] == contents[..j] + [contents[j]];
      TrackAllAppend(t0, contents[..j], [contents[j]]);
      ShownAllAppend(t0, contents[..j], [contents[j]]);
      var more;
      name', args', more := HandleContent(name', args', contents[j]);
      shown := shown + more;
    }
    assert contents[..|contents|] == contents;
  }

  /** The nested loops over the updates of a reply and over the content items of each update. */
  method DisplayTurn(updates: seq<Update>) returns (shown: seq<Shown>)
    ensures shown == TurnShown(updates)
  {
    var currentToolName: Option<string> := None;
    var accumulatedArgs := "";
    shown := [];
    for i := 0 to |updates|
      invariant Tracking(currentToolName, accumulatedArgs) == TurnState(updates[..i])
      invariant shown == TurnShown(updates[..i])
    {
      var u := updates[i];
      TurnStep(updates, i);
      ghost var before := shown;
      if u.text != "" {
        shown := shown + [TextShown(u.text)];
      }
      var more;
      currentToolName, accumulatedArgs, more := HandleContents(currentToolName, accumulatedArgs, u.contents);
      AppendAssoc(before, if u.text != "" then [TextShown(u.text)] else [], more);
      shown := shown + more;
    }
    assert updates[..|updates|] == updates;
  }

  /** The agent's reply to one line: the updates it streamed, and the error that cut it short, if any. */
  datatype Stream = Stream(updates: seq<Update>, failure: Option<string>)

  /**
   * How the chat ends: at an exit word, at the end of input (where `input()` raises
   * `EOFError`), or at an error raised while the agent's reply streamed. The last two
   * reach the `except Exception` around the loop.
   */
  datatype Ending = Goodbye | InputEnded | AgentFailed(error: string)

  /** The message of the `EOFError` that `input()` raises at the end of input. */
  const EofMessage: string := "EOF when reading a line"

  /** The last line the client prints, without its colour codes and leading newlines. */
  function Farewell(e: Ending): string {
    match e
    case Goodbye => "\U{1F44B} Goodbye!"
    case InputEnded => "\U{274C} An error occurred: " + EofMessage
    case AgentFailed(error) => "\U{274C} An error occurred: " + error
  }

  /** The lines sent to the agent, in order, and how the chat ends. */
  datatype Session = Session(asked: seq<string>, ending: Ending)

  function Conversation(messages: seq<string>, respond: string -> Stream): Session
    decreases |messages|
  {
    if messages == [] then Session([], InputEnded)
    else match ReadMessage(messages[0])
      case Blank => Conversation(messages[1..], respond)
      case Quit => Session([], Goodbye)
      case Ask(m) =>
        if respond(m).failure.Some? then Session([m], AgentFailed(respond(m).failure.value))
        else var rest := Conversation(messages[1..], respond); Session([m] + rest.asked, rest.ending)
  }

  /** One step of the chat loop, at the `i`-th line. */
  lemma ConversationFrom(messages: seq<string>, i: nat, respond: string -> Stream)
    requires i < |messages|
    ensures var c, next := Conversation(messages[i..], respond), Conversation(messages[i + 1..], respond);
      match ReadMessage(messages[i])
      case Blank => c == next
      case Quit => c == Session([], Goodbye)
      case Ask(m) =>
        c == if respond(m).failure.Some? then Session([m], AgentFailed(respond(m).failure.value))
             else Session([m] + next.asked, next.ending)
  {
    assert messages[i..][0] == messages[i];
    assert messages[i..][1..] == messages[i + 1..];
  }

  /**
   * The chat loop over the lines the user types, with `respond` standing for the agent's
   * streamed reply. Each sent line starts its own turn afresh, so what a turn shows depends
   * only on that turn's reply; a reply that fails has shown what arrived before the error.
   * `lastLine` is what the client prints as it leaves the loop.
   */
  method Chat(messages: seq<string>, respond: string -> Stream)
    returns (asked: seq<string>, turns: seq<seq<Shown>>, ending: Ending, lastLine: string)
    ensures Session(asked, ending) == Conversation(messages, respond)
    ensures lastLine == Farewell(ending)
    ensures |turns| == |asked|
    ensures forall i :: 0 <= i < |turns| ==> turns[i] == TurnShown(respond(asked[i]).updates)
  {
    asked := [];
    turns := [];
    var i := 0;
    while i < |messages|
      invariant 0 <= i <= |messages|
      invariant var rest := Conversation(messages[i..], respond);
        Conversation(messages, respond) == Session(asked + rest.asked, rest.ending)
      invariant |turns| == |asked|
      invariant forall k :: 0 <= k < |turns| ==> turns[k] == TurnShown(respond(asked[k]).updates)
    {
      var message := messages[i];
      var input := ReadMessage(message);
      ConversationFrom(messages, i, respond);
      if input.Blank? {
        i := i + 1;
        continue;
      }
      if input.Quit? {
        assert asked + [] == asked;
        ending := Goodbye;
        lastLine := Farewell(ending);
        return;
      }
      var reply := respond(message);
      var shown := DisplayTurn(reply.updates);
      AppendAssoc(asked, [message], Conversation(messages[i + 1..], respond).asked);
      asked := asked + [message];
      turns := turns + [shown];
      if reply.failure.Some? {
        ending := AgentFailed(reply.failure.value);
        lastLine := Farewell(ending);
        return;
      }
      i := i + 1;
    }
    assert messages[i..] == [];
    assert asked + [] == asked;
    ending := InputEnded;
    lastLine := Farewell(ending);
  }

  /**
   * The lines sent are the ones the guard lets through, in order, up to the first exit word
   * or the first reply that fails, whichever comes first. Only the last sent line's reply can
   * have failed, and it did exactly when the chat ends with that reply's error.
   */
  lemma {:induction false} ConversationSpec(messages: seq<string>, respond: string -> Stream)
    ensures Conversation(messages, respond).asked <= Asked(messages)
    ensures var s := Conversation(messages, respond);
      forall i :: 0 <= i < |s.asked| - 1 ==> respond(s.asked[i]).failure.None?
    ensures var s := Conversation(messages, respond);
      s.ending.AgentFailed? <==> s.asked != [] && respond(s.asked[|s.asked| - 1]).failure.Some?
    ensures var s := Conversation(messages, respond);
      s.ending.AgentFailed? ==> respond(s.asked[|s.asked| - 1]).failure == Some(s.ending.error)
    ensures var s := Conversation(messages, respond);
      !s.ending.AgentFailed? ==> s.asked == Asked(messages)
    decreases |messages|
  {
    if messages != [] {
      ConversationSpec(messages[1..], respond);
      var s := Conversation(messages, respond);
      var rest := Conversation(messages[1..], respond);
      match ReadMessage(messages[0]) {
        case Blank =>
        case Quit =>
        case Ask(m) =>
          if respond(m).failure.None? {
            assert s.asked == [m] + rest.asked;
            assert forall i :: 0 < i < |s.asked| ==> s.asked[i] == rest.asked[i - 1];
          }
      }
    }
  }

  /** The chat ends at the end of input only when no exit word was typed, and says goodbye only after one. */
  lemma {:induction false} ConversationEnding(messages: seq<string>, respond: string -> Stream)
    ensures Conversation(messages, respond).ending == InputEnded ==>
      forall i :: 0 <= i < |messages| ==> !ReadMessage(messages[i]).Quit?
    ensures Conversation(messages, respond).ending == Goodbye ==>
      exists i :: 0 <= i < |messages| && ReadMessage(messages[i]).Quit?
    decreases |messages|
  {
    if messages != [] {
      ConversationEnding(messages[1..], respond);
      forall i | 0 < i < |messages| ensures messages[i] == messages[1..][i - 1] {
      }
      if Conversation(messages, respond).ending == Goodbye && !ReadMessage(messages[0]).Quit? {
        var j :| 0 <= j < |messages[1..]| && ReadMessage(messages[1..][j]).Quit?;
        assert ReadMessage(messages[j + 1]).Quit?;
      }
    }
  }

  // ---------------------------------------------------------------------------
  // The client-side tools
  // ---------------------------------------------------------------------------

  const InfoEmoji: string := "ℹ️"
  const LoudspeakerEmoji: string := "\U{1F4E2}"
  const WarningEmoji: string := "⚠️"

  const UrgencyEmojis: map<string, string> := map["low" := InfoEmoji, "normal" := LoudspeakerEmoji, "high" := WarningEmoji]

  /** The emoji of an urgency level; an unknown level gets the one of "normal". */
  function UrgencyEmoji(urgency: string): string {
    if urgency in UrgencyEmojis then UrgencyEmojis[urgency] else LoudspeakerEmoji
  }

  /** The three known levels have three different emoji, and every other level is shown like "normal". */
  lemma UrgencyEmojiSpec(urgency: string)
    ensures urgency == "low" ==> UrgencyEmoji(urgency) == InfoEmoji
    ensures urgency == "high" ==> UrgencyEmoji(urgency) == WarningEmoji
    ensures urgency != "low" && urgency != "high" ==> UrgencyEmoji(urgency) == UrgencyEmoji("normal")
    ensures InfoEmoji != LoudspeakerEmoji && LoudspeakerEmoji != WarningEmoji && InfoEmoji != WarningEmoji
  {
    assert InfoEmoji[0] != WarningEmoji[0];
  }

  /** The lines printed for a notification and the string returned to the agent. */
  datatype Notification = Notification(printed: seq<string>, reply: string)

  const DisplayedPrefix: string := "Notification displayed: "

  /** `show_notification`. */
  function ShowNotification(title: string, message: string, urgency: string): Notification {
    Notification(
      ["\n" + UrgencyEmoji(urgency) + " NOTIFICATION [" + Upper(urgency) + "]",
       "   Title: " + title,
       "   Message: " + message + "\n"],
      DisplayedPrefix + title)
  }

  /** The reply names the title, which can be read back from it; the message is printed but not returned. */
  lemma ShowNotificationSpec(title: string, message: string, urgency: string)
    ensures DisplayedPrefix <= ShowNotification(title, message, urgency).reply
    ensures ShowNotification(title, message, urgency).reply[|DisplayedPrefix|..] == title
    ensures ShowNotification(title, message, urgency).reply == ShowNotification(title, "", "normal").reply
    ensures |ShowNotification(title, message, urgency).printed| == 3
  {
  }

  /** The functions of the frontend-tools client. */
  datatype FrontendTool = GetUserLocation | ReadLocalPreferences | GetDeviceInfo | ShowNotificationTool

  function ToolName(t: FrontendTool): string {
    match t
    case GetUserLocation => "get_user_location"
    case ReadLocalPreferences => "read_local_preferences"
    case GetDeviceInfo => "get_device_info"
    case ShowNotificationTool => "show_notification"
  }

  /** `FRONTEND_TOOLS`, in declaration order. */
  const FrontendTools: seq<(string, FrontendTool)> := [
    ("get_user_location", GetUserLocation),
    ("read_local_preferences", ReadLocalPreferences),
    ("get_device_info", GetDeviceInfo),
    ("show_notification", ShowNotificationTool)
  ]

  /** The tool registered under a name; as in a dict built from these pairs, the last pair wins. */
  function FindTool(entries: seq<(string, FrontendTool)>, name: string): Option<FrontendTool>
    decreases |entries|
  {
    if entries == [] then None
    else if entries[|entries| - 1].0 == name then Some(entries[|entries| - 1].1)
    else FindTool(entries[..|entries| - 1], name)
  }

  /** A name registered once, at index `i`, finds the tool registered there. */
  lemma {:induction false} FindToolAt(entries: seq<(string, FrontendTool)>, i: nat)
    requires i < |entries|
    requires forall j :: i < j < |entries| ==> entries[j].0 != entries[i].0
    ensures FindTool(entries, entries[i].0) == Some(entries[i].1)
    decreases |entries|
  {
    if i < |entries| - 1 {
      var init := entries[..|entries| - 1];
      assert init[i] == entries[i];
      FindToolAt(init, i);
    }
  }

  lemma ToolNamesDistinct(a: FrontendTool, b: FrontendTool)
    ensures ToolName(a) == ToolName(b) ==> a == b
  {
    if ToolName(a) == ToolName(b) {
      assert ToolName(a)[4] == ToolName(b)[4];
      assert |ToolName(a)| == |ToolName(b)|;
    }
  }

  /**
   * The registry has four entries, each name mapping to the tool of that name; every tool
   * is registered, and looking a tool's name up finds that tool.
   */
  lemma RegistrySpec(t: FrontendTool)
    ensures |FrontendTools| == 4
    ensures forall i :: 0 <= i < |FrontendTools| ==> FrontendTools[i].0 == ToolName(FrontendTools[i].1)
    ensures exists i :: 0 <= i < |FrontendTools| && FrontendTools[i].1 == t
    ensures FindTool(FrontendTools, ToolName(t)) == Some(t)
  {
    var r := FrontendTools;
    var i := match t
      case GetUserLocation => 0
      case ReadLocalPreferences => 1
      case GetDeviceInfo => 2
      case ShowNotificationTool => 3;
    assert r[i].1 == t;
    forall j | i < j < |r| ensures r[j].0 != r[i].0 {
      ToolNamesDistinct(r[j].1, t);
    }
    FindToolAt(r, i);
  }

  /** The answer of the IP geolocation service: unreachable, or a status code and a body that may not be JSON. */
  datatype GeoReply = Unreachable | Reply(statusCode: int, body: Option<Json>)

  const IpMethod: string := "IP-based geolocation"
  const FallbackMethod: string := "fallback (simulated)"

  /** The simulated location used whenever the lookup fails. */
  const Toronto: Json := Obj([
    ("latitude", Real(43.6532)),
    ("longitude", Real(-79.3832)),
    ("accuracy_meters", Real(10.0)),
    ("city", Str("Toronto")),
    ("province", Str("Ontario")),
    ("country", Str("Canada")),
    ("method", Str(FallbackMethod))
  ])

  /** `data.get(key)`, None as JSON null. */
  function Get(data: Json, key: string): Json {
    Member(data, key).GetOr(Null)
  }

  /** The record built from a successful lookup. */
  function IpLocation(data: Json): Json {
    Obj([
      ("latitude", Get(data, "latitude")),
      ("longitude", Get(data, "longitude")),
      ("accuracy_meters", Real(1000.0)),
      ("city", Get(data, "city")),
      ("region", Get(data, "region")),
      ("country", Get(data, "country_name")),
      ("method", Str(IpMethod))
    ])
  }

  /** A key stored once, at index `i`, is found with the value stored there. */
  lemma {:induction false} LookupAt(fields: seq<(string, Json)>, i: nat)
    requires i < |fields|
    requires forall j :: i < j < |fields| ==> fields[j].0 != fields[i].0
    ensures Lookup(fields, fields[i].0) == Some(fields[i].1)
    decreases |fields|
  {
    if i < |fields| - 1 {
      var init := fields[..|fields| - 1];
      assert init[i] == fields[i];
      LookupAt(init, i);
    }
  }

  /** A reply the lookup can use: status 200 and a JSON object (`.get` on anything else raises). */
  predicate Usable(reply: GeoReply) {
    reply.Reply? && reply.statusCode == 200 && reply.body.Some? && reply.body.value.Obj?
  }

  /** `get_user_location`; the network request is the parameter. */
  function UserLocation(reply: GeoReply): Json {
    if Usable(reply) then IpLocation(reply.body.value) else Toronto
  }

  /**
   * The simulated Toronto record is returned exactly when the reply is unusable (no reply,
   * another status, a body that is not a JSON object); otherwise the record carries the
   * service's city and coordinates and says it came from the IP lookup.
   */
  lemma UserLocationSpec(reply: GeoReply)
    ensures UserLocation(reply) == Toronto <==> !Usable(reply)
    ensures Usable(reply) ==> Member(UserLocation(reply), "method") == Some(Str(IpMethod))
    ensures Usable(reply) ==> Member(UserLocation(reply), "city") == Some(Get(reply.body.value, "city"))
    ensures Usable(reply) ==> Member(UserLocation(reply), "latitude") == Some(Get(reply.body.value, "latitude"))
    ensures !Usable(reply) ==> Member(UserLocation(reply), "method") == Some(Str(FallbackMethod))
  {
    if Usable(reply) {
      var r := UserLocation(reply);
      assert r.fields[6] == ("method", Str(IpMethod));
      forall j | 0 < j < 7 ensures r.fields[j].0 != r.fields[0].0 {
        assert r.fields[j].0[0] != 'l' || r.fields[j].0[1] != 'a';
      }
      forall j | 3 < j < 7 ensures r.fields[j].0 != r.fields[3].0 {
        assert r.fields[j].0[0] != 'c' || r.fields[j].0[1] != 'i';
      }
      LookupAt(r.fields, 0);
      LookupAt(r.fields, 3);
      assert Toronto.fields[6] == ("method", Str(FallbackMethod));
      assert IpMethod[0] != FallbackMethod[0];
    }
  }
}
