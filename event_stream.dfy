// The `text/event-stream` wire format as far as this system uses it: a frame is
// one `data:` line followed by a blank line. The receiving side is the data-field
// part of "Interpreting an event stream" (sections 9.2.5 and 9.2.6 of the WHATWG
// HTML Living Standard): lines end at LF, `data` values are collected into a data
// buffer, and a blank line dispatches the buffer as one message.

module EventStream {
  import opened Text

  /** One frame carrying `payload` as its data. */
  function FrameText(payload: string): string {
    "data: " + payload + "\n\n"
  }

  /** The frames for `payloads`, one after another. */
  function StreamText(payloads: seq<string>): string {
    if payloads == [] then "" else FrameText(payloads[0]) + StreamText(payloads[1..])
  }

  /** The index of the first colon of `line`, or `|line|` when there is none. */
  function ColonIndex(line: string): (i: nat)
    ensures i <= |line|
    ensures ':' !in line[..i]
    ensures i < |line| ==> line[i] == ':'
  {
    if |line| == 0 || line[0] == ':' then 0
    else
      var j := ColonIndex(line[1..]);
      assert line[..j + 1] == [line[0]] + line[1..][..j];
      j + 1
  }

  /** A field line split into field name and value; one space after the colon is dropped. */
  function Field(line: string): (string, string) {
    var i := ColonIndex(line);
    var value := if i < |line| then line[i + 1..] else "";
    (line[..i], if value != [] && value[0] == ' ' then value[1..] else value)
  }

  /** The data buffer as it is handed to a dispatched message: one trailing LF dropped. */
  function Dispatched(buffer: string): string {
    if buffer != [] && buffer[|buffer| - 1] == '\n' then buffer[..|buffer| - 1] else buffer
  }

  /**
   * The data of the messages that `lines` dispatch, starting with data buffer `buffer`:
   * a blank line dispatches a non-empty buffer, a `data` field appends its value and
   * a LF, comments and other fields change nothing.
   */
  function Messages(lines: seq<string>, buffer: string): seq<string>
    decreases |lines|
  {
    if lines == [] then []
    else if lines[0] == "" then
      (if buffer == "" then [] else [Dispatched(buffer)]) + Messages(lines[1..], "")
    else if lines[0][0] == ':' then Messages(lines[1..], buffer)
    else
      var (name, value) := Field(lines[0]);
      if name == "data" then Messages(lines[1..], buffer + value + "\n")
      else Messages(lines[1..], buffer)
  }

  /** The complete lines of `s`; what follows the last LF is pending and is discarded. */
  function Lines(s: string): seq<string> {
    var pieces := Split(s, '\n');
    pieces[..|pieces| - 1]
  }

  /** The data of every message a receiver dispatches for the stream `s`. */
  function Receive(s: string): seq<string> {
    Messages(Lines(s), "")
  }

  /** The lines of a frame stream: a `data: ` line and a blank line per frame. */
  function FrameLines(payloads: seq<string>): seq<string> {
    if payloads == [] then [] else ["data: " + payloads[0], ""] + FrameLines(payloads[1..])
  }

  predicate SingleLinePayloads(payloads: seq<string>) {
    forall i :: 0 <= i < |payloads| ==> '\n' !in payloads[i]
  }

  lemma DataLineSingle(p: string)
    requires '\n' !in p
    ensures '\n' !in "data: " + p
  {
    var line := "data: " + p;
    forall k | 0 <= k < |line| ensures line[k] != '\n' {
      if k >= 6 { assert line[k] == p[k - 6]; }
    }
  }

  /** The lines of one frame in front of more text. */
  lemma SplitFrame(p: string, rest: string)
    requires '\n' !in p
    ensures Split(FrameText(p) + rest, '\n') == ["data: " + p, ""] + Split(rest, '\n')
  {
    assert FrameText(p) + rest == ("data: " + p) + ("\n" + ("\n" + rest));
    SplitSeparator("\n" + rest, '\n');
    SplitSeparator(rest, '\n');
    DataLineSingle(p);
    SplitPrefix("data: " + p, "\n" + ("\n" + rest), '\n');
    assert "data: " + p + "" == "data: " + p;
  }

  lemma {:induction false} SplitFrames(payloads: seq<string>)
    requires SingleLinePayloads(payloads)
    ensures Split(StreamText(payloads), '\n') == FrameLines(payloads) + [""]
  {
    if payloads != [] {
      assert SingleLinePayloads(payloads[1..]) by {
        forall i | 0 <= i < |payloads[1..]| ensures '\n' !in payloads[1..][i] {
          assert payloads[1..][i] == payloads[i + 1];
        }
      }
      SplitFrames(payloads[1..]);
      SplitFrame(payloads[0], StreamText(payloads[1..]));
    }
  }

  /** The field parsing of one frame's `data:` line. */
  lemma DataLine(p: string)
    ensures Field("data: " + p) == ("data", p)
  {
    var line := "data: " + p;
    assert line[..4] == "data";
    assert ColonIndex(line) == 4 by {
      assert ColonIndex(line[4..]) == 0;
      assert line[3..][1..] == line[4..];
      assert ColonIndex(line[3..]) == 1;
      assert line[2..][1..] == line[3..];
      assert ColonIndex(line[2..]) == 2;
      assert line[1..][1..] == line[2..];
      assert ColonIndex(line[1..]) == 3;
    }
    assert line[5..] == " " + p;
    assert line[5..][1..] == p;
  }

  lemma {:induction false} MessagesOfFrames(payloads: seq<string>)
    ensures Messages(FrameLines(payloads), "") == payloads
  {
    if payloads != [] {
      var p := payloads[0];
      var ls := FrameLines(payloads);
      DataLine(p);
      assert ls[0] == "data: " + p && ls[1..] == [""] + FrameLines(payloads[1..]);
      assert ls[1..][1..] == FrameLines(payloads[1..]);
      assert ("data: " + p)[0] == 'd';
      assert Dispatched("" + p + "\n") == p by {
        assert ("" + p + "\n")[..|p|] == p;
      }
      MessagesOfFrames(payloads[1..]);
    }
  }

  /**
   * Round trip of the frame format: a receiver dispatches exactly one message per
   * frame, carrying that frame's payload, in order, as long as no payload spans lines.
   */
  lemma ReceiveFrames(payloads: seq<string>)
    requires SingleLinePayloads(payloads)
    ensures Receive(StreamText(payloads)) == payloads
  {
    SplitFrames(payloads);
    assert Lines(StreamText(payloads)) == FrameLines(payloads);
    MessagesOfFrames(payloads);
  }
}
