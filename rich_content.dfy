// The rich-content marker protocol of the AG-UI web page
// (agui_maf_demo/agui_web_ui/app/page.tsx, `RichContent`): tool results carry
// `[KIND]body[/KIND]` markers, which the page extracts and strips before it
// renders the remaining text.
//
// A pattern `/\[KIND\](.*?)\[\/KIND\]/` is modelled exactly as a JavaScript
// regular expression without the `s` flag behaves: the leftmost position where
// the open marker starts a match wins, the body is the shortest run with no
// line terminator that is followed by the close marker, and a global scan
// resumes right after the end of the previous match.

/**
 * Global and non-global scans of a regular expression, for any pattern given as
 * the attempt to match at position 0 of a text.
 */
module RegexScan {
  import opened Wrappers

  /** A match that starts at position 0: its group 1 and the length of the whole match. */
  datatype Hit = Hit(body: string, length: nat)

  /** The engine's attempt to match the pattern at the start of a text. */
  type Matcher = string -> Option<Hit>

  /** Every match lies within the text and consumes at least one character. */
  ghost predicate Consumes(m: Matcher) {
    forall x :: m(x).Some? ==> 0 < m(x).value.length <= |x|
  }

  /** A match can only start at a `[`. */
  ghost predicate StartsAtBracket(m: Matcher) {
    forall x :: m(x).Some? ==> |x| > 0 && x[0] == '['
  }

  /** The bodies of all matches of a global scan, left to right (the `while (re.exec(...))` loop). */
  function Bodies(s: string, m: Matcher): seq<string>
    requires Consumes(m)
    decreases |s|
  {
    if |s| == 0 then []
    else match m(s)
      case Some(h) => [h.body] + Bodies(s[h.length..], m)
      case None => Bodies(s[1..], m)
  }

  /** `s.replace(re, "")` with the global pattern: every match removed, the rest kept in order. */
  function Remove(s: string, m: Matcher): string
    requires Consumes(m)
    decreases |s|
  {
    if |s| == 0 then ""
    else match m(s)
      case Some(h) => Remove(s[h.length..], m)
      case None => [s[0]] + Remove(s[1..], m)
  }

  /** `s.match(re)` with the non-global pattern: group 1 of the leftmost match. */
  function MatchFirst(s: string, m: Matcher): Option<string>
    decreases |s|
  {
    if |s| == 0 then None
    else match m(s)
      case Some(h) => Some(h.body)
      case None => MatchFirst(s[1..], m)
  }

  /**
   * `regex.exec(s)` with `regex.lastIndex == last`: the engine tries each start position
   * from `last` on; the result is the first where a match begins, with that match.
   */
  function Exec(s: string, m: Matcher, last: nat): (r: Option<(nat, Hit)>)
    requires Consumes(m) && last <= |s|
    ensures r.Some? ==> last <= r.value.0 && r.value.0 + r.value.1.length <= |s|
    decreases |s| - last
  {
    if last == |s| then None
    else
      match m(s[last..])
      case Some(h) => Some((last, h))
      case None => Exec(s, m, last + 1)
  }

  /** The non-global match finds the first body the global scan finds. */
  lemma {:induction false} MatchFirstIsFirstBody(s: string, m: Matcher)
    requires Consumes(m)
    ensures MatchFirst(s, m) == if Bodies(s, m) == [] then None else Some(Bodies(s, m)[0])
    decreases |s|
  {
    if |s| > 0 && m(s).None? {
      MatchFirstIsFirstBody(s[1..], m);
    }
  }

  lemma ExecSkip(s: string, m: Matcher, last: nat)
    requires Consumes(m)
    requires last < |s| && m(s[last..]).None?
    ensures Bodies(s[last..], m) == Bodies(s[last + 1..], m)
    ensures Exec(s, m, last) == Exec(s, m, last + 1)
  {
    assert s[last..][1..] == s[last + 1..];
  }

  lemma ExecHere(s: string, m: Matcher, last: nat, h: Hit)
    requires Consumes(m)
    requires last < |s| && m(s[last..]) == Some(h)
    ensures Exec(s, m, last) == Some((last, h))
    ensures Bodies(s[last..], m) == [h.body] + Bodies(s[last + h.length..], m)
  {
    assert s[last..][h.length..] == s[last + h.length..];
  }

  /** When `exec` finds nothing, the global scan yields nothing from `last` on. */
  lemma {:induction false} ExecNone(s: string, m: Matcher, last: nat)
    requires Consumes(m)
    requires last <= |s| && Exec(s, m, last).None?
    ensures Bodies(s[last..], m) == []
    decreases |s| - last
  {
    if last < |s| {
      ExecSkip(s, m, last);
      ExecNone(s, m, last + 1);
    }
  }

  /** When `exec` finds a match, it is the next body of the global scan, which resumes after it. */
  lemma {:induction false} ExecSome(s: string, m: Matcher, last: nat, start: nat, h: Hit)
    requires Consumes(m)
    requires last <= |s| && Exec(s, m, last) == Some((start, h))
    ensures Bodies(s[last..], m) == [h.body] + Bodies(s[start + h.length..], m)
    decreases |s| - last
  {
    match m(s[last..])
    case Some(h') =>
      ExecHere(s, m, last, h');
    case None =>
      ExecSkip(s, m, last);
      ExecSome(s, m, last + 1, start, h);
  }

  /** One round of the page's loop keeps "bodies found so far, then the bodies still ahead" equal to all bodies. */
  lemma ExecProgress(s: string, m: Matcher, last: nat, start: nat, h: Hit, bodies: seq<string>)
    requires Consumes(m)
    requires last <= |s| && Exec(s, m, last) == Some((start, h))
    requires bodies + Bodies(s[last..], m) == Bodies(s, m)
    ensures (bodies + [h.body]) + Bodies(s[start + h.length..], m) == Bodies(s, m)
  {
    ExecSome(s, m, last, start, h);
    var rest := Bodies(s[start + h.length..], m);
    assert (bodies + [h.body]) + rest == bodies + ([h.body] + rest);
  }

  /** The global scan over `content`, as the page's `while ((match = re.exec(content)) !== null)` loop. */
  method ExecAll(content: string, m: Matcher) returns (bodies: seq<string>)
    requires Consumes(m)
    ensures bodies == Bodies(content, m)
  {
    bodies := [];
    var last: nat := 0;
    var done := false;
    while !done
      invariant last <= |content|
      invariant bodies + Bodies(content[last..], m) == Bodies(content, m)
      invariant done ==> Bodies(content[last..], m) == []
      decreases |content| - last, if done then 0 else 1
    {
      match Exec(content, m, last)
      case None =>
        ExecNone(content, m, last);
        done := true;
      case Some((start, h)) =>
        ExecProgress(content, m, last, start, h, bodies);
        bodies := bodies + [h.body];
        last := start + h.length;
    }
  }

  /** A text in front of `t`, seen from its first character. */
  lemma Uncons(x: string, t: string)
    requires |x| >= 1
    ensures (x + t)[0] == x[0] && (x + t)[1..] == x[1..] + t
    ensures x + t == [x[0]] + (x[1..] + t)
  {
  }

  /** Text in front of `t` where no match starts contributes no match and survives removal unchanged. */
  lemma {:induction false} SkipNoMatch(a: string, t: string, m: Matcher)
    requires Consumes(m)
    requires forall j :: 0 <= j < |a| ==> m((a + t)[j..]).None?
    ensures Bodies(a + t, m) == Bodies(t, m)
    ensures Remove(a + t, m) == a + Remove(t, m)
    ensures MatchFirst(a + t, m) == MatchFirst(t, m)
    decreases |a|
  {
    if |a| > 0 {
      Uncons(a, t);
      assert (a + t)[0..] == a + t;
      forall j | 0 <= j < |a| - 1 ensures m((a[1..] + t)[j..]).None? {
        assert (a[1..] + t)[j..] == (a + t)[j + 1..];
      }
      SkipNoMatch(a[1..], t, m);
      Uncons(a, Remove(t, m));
    } else {
      assert a + t == t;
      assert a + Remove(t, m) == Remove(t, m);
    }
  }

  /** Text without `[` contains no match and survives removal unchanged. */
  lemma SkipPlain(a: string, t: string, m: Matcher)
    requires Consumes(m) && StartsAtBracket(m) && '[' !in a
    ensures Bodies(a + t, m) == Bodies(t, m)
    ensures Remove(a + t, m) == a + Remove(t, m)
    ensures MatchFirst(a + t, m) == MatchFirst(t, m)
  {
    forall j | 0 <= j < |a| ensures m((a + t)[j..]).None? {
      assert (a + t)[j..][0] == a[j];
    }
    SkipNoMatch(a, t, m);
  }

  /** Text that starts with `[`, has no other `[`, and is not the start of a match is passed over. */
  lemma SkipUnmatched(x: string, t: string, m: Matcher)
    requires Consumes(m) && StartsAtBracket(m)
    requires |x| >= 1 && '[' !in x[1..] && m(x + t).None?
    ensures Bodies(x + t, m) == Bodies(t, m)
    ensures Remove(x + t, m) == x + Remove(t, m)
    ensures MatchFirst(x + t, m) == MatchFirst(t, m)
  {
    Uncons(x, t);
    SkipPlain(x[1..], t, m);
    Uncons(x, Remove(t, m));
  }

  lemma Assoc(x: string, y: string, t: string)
    ensures x + y + t == x + (y + t)
  {
  }

  /** Two runs that each start with their only `[`, where no match starts, are passed over. */
  lemma SkipPair(x: string, y: string, t: string, m: Matcher)
    requires Consumes(m) && StartsAtBracket(m)
    requires |x| >= 1 && '[' !in x[1..] && |y| >= 1 && '[' !in y[1..]
    requires m(x + y + t).None? && m(y + t).None?
    ensures Bodies(x + y + t, m) == Bodies(t, m)
    ensures Remove(x + y + t, m) == x + y + Remove(t, m)
    ensures MatchFirst(x + y + t, m) == MatchFirst(t, m)
  {
    Assoc(x, y, t);
    Assoc(x, y, Remove(t, m));
    SkipUnmatched(y, t, m);
    SkipUnmatched(x, y + t, m);
  }

  /** The three scans at a match that covers exactly `x`. */
  lemma HitStep(x: string, t: string, m: Matcher, body: string)
    requires Consumes(m) && m(x + t) == Some(Hit(body, |x|))
    ensures Bodies(x + t, m) == [body] + Bodies(t, m)
    ensures Remove(x + t, m) == Remove(t, m)
    ensures MatchFirst(x + t, m) == Some(body)
  {
    assert (x + t)[|x|..] == t;
  }
}

/** The four marker patterns of the page and what they match at position 0. */
module Markers {
  import opened Wrappers
  import opened RegexScan

  datatype Kind = WeatherIcon | Link | CalcResult | ImageId

  /** The word between the brackets of a kind's markers. */
  function Name(k: Kind): (n: string)
    ensures |n| >= 1 && 'A' <= n[0] <= 'Z' && '[' !in n
  {
    match k
    case WeatherIcon => "WEATHER_ICON"
    case Link => "LINK"
    case CalcResult => "CALC_RESULT"
    case ImageId => "IMAGE_ID"
  }

  /** The literal text of the pattern `/\[KIND\](.*?)\[\/KIND\]/`: open marker, lazy body, close marker. */
  datatype Pattern = Pattern(open: string, close: string)

  /** Both markers start with `[` and have no other `[`; only the close marker continues with `/`. */
  predicate ValidPattern(p: Pattern) {
    |p.open| >= 2 && p.open[0] == '[' && p.open[1] != '/' && '[' !in p.open[1..]
    && |p.close| >= 2 && p.close[0] == '[' && p.close[1] == '/' && '[' !in p.close[1..]
  }

  lemma WordPatternValid(name: string)
    requires |name| >= 1 && name[0] != '/' && '[' !in name
    ensures ValidPattern(Pattern("[" + name + "]", "[/" + name + "]"))
  {
    assert ("[" + name + "]")[1..] == name + "]";
    assert ("[/" + name + "]")[1..] == "/" + name + "]";
  }

  /** `[KIND]` and `[/KIND]`. */
  function PatternOf(k: Kind): (p: Pattern)
    ensures ValidPattern(p)
    ensures p.open == "[" + Name(k) + "]" && p.close == "[/" + Name(k) + "]"
  {
    WordPatternValid(Name(k));
    Pattern("[" + Name(k) + "]", "[/" + Name(k) + "]")
  }

  /** Distinct kinds have open markers that already differ in their second character. */
  lemma PatternsDistinct(k: Kind, k': Kind)
    requires k != k'
    ensures PatternOf(k).open[1] != PatternOf(k').open[1]
  {
    assert PatternOf(k).open[1] == Name(k)[0];
    assert PatternOf(k').open[1] == Name(k')[0];
  }

  /** A table of patterns, one per kind, whose open markers differ in their second character. */
  ghost predicate DistinctPatterns(pat: Kind -> Pattern) {
    (forall k :: ValidPattern(pat(k)))
    && (forall k, k' :: k != k' ==> pat(k).open[1] != pat(k').open[1])
  }

  /** The page's four patterns form such a table. */
  lemma PagePatternsDistinct()
    ensures DistinctPatterns(PatternOf)
  {
    forall k, k' | k != k' ensures PatternOf(k).open[1] != PatternOf(k').open[1] {
      PatternsDistinct(k, k');
    }
  }

  /** The characters that `.` does not match in a JavaScript regular expression without the `s` flag. */
  predicate IsLineTerminator(c: char) {
    c == '\n' || c == '\r' || c == '\U{2028}' || c == '\U{2029}'
  }

  predicate SingleLine(s: string) {
    forall i :: 0 <= i < |s| ==> !IsLineTerminator(s[i])
  }

  /**
   * The lazy `(.*?)` followed by the close marker, tried from position `j`: the least
   * position at or after `j` where `close` starts, provided no line terminator lies between.
   */
  function CloseFrom(s: string, close: string, j: nat): (r: Option<nat>)
    requires j <= |s|
    ensures r.Some? ==> j <= r.value && r.value + |close| <= |s|
    decreases |s| - j
  {
    if StartsAt(s, j, close) then Some(j)
    else if j < |s| && !IsLineTerminator(s[j]) then CloseFrom(s, close, j + 1)
    else None
  }

  /** A match of the pattern that starts at position 0 of `s`: the position where its body ends. */
  function MatchPrefix(s: string, p: Pattern): (r: Option<nat>)
    ensures r.Some? ==> |p.open| <= r.value && r.value + |p.close| <= |s|
  {
    if p.open <= s then CloseFrom(s, p.close, |p.open|) else None
  }

  /** The match at position 0, as the engine reports it: the body and the length of open marker, body and close marker. */
  function HitAt(s: string, p: Pattern): (r: Option<Hit>)
    ensures r.Some? ==> p.open <= s
  {
    match MatchPrefix(s, p)
    case Some(e) => Some(Hit(s[|p.open|..e], e + |p.close|))
    case None => None
  }

  lemma HitAtBounds(s: string, p: Pattern)
    requires ValidPattern(p)
    ensures HitAt(s, p).Some? ==> 0 < HitAt(s, p).value.length <= |s|
    ensures HitAt(s, p).Some? ==> |s| > 0 && s[0] == '['
  {
  }

  /** The attempt to match pattern `p`: every match consumes text and starts at a `[`. */
  function PatternMatcher(p: Pattern): (m: Matcher)
    requires ValidPattern(p)
    ensures Consumes(m) && StartsAtBracket(m)
  {
    var m := x => HitAt(x, p);
    assert Consumes(m) && StartsAtBracket(m) by {
      forall x ensures m(x).Some? ==> 0 < m(x).value.length <= |x| && x[0] == '[' {
        HitAtBounds(x, p);
      }
    }
    m
  }

  function MatcherOf(k: Kind): (m: Matcher)
    ensures Consumes(m) && StartsAtBracket(m)
  {
    PatternMatcher(PatternOf(k))
  }

  // ---- What the patterns match at position 0 ----

  /** `w` occurs in `s` at position `j`. */
  predicate StartsAt(s: string, j: nat, w: string) {
    j <= |s| && w <= s[j..]
  }

  /** No occurrence of `w` starts anywhere in `s`. */
  predicate Avoids(s: string, w: string) {
    forall j :: 0 <= j < |s| ==> !StartsAt(s, j, w)
  }

  /** A text that holds no occurrence of `w` holds none in any suffix. */
  lemma AvoidsSuffix(a: string, b: string, w: string)
    requires Avoids(a + b, w)
    ensures Avoids(b, w)
  {
    forall j | 0 <= j < |b| ensures !StartsAt(b, j, w) {
      assert (a + b)[|a| + j..] == b[j..];
      assert !StartsAt(a + b, |a| + j, w);
    }
  }

  /**
   * A word whose only `[` is its first character does not start in `b` when `b` avoids it
   * and is followed by a `[`: the word cannot run past the end of `b`.
   */
  lemma AvoidsBeforeBracket(b: string, u: string, w: string, i: nat)
    requires Avoids(b, w) && |w| >= 1 && '[' !in w[1..] && |u| >= 1 && u[0] == '[' && i < |b|
    ensures !StartsAt(b + u, i, w)
  {
    var s := (b + u)[i..];
    if i + |w| <= |b| {
      assert !StartsAt(b, i, w);
      assert s[..|w|] == b[i..][..|w|];
    } else {
      var d := |b| - i;
      assert s[d] == u[0];
      assert w[1..][d - 1] == w[d];
    }
  }

  /**
   * Inside the first `e` characters of the body of `o + (b + c)`, where `c` starts with `[`
   * and those characters are one line, neither `w` starts nor a line terminator stands.
   */
  lemma BodyClear(o: string, b: string, c: string, w: string, e: nat)
    requires Avoids(b, w) && |w| >= 1 && '[' !in w[1..] && |c| >= 1 && c[0] == '['
    requires e <= |b| && SingleLine(b[..e])
    ensures forall i :: |o| <= i < |o| + e ==> !StartsAt(o + (b + c), i, w) && !IsLineTerminator((o + (b + c))[i])
  {
    forall i | |o| <= i < |o| + e
      ensures !StartsAt(o + (b + c), i, w) && !IsLineTerminator((o + (b + c))[i])
    {
      assert (o + (b + c))[i..] == (b + c)[i - |o|..];
      assert (o + (b + c))[i] == b[..e][i - |o|];
      AvoidsBeforeBracket(b, c, w, i - |o|);
    }
  }

  /** Right after the body of `o + (b + c)`, where `c` starts with `[`, `w` does not start inside the body. */
  lemma BodyAvoids(o: string, b: string, c: string, w: string, i: nat)
    requires Avoids(b, w) && |w| >= 1 && '[' !in w[1..] && |c| >= 1 && c[0] == '['
    requires |o| <= i < |o| + |b|
    ensures !StartsAt(o + (b + c), i, w) && (o + (b + c))[i] == b[i - |o|]
  {
    assert (o + (b + c))[i..] == (b + c)[i - |o|..];
    AvoidsBeforeBracket(b, c, w, i - |o|);
  }

  lemma {:induction false} CloseFound(s: string, close: string, j: nat, e: nat)
    requires j <= e && StartsAt(s, e, close)
    requires forall i :: j <= i < e ==> !StartsAt(s, i, close) && !IsLineTerminator(s[i])
    ensures CloseFrom(s, close, j) == Some(e)
    decreases e - j
  {
    if j < e {
      CloseFound(s, close, j + 1, e);
    }
  }

  lemma {:induction false} CloseMissed(s: string, close: string, j: nat, e: nat)
    requires j <= e < |s| && !StartsAt(s, e, close) && IsLineTerminator(s[e])
    requires forall i :: j <= i < e ==> !StartsAt(s, i, close) && !IsLineTerminator(s[i])
    ensures CloseFrom(s, close, j) == None
    decreases e - j
  {
    if j < e {
      CloseMissed(s, close, j + 1, e);
    }
  }

  /**
   * A match starts at a single-line marker whose body holds no close marker of its pattern,
   * and its body is that body.
   */
  lemma MarkerPrefix(b: string, r: string, p: Pattern)
    requires ValidPattern(p) && SingleLine(b) && Avoids(b, p.close)
    ensures HitAt(p.open + b + p.close + r, p) == Some(Hit(b, |p.open| + |b| + |p.close|))
  {
    var s := p.open + (b + (p.close + r));
    BodyEnds(b, r, p);
    assert s[..|p.open|] == p.open;
    assert s[|p.open|..|p.open| + |b|] == b;
    assert s == p.open + b + p.close + r;
  }

  /** The lazy body that follows an open marker ends where the close marker stands. */
  lemma BodyEnds(b: string, r: string, p: Pattern)
    requires ValidPattern(p) && SingleLine(b) && Avoids(b, p.close)
    ensures var s := p.open + (b + (p.close + r)); CloseFrom(s, p.close, |p.open|) == Some(|p.open| + |b|)
  {
    CloseEnds(p.open, b, p.close, r);
  }

  /** In `o + (b + (w + r))`, the search for `w` from the body's start stops where `w` stands. */
  lemma CloseEnds(o: string, b: string, w: string, r: string)
    requires Avoids(b, w) && |w| >= 1 && w[0] == '[' && '[' !in w[1..] && SingleLine(b)
    ensures CloseFrom(o + (b + (w + r)), w, |o|) == Some(|o| + |b|)
  {
    var c := w + r;
    assert b[..|b|] == b;
    assert c[0] == '[';
    BodyClear(o, b, c, w, |b|);
    assert (o + (b + c))[|o| + |b|..] == c;
    CloseFound(o + (b + c), w, |o|, |o| + |b|);
  }

  /** The first line terminator of a string that is not single-line. */
  lemma FirstLineTerminator(b: string) returns (i: nat)
    requires !SingleLine(b)
    ensures i < |b| && IsLineTerminator(b[i]) && SingleLine(b[..i])
  {
    i := 0;
    while !IsLineTerminator(b[i])
      invariant i < |b| && SingleLine(b[..i])
      invariant exists j :: i <= j < |b| && IsLineTerminator(b[j])
      decreases |b| - i
    {
      assert b[..i + 1] == b[..i] + [b[i]];
      i := i + 1;
    }
  }

  /**
   * No match starts at an open marker whose body holds no close marker and contains a
   * line terminator: the lazy body stops at the line terminator.
   */
  lemma MultiLineNoMatch(b: string, r: string, p: Pattern)
    requires ValidPattern(p) && Avoids(b, p.close) && !SingleLine(b)
    ensures HitAt(p.open + b + p.close + r, p).None?
  {
    BodyRunsOut(b, r, p);
    assert p.open + (b + (p.close + r)) == p.open + b + p.close + r;
  }

  /** The lazy body that follows an open marker runs into the first line terminator. */
  lemma BodyRunsOut(b: string, r: string, p: Pattern)
    requires ValidPattern(p) && Avoids(b, p.close) && !SingleLine(b)
    ensures var s := p.open + (b + (p.close + r)); CloseFrom(s, p.close, |p.open|).None?
  {
    var c := p.close + r;
    var s := p.open + (b + c);
    var n := |p.open|;
    var i := FirstLineTerminator(b);
    BodyClear(p.open, b, c, p.close, i);
    BodyAvoids(p.open, b, c, p.close, n + i);
    CloseMissed(s, p.close, n, n + i);
  }

  /** No match starts where the second character differs from the open marker's. */
  lemma WrongSecond(s: string, p: Pattern)
    requires ValidPattern(p) && |s| >= 2 && s[1] != p.open[1]
    ensures HitAt(s, p).None?
  {
  }
}

/** The scans of the page's patterns over marker text. */
module MarkerScan {
  import opened Wrappers
  import opened RegexScan
  import opened Markers

  /** A single-line marker whose body holds no close marker of its pattern is matched exactly. */
  lemma MarkerMatched(p: Pattern, b: string, t: string)
    requires ValidPattern(p) && SingleLine(b) && Avoids(b, p.close)
    ensures Bodies(p.open + b + p.close + t, PatternMatcher(p)) == [b] + Bodies(t, PatternMatcher(p))
    ensures Remove(p.open + b + p.close + t, PatternMatcher(p)) == Remove(t, PatternMatcher(p))
    ensures MatchFirst(p.open + b + p.close + t, PatternMatcher(p)) == Some(b)
  {
    var x := p.open + b + p.close;
    MarkerPrefix(b, t, p);
    assert |x| == |p.open| + |b| + |p.close|;
    HitStep(x, t, PatternMatcher(p), b);
  }

  /**
   * The markers of pattern `q` around a body that holds no open marker of `p` are passed over
   * by the scans of `p` when no match of `p` starts at either marker.
   */
  lemma SkipMarker(q: Pattern, b: string, t: string, p: Pattern)
    requires ValidPattern(p) && ValidPattern(q) && Avoids(b, p.open)
    requires HitAt(q.open + (b + (q.close + t)), p).None? && HitAt(q.close + t, p).None?
    ensures var s, m := q.open + (b + (q.close + t)), PatternMatcher(p);
      Bodies(s, m) == Bodies(t, m) && MatchFirst(s, m) == MatchFirst(t, m)
      && Remove(s, m) == q.open + (b + (q.close + Remove(t, m)))
  {
    var m := PatternMatcher(p);
    var c := q.close + t;
    SkipBody(b, c, p);
    SkipUnmatched(q.close, t, m);
    SkipUnmatched(q.open, b + c, m);
  }

  /** A body that holds no open marker of `p`, in front of a `[`, is passed over by the scans of `p`. */
  lemma SkipBody(b: string, c: string, p: Pattern)
    requires ValidPattern(p) && Avoids(b, p.open) && |c| >= 1 && c[0] == '['
    ensures Bodies(b + c, PatternMatcher(p)) == Bodies(c, PatternMatcher(p))
    ensures Remove(b + c, PatternMatcher(p)) == b + Remove(c, PatternMatcher(p))
    ensures MatchFirst(b + c, PatternMatcher(p)) == MatchFirst(c, PatternMatcher(p))
  {
    var m := PatternMatcher(p);
    forall j | 0 <= j < |b| ensures m((b + c)[j..]).None? {
      AvoidsBeforeBracket(b, c, p.open, j);
    }
    SkipNoMatch(b, c, m);
  }

  /**
   * A marker of another pattern, whose open marker differs from this one's in its second
   * character and whose body holds no open marker of this one, is left alone.
   */
  lemma OtherMarkerSkipped(q: Pattern, b: string, t: string, p: Pattern)
    requires ValidPattern(p) && ValidPattern(q) && q.open[1] != p.open[1] && Avoids(b, p.open)
    ensures Bodies(q.open + b + q.close + t, PatternMatcher(p)) == Bodies(t, PatternMatcher(p))
    ensures Remove(q.open + b + q.close + t, PatternMatcher(p)) == q.open + b + q.close + Remove(t, PatternMatcher(p))
    ensures MatchFirst(q.open + b + q.close + t, PatternMatcher(p)) == MatchFirst(t, PatternMatcher(p))
  {
    Regroup(q.open, b, q.close, t);
    Regroup(q.open, b, q.close, Remove(t, PatternMatcher(p)));
    WrongSecond(q.open + (b + (q.close + t)), p);
    WrongSecond(q.close + t, p);
    SkipMarker(q, b, t, p);
  }

  /**
   * A marker whose body spans lines, and holds neither marker of its pattern, is neither
   * extracted nor removed: the patterns have no `s` flag.
   */
  lemma MultiLineMarkerIgnored(p: Pattern, b: string, t: string)
    requires ValidPattern(p) && Avoids(b, p.open) && Avoids(b, p.close) && !SingleLine(b)
    ensures Bodies(p.open + b + p.close + t, PatternMatcher(p)) == Bodies(t, PatternMatcher(p))
    ensures Remove(p.open + b + p.close + t, PatternMatcher(p)) == p.open + b + p.close + Remove(t, PatternMatcher(p))
    ensures MatchFirst(p.open + b + p.close + t, PatternMatcher(p)) == MatchFirst(t, PatternMatcher(p))
  {
    Regroup(p.open, b, p.close, t);
    Regroup(p.open, b, p.close, Remove(t, PatternMatcher(p)));
    MultiLineNoMatch(b, t, p);
    WrongSecond(p.close + t, p);
    SkipMarker(p, b, t, p);
  }

  lemma Regroup(o: string, b: string, c: string, t: string)
    ensures o + b + c + t == o + (b + (c + t))
  {
  }
}

module RichContent {
  import opened Wrappers
  import opened RegexScan
  import opened Markers
  import opened MarkerScan

  /** What the page extracts from one message before rendering it. */
  datatype Rendered = Rendered(
    display: string,
    weatherIcon: Option<string>,
    links: seq<string>,
    calcResult: Option<string>,
    imageIds: seq<string>)

  /**
   * The page's reading of `content`: extraction always looks at the original content,
   * and removal is applied in turn, weather icon, link, calculation result, image id.
   */
  function RichContentOf(content: string): Rendered {
    var afterWeather := Remove(content, MatcherOf(WeatherIcon));
    var afterLinks := Remove(afterWeather, MatcherOf(Link));
    var afterCalc := Remove(afterLinks, MatcherOf(CalcResult));
    Rendered(
      Remove(afterCalc, MatcherOf(ImageId)),
      MatchFirst(content, MatcherOf(WeatherIcon)),
      Bodies(content, MatcherOf(Link)),
      MatchFirst(content, MatcherOf(CalcResult)),
      Bodies(content, MatcherOf(ImageId)))
  }

  /** `RichContent({content})` up to the markdown-to-HTML step. */
  method ParseRichContent(content: string) returns (r: Rendered)
    ensures r == RichContentOf(content)
  {
    var weatherIcon := MatchFirst(content, MatcherOf(WeatherIcon));
    var displayContent := Remove(content, MatcherOf(WeatherIcon));
    var links := ExecAll(content, MatcherOf(Link));
    displayContent := Remove(displayContent, MatcherOf(Link));
    var calcResult := MatchFirst(content, MatcherOf(CalcResult));
    displayContent := Remove(displayContent, MatcherOf(CalcResult));
    var imageIds := ExecAll(content, MatcherOf(ImageId));
    displayContent := Remove(displayContent, MatcherOf(ImageId));
    r := Rendered(displayContent, weatherIcon, links, calcResult, imageIds);
  }

  // ---- The serialiser side: text built from plain pieces and markers ----

  datatype Piece = Plain(text: string) | Marker(kind: Kind, body: string)

  /** The text of one piece, with the markers of table `pat`. */
  function PieceText(x: Piece, pat: Kind -> Pattern): string {
    match x
    case Plain(t) => t
    case Marker(k, b) => pat(k).open + b + pat(k).close
  }

  function RenderWith(ps: seq<Piece>, pat: Kind -> Pattern): string {
    if ps == [] then "" else PieceText(ps[0], pat) + RenderWith(ps[1..], pat)
  }

  /** The text a tool result carries: plain text and `[KIND]body[/KIND]` markers in order. */
  function Render(ps: seq<Piece>): string {
    RenderWith(ps, PatternOf)
  }

  /** What the scan for kind `k` extracts from one piece. */
  function Taken(x: Piece, k: Kind): seq<string> {
    if x.Marker? && x.kind == k then [x.body] else []
  }

  /** What the removal for kind `k` leaves of one piece. */
  function Kept(x: Piece, k: Kind): seq<Piece> {
    if x.Marker? && x.kind == k then [] else [x]
  }

  /** The bodies of the markers of kind `k`, in order. */
  function BodiesOf(ps: seq<Piece>, k: Kind): seq<string> {
    if ps == [] then [] else Taken(ps[0], k) + BodiesOf(ps[1..], k)
  }

  function FirstOf(ps: seq<Piece>, k: Kind): Option<string> {
    var bs := BodiesOf(ps, k);
    if bs == [] then None else Some(bs[0])
  }

  /** The pieces without the markers of kind `k`. */
  function Without(ps: seq<Piece>, k: Kind): seq<Piece> {
    if ps == [] then [] else Kept(ps[0], k) + Without(ps[1..], k)
  }

  /** The plain text, in order. */
  function PlainOf(ps: seq<Piece>): string {
    if ps == [] then ""
    else (if ps[0].Plain? then ps[0].text else "") + PlainOf(ps[1..])
  }

  /** No open marker of table `pat` starts anywhere in `s`. */
  ghost predicate NoOpen(s: string, pat: Kind -> Pattern) {
    forall k :: Avoids(s, pat(k).open)
  }

  /**
   * A body the page reads back unchanged from a marker of kind `k`: one line, without the
   * close marker of `k` and without the open marker of any other kind.
   */
  ghost predicate BodyFits(k: Kind, b: string, pat: Kind -> Pattern) {
    SingleLine(b) && Avoids(b, pat(k).close) && forall k' :: k' != k ==> Avoids(b, pat(k').open)
  }

  ghost predicate MarkersFit(ps: seq<Piece>, pat: Kind -> Pattern) {
    forall i :: 0 <= i < |ps| && ps[i].Marker? ==> BodyFits(ps[i].kind, ps[i].body, pat)
  }

  /**
   * Text in which no `[` is followed by the first letter of a marker word (`W`, `L`, `C`
   * or `I`) holds no open marker: `[1, 2, 3]` and `[PDF]` are plain text to the page.
   */
  lemma NoMarkerWord(s: string)
    requires forall i :: 0 <= i < |s| - 1 && s[i] == '[' ==> s[i + 1] !in "WLCI"
    ensures NoOpen(s, PatternOf)
  {
    forall k, j | 0 <= j < |s| ensures !StartsAt(s, j, PatternOf(k).open) {
      var o := PatternOf(k).open;
      assert o[0] == '[' && o[1] == Name(k)[0];
      assert Name(k)[0] in "WLCI";
      if j + 1 < |s| {
        assert s[j..][0] == s[j] && s[j..][1] == s[j + 1];
      }
    }
  }

  /**
   * Pieces the page reads back: no open marker starts in their plain text, taken as a whole,
   * and every marker body fits its kind.
   */
  ghost predicate WellFormedWith(ps: seq<Piece>, pat: Kind -> Pattern) {
    NoOpen(PlainOf(ps), pat) && MarkersFit(ps, pat)
  }

  ghost predicate WellFormed(ps: seq<Piece>) {
    WellFormedWith(ps, PatternOf)
  }

  lemma WellFormedTail(ps: seq<Piece>, pat: Kind -> Pattern)
    requires WellFormedWith(ps, pat) && ps != []
    ensures WellFormedWith(ps[1..], pat)
    ensures ps[0].Marker? ==> BodyFits(ps[0].kind, ps[0].body, pat)
  {
    forall i | 0 <= i < |ps| - 1 ensures ps[1..][i] == ps[i + 1] { }
    var h := if ps[0].Plain? then ps[0].text else "";
    assert PlainOf(ps) == h + PlainOf(ps[1..]);
    forall k ensures Avoids(PlainOf(ps[1..]), pat(k).open) {
      AvoidsSuffix(h, PlainOf(ps[1..]), pat(k).open);
    }
  }

  /** The text of what the removal for kind `k` leaves of one piece. */
  function KeptText(x: Piece, k: Kind, pat: Kind -> Pattern): string {
    if x.Marker? && x.kind == k then "" else PieceText(x, pat)
  }

  /** Rendering a kept piece in front of other pieces. */
  lemma RenderKept(x: Piece, k: Kind, w: seq<Piece>, pat: Kind -> Pattern)
    ensures RenderWith(Kept(x, k) + w, pat) == KeptText(x, k, pat) + RenderWith(w, pat)
  {
    if Kept(x, k) == [x] {
      assert ([x] + w)[1..] == w;
    } else {
      assert Kept(x, k) + w == w;
    }
  }

  /**
   * A prefix of rendered pieces that holds no `[` is a prefix of their plain text: every
   * marker starts with `[`.
   */
  lemma {:induction false} PlainPrefix(ps: seq<Piece>, pat: Kind -> Pattern, n: nat)
    requires DistinctPatterns(pat) && n <= |RenderWith(ps, pat)|
    ensures '[' in RenderWith(ps, pat)[..n]
      || (n <= |PlainOf(ps)| && PlainOf(ps)[..n] == RenderWith(ps, pat)[..n])
    decreases |ps|
  {
    if ps != [] && n > 0 {
      var r := RenderWith(ps[1..], pat);
      var q := PlainOf(ps[1..]);
      match ps[0]
      case Plain(t) =>
        if n <= |t| {
          assert RenderWith(ps, pat)[..n] == t[..n] == PlainOf(ps)[..n];
        } else {
          PlainPrefix(ps[1..], pat, n - |t|);
          assert RenderWith(ps, pat)[..n] == t + r[..n - |t|];
          if n - |t| <= |q| {
            assert PlainOf(ps)[..n] == t + q[..n - |t|];
          }
        }
      case Marker(k, b) =>
        assert RenderWith(ps, pat)[..n][0] == pat(k).open[0];
    }
  }

  /** Whether `w` occurs at `j` depends only on the `|w|` characters from `j` on. */
  lemma SameWindow(x: string, y: string, j: nat, w: string)
    requires j + |w| <= |x| && j + |w| <= |y| && x[j..j + |w|] == y[j..j + |w|]
    ensures StartsAt(x, j, w) == StartsAt(y, j, w)
  {
    assert x[j..][..|w|] == x[j..j + |w|];
    assert y[j..][..|w|] == y[j..j + |w|];
  }

  /**
   * A word whose only `[` is its first character, starting in plain text `t` in front of
   * rendered pieces, reads the same as in front of their plain text.
   */
  lemma PlainAvoids(t: string, ps: seq<Piece>, pat: Kind -> Pattern, w: string, j: nat)
    requires DistinctPatterns(pat) && j < |t| && |w| >= 1 && '[' !in w[1..]
    requires !StartsAt(t + PlainOf(ps), j, w)
    ensures !StartsAt(t + RenderWith(ps, pat), j, w)
  {
    var r := RenderWith(ps, pat);
    var q := PlainOf(ps);
    if j + |w| <= |t| {
      InsideWindow(t, r, q, j, w);
    } else if j + |w| <= |t + r| {
      var n := j + |w| - |t|;
      PlainPrefix(ps, pat, n);
      if '[' in r[..n] {
        BracketInWindow(t, r, j, w, n);
      } else {
        AcrossWindow(t, r, q, j, w, n);
      }
    }
  }

  /** A window inside `t` reads the same whatever follows `t`. */
  lemma InsideWindow(t: string, r: string, q: string, j: nat, w: string)
    requires j + |w| <= |t|
    ensures StartsAt(t + r, j, w) == StartsAt(t + q, j, w)
  {
    assert (t + r)[j..j + |w|] == t[j..j + |w|] == (t + q)[j..j + |w|];
    SameWindow(t + r, t + q, j, w);
  }

  /** A window reaching past `t` reads the same when both texts agree on its part after `t`. */
  lemma AcrossWindow(t: string, r: string, q: string, j: nat, w: string, n: nat)
    requires j <= |t| && n == j + |w| - |t| && n <= |r| && n <= |q| && r[..n] == q[..n]
    ensures StartsAt(t + r, j, w) == StartsAt(t + q, j, w)
  {
    assert (t + r)[j..j + |w|] == t[j..] + r[..n];
    assert (t + q)[j..j + |w|] == t[j..] + q[..n];
    SameWindow(t + r, t + q, j, w);
  }

  /** A `[` inside the window after the first character rules the word out. */
  lemma BracketInWindow(t: string, r: string, j: nat, w: string, n: nat)
    requires j < |t| && |w| >= 1 && '[' !in w[1..] && n == j + |w| - |t| && n <= |r| && '[' in r[..n]
    ensures !StartsAt(t + r, j, w)
  {
    var i :| 0 <= i < n && r[..n][i] == '[';
    assert (t + r)[j..][|t| - j + i] == '[';
    assert w[1..][|t| - j + i - 1] == w[|t| - j + i];
  }

  /** Plain text whose open markers, read with the plain text after it, never start is passed over. */
  lemma ScanPlain(t: string, ps: seq<Piece>, k: Kind, pat: Kind -> Pattern)
    requires DistinctPatterns(pat) && Avoids(t + PlainOf(ps), pat(k).open)
    ensures Bodies(t + RenderWith(ps, pat), PatternMatcher(pat(k))) == Bodies(RenderWith(ps, pat), PatternMatcher(pat(k)))
    ensures Remove(t + RenderWith(ps, pat), PatternMatcher(pat(k))) == t + Remove(RenderWith(ps, pat), PatternMatcher(pat(k)))
  {
    var p := pat(k);
    var r := RenderWith(ps, pat);
    forall j | 0 <= j < |t| ensures !StartsAt(t + r, j, p.open) {
      PlainAvoids(t, ps, pat, p.open, j);
    }
    NoOpenNoMatch(t, r, p);
  }

  /** Where the open marker of `p` never starts, no match of `p` starts. */
  lemma NoOpenNoMatch(t: string, r: string, p: Pattern)
    requires ValidPattern(p) && forall j :: 0 <= j < |t| ==> !StartsAt(t + r, j, p.open)
    ensures Bodies(t + r, PatternMatcher(p)) == Bodies(r, PatternMatcher(p))
    ensures Remove(t + r, PatternMatcher(p)) == t + Remove(r, PatternMatcher(p))
  {
    var m := PatternMatcher(p);
    forall j | 0 <= j < |t| ensures m((t + r)[j..]).None? {
      assert !StartsAt(t + r, j, p.open);
    }
    SkipNoMatch(t, r, m);
  }

  /** The scan and the removal for kind `k` across one marker whose body fits. */
  lemma ScanMarker(x: Piece, rest: string, k: Kind, pat: Kind -> Pattern)
    requires DistinctPatterns(pat) && x.Marker? && BodyFits(x.kind, x.body, pat)
    ensures Bodies(PieceText(x, pat) + rest, PatternMatcher(pat(k)))
      == Taken(x, k) + Bodies(rest, PatternMatcher(pat(k)))
    ensures Remove(PieceText(x, pat) + rest, PatternMatcher(pat(k)))
      == KeptText(x, k, pat) + Remove(rest, PatternMatcher(pat(k)))
  {
    if x.kind == k {
      MarkerMatched(pat(k), x.body, rest);
    } else {
      OtherMarkerSkipped(pat(x.kind), x.body, rest, pat(k));
    }
  }

  /** Extraction and removal of one kind on rendered pieces, for any table of distinct patterns. */
  lemma {:induction false} ScanRender(ps: seq<Piece>, k: Kind, pat: Kind -> Pattern)
    requires DistinctPatterns(pat) && WellFormedWith(ps, pat)
    ensures Bodies(RenderWith(ps, pat), PatternMatcher(pat(k))) == BodiesOf(ps, k)
    ensures Remove(RenderWith(ps, pat), PatternMatcher(pat(k))) == RenderWith(Without(ps, k), pat)
  {
    if ps != [] {
      WellFormedTail(ps, pat);
      ScanRender(ps[1..], k, pat);
      if ps[0].Plain? {
        ScanPlain(ps[0].text, ps[1..], k, pat);
      } else {
        ScanMarker(ps[0], RenderWith(ps[1..], pat), k, pat);
      }
      RenderKept(ps[0], k, Without(ps[1..], k), pat);
    }
  }

  /** Removing kind `k` keeps the plain text, the other kinds' bodies and the bodies' fit. */
  lemma {:induction false} WithoutKeeps(ps: seq<Piece>, k: Kind, pat: Kind -> Pattern)
    ensures BodiesOf(Without(ps, k), k) == []
    ensures forall k' :: k' != k ==> BodiesOf(Without(ps, k), k') == BodiesOf(ps, k')
    ensures PlainOf(Without(ps, k)) == PlainOf(ps)
    ensures MarkersFit(ps, pat) ==> MarkersFit(Without(ps, k), pat)
    decreases |ps|
  {
    if ps != [] {
      WithoutKeeps(ps[1..], k, pat);
      var w := Without(ps[1..], k);
      assert MarkersFit(ps, pat) ==> MarkersFit(ps[1..], pat) by {
        forall i | 0 <= i < |ps| - 1 ensures ps[1..][i] == ps[i + 1] { }
      }
      if Kept(ps[0], k) == [ps[0]] {
        var v := [ps[0]] + w;
        assert v[1..] == w;
        assert Without(ps, k) == v;
        forall i | 0 < i < |v| ensures v[i] == w[i - 1] { }
      } else {
        assert Without(ps, k) == w;
      }
    }
  }

  lemma WithoutWellFormed(ps: seq<Piece>, k: Kind)
    requires WellFormed(ps)
    ensures WellFormed(Without(ps, k))
    ensures BodiesOf(Without(ps, k), k) == []
    ensures forall k' :: k' != k ==> BodiesOf(Without(ps, k), k') == BodiesOf(ps, k')
    ensures PlainOf(Without(ps, k)) == PlainOf(ps)
  {
    WithoutKeeps(ps, k, PatternOf);
  }

  lemma {:induction false} NoBodiesMeansPlain(ps: seq<Piece>, pat: Kind -> Pattern)
    requires BodiesOf(ps, WeatherIcon) == [] && BodiesOf(ps, Link) == []
    requires BodiesOf(ps, CalcResult) == [] && BodiesOf(ps, ImageId) == []
    ensures RenderWith(ps, pat) == PlainOf(ps)
    decreases |ps|
  {
    if ps != [] {
      var k := match ps[0] case Marker(k, _) => k case Plain(_) => WeatherIcon;
      assert Taken(ps[0], k) == [];
      NoBodiesMeansPlain(ps[1..], pat);
    }
  }

  /** The four removals in the page's order. */
  function WithoutMarkers(ps: seq<Piece>): seq<Piece> {
    Without(Without(Without(Without(ps, WeatherIcon), Link), CalcResult), ImageId)
  }

  /** Once every marker is removed, what is rendered is the plain text. */
  lemma WithoutMarkersPlain(ps: seq<Piece>)
    requires WellFormed(ps)
    ensures Render(WithoutMarkers(ps)) == PlainOf(ps)
  {
    var p1 := Without(ps, WeatherIcon);
    WithoutWellFormed(ps, WeatherIcon);
    var p2 := Without(p1, Link);
    WithoutWellFormed(p1, Link);
    var p3 := Without(p2, CalcResult);
    WithoutWellFormed(p2, CalcResult);
    WithoutWellFormed(p3, ImageId);
    NoBodiesMeansPlain(WithoutMarkers(ps), PatternOf);
  }

  /** The page's chain of four removals on rendered pieces. */
  lemma RemoveAllMarkers(ps: seq<Piece>)
    requires WellFormed(ps)
    ensures RichContentOf(Render(ps)).display == Render(WithoutMarkers(ps))
  {
    PagePatternsDistinct();
    ScanRender(ps, WeatherIcon, PatternOf);
    var p1 := Without(ps, WeatherIcon);
    WithoutWellFormed(ps, WeatherIcon);
    ScanRender(p1, Link, PatternOf);
    var p2 := Without(p1, Link);
    WithoutWellFormed(p1, Link);
    ScanRender(p2, CalcResult, PatternOf);
    var p3 := Without(p2, CalcResult);
    WithoutWellFormed(p2, CalcResult);
    ScanRender(p3, ImageId, PatternOf);
  }

  /** What the page extracts from rendered pieces. */
  lemma ExtractAll(ps: seq<Piece>)
    requires WellFormed(ps)
    ensures RichContentOf(Render(ps)).weatherIcon == FirstOf(ps, WeatherIcon)
    ensures RichContentOf(Render(ps)).links == BodiesOf(ps, Link)
    ensures RichContentOf(Render(ps)).calcResult == FirstOf(ps, CalcResult)
    ensures RichContentOf(Render(ps)).imageIds == BodiesOf(ps, ImageId)
  {
    var s := Render(ps);
    PagePatternsDistinct();
    ScanRender(ps, WeatherIcon, PatternOf);
    ScanRender(ps, Link, PatternOf);
    ScanRender(ps, CalcResult, PatternOf);
    ScanRender(ps, ImageId, PatternOf);
    MatchFirstIsFirstBody(s, MatcherOf(WeatherIcon));
    MatchFirstIsFirstBody(s, MatcherOf(CalcResult));
  }

  /**
   * Round trip of the marker protocol: the page recovers from rendered pieces exactly the
   * marker bodies in order (first body for weather icon and calculation result), and the
   * text it displays is the plain text in order.
   */
  lemma RichContentRoundTrip(ps: seq<Piece>)
    requires WellFormed(ps)
    ensures RichContentOf(Render(ps))
      == Rendered(PlainOf(ps), FirstOf(ps, WeatherIcon), BodiesOf(ps, Link),
                  FirstOf(ps, CalcResult), BodiesOf(ps, ImageId))
  {
    RemoveAllMarkers(ps);
    WithoutMarkersPlain(ps);
    ExtractAll(ps);
  }
}
