// The CORS origin setting of the CopilotKit backend: a validator that turns a
// comma-separated string into the list of its stripped, non-empty pieces and
// passes any other value through.

module Settings {
  import opened Text
  import opened JsonValue

  /** `[p.strip() for p in pieces if p.strip()]`. */
  function Kept(pieces: seq<string>, sp: char -> bool): seq<string>
    decreases |pieces|
  {
    if pieces == [] then []
    else (if Strip(pieces[0], sp) != "" then [Strip(pieces[0], sp)] else []) + Kept(pieces[1..], sp)
  }

  /** The origins of a comma-separated string. */
  function Origins(s: string): seq<string> {
    Kept(Split(s, ','), PyIsSpace)
  }

  function Strs(xs: seq<string>): (r: seq<Json>)
    ensures |r| == |xs| && forall i :: 0 <= i < |xs| ==> r[i] == Str(xs[i])
  {
    seq(|xs|, i requires 0 <= i < |xs| => Str(xs[i]))
  }

  /** `Settings.parse_origins`: strings are split, anything else is returned unchanged. */
  function ParseOrigins(v: Json): Json {
    if v.Str? then Arr(Strs(Origins(v.s))) else v
  }

  const Port3000: string := "http://localhost:3000"
  const Port5173: string := "http://localhost:5173"
  const Port8080: string := "http://localhost:8080"

  /** The default `ALLOWED_ORIGINS`, the three local development servers separated by commas. */
  const DefaultOrigins: string := Port3000 + "," + Port5173 + "," + Port8080

  lemma KeptCons(pieces: seq<string>, sp: char -> bool)
    requires |pieces| > 0
    ensures Kept(pieces, sp)
      == (if Strip(pieces[0], sp) != "" then [Strip(pieces[0], sp)] else []) + Kept(pieces[1..], sp)
  {
  }

  /** Every kept piece is the strip of one of the pieces, and is stripped and non-empty. */
  lemma {:induction false} KeptFrom(pieces: seq<string>, sp: char -> bool)
    ensures forall o :: o in Kept(pieces, sp) ==>
      o != "" && IsStripped(o, sp) && exists i :: 0 <= i < |pieces| && o == Strip(pieces[i], sp)
    ensures |Kept(pieces, sp)| <= |pieces|
    decreases |pieces|
  {
    if pieces != [] {
      var rest := pieces[1..];
      KeptFrom(rest, sp);
      KeptCons(pieces, sp);
      StripEnds(pieces[0], sp);
      forall o | o in Kept(pieces, sp)
        ensures o != "" && IsStripped(o, sp) && exists i :: 0 <= i < |pieces| && o == Strip(pieces[i], sp)
      {
        if o in Kept(rest, sp) {
          var j :| 0 <= j < |rest| && o == Strip(rest[j], sp);
          assert pieces[j + 1] == rest[j];
        } else {
          assert o == Strip(pieces[0], sp);
        }
      }
    }
  }

  /** The strip of every piece with text is kept. */
  lemma {:induction false} KeptAll(pieces: seq<string>, sp: char -> bool)
    ensures forall i :: 0 <= i < |pieces| && Strip(pieces[i], sp) != "" ==> Strip(pieces[i], sp) in Kept(pieces, sp)
    decreases |pieces|
  {
    if pieces != [] {
      var rest := pieces[1..];
      KeptAll(rest, sp);
      KeptCons(pieces, sp);
      forall i | 0 <= i < |pieces| && Strip(pieces[i], sp) != "" ensures Strip(pieces[i], sp) in Kept(pieces, sp) {
        if i > 0 {
          assert pieces[i] == rest[i - 1];
        }
      }
    }
  }

  /** A stripped, non-empty first piece is kept as it is. */
  lemma KeptHead(xs: seq<string>, sp: char -> bool)
    requires |xs| > 0 && |xs[0]| > 0 && IsStripped(xs[0], sp)
    ensures Kept(xs, sp) == [xs[0]] + Kept(xs[1..], sp)
  {
    StripStripped(xs[0], sp);
  }

  /** Pieces that are already stripped and non-empty are kept as they are. */
  lemma {:induction false} KeptClean(xs: seq<string>, sp: char -> bool)
    requires forall i :: 0 <= i < |xs| ==> |xs[i]| > 0 && IsStripped(xs[i], sp)
    ensures Kept(xs, sp) == xs
    decreases |xs|
  {
    if xs != [] {
      KeptHead(xs, sp);
      KeptClean(xs[1..], sp);
      assert [xs[0]] + xs[1..] == xs;
    }
  }

  /** Pieces made only of spaces are all dropped. */
  lemma {:induction false} KeptBlank(pieces: seq<string>, sp: char -> bool)
    requires forall i :: 0 <= i < |pieces| ==> AllSpace(pieces[i], sp)
    ensures Kept(pieces, sp) == []
    decreases |pieces|
  {
    if pieces != [] {
      StripEmpty(pieces[0], sp);
      var rest := pieces[1..];
      KeptBlank(rest, sp);
    }
  }

  /** Every character of a joined piece occurs in the join. */
  lemma {:induction false} JoinChars(xs: seq<string>, sep: string, i: nat)
    requires i < |xs|
    ensures forall k :: 0 <= k < |xs[i]| ==> xs[i][k] in Join(xs, sep)
    decreases |xs|
  {
    if |xs| > 1 {
      var rest := Join(xs[1..], sep);
      assert Join(xs, sep) == xs[0] + sep + rest;
      if i > 0 {
        JoinChars(xs[1..], sep, i - 1);
        assert xs[1..][i - 1] == xs[i];
      }
    }
  }

  /** A string holding only commas and white space parses to no origins. */
  lemma BlankOrigins(s: string)
    requires forall k :: 0 <= k < |s| ==> s[k] == ',' || PyIsSpace(s[k])
    ensures Origins(s) == []
  {
    var pieces := Split(s, ',');
    forall i | 0 <= i < |pieces| ensures AllSpace(pieces[i], PyIsSpace) {
      JoinChars(pieces, ",", i);
      forall k | 0 <= k < |pieces[i]| ensures PyIsSpace(pieces[i][k]) {
        assert pieces[i][k] in s;
        assert pieces[i][k] != ',';
      }
    }
    KeptBlank(pieces, PyIsSpace);
  }

  /** Stripping keeps a contiguous part of the piece, so it adds no comma. */
  lemma NoCommaStripped(p: string, sp: char -> bool)
    requires ',' !in p
    ensures ',' !in Strip(p, sp)
  {
    StripInside(p, sp);
    var i :| 0 <= i <= |p| && Strip(p, sp) <= p[i..];
    forall k | 0 <= k < |Strip(p, sp)| ensures Strip(p, sp)[k] != ',' {
      assert Strip(p, sp)[k] == p[i + k];
    }
  }

  lemma KeptNoComma(pieces: seq<string>, sp: char -> bool)
    requires forall i :: 0 <= i < |pieces| ==> ',' !in pieces[i]
    ensures forall o :: o in Kept(pieces, sp) ==> ',' !in o
  {
    KeptFrom(pieces, sp);
    forall o | o in Kept(pieces, sp) ensures ',' !in o {
      var i :| 0 <= i < |pieces| && o == Strip(pieces[i], sp);
      NoCommaStripped(pieces[i], sp);
    }
  }

  /** What `Kept` keeps, for any notion of space, from pieces without commas. */
  lemma KeptSpec(pieces: seq<string>, sp: char -> bool)
    requires forall i :: 0 <= i < |pieces| ==> ',' !in pieces[i]
    ensures forall o :: o in Kept(pieces, sp) ==> o != "" && IsStripped(o, sp) && ',' !in o
    ensures forall o :: o in Kept(pieces, sp) <==>
      exists i :: 0 <= i < |pieces| && o == Strip(pieces[i], sp) && o != ""
  {
    KeptFrom(pieces, sp);
    KeptAll(pieces, sp);
    KeptNoComma(pieces, sp);
  }

  /** `o` is the non-empty strip of one of the comma-separated pieces of `s`. */
  predicate IsOrigin(s: string, o: string) {
    var pieces := Split(s, ',');
    exists i :: 0 <= i < |pieces| && o == PyStrip(pieces[i]) && o != ""
  }

  /** Each origin of `s` is a stripped, non-empty piece of it without commas, and the other way round. */
  lemma OriginsSpec(s: string)
    ensures forall o :: o in Origins(s) ==> o != "" && IsStripped(o, PyIsSpace) && ',' !in o
    ensures forall o :: o in Origins(s) <==> IsOrigin(s, o)
  {
    var pieces := Split(s, ',');
    KeptSpec(pieces, PyIsSpace);
    assert Origins(s) == Kept(pieces, PyIsSpace);
  }

  /** Joining the origins with commas and parsing again gives the same origins. */
  lemma ReparseJoin(s: string)
    ensures Origins(Join(Origins(s), ",")) == Origins(s)
  {
    var xs := Origins(s);
    OriginsSpec(s);
    if xs == [] {
      assert Join(xs, ",") == "";
      assert Split("", ',') == [""];
      KeptBlank([""], PyIsSpace);
    } else {
      forall i | 0 <= i < |xs| ensures ',' !in xs[i] && xs[i] != "" && IsStripped(xs[i], PyIsSpace) {
        assert xs[i] in xs;
      }
      SplitJoin(xs, ',');
      KeptClean(xs, PyIsSpace);
    }
  }

  /**
   * The validator turns a string into an array of strings, each the non-empty strip of
   * one of its comma-separated pieces and free of commas, holding every such strip;
   * any other value is passed through.
   */
  lemma ParseOriginsSpec(v: Json)
    ensures v.Str? ==> ParseOrigins(v).Arr?
    ensures v.Str? ==> forall j :: 0 <= j < |ParseOrigins(v).items| ==>
      ParseOrigins(v).items[j].Str? && IsOrigin(v.s, ParseOrigins(v).items[j].s)
      && IsStripped(ParseOrigins(v).items[j].s, PyIsSpace) && ',' !in ParseOrigins(v).items[j].s
    ensures v.Str? ==> forall o :: IsOrigin(v.s, o) ==> Str(o) in ParseOrigins(v).items
    ensures !v.Str? ==> ParseOrigins(v) == v
  {
    if v.Str? {
      var xs := Origins(v.s);
      OriginsSpec(v.s);
      var r := ParseOrigins(v);
      forall j | 0 <= j < |r.items|
        ensures r.items[j].Str? && IsOrigin(v.s, r.items[j].s)
          && IsStripped(r.items[j].s, PyIsSpace) && ',' !in r.items[j].s
      {
        assert r.items[j] == Str(xs[j]) && xs[j] in xs;
      }
      forall o | IsOrigin(v.s, o) ensures Str(o) in r.items {
        var j :| 0 <= j < |xs| && xs[j] == o;
        assert r.items[j] == Str(o);
      }
    }
  }

  const LocalOrigins: seq<string> := [Port3000, Port5173, Port8080]

  lemma DefaultJoin()
    ensures Join(LocalOrigins, ",") == DefaultOrigins
  {
    var xs := LocalOrigins;
    assert xs[2..] == [xs[2]];
    assert xs[1..][1..] == xs[2..];
    assert Join(xs[1..], ",") == Port5173 + "," + Port8080;
    assert Join(xs, ",") == Port3000 + "," + (Port5173 + "," + Port8080);
  }

  lemma LocalOriginsClean()
    ensures forall i :: 0 <= i < |LocalOrigins| ==>
      ',' !in LocalOrigins[i] && |LocalOrigins[i]| > 0 && IsStripped(LocalOrigins[i], PyIsSpace)
  {
    forall i | 0 <= i < 3
      ensures ',' !in LocalOrigins[i] && |LocalOrigins[i]| > 0 && IsStripped(LocalOrigins[i], PyIsSpace)
    {
      var o := LocalOrigins[i];
      assert o[0] == 'h';
      assert o[|o| - 1] == '0' || o[|o| - 1] == '3';
    }
  }

  /** The default setting parses to the three local development origins, in order. */
  lemma DefaultParses()
    ensures Origins(DefaultOrigins) == LocalOrigins
  {
    DefaultJoin();
    LocalOriginsClean();
    SplitJoin(LocalOrigins, ',');
    KeptClean(LocalOrigins, PyIsSpace);
  }
}
