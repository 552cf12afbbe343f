// The tool functions of the Magentic demo server as text builders: the result
// texts of web_search, get_weather, calculate and execute_python_code, with the
// rich-content markers the chat page extracts, and the image store behind
// `/images/{image_id}`. Every external outcome (the search service, the weather
// service, `eval`, `exec` and figure capture, uuid4) is a parameter.

module ServerMagentic {
  import opened Wrappers
  import opened Text
  import opened JsonValue
  import opened Markers
  import opened RichContent

  // ---- Shared: rendered pieces ----

  lemma {:induction false} RenderAppend(a: seq<Piece>, b: seq<Piece>)
    ensures Render(a + b) == Render(a) + Render(b)
    decreases |a|
  {
    if a == [] {
      assert a + b == b;
    } else {
      assert (a + b)[1..] == a[1..] + b;
      RenderAppend(a[1..], b);
    }
  }

  lemma RenderOne(x: Piece)
    ensures Render([x]) == PieceText(x, PatternOf)
  {
    assert [x][1..] == [];
    assert RenderWith([], PatternOf) == "";
    assert PieceText(x, PatternOf) + "" == PieceText(x, PatternOf);
  }

  /** Text, a marker, text. */
  lemma RenderAround(a: string, k: Kind, b: string, c: string)
    ensures Render([Plain(a), Marker(k, b), Plain(c)])
      == a + (PatternOf(k).open + b + PatternOf(k).close) + c
  {
    var ps := [Plain(a), Marker(k, b), Plain(c)];
    assert ps == [ps[0]] + ([ps[1]] + [ps[2]]);
    RenderAppend([ps[0]], [ps[1]] + [ps[2]]);
    RenderAppend([ps[1]], [ps[2]]);
    RenderOne(ps[0]);
    RenderOne(ps[1]);
    RenderOne(ps[2]);
  }

  /** What the page extracts from a text rendered from well-formed pieces, given up front as `r`. */
  lemma RoundTripTo(text: string, ps: seq<Piece>, r: Rendered)
    requires WellFormed(ps) && Render(ps) == text
    requires r == Rendered(PlainOf(ps), FirstOf(ps, WeatherIcon), BodiesOf(ps, Link),
                           FirstOf(ps, CalcResult), BodiesOf(ps, ImageId))
    ensures RichContentOf(text) == r
  {
    RichContentRoundTrip(ps);
  }

  lemma Assoc2(x: string, a: string, b: string)
    ensures x + a + b == x + (a + b)
  {
  }

  lemma Assoc3(x: string, a: string, b: string, c: string)
    ensures x + a + b + c == x + (a + b + c)
  {
  }

  lemma FitAppend(a: seq<Piece>, b: seq<Piece>)
    requires MarkersFit(a, PatternOf) && MarkersFit(b, PatternOf)
    ensures MarkersFit(a + b, PatternOf)
  {
    forall i | 0 <= i < |a + b| ensures (a + b)[i] == if i < |a| then a[i] else b[i - |a|] { }
  }

  lemma FitAround(a: string, k: Kind, b: string, c: string)
    requires Body(k, b)
    ensures MarkersFit([Plain(a), Marker(k, b), Plain(c)], PatternOf)
  {
  }

  lemma {:induction false} BodiesAppend(a: seq<Piece>, b: seq<Piece>, k: Kind)
    ensures BodiesOf(a + b, k) == BodiesOf(a, k) + BodiesOf(b, k)
    decreases |a|
  {
    if a == [] {
      assert a + b == b;
    } else {
      assert (a + b)[1..] == a[1..] + b;
      BodiesAppend(a[1..], b, k);
    }
  }

  lemma {:induction false} PlainAppend(a: seq<Piece>, b: seq<Piece>)
    ensures PlainOf(a + b) == PlainOf(a) + PlainOf(b)
    decreases |a|
  {
    if a == [] {
      assert a + b == b;
    } else {
      assert (a + b)[1..] == a[1..] + b;
      PlainAppend(a[1..], b);
    }
  }

  /**
   * A body the page reads back from a marker of kind `k`: one line, without the close
   * marker of `k` and without the open marker of another kind.
   */
  ghost predicate Body(k: Kind, s: string) {
    BodyFits(k, s, PatternOf)
  }

  /** `not api_key`: the key is missing or empty. */
  predicate Missing(apiKey: Option<string>) {
    apiKey.None? || apiKey.value == ""
  }

  // ---- web_search ----

  /**
   * One search hit. An absent field is `None` and reads as "". A field that is present
   * but null is printed by the f-string as "None", so it is given here as `Some("None")`;
   * any other value is given by its `str()` form.
   */
  datatype SearchResult = SearchResult(title: Option<string>, url: Option<string>, content: Option<string>)

  /** What the search service returned: an exception, or the hits (none when "results" is absent). */
  datatype SearchReply = SearchFailed(error: string) | Results(results: seq<SearchResult>)

  function SearchHeader(query: string): string {
    "\U{1F50D} **Web Search Results for:** " + query + "\n\n"
  }

  /** The bold numbered title line and the content line of the `idx`-th hit. */
  function EntryHead(idx: nat, r: SearchResult): string {
    ("**" + NatToString(idx) + ". " + r.title.GetOr("") + "**\n") + (r.content.GetOr("") + "\n")
  }

  function LinkLine(url: string): string {
    "[LINK]" + url + "[/LINK]" + "\n\n"
  }

  function Entry(idx: nat, r: SearchResult): string {
    EntryHead(idx, r) + LinkLine(r.url.GetOr(""))
  }

  /** The entries of `rs`, numbered from 1. */
  function Entries(rs: seq<SearchResult>): string
    decreases |rs|
  {
    if rs == [] then "" else Entries(rs[..|rs| - 1]) + Entry(|rs|, rs[|rs| - 1])
  }

  function WebSearchText(query: string, apiKey: Option<string>, reply: SearchReply): string {
    if Missing(apiKey) then "Tavily API key not configured."
    else match reply
      case SearchFailed(e) => "Error performing web search: " + e
      case Results(rs) => SearchHeader(query) + Entries(rs)
  }

  /** `web_search`: the header, then three appended lines per hit. */
  method WebSearch(query: string, apiKey: Option<string>, reply: SearchReply) returns (resultText: string)
    ensures resultText == WebSearchText(query, apiKey, reply)
  {
    if apiKey.None? || apiKey.value == "" {
      return "Tavily API key not configured.";
    }
    if reply.SearchFailed? {
      return "Error performing web search: " + reply.error;
    }
    var results := reply.results;
    resultText := SearchHeader(query);
    var i := 0;
    while i < |results|
      invariant i <= |results|
      invariant resultText == SearchHeader(query) + Entries(results[..i])
    {
      var idx := i + 1;
      var title := results[i].title.GetOr("");
      var url := results[i].url.GetOr("");
      var content := results[i].content.GetOr("");
      ghost var before := resultText;
      resultText := resultText + ("**" + NatToString(idx) + ". " + title + "**\n");
      resultText := resultText + (content + "\n");
      resultText := resultText + LinkLine(url);
      Assoc3(before, "**" + NatToString(idx) + ". " + title + "**\n", content + "\n", LinkLine(url));
      assert results[..i + 1][..i] == results[..i];
      assert Entries(results[..i + 1]) == Entries(results[..i]) + Entry(idx, results[i]);
      Assoc2(SearchHeader(query), Entries(results[..i]), Entry(idx, results[i]));
      i := i + 1;
    }
    assert results[..i] == results;
  }

  function Urls(rs: seq<SearchResult>): (r: seq<string>)
    ensures |r| == |rs| && forall i :: 0 <= i < |rs| ==> r[i] == rs[i].url.GetOr("")
  {
    seq(|rs|, i requires 0 <= i < |rs| => rs[i].url.GetOr(""))
  }

  /** Hits whose URLs are usable link bodies. */
  ghost predicate UsableUrls(rs: seq<SearchResult>) {
    forall i :: 0 <= i < |rs| ==> Body(Link, rs[i].url.GetOr(""))
  }

  function EntryPieces(idx: nat, r: SearchResult): seq<Piece> {
    [Plain(EntryHead(idx, r)), Marker(Link, r.url.GetOr("")), Plain("\n\n")]
  }

  function EntriesPieces(rs: seq<SearchResult>): seq<Piece>
    decreases |rs|
  {
    if rs == [] then [] else EntriesPieces(rs[..|rs| - 1]) + EntryPieces(|rs|, rs[|rs| - 1])
  }

  lemma LinkMarkers()
    ensures PatternOf(Link).open == "[LINK]" && PatternOf(Link).close == "[/LINK]"
  {
    var n := Name(Link);
    assert n == "LINK";
    assert "[" + n == "[LINK";
    assert "[LINK" + "]" == "[LINK]";
    assert "[/" + n == "[/LINK";
    assert "[/LINK" + "]" == "[/LINK]";
  }

  lemma EntryRendered(idx: nat, r: SearchResult)
    ensures Render(EntryPieces(idx, r)) == Entry(idx, r)
  {
    var url := r.url.GetOr("");
    RenderAround(EntryHead(idx, r), Link, url, "\n\n");
    LinkMarkers();
  }

  lemma {:induction false} EntriesRendered(rs: seq<SearchResult>)
    ensures Render(EntriesPieces(rs)) == Entries(rs)
    decreases |rs|
  {
    if rs != [] {
      var n := |rs| - 1;
      EntriesRendered(rs[..n]);
      EntryRendered(|rs|, rs[n]);
      RenderAppend(EntriesPieces(rs[..n]), EntryPieces(|rs|, rs[n]));
    }
  }

  lemma {:induction false} EntriesFit(rs: seq<SearchResult>)
    requires UsableUrls(rs)
    ensures MarkersFit(EntriesPieces(rs), PatternOf)
    decreases |rs|
  {
    if rs != [] {
      var n := |rs| - 1;
      var pre := rs[..n];
      assert UsableUrls(pre) by {
        forall i | 0 <= i < |pre| ensures pre[i] == rs[i] { }
      }
      EntriesFit(pre);
      FitAround(EntryHead(|rs|, rs[n]), Link, rs[n].url.GetOr(""), "\n\n");
      FitAppend(EntriesPieces(pre), EntryPieces(|rs|, rs[n]));
    }
  }

  lemma {:induction false} EntriesBodies(rs: seq<SearchResult>)
    ensures BodiesOf(EntriesPieces(rs), Link) == Urls(rs)
    ensures forall k :: k != Link ==> BodiesOf(EntriesPieces(rs), k) == []
    decreases |rs|
  {
    if rs != [] {
      var n := |rs| - 1;
      EntriesBodies(rs[..n]);
      forall k ensures BodiesOf(EntriesPieces(rs), k)
        == BodiesOf(EntriesPieces(rs[..n]), k) + BodiesOf(EntryPieces(|rs|, rs[n]), k) {
        BodiesAppend(EntriesPieces(rs[..n]), EntryPieces(|rs|, rs[n]), k);
      }
      EntryBodies(|rs|, rs[n]);
      assert Urls(rs) == Urls(rs[..n]) + [rs[n].url.GetOr("")];
    }
  }

  lemma BodiesAround(a: string, k: Kind, b: string, c: string)
    ensures BodiesOf([Plain(a), Marker(k, b), Plain(c)], k) == [b]
    ensures forall k' :: k' != k ==> BodiesOf([Plain(a), Marker(k, b), Plain(c)], k') == []
  {
    var ps := [Plain(a), Marker(k, b), Plain(c)];
    forall k' ensures BodiesOf(ps, k') == Taken(ps[1], k') {
      assert ps[1..][1..][1..] == [];
      assert BodiesOf(ps[1..][1..][1..], k') == [];
      assert BodiesOf(ps[1..][1..], k') == [];
      assert BodiesOf(ps[1..], k') == Taken(ps[1], k') + [];
    }
  }

  lemma EntryBodies(idx: nat, r: SearchResult)
    ensures BodiesOf(EntryPieces(idx, r), Link) == [r.url.GetOr("")]
    ensures forall k :: k != Link ==> BodiesOf(EntryPieces(idx, r), k) == []
  {
    BodiesAround(EntryHead(idx, r), Link, r.url.GetOr(""), "\n\n");
  }

  /** The text shown for the search results once the page has removed the link markers. */
  function SearchDisplay(rs: seq<SearchResult>): string
    decreases |rs|
  {
    if rs == [] then "" else SearchDisplay(rs[..|rs| - 1]) + (EntryHead(|rs|, rs[|rs| - 1]) + "\n\n")
  }

  lemma PlainAround(a: string, k: Kind, b: string, c: string)
    ensures PlainOf([Plain(a), Marker(k, b), Plain(c)]) == a + c
  {
    var ps := [Plain(a), Marker(k, b), Plain(c)];
    assert ps[1..][1..][1..] == [];
    assert PlainOf(ps[1..][1..][1..]) == "";
    assert PlainOf(ps[1..][1..]) == c;
    assert PlainOf(ps[1..]) == "" + c;
  }

  lemma {:induction false} EntriesPlain(rs: seq<SearchResult>)
    ensures PlainOf(EntriesPieces(rs)) == SearchDisplay(rs)
    decreases |rs|
  {
    if rs != [] {
      var n := |rs| - 1;
      EntriesPlain(rs[..n]);
      PlainAppend(EntriesPieces(rs[..n]), EntryPieces(|rs|, rs[n]));
      PlainAround(EntryHead(|rs|, rs[n]), Link, rs[n].url.GetOr(""), "\n\n");
    }
  }

  /** The pieces of a search result text. */
  function SearchPieces(query: string, rs: seq<SearchResult>): seq<Piece> {
    [Plain(SearchHeader(query))] + EntriesPieces(rs)
  }

  lemma SearchRendered(query: string, rs: seq<SearchResult>)
    ensures Render(SearchPieces(query, rs)) == SearchHeader(query) + Entries(rs)
  {
    EntriesRendered(rs);
    RenderAppend([Plain(SearchHeader(query))], EntriesPieces(rs));
    RenderOne(Plain(SearchHeader(query)));
  }

  lemma SearchWellFormed(query: string, rs: seq<SearchResult>)
    requires NoOpen(SearchHeader(query) + SearchDisplay(rs), PatternOf) && UsableUrls(rs)
    ensures WellFormed(SearchPieces(query, rs))
  {
    SearchContent(query, rs);
    EntriesFit(rs);
    FitAppend([Plain(SearchHeader(query))], EntriesPieces(rs));
  }

  lemma SearchContent(query: string, rs: seq<SearchResult>)
    ensures PlainOf(SearchPieces(query, rs)) == SearchHeader(query) + SearchDisplay(rs)
    ensures BodiesOf(SearchPieces(query, rs), Link) == Urls(rs)
    ensures forall k :: k != Link ==> BodiesOf(SearchPieces(query, rs), k) == []
  {
    var head := [Plain(SearchHeader(query))];
    EntriesBodies(rs);
    EntriesPlain(rs);
    PlainAppend(head, EntriesPieces(rs));
    assert PlainOf(head) == SearchHeader(query) + "";
    forall k ensures BodiesOf(SearchPieces(query, rs), k) == BodiesOf(EntriesPieces(rs), k) {
      BodiesAppend(head, EntriesPieces(rs), k);
      assert BodiesOf(head, k) == [];
    }
  }

  /**
   * Round trip of web_search and the chat page: the links the page extracts are exactly the
   * result URLs in order, and it displays the header and each hit's title and content,
   * provided that displayed text holds no open marker and each URL is a usable link body.
   */
  lemma SearchLinksShown(query: string, apiKey: Option<string>, rs: seq<SearchResult>)
    requires !Missing(apiKey) && NoOpen(SearchHeader(query) + SearchDisplay(rs), PatternOf) && UsableUrls(rs)
    ensures RichContentOf(WebSearchText(query, apiKey, Results(rs)))
      == Rendered(SearchHeader(query) + SearchDisplay(rs), None, Urls(rs), None, [])
  {
    var ps := SearchPieces(query, rs);
    SearchRendered(query, rs);
    SearchWellFormed(query, rs);
    SearchContent(query, rs);
    RoundTripTo(WebSearchText(query, apiKey, Results(rs)), ps,
                Rendered(SearchHeader(query) + SearchDisplay(rs), None, Urls(rs), None, []));
  }

  /** Without a key the search service is never consulted: the text does not depend on its reply. */
  lemma SearchNeedsKey(query: string, apiKey: Option<string>, reply: SearchReply)
    requires Missing(apiKey)
    ensures WebSearchText(query, apiKey, reply) == WebSearchText(query, apiKey, Results([]))
    ensures WebSearchText(query, apiKey, reply) == "Tavily API key not configured."
  {
  }

  // ---- get_weather ----

  predicate IsLetter(c: char) {
    'a' <= c <= 'z' || 'A' <= c <= 'Z'
  }

  /** `str.title()` on ASCII: a letter after a letter is lower-cased, any other letter upper-cased. */
  function TitleCase(s: string): (r: string)
    ensures |r| == |s|
    ensures forall i :: 0 <= i < |s| ==>
      r[i] == if i > 0 && IsLetter(s[i - 1]) then LowerChar(s[i]) else UpperChar(s[i])
  {
    seq(|s|, i requires 0 <= i < |s| =>
      if i > 0 && IsLetter(s[i - 1]) then LowerChar(s[i]) else UpperChar(s[i]))
  }

  /** Title-casing keeps every character a letter or not a letter. */
  lemma TitleCaseLetters(s: string)
    ensures forall i :: 0 <= i < |s| ==> (IsLetter(TitleCase(s)[i]) <==> IsLetter(s[i]))
  {
  }

  /** Title-casing a title-cased text changes nothing. */
  lemma TitleCaseIdempotent(s: string)
    ensures TitleCase(TitleCase(s)) == TitleCase(s)
  {
    var t := TitleCase(s);
    TitleCaseLetters(s);
    forall i | 0 <= i < |s| ensures TitleCase(t)[i] == t[i] {
      if i > 0 && IsLetter(s[i - 1]) {
        assert IsLetter(t[i - 1]);
      } else if i > 0 {
        assert !IsLetter(t[i - 1]);
      }
    }
  }

  /** The fields read from a weather report, each as Python formats it. */
  datatype WeatherReport = WeatherReport(
    temp: string, feelsLike: string, description: string,
    humidity: string, windSpeed: string, icon: string)

  /** The weather service's answer: a failure of the request or of reading the report, or the report. */
  datatype WeatherReply = WeatherFailed(error: string) | Report(report: WeatherReport)

  /** Everything of the weather text before the icon marker, line by line. */
  function WeatherHead(location: string, w: WeatherReport): string {
    "\U{1F324}\U{FE0F} **Weather in " + location + "**\n\n"
    + TemperatureLine(w)
    + ("**Conditions:** " + TitleCase(w.description) + "\n")
    + ("**Humidity:** " + w.humidity + "%\n")
    + ("**Wind Speed:** " + w.windSpeed + " m/s\n\n")
  }

  function TemperatureLine(w: WeatherReport): string {
    "**Temperature:** " + w.temp + "°C (feels like " + w.feelsLike + "°C)\n"
  }

  function IconUrl(icon: string): string {
    "https://openweathermap.org/img/wn/" + icon + "@2x.png"
  }

  function WeatherText(location: string, w: WeatherReport): string {
    WeatherHead(location, w) + ("[WEATHER_ICON]" + IconUrl(w.icon) + "[/WEATHER_ICON]")
  }

  /** `get_weather`: the configured key, then the report or the error. */
  function GetWeather(location: string, apiKey: Option<string>, reply: WeatherReply): string {
    if Missing(apiKey) then "Weather API key not configured."
    else match reply
      case WeatherFailed(e) => "Error getting weather: " + e
      case Report(w) => WeatherText(location, w)
  }

  /** Without a key the weather service is never consulted. */
  lemma WeatherNeedsKey(location: string, apiKey: Option<string>, reply: WeatherReply)
    requires Missing(apiKey)
    ensures GetWeather(location, apiKey, reply) == GetWeather(location, apiKey, WeatherFailed(""))
    ensures GetWeather(location, apiKey, reply) == "Weather API key not configured."
  {
  }

  lemma WeatherMarkers()
    ensures PatternOf(WeatherIcon).open == "[WEATHER_ICON]"
    ensures PatternOf(WeatherIcon).close == "[/WEATHER_ICON]"
  {
    var n := Name(WeatherIcon);
    assert n == "WEATHER_ICON";
    assert "[" + n == "[WEATHER_ICON";
    assert "[WEATHER_ICON" + "]" == "[WEATHER_ICON]";
    assert "[/" + n == "[/WEATHER_ICON";
    assert "[/WEATHER_ICON" + "]" == "[/WEATHER_ICON]";
  }

  function WeatherPieces(location: string, w: WeatherReport): seq<Piece> {
    [Plain(WeatherHead(location, w)), Marker(WeatherIcon, IconUrl(w.icon)), Plain("")]
  }

  lemma WeatherRendered(location: string, w: WeatherReport)
    ensures Render(WeatherPieces(location, w)) == WeatherText(location, w)
  {
    RenderAround(WeatherHead(location, w), WeatherIcon, IconUrl(w.icon), "");
    WeatherMarkers();
  }

  lemma WeatherContent(location: string, w: WeatherReport)
    ensures PlainOf(WeatherPieces(location, w)) == WeatherHead(location, w)
    ensures FirstOf(WeatherPieces(location, w), WeatherIcon) == Some(IconUrl(w.icon))
    ensures BodiesOf(WeatherPieces(location, w), Link) == []
    ensures BodiesOf(WeatherPieces(location, w), CalcResult) == []
    ensures BodiesOf(WeatherPieces(location, w), ImageId) == []
  {
    PlainAround(WeatherHead(location, w), WeatherIcon, IconUrl(w.icon), "");
    BodiesAround(WeatherHead(location, w), WeatherIcon, IconUrl(w.icon), "");
    assert WeatherHead(location, w) + "" == WeatherHead(location, w);
  }

  /**
   * Round trip of get_weather and the chat page: the page shows the icon of the report
   * and, as text, everything before the marker, provided that text holds no open marker
   * and the icon URL is a usable icon body.
   */
  lemma WeatherIconShown(location: string, apiKey: Option<string>, w: WeatherReport)
    requires !Missing(apiKey) && NoOpen(WeatherHead(location, w), PatternOf)
    requires Body(WeatherIcon, IconUrl(w.icon))
    ensures RichContentOf(GetWeather(location, apiKey, Report(w)))
      == Rendered(WeatherHead(location, w), Some(IconUrl(w.icon)), [], None, [])
  {
    var ps := WeatherPieces(location, w);
    WeatherRendered(location, w);
    WeatherContent(location, w);
    FitAround(WeatherHead(location, w), WeatherIcon, IconUrl(w.icon), "");
    RoundTripTo(GetWeather(location, apiKey, Report(w)), ps,
                Rendered(WeatherHead(location, w), Some(IconUrl(w.icon)), [], None, []));
  }

  // ---- calculate ----

  /** What `eval` did with the expression: a value as `str` renders it, or an exception. */
  datatype Evaluation = Value(shown: string) | EvalFailed(error: string)

  function CalcHead(expression: string, result: string): string {
    "\U{1F522} **Calculation**\n\n**Expression:** `" + expression + "`\n**Result:** `" + result + "`\n\n"
  }

  function Calculate(expression: string, outcome: Evaluation): string {
    match outcome
    case Value(v) => CalcHead(expression, v) + ("[CALC_RESULT]" + v + "[/CALC_RESULT]")
    case EvalFailed(e) => "Error calculating '" + expression + "': " + e
  }

  lemma CalcMarkers()
    ensures PatternOf(CalcResult).open == "[CALC_RESULT]"
    ensures PatternOf(CalcResult).close == "[/CALC_RESULT]"
  {
    var n := Name(CalcResult);
    assert n == "CALC_RESULT";
    assert "[" + n == "[CALC_RESULT";
    assert "[CALC_RESULT" + "]" == "[CALC_RESULT]";
    assert "[/" + n == "[/CALC_RESULT";
    assert "[/CALC_RESULT" + "]" == "[/CALC_RESULT]";
  }

  function CalcPieces(expression: string, v: string): seq<Piece> {
    [Plain(CalcHead(expression, v)), Marker(CalcResult, v), Plain("")]
  }

  lemma CalcRendered(expression: string, v: string)
    ensures Render(CalcPieces(expression, v)) == Calculate(expression, Value(v))
  {
    RenderAround(CalcHead(expression, v), CalcResult, v, "");
    CalcMarkers();
  }

  lemma CalcContent(expression: string, v: string)
    ensures PlainOf(CalcPieces(expression, v)) == CalcHead(expression, v)
    ensures FirstOf(CalcPieces(expression, v), CalcResult) == Some(v)
    ensures BodiesOf(CalcPieces(expression, v), Link) == []
    ensures BodiesOf(CalcPieces(expression, v), WeatherIcon) == []
    ensures BodiesOf(CalcPieces(expression, v), ImageId) == []
  {
    PlainAround(CalcHead(expression, v), CalcResult, v, "");
    BodiesAround(CalcHead(expression, v), CalcResult, v, "");
    assert CalcHead(expression, v) + "" == CalcHead(expression, v);
  }

  /**
   * Round trip of calculate and the chat page: the page's calculation result is the
   * value that was computed, provided the text in front of the marker holds no open marker
   * and the value is a usable result body.
   */
  lemma CalcResultShown(expression: string, v: string)
    requires NoOpen(CalcHead(expression, v), PatternOf) && Body(CalcResult, v)
    ensures RichContentOf(Calculate(expression, Value(v)))
      == Rendered(CalcHead(expression, v), None, [], Some(v), [])
  {
    var ps := CalcPieces(expression, v);
    CalcRendered(expression, v);
    CalcContent(expression, v);
    FitAround(CalcHead(expression, v), CalcResult, v, "");
    RoundTripTo(Calculate(expression, Value(v)), ps, Rendered(CalcHead(expression, v), None, [], Some(v), []));
  }

  // ---- execute_python_code and the image store ----

  /**
   * What running the code produced: an exception out of `exec`, or the captured standard
   * output and error, the figures captured as base64 PNG data, and the exception that
   * stopped figure capture, if any (the figures captured before it are kept).
   */
  datatype Execution =
    | ExecFailed(error: string)
    | Ran(output: string, errors: string, images: seq<string>, captureError: Option<string>)

  /** The standard error text, with the capture failure appended. */
  function Warnings(errors: string, captureError: Option<string>): string {
    if captureError.None? then errors else errors + ("\nError capturing plot: " + captureError.value)
  }

  const ResultHeader: string := "\U{1F4CA} **Code Execution Result**\n\n"

  const NoOutputLine: string := "Code executed successfully (no output).\n"

  function ExecErrorText(e: string): string {
    "\U{274C} **Execution Error**\n\n```\n" + e + "\n```"
  }

  /** The optional sections in front of the image references. */
  function TaskPart(description: string): string {
    if description != "" then "**Task:** " + description + "\n\n" else ""
  }

  function OutputPart(output: string): string {
    if output != "" then "**Output:**\n```\n" + output + "\n```\n\n" else ""
  }

  function WarningsPart(errors: string): string {
    if errors != "" then "**Warnings:**\n```\n" + errors + "\n```\n\n" else ""
  }

  function ImageLine(id: string): string {
    "[IMAGE_ID]" + id + "[/IMAGE_ID]" + "\n\n"
  }

  /** The references to the first `n` images, whose ids `uuid` draws one after another. */
  function ImageLines(n: nat, uuid: nat -> string): string {
    if n == 0 then "" else ImageLines(n - 1, uuid) + ImageLine(uuid(n - 1))
  }

  function ExecutionText(description: string, run: Execution, uuid: nat -> string): string {
    match run
    case ExecFailed(e) => ExecErrorText(e)
    case Ran(output, errors0, images, captureError) =>
      var errors := Warnings(errors0, captureError);
      ReportHead(description, output, errors) + ImageLines(|images|, uuid) + ReportTail(output, images, errors)
  }

  /** The text in front of the image references. */
  function ReportHead(description: string, output: string, errors: string): string {
    ResultHeader + TaskPart(description) + OutputPart(output) + WarningsPart(errors)
  }

  /** The line closing a run that printed nothing and drew nothing. */
  function ReportTail(output: string, images: seq<string>, errors: string): string {
    if output == "" && images == [] && errors == "" then NoOutputLine else ""
  }

  /** `image_storage` after the first `|images|` ids of `uuid` are bound to `images`, in order. */
  function Stored(storage: map<string, string>, images: seq<string>, uuid: nat -> string): map<string, string>
    decreases |images|
  {
    if images == [] then storage
    else Stored(storage, images[..|images| - 1], uuid)[uuid(|images| - 1) := images[|images| - 1]]
  }

  function ImagesOf(run: Execution): seq<string> {
    if run.Ran? then run.images else []
  }

  /** The answer of `/images/{image_id}`. */
  datatype ImageResponse = Png(base64: string) | JsonResponse(status: nat, body: Json)

  const NotFoundBody: Json := Obj([("error", Str("Image not found"))])

  /**
   * `get_image` as written: the tuple `({"error": ...}, 404)` is not a FastAPI response,
   * so it is serialised as a two-element JSON array with the default status 200.
   */
  function GetImageAsWritten(storage: map<string, string>, id: string): ImageResponse {
    if id in storage then Png(storage[id]) else JsonResponse(200, Arr([NotFoundBody, Int(404)]))
  }

  /** A client sees a missing image answered as a success. */
  lemma MissingImageIsSuccess(storage: map<string, string>, id: string)
    requires id !in storage
    ensures GetImageAsWritten(storage, id).JsonResponse?
    ensures GetImageAsWritten(storage, id).status == 200
    ensures GetImageAsWritten(storage, id).body != NotFoundBody
  {
  }

  /** `get_image` as intended: the stored image, or 404 with the error object. */
  function ServeImage(storage: map<string, string>, id: string): (r: ImageResponse)
    ensures r.Png? <==> id in storage
    ensures r.Png? ==> r.base64 == storage[id]
    ensures r.JsonResponse? ==> r.status == 404 && r.body == NotFoundBody
  {
    if id in storage then Png(storage[id]) else JsonResponse(404, NotFoundBody)
  }

  /** The ids `uuid` draws for `n` images are pairwise distinct and not yet stored. */
  predicate FreshIds(storage: map<string, string>, n: nat, uuid: nat -> string) {
    (forall i :: 0 <= i < n ==> uuid(i) !in storage)
    && (forall i, j :: 0 <= i < j < n ==> uuid(i) != uuid(j))
  }

  /** Storing images binds each fresh id to its image and keeps every earlier entry. */
  lemma {:induction false} StoredSpec(storage: map<string, string>, images: seq<string>, uuid: nat -> string)
    requires FreshIds(storage, |images|, uuid)
    ensures forall i :: 0 <= i < |images| ==>
      uuid(i) in Stored(storage, images, uuid) && Stored(storage, images, uuid)[uuid(i)] == images[i]
    ensures forall k :: k in storage ==> k in Stored(storage, images, uuid) && Stored(storage, images, uuid)[k] == storage[k]
    ensures forall k :: k in Stored(storage, images, uuid) ==>
      k in storage || exists i :: 0 <= i < |images| && k == uuid(i)
    decreases |images|
  {
    if images != [] {
      var n := |images| - 1;
      var pre := images[..n];
      StoredSpec(storage, pre, uuid);
      forall i | 0 <= i < n ensures uuid(i) != uuid(n) && pre[i] == images[i] { }
    }
  }

  /**
   * After a run, each image reference in its text serves the image it was stored with,
   * and every image stored before is still served.
   */
  lemma ImagesServed(storage: map<string, string>, images: seq<string>, uuid: nat -> string)
    requires FreshIds(storage, |images|, uuid)
    ensures forall i :: 0 <= i < |images| ==> ServeImage(Stored(storage, images, uuid), uuid(i)) == Png(images[i])
    ensures forall k :: k in storage ==> ServeImage(Stored(storage, images, uuid), k) == ServeImage(storage, k)
  {
    StoredSpec(storage, images, uuid);
  }

  /** The ids of the first `n` images. */
  function Ids(n: nat, uuid: nat -> string): (r: seq<string>)
    ensures |r| == n && forall i :: 0 <= i < n ==> r[i] == uuid(i)
  {
    seq(n, i requires 0 <= i < n => uuid(i))
  }

  lemma ImageMarkers()
    ensures PatternOf(ImageId).open == "[IMAGE_ID]" && PatternOf(ImageId).close == "[/IMAGE_ID]"
  {
    var n := Name(ImageId);
    assert n == "IMAGE_ID";
    assert "[" + n == "[IMAGE_ID";
    assert "[IMAGE_ID" + "]" == "[IMAGE_ID]";
    assert "[/" + n == "[/IMAGE_ID";
    assert "[/IMAGE_ID" + "]" == "[/IMAGE_ID]";
  }

  function ImagePieces(n: nat, uuid: nat -> string): seq<Piece> {
    if n == 0 then [] else ImagePieces(n - 1, uuid) + [Marker(ImageId, uuid(n - 1)), Plain("\n\n")]
  }

  /** `n` blank lines pairs: what the page shows of `n` image references. */
  function Blanks(n: nat): string {
    if n == 0 then "" else Blanks(n - 1) + "\n\n"
  }

  lemma RenderPair(k: Kind, b: string, c: string)
    ensures Render([Marker(k, b), Plain(c)]) == PatternOf(k).open + b + PatternOf(k).close + c
  {
    RenderAppend([Marker(k, b)], [Plain(c)]);
    RenderOne(Marker(k, b));
    RenderOne(Plain(c));
  }

  lemma {:induction false} ImagesRendered(n: nat, uuid: nat -> string)
    ensures Render(ImagePieces(n, uuid)) == ImageLines(n, uuid)
  {
    if n > 0 {
      ImagesRendered(n - 1, uuid);
      RenderAppend(ImagePieces(n - 1, uuid), [Marker(ImageId, uuid(n - 1)), Plain("\n\n")]);
      RenderPair(ImageId, uuid(n - 1), "\n\n");
      ImageMarkers();
    }
  }

  lemma PairContent(k: Kind, b: string, c: string)
    ensures PlainOf([Marker(k, b), Plain(c)]) == c
    ensures forall k' :: BodiesOf([Marker(k, b), Plain(c)], k') == Taken(Marker(k, b), k')
  {
    var ps := [Marker(k, b), Plain(c)];
    assert ps[1..] == [Plain(c)];
    PlainOne(c);
    forall k' ensures BodiesOf(ps, k') == Taken(ps[0], k') {
      BodiesPlain(c, k');
      assert BodiesOf(ps, k') == Taken(ps[0], k') + [];
    }
  }

  lemma ImagesContent(n: nat, uuid: nat -> string)
    ensures PlainOf(ImagePieces(n, uuid)) == Blanks(n)
    ensures BodiesOf(ImagePieces(n, uuid), ImageId) == Ids(n, uuid)
    ensures forall k :: k != ImageId ==> BodiesOf(ImagePieces(n, uuid), k) == []
  {
    ImagesPlain(n, uuid);
    forall k ensures BodiesOf(ImagePieces(n, uuid), k) == if k == ImageId then Ids(n, uuid) else [] {
      ImagesBodies(n, uuid, k);
    }
  }

  lemma {:induction false} ImagesPlain(n: nat, uuid: nat -> string)
    ensures PlainOf(ImagePieces(n, uuid)) == Blanks(n)
  {
    if n > 0 {
      var last := [Marker(ImageId, uuid(n - 1)), Plain("\n\n")];
      ImagesPlain(n - 1, uuid);
      PlainAppend(ImagePieces(n - 1, uuid), last);
      PairContent(ImageId, uuid(n - 1), "\n\n");
    }
  }

  lemma {:induction false} ImagesBodies(n: nat, uuid: nat -> string, k: Kind)
    ensures BodiesOf(ImagePieces(n, uuid), k) == if k == ImageId then Ids(n, uuid) else []
  {
    if n > 0 {
      var last := [Marker(ImageId, uuid(n - 1)), Plain("\n\n")];
      ImagesBodies(n - 1, uuid, k);
      BodiesAppend(ImagePieces(n - 1, uuid), last, k);
      ImageBodies(uuid(n - 1), k);
      if k == ImageId {
        IdsSnoc(n, uuid);
      }
    }
  }

  lemma ImageBodies(id: string, k: Kind)
    ensures BodiesOf([Marker(ImageId, id), Plain("\n\n")], k) == if k == ImageId then [id] else []
  {
    var last := [Marker(ImageId, id), Plain("\n\n")];
    assert last[1..] == [Plain("\n\n")];
    BodiesPlain("\n\n", k);
  }

  lemma IdsSnoc(n: nat, uuid: nat -> string)
    requires n > 0
    ensures Ids(n, uuid) == Ids(n - 1, uuid) + [uuid(n - 1)]
  {
  }

  /** The first `n` ids are usable image bodies. */
  ghost predicate UsableIds(n: nat, uuid: nat -> string) {
    forall i :: 0 <= i < n ==> Body(ImageId, uuid(i))
  }

  lemma {:induction false} ImagesFit(n: nat, uuid: nat -> string)
    requires UsableIds(n, uuid)
    ensures MarkersFit(ImagePieces(n, uuid), PatternOf)
  {
    if n > 0 {
      var last := [Marker(ImageId, uuid(n - 1)), Plain("\n\n")];
      ImagesFit(n - 1, uuid);
      assert MarkersFit(last, PatternOf);
      FitAppend(ImagePieces(n - 1, uuid), last);
    }
  }

  function FramedPieces(head: string, n: nat, uuid: nat -> string, tail: string): seq<Piece> {
    [Plain(head)] + ImagePieces(n, uuid) + [Plain(tail)]
  }

  lemma FramedRendered(head: string, n: nat, uuid: nat -> string, tail: string)
    ensures Render(FramedPieces(head, n, uuid, tail)) == head + ImageLines(n, uuid) + tail
  {
    var mid := ImagePieces(n, uuid);
    ImagesRendered(n, uuid);
    RenderAppend([Plain(head)] + mid, [Plain(tail)]);
    RenderAppend([Plain(head)], mid);
    RenderOne(Plain(head));
    RenderOne(Plain(tail));
  }

  lemma FramedContent(head: string, n: nat, uuid: nat -> string, tail: string)
    ensures PlainOf(FramedPieces(head, n, uuid, tail)) == head + Blanks(n) + tail
    ensures BodiesOf(FramedPieces(head, n, uuid, tail), ImageId) == Ids(n, uuid)
    ensures forall k :: k != ImageId ==> BodiesOf(FramedPieces(head, n, uuid, tail), k) == []
  {
    var mid := ImagePieces(n, uuid);
    ImagesContent(n, uuid);
    PlainAppend([Plain(head)] + mid, [Plain(tail)]);
    PlainAppend([Plain(head)], mid);
    PlainOne(head);
    PlainOne(tail);
    forall k ensures BodiesOf([Plain(head)] + mid + [Plain(tail)], k) == BodiesOf(mid, k) {
      BodiesAppend([Plain(head)] + mid, [Plain(tail)], k);
      BodiesAppend([Plain(head)], mid, k);
      BodiesPlain(head, k);
      BodiesPlain(tail, k);
    }
  }

  lemma PlainOne(t: string)
    ensures PlainOf([Plain(t)]) == t
  {
    assert [Plain(t)][1..] == [];
    assert PlainOf([Plain(t)][1..]) == "";
    assert t + "" == t;
  }

  lemma BodiesPlain(t: string, k: Kind)
    ensures BodiesOf([Plain(t)], k) == []
  {
    assert [Plain(t)][1..] == [];
  }

  lemma FramedWellFormed(head: string, n: nat, uuid: nat -> string, tail: string)
    requires NoOpen(head + Blanks(n) + tail, PatternOf) && UsableIds(n, uuid)
    ensures WellFormed(FramedPieces(head, n, uuid, tail))
  {
    FramedContent(head, n, uuid, tail);
    ImagesFit(n, uuid);
    FitAppend([Plain(head)], ImagePieces(n, uuid));
    FitAppend([Plain(head)] + ImagePieces(n, uuid), [Plain(tail)]);
  }

  /**
   * What the page extracts from image references between two plain texts, provided the
   * text it displays holds no open marker and the ids are usable image bodies.
   */
  lemma FramedRoundTrip(text: string, head: string, n: nat, uuid: nat -> string, tail: string)
    requires text == head + ImageLines(n, uuid) + tail
    requires NoOpen(head + Blanks(n) + tail, PatternOf) && UsableIds(n, uuid)
    ensures RichContentOf(text) == Rendered(head + Blanks(n) + tail, None, [], None, Ids(n, uuid))
  {
    var ps := FramedPieces(head, n, uuid, tail);
    FramedRendered(head, n, uuid, tail);
    FramedContent(head, n, uuid, tail);
    FramedWellFormed(head, n, uuid, tail);
    RoundTripTo(text, ps, Rendered(head + Blanks(n) + tail, None, [], None, Ids(n, uuid)));
  }

  lemma ReportRoundTrip(text: string, description: string, output: string, errors: string,
                        images: seq<string>, uuid: nat -> string)
    requires text == ReportHead(description, output, errors) + ImageLines(|images|, uuid)
                     + ReportTail(output, images, errors)
    requires NoOpen(ReportHead(description, output, errors) + Blanks(|images|) + ReportTail(output, images, errors), PatternOf)
    requires UsableIds(|images|, uuid)
    ensures RichContentOf(text)
      == Rendered(ReportHead(description, output, errors) + Blanks(|images|) + ReportTail(output, images, errors),
                  None, [], None, Ids(|images|, uuid))
  {
    FramedRoundTrip(text, ReportHead(description, output, errors), |images|, uuid, ReportTail(output, images, errors));
  }

  lemma ReportText(description: string, output: string, errors0: string, images: seq<string>,
                   captureError: Option<string>, uuid: nat -> string)
    ensures ExecutionText(description, Ran(output, errors0, images, captureError), uuid)
      == ReportHead(description, output, Warnings(errors0, captureError)) + ImageLines(|images|, uuid)
         + ReportTail(output, images, Warnings(errors0, captureError))
  {
  }

  /**
   * Round trip of execute_python_code and the chat page: the page's image ids are the ids the
   * images were stored under, in order, and nothing else is taken for a marker, provided
   * the report text it displays holds no open marker and the ids are usable image bodies.
   */
  lemma ImageIdsShown(description: string, output: string, errors0: string, images: seq<string>,
                      captureError: Option<string>, uuid: nat -> string)
    requires var errors := Warnings(errors0, captureError);
      NoOpen(ReportHead(description, output, errors) + Blanks(|images|) + ReportTail(output, images, errors), PatternOf)
    requires UsableIds(|images|, uuid)
    ensures var errors := Warnings(errors0, captureError);
      RichContentOf(ExecutionText(description, Ran(output, errors0, images, captureError), uuid))
      == Rendered(ReportHead(description, output, errors) + Blanks(|images|) + ReportTail(output, images, errors),
                  None, [], None, Ids(|images|, uuid))
  {
    ReportText(description, output, errors0, images, captureError, uuid);
    ReportRoundTrip(ExecutionText(description, Ran(output, errors0, images, captureError), uuid),
                    description, output, Warnings(errors0, captureError), images, uuid);
  }

  /** The optional sections of a report, as a reference for `ReportHead`. */
  datatype Section = TaskSection(description: string) | OutputSection(output: string) | WarningsSection(errors: string)

  function Rank(x: Section): nat {
    match x
    case TaskSection(_) => 0
    case OutputSection(_) => 1
    case WarningsSection(_) => 2
  }

  function SectionText(x: Section): string {
    match x
    case TaskSection(d) => "**Task:** " + d + "\n\n"
    case OutputSection(o) => "**Output:**\n```\n" + o + "\n```\n\n"
    case WarningsSection(e) => "**Warnings:**\n```\n" + e + "\n```\n\n"
  }

  function SectionsText(xs: seq<Section>): string {
    if xs == [] then "" else SectionText(xs[0]) + SectionsText(xs[1..])
  }

  function Optional(present: bool, x: Section): seq<Section> {
    if present then [x] else []
  }

  /** The sections a report has. */
  function Sections(description: string, output: string, errors: string): seq<Section> {
    Optional(description != "", TaskSection(description))
    + Optional(output != "", OutputSection(output))
    + Optional(errors != "", WarningsSection(errors))
  }

  /** The sections a report can have, written out case by case. */
  lemma SectionsCases(description: string, output: string, errors: string)
    ensures var t, o, w := TaskSection(description), OutputSection(output), WarningsSection(errors);
      Sections(description, output, errors)
      == (if description != "" then [t] else []) + (if output != "" then [o] else []) + (if errors != "" then [w] else [])
  {
  }

  /** One section per non-empty text, nothing else, in the order task, output, warnings. */
  lemma SectionsSpec(description: string, output: string, errors: string)
    ensures TaskSection(description) in Sections(description, output, errors) <==> description != ""
    ensures OutputSection(output) in Sections(description, output, errors) <==> output != ""
    ensures WarningsSection(errors) in Sections(description, output, errors) <==> errors != ""
    ensures forall x :: x in Sections(description, output, errors) ==>
      x == TaskSection(description) || x == OutputSection(output) || x == WarningsSection(errors)
    ensures var xs := Sections(description, output, errors);
      forall i, j :: 0 <= i < j < |xs| ==> Rank(xs[i]) < Rank(xs[j])
  {
    var t, o, w := TaskSection(description), OutputSection(output), WarningsSection(errors);
    var xs := Sections(description, output, errors);
    SectionsCases(description, output, errors);
    var d, p, e := description != "", output != "", errors != "";
    if d && p && e { assert xs == [t, o, w]; }
    else if d && p { assert xs == [t, o]; }
    else if d && e { assert xs == [t, w]; }
    else if d { assert xs == [t]; }
    else if p && e { assert xs == [o, w]; }
    else if p { assert xs == [o]; }
    else if e { assert xs == [w]; }
    else { assert xs == []; }
  }

  lemma {:induction false} SectionsTextAppend(a: seq<Section>, b: seq<Section>)
    ensures SectionsText(a + b) == SectionsText(a) + SectionsText(b)
    decreases |a|
  {
    if a == [] {
      assert a + b == b;
    } else {
      assert (a + b)[1..] == a[1..] + b;
      SectionsTextAppend(a[1..], b);
    }
  }

  lemma SectionsTextOne(x: Section)
    ensures SectionsText([x]) == SectionText(x)
  {
    assert [x][1..] == [];
  }

  lemma OptionalText(present: bool, x: Section)
    ensures SectionsText(Optional(present, x)) == if present then SectionText(x) else ""
  {
    if present { SectionsTextOne(x); }
  }

  /** The report head is the header followed by exactly the sections of `Sections`, in order. */
  lemma ReportHasSections(description: string, output: string, errors: string)
    ensures ReportHead(description, output, errors) == ResultHeader + SectionsText(Sections(description, output, errors))
  {
    var t := Optional(description != "", TaskSection(description));
    var o := Optional(output != "", OutputSection(output));
    var w := Optional(errors != "", WarningsSection(errors));
    assert Sections(description, output, errors) == t + o + w;
    SectionsTextAppend(t + o, w);
    SectionsTextAppend(t, o);
    OptionalText(description != "", TaskSection(description));
    OptionalText(output != "", OutputSection(output));
    OptionalText(errors != "", WarningsSection(errors));
    assert SectionsText(Sections(description, output, errors))
      == (TaskPart(description) + OutputPart(output)) + WarningsPart(errors);
    Assoc4(ResultHeader, TaskPart(description), OutputPart(output), WarningsPart(errors));
  }

  lemma Assoc4(x: string, a: string, b: string, c: string)
    ensures x + ((a + b) + c) == x + a + b + c
  {
  }

  predicate EndsWith(s: string, suffix: string) {
    |suffix| <= |s| && s[|s| - |suffix|..] == suffix
  }

  /** The last two characters are line feeds. */
  predicate EndsBlank(s: string) {
    |s| >= 2 && s[|s| - 1] == '\n' && s[|s| - 2] == '\n'
  }

  lemma EndsBlankAppend(a: string, b: string)
    requires EndsBlank(a) && (b == "" || EndsBlank(b))
    ensures EndsBlank(a + b)
  {
    if b == "" { assert a + b == a; }
  }

  lemma {:induction false} ImageLinesBlank(n: nat, uuid: nat -> string)
    ensures ImageLines(n, uuid) == "" || EndsBlank(ImageLines(n, uuid))
  {
    if n > 0 {
      var line := ImageLine(uuid(n - 1));
      assert EndsBlank(line) by {
        assert line == "[IMAGE_ID]" + uuid(n - 1) + "[/IMAGE_ID]" + "\n\n";
      }
      ImageLinesBlank(n - 1, uuid);
      if ImageLines(n - 1, uuid) == "" {
        assert ImageLines(n, uuid) == line;
      } else {
        EndsBlankAppend(ImageLines(n - 1, uuid), line);
      }
    }
  }

  lemma ReportHeadBlank(description: string, output: string, errors: string)
    ensures EndsBlank(ReportHead(description, output, errors))
  {
    assert EndsBlank(ResultHeader);
    EndsBlankAppend(ResultHeader, TaskPart(description));
    EndsBlankAppend(ResultHeader + TaskPart(description), OutputPart(output));
    EndsBlankAppend(ResultHeader + TaskPart(description) + OutputPart(output), WarningsPart(errors));
  }

  /** The no-output notice closes the report exactly when there is no output, no image and no warning. */
  lemma NoOutputNotice(description: string, output: string, errors0: string, images: seq<string>,
                       captureError: Option<string>, uuid: nat -> string)
    ensures EndsWith(ExecutionText(description, Ran(output, errors0, images, captureError), uuid), NoOutputLine)
      <==> output == "" && images == [] && Warnings(errors0, captureError) == ""
  {
    var errors := Warnings(errors0, captureError);
    var body := ReportHead(description, output, errors) + ImageLines(|images|, uuid);
    var t := ExecutionText(description, Ran(output, errors0, images, captureError), uuid);
    ReportText(description, output, errors0, images, captureError, uuid);
    ReportHeadBlank(description, output, errors);
    ImageLinesBlank(|images|, uuid);
    EndsBlankAppend(ReportHead(description, output, errors), ImageLines(|images|, uuid));
    if output == "" && images == [] && errors == "" {
      assert t == body + NoOutputLine;
      assert t[|t| - |NoOutputLine|..] == NoOutputLine;
    } else {
      assert t == body + "";
      assert NoOutputLine[|NoOutputLine| - 2] == '.';
    }
  }

  /** The server process: the module-level `image_storage` dictionary. */
  class Server {
    var imageStorage: map<string, string>

    constructor ()
      ensures imageStorage == map[]
    {
      imageStorage := map[];
    }

    /** The header and the task, output and warnings sections of a report. */
    static method WriteHead(description: string, output: string, errors: string) returns (result: string)
      ensures result == ReportHead(description, output, errors)
    {
      result := ResultHeader;
      if description != "" {
        result := result + ("**Task:** " + description + "\n\n");
      }
      assert result == ResultHeader + TaskPart(description);
      if output != "" {
        result := result + ("**Output:**\n```\n" + output + "\n```\n\n");
      }
      assert result == ResultHeader + TaskPart(description) + OutputPart(output);
      if errors != "" {
        result := result + ("**Warnings:**\n```\n" + errors + "\n```\n\n");
      }
    }

    /** The loop that stores each figure under a fresh id and appends its reference. */
    method StoreImages(head: string, images: seq<string>, uuid: nat -> string) returns (result: string)
      modifies this
      ensures result == head + ImageLines(|images|, uuid)
      ensures imageStorage == Stored(old(imageStorage), images, uuid)
    {
      result := head;
      var idx := 0;
      while idx < |images|
        invariant idx <= |images|
        invariant result == head + ImageLines(idx, uuid)
        invariant imageStorage == Stored(old(imageStorage), images[..idx], uuid)
      {
        var imgId := uuid(idx);
        StoreStep(old(imageStorage), head, images, idx, uuid);
        imageStorage := imageStorage[imgId := images[idx]];
        result := result + ImageLine(imgId);
        idx := idx + 1;
      }
      assert images[..idx] == images;
    }

    /** One more figure extends both the storage and the references by that figure. */
    static lemma StoreStep(storage: map<string, string>, head: string, images: seq<string>, idx: nat, uuid: nat -> string)
      requires idx < |images|
      ensures Stored(storage, images[..idx + 1], uuid) == Stored(storage, images[..idx], uuid)[uuid(idx) := images[idx]]
      ensures head + ImageLines(idx + 1, uuid) == head + ImageLines(idx, uuid) + ImageLine(uuid(idx))
    {
      assert images[..idx + 1][..idx] == images[..idx];
      Assoc2(head, ImageLines(idx, uuid), ImageLine(uuid(idx)));
    }

    /** `execute_python_code` once `exec` and figure capture have produced `run`. */
    method ExecutePythonCode(description: string, run: Execution, uuid: nat -> string) returns (result: string)
      modifies this
      ensures result == ExecutionText(description, run, uuid)
      ensures imageStorage == Stored(old(imageStorage), ImagesOf(run), uuid)
    {
      if run.ExecFailed? {
        return ExecErrorText(run.error);
      }
      var output := run.output;
      var errors := run.errors;
      var images := run.images;
      if run.captureError.Some? {
        errors := errors + ("\nError capturing plot: " + run.captureError.value);
      }
      assert errors == Warnings(run.errors, run.captureError);
      var head := WriteHead(description, output, errors);
      result := StoreImages(head, images, uuid);
      if output == "" && images == [] && errors == "" {
        result := result + NoOutputLine;
      }
      assert result == head + ImageLines(|images|, uuid) + ReportTail(output, images, errors);
      ReportText(description, output, run.errors, images, run.captureError, uuid);
    }

    /** `get_image`, with the intended 404 for an unknown id. */
    function GetImage(id: string): (r: ImageResponse)
      reads this
      ensures r == ServeImage(imageStorage, id)
    {
      if id in imageStorage then Png(imageStorage[id]) else JsonResponse(404, NotFoundBody)
    }
  }
}
