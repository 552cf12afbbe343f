// The two backend tools of the tool-calling demo server: the simulated restaurant
// search (a filter over a fixed table followed by a slice) and the status
// branches of the weather lookup, whose reply is a parameter.

module ServerWithTools {
  import opened Wrappers
  import opened Text

  // ---- search_restaurants ----

  datatype Restaurant = Restaurant(name: string, cuisine: string, rating: real, price: string)

  /** The simulated restaurant data, in table order. */
  const Restaurants: seq<Restaurant> := [
    Restaurant("The Golden Fork", "Italian", 4.5, "$$"),
    Restaurant("Bella Italia", "Italian", 4.2, "$$$"),
    Restaurant("Sushi Master", "Japanese", 4.7, "$$$"),
    Restaurant("Taco Fiesta", "Mexican", 4.3, "$"),
    Restaurant("Spice Garden", "Indian", 4.6, "$$"),
    Restaurant("Green Leaf", "Vegetarian", 4.4, "$$")
  ]

  /** The dictionary the tool returns. */
  datatype SearchReply = SearchReply(location: string, cuisine: string, count: nat, results: seq<Restaurant>)

  /** `cuisine.lower() in r["cuisine"].lower()`. */
  predicate ServesCuisine(r: Restaurant, cuisine: string) {
    Contains(Lower(r.cuisine), Lower(cuisine))
  }

  /** The comprehension `[r for r in rs if cuisine.lower() in r["cuisine"].lower()]`. */
  function Matching(rs: seq<Restaurant>, cuisine: string): seq<Restaurant>
    decreases |rs|
  {
    if rs == [] then []
    else (if ServesCuisine(rs[0], cuisine) then [rs[0]] else []) + Matching(rs[1..], cuisine)
  }

  /** The filter step: "any", in any letter case, keeps the table. */
  function Filtered(rs: seq<Restaurant>, cuisine: string): seq<Restaurant> {
    if Lower(cuisine) != "any" then Matching(rs, cuisine) else rs
  }

  /** The search over table `rs`: filter, then `[:max_results]`, and the reply dictionary. */
  function SearchIn(rs: seq<Restaurant>, location: string, cuisine: string, maxResults: int): SearchReply {
    var filtered := SliceTo(Filtered(rs, cuisine), maxResults);
    SearchReply(location, cuisine, |filtered|, filtered)
  }

  /** `search_restaurants`. */
  function SearchRestaurants(location: string, cuisine: string, maxResults: int): SearchReply {
    SearchIn(Restaurants, location, cuisine, maxResults)
  }

  /** `a` is `b` with some elements left out, the rest in order. */
  predicate Subsequence<T(==)>(a: seq<T>, b: seq<T>)
    decreases |b|
  {
    if a == [] then true
    else if b == [] then false
    else (a[0] == b[0] && Subsequence(a[1..], b[1..])) || Subsequence(a, b[1..])
  }

  lemma {:induction false} PrefixSubsequence<T>(a: seq<T>, b: seq<T>, n: nat)
    requires Subsequence(a, b) && n <= |a|
    ensures Subsequence(a[..n], b)
    decreases |b|
  {
    if n > 0 && b != [] {
      if a[0] == b[0] && Subsequence(a[1..], b[1..]) {
        PrefixSubsequence(a[1..], b[1..], n - 1);
        assert a[..n][1..] == a[1..][..n - 1];
      } else {
        PrefixSubsequence(a, b[1..], n);
      }
    }
  }

  lemma {:induction false} SelfSubsequence<T>(a: seq<T>)
    ensures Subsequence(a, a)
    decreases |a|
  {
    if a != [] {
      SelfSubsequence(a[1..]);
    }
  }

  lemma {:induction false} SubsequenceMembers<T>(a: seq<T>, b: seq<T>)
    requires Subsequence(a, b)
    ensures forall x :: x in a ==> x in b
    decreases |b|
  {
    if a != [] && b != [] {
      if a[0] == b[0] && Subsequence(a[1..], b[1..]) {
        SubsequenceMembers(a[1..], b[1..]);
        forall x | x in a ensures x in b {
          if x != a[0] {
            assert x in a[1..];
            assert x in b[1..];
          }
        }
      } else {
        SubsequenceMembers(a, b[1..]);
        forall x | x in a ensures x in b {
          assert x in b[1..];
        }
      }
    }
  }

  /** The matches are exactly the entries serving the cuisine, in table order. */
  lemma {:induction false} MatchingSpec(rs: seq<Restaurant>, cuisine: string)
    ensures forall r :: r in Matching(rs, cuisine) <==> r in rs && ServesCuisine(r, cuisine)
    ensures Subsequence(Matching(rs, cuisine), rs)
    decreases |rs|
  {
    if rs != [] {
      MatchingSpec(rs[1..], cuisine);
      var m := Matching(rs[1..], cuisine);
      if ServesCuisine(rs[0], cuisine) {
        assert Matching(rs, cuisine) == [rs[0]] + m;
        assert ([rs[0]] + m)[1..] == m;
      } else {
        assert Matching(rs, cuisine) == m;
      }
    }
  }

  /** A cuisine of "any", in any letter case, applies no filter. */
  lemma AnyCuisine(rs: seq<Restaurant>, location: string, cuisine: string, maxResults: int)
    requires Lower(cuisine) == "any"
    ensures SearchIn(rs, location, cuisine, maxResults).results == SliceTo(rs, maxResults)
  {
  }

  /** Otherwise every result serves the requested cuisine, ignoring letter case. */
  lemma ResultsServeCuisine(rs: seq<Restaurant>, location: string, cuisine: string, maxResults: int)
    requires Lower(cuisine) != "any"
    ensures forall r :: r in SearchIn(rs, location, cuisine, maxResults).results ==> ServesCuisine(r, cuisine)
  {
    var m := Matching(rs, cuisine);
    MatchingSpec(rs, cuisine);
    var results := SliceTo(m, maxResults);
    forall r | r in results ensures r in m {
      var i :| 0 <= i < |results| && results[i] == r;
      assert m[i] == r;
    }
  }

  /** Results keep table order and come from the table. */
  lemma ResultsFromTable(rs: seq<Restaurant>, location: string, cuisine: string, maxResults: int)
    ensures Subsequence(SearchIn(rs, location, cuisine, maxResults).results, rs)
    ensures forall r :: r in SearchIn(rs, location, cuisine, maxResults).results ==> r in rs
  {
    var f := Filtered(rs, cuisine);
    var results := SliceTo(f, maxResults);
    if Lower(cuisine) != "any" {
      MatchingSpec(rs, cuisine);
    } else {
      SelfSubsequence(rs);
    }
    assert results == f[..|results|];
    PrefixSubsequence(f, rs, |results|);
    SubsequenceMembers(results, rs);
  }

  /** For a non-negative limit, the results are the first min(limit, #matches) matches. */
  lemma FirstMatches(rs: seq<Restaurant>, location: string, cuisine: string, maxResults: int)
    requires maxResults >= 0
    ensures var f := Filtered(rs, cuisine);
      SearchIn(rs, location, cuisine, maxResults).results == f[..if maxResults < |f| then maxResults else |f|]
  {
  }

  /** The count is the number of results, and location and cuisine are echoed. */
  lemma SearchEchoes(rs: seq<Restaurant>, location: string, cuisine: string, maxResults: int)
    ensures var reply := SearchIn(rs, location, cuisine, maxResults);
      reply.count == |reply.results| && reply.location == location && reply.cuisine == cuisine
      && reply.count <= |rs|
  {
    var f := Filtered(rs, cuisine);
    if Lower(cuisine) != "any" {
      MatchingSpec(rs, cuisine);
      SubsequenceLength(f, rs);
    }
  }

  lemma {:induction false} SubsequenceLength<T>(a: seq<T>, b: seq<T>)
    requires Subsequence(a, b)
    ensures |a| <= |b|
    decreases |b|
  {
    if a != [] && b != [] {
      if a[0] == b[0] && Subsequence(a[1..], b[1..]) {
        SubsequenceLength(a[1..], b[1..]);
      } else {
        SubsequenceLength(a, b[1..]);
      }
    }
  }

  /** The defaults, cuisine "any" and three results, give the first three entries of the table. */
  lemma DefaultSearch(location: string)
    ensures SearchRestaurants(location, "any", 3).results == Restaurants[..3]
    ensures SearchRestaurants(location, "any", 3).count == 3
  {
    assert Lower("any") == "any";
  }

  // ---- get_weather ----

  /** The fields read from a weather report, each as Python formats it. */
  datatype Report = Report(temp: string, feelsLike: string, description: string, humidity: string)

  /**
   * How the lookup went: `raise_for_status` raised for an HTTP status, some other
   * exception was raised, or the report was read.
   */
  datatype WeatherReply = HttpStatusError(status: int, error: string) | Failed(error: string) | Fetched(report: Report)

  /** The text for a report, with the degree sign that was meant. */
  function Summary(location: string, w: Report): string {
    "The weather in " + location + " is " + w.description + " with a temperature of " + w.temp
    + "°C (feels like " + w.feelsLike + "°C). Humidity: " + w.humidity + "%."
  }

  /**
   * The text for a report as the source file spells it: its author wrote the degree sign,
   * but the file carries that sign's UTF-8 bytes read as Mac OS Roman, the two characters
   * NOT SIGN and INFINITY.
   */
  function SummaryAsWritten(location: string, w: Report): string {
    "The weather in " + location + " is " + w.description + " with a temperature of " + w.temp
    + "¬∞C (feels like " + w.feelsLike + "¬∞C). Humidity: " + w.humidity + "%."
  }

  function SummaryPrefix(location: string, w: Report): string {
    "The weather in " + location + " is " + w.description + " with a temperature of " + w.temp
  }

  /** As written, the temperature is followed by "¬∞C". */
  lemma TemperatureUnitAsWritten(location: string, w: Report)
    ensures var n := |SummaryPrefix(location, w)|;
      |SummaryAsWritten(location, w)| >= n + 3
      && SummaryAsWritten(location, w)[n..n + 3] == "¬∞C"
      && SummaryAsWritten(location, w) != Summary(location, w)
  {
    var n := |SummaryPrefix(location, w)|;
    var t := SummaryAsWritten(location, w);
    assert t == SummaryPrefix(location, w) + ("¬∞C (feels like " + w.feelsLike + "¬∞C). Humidity: " + w.humidity + "%.");
    assert t[n] == '¬';
    assert Summary(location, w)[n] == '°';
  }

  /** The corrected text puts the degree sign and the unit right after the temperature. */
  lemma TemperatureUnit(location: string, w: Report)
    ensures var n := |SummaryPrefix(location, w)|;
      |Summary(location, w)| >= n + 2 && Summary(location, w)[n..n + 2] == "°C"
  {
    var n := |SummaryPrefix(location, w)|;
    var t := Summary(location, w);
    assert t == SummaryPrefix(location, w) + ("°C (feels like " + w.feelsLike + "°C). Humidity: " + w.humidity + "%.");
  }

  predicate Missing(apiKey: Option<string>) {
    apiKey.None? || apiKey.value == ""
  }

  /** `get_weather` as written: the key check, then the reply or the handler for its exception. */
  function GetWeather(location: string, apiKey: Option<string>, reply: WeatherReply): string {
    GetWeatherWith(location, apiKey, reply, w => SummaryAsWritten(location, w))
  }

  /** `get_weather` with the degree sign that was meant. */
  function GetWeatherCorrected(location: string, apiKey: Option<string>, reply: WeatherReply): string {
    GetWeatherWith(location, apiKey, reply, w => Summary(location, w))
  }

  /** The branches of `get_weather`, given the text of a successful reply. */
  function GetWeatherWith(location: string, apiKey: Option<string>, reply: WeatherReply, summary: Report -> string): string {
    if Missing(apiKey) then "Weather API key not configured. Please add OPENWEATHER_API_KEY to .env file."
    else match reply
      case Fetched(w) => summary(w)
      case HttpStatusError(status, e) =>
        if status == 404 then "City '" + location + "' not found. Please check the spelling."
        else "Error fetching weather: " + e
      case Failed(e) => "Error getting weather data: " + e
  }

  /** Without a key, the configuration message is the answer whatever the service would have said. */
  lemma WeatherNeedsKey(location: string, apiKey: Option<string>, reply: WeatherReply, other: WeatherReply)
    requires Missing(apiKey)
    ensures GetWeather(location, apiKey, reply) == GetWeather(location, apiKey, other)
    ensures GetWeather(location, apiKey, reply)
      == "Weather API key not configured. Please add OPENWEATHER_API_KEY to .env file."
  {
  }

  /**
   * The correction changes exactly the successful replies: there the text as written has
   * "¬∞C" where the corrected one has "°C", and every other answer is the same.
   */
  lemma CorrectionScope(location: string, apiKey: Option<string>, reply: WeatherReply)
    ensures GetWeather(location, apiKey, reply) == GetWeatherCorrected(location, apiKey, reply)
      <==> Missing(apiKey) || !reply.Fetched?
    ensures !Missing(apiKey) && reply.Fetched? ==>
      GetWeather(location, apiKey, reply) == SummaryAsWritten(location, reply.report)
      && GetWeatherCorrected(location, apiKey, reply) == Summary(location, reply.report)
  {
    if !Missing(apiKey) && reply.Fetched? {
      TemperatureUnitAsWritten(location, reply.report);
    }
  }

  /** An HTTP 404 is reported as an unknown city, any other status as a fetch error carrying the exception text. */
  lemma StatusBranches(location: string, apiKey: Option<string>, status: int, e: string)
    requires !Missing(apiKey)
    ensures status == 404 ==> (GetWeather(location, apiKey, HttpStatusError(status, e))
      == "City '" + location + "' not found. Please check the spelling.")
    ensures status != 404 ==> (GetWeather(location, apiKey, HttpStatusError(status, e))
      == "Error fetching weather: " + e)
    ensures GetWeather(location, apiKey, HttpStatusError(status, e)) != GetWeather(location, apiKey, Failed(e))
  {
    var t := GetWeather(location, apiKey, HttpStatusError(status, e));
    var f := GetWeather(location, apiKey, Failed(e));
    if status == 404 {
      assert t[0] == 'C' && f[0] == 'E';
    } else {
      assert t[6] == 'f' && f[6] == 'g';
    }
  }
}
