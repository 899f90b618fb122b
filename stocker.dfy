/** The `Stocker` client: URL building, point lookup and the windowed
    extrema. The HTTP request is the `fetch` parameter of each operation,
    a function from the URL to the decoded response. */
module StockerClient {
  import opened Wrappers
  import opened StringOrder
  import opened TimeSeries

  /** Everything of the request URL before the symbol. */
  const QUERY_PREFIX: string := "https://www.alphavantage.co/query?function=TIME_SERIES_DAILY&symbol="

  /** What separates the symbol from the key. */
  const KEY_PARAM: string := "&apikey="

  /** How an f-string renders an optional symbol: Python's `None` becomes
      the text `None`. */
  function SymbolText(symbol: Option<string>): string {
    match symbol
    case None => "None"
    case Some(s) => s
  }

  /** The two parameters a request URL carries. */
  datatype Query = Query(symbol: string, key: string)

  /** Position of the first `&` in `s`, or `|s|` when there is none. */
  function FirstAmpersand(s: string): (i: nat)
    ensures i <= |s|
    ensures i < |s| ==> s[i] == '&'
    ensures forall j :: 0 <= j < i ==> s[j] != '&'
  {
    if |s| == 0 || s[0] == '&' then 0 else 1 + FirstAmpersand(s[1..])
  }

  /** Reads the symbol and the key back out of a request URL: the symbol
      runs up to the first `&`, the key is everything after `&apikey=`. */
  function ParseUrl(url: string): Option<Query> {
    if |url| < |QUERY_PREFIX| || url[..|QUERY_PREFIX|] != QUERY_PREFIX then None
    else
      var rest := url[|QUERY_PREFIX|..];
      var i := FirstAmpersand(rest);
      if |rest| - i >= |KEY_PARAM| && rest[i..i + |KEY_PARAM|] == KEY_PARAM
      then Some(Query(rest[..i], rest[i + |KEY_PARAM|..]))
      else None
  }

  /** A URL built from a symbol without `&` parses back to that symbol and
      the key, whatever the key holds. */
  lemma ParseBuiltUrl(text: string, key: string)
    ensures '&' !in text ==> ParseUrl(QUERY_PREFIX + text + KEY_PARAM + key) == Some(Query(text, key))
  {
    if '&' in text {
      return;
    }
    var url := QUERY_PREFIX + text + KEY_PARAM + key;
    assert url[..|QUERY_PREFIX|] == QUERY_PREFIX;
    var rest := url[|QUERY_PREFIX|..];
    assert rest == text + KEY_PARAM + key;
    assert rest[|text|] == '&';
    var i := FirstAmpersand(rest);
    forall j | 0 <= j < |text| ensures rest[j] != '&' {
      assert rest[j] == text[j];
    }
    assert i == |text|;
    assert rest[i..i + |KEY_PARAM|] == KEY_PARAM;
    assert rest[..i] == text;
    assert rest[i + |KEY_PARAM|..] == key;
  }

  /** The lowest price seen so far by `min`: `float("inf")` before any. */
  datatype Bound = Infinity | Finite(value: real)

  function BoundOf(m: Option<real>): Bound {
    match m
    case None => Infinity
    case Some(v) => Finite(v)
  }

  /** The highest price seen so far by `max`, which starts at 0. */
  function RunningHigh(m: Option<real>): real {
    if m.Some? && m.value > 0.0 then m.value else 0.0
  }

  /** The loop of `min`: a running minimum of `"3. low"` over the dates of
      `window`, started at infinity; an untouched infinity is reported as
      `None`. */
  method LowestOver(data: Series, window: seq<string>) returns (r: Option<real>)
    requires forall d :: d in window ==> d in data
    ensures r == MinOf(Lows(data, window))
  {
    ghost var lows := Lows(data, window);
    var lowest := Infinity;
    for i := 0 to |window|
      invariant lowest == BoundOf(MinOf(lows[..i]))
    {
      var low := data[window[i]].low;
      assert lows[..i + 1][..i] == lows[..i];
      if lowest.Infinity? || low < lowest.value {
        lowest := Finite(low);
      }
    }
    assert lows[..|window|] == lows;
    if lowest == Infinity {
      return None;
    }
    return Some(lowest.value);
  }

  /** The loop of `max`: a running maximum of `"2. high"` over the dates of
      `window`, started at 0; a final 0 is reported as `None`. */
  method HighestOver(data: Series, window: seq<string>) returns (r: Option<real>)
    requires forall d :: d in window ==> d in data
    ensures r == AboveZero(MaxOf(Highs(data, window)))
  {
    ghost var highs := Highs(data, window);
    var highest := 0.0;
    for i := 0 to |window|
      invariant highest == RunningHigh(MaxOf(highs[..i]))
    {
      var high := data[window[i]].high;
      assert highs[..i + 1][..i] == highs[..i];
      if high > highest {
        highest := high;
      }
    }
    assert highs[..|window|] == highs;
    if highest == 0.0 {
      return None;
    }
    return Some(highest);
  }

  class Stocker {
    /** The API key. */
    const key: string
    /** The default symbol; `None` when calls must name one. */
    const symbol: Option<string>

    /** Stores the key and the default symbol as given. */
    constructor (key: string, symbol: Option<string>)
      ensures this.key == key && this.symbol == symbol
    {
      this.key := key;
      this.symbol := symbol;
    }

    /** `_get_url`: a per-call symbol wins over the default one; with
        neither, the text `None` goes into the URL and nothing is raised.
        The URL parses back to that symbol and the key. */
    function GetUrl(key: string, symbol: Option<string>): (url: string)
      ensures |url| >= |QUERY_PREFIX| && url[..|QUERY_PREFIX|] == QUERY_PREFIX
      ensures var text := if symbol.Some? then symbol.value else SymbolText(this.symbol);
              '&' !in text ==> ParseUrl(url) == Some(Query(text, key))
    {
      var text := SymbolText(if symbol.None? then this.symbol else symbol);
      ParseBuiltUrl(text, key);
      QUERY_PREFIX + text + KEY_PARAM + key
    }

    /** `lookup`: the record stored for `date`, unchanged, or `None` exactly
        when the series has no such date; a response without the daily
        series is an error. */
    function Lookup(fetch: string -> Response, date: string, symbol: Option<string> := None): (r: Result<Option<DailyRecord>, Error>)
      ensures match ExtractSeries(fetch(GetUrl(key, symbol)))
              case Failure(e) => r == Failure(e)
              case Success(series) =>
                && (r == Success(None) <==> date !in series)
                && (date in series ==> r == Success(Some(series[date])))
    {
      var data :- ExtractSeries(fetch(GetUrl(key, symbol)));
      if date !in data then Success(None) else Success(Some(data[date]))
    }

    /** `min`: fetch the series, then scan its `n` oldest dates for the
        lowest low. */
    method Min(fetch: string -> Response, n: int, symbol: Option<string> := None) returns (r: Result<Option<real>, Error>)
      ensures match ExtractSeries(fetch(GetUrl(key, symbol)))
              case Failure(e) => r == Failure(e)
              case Success(series) => r == Success(LowestLow(series, n))
    {
      var url := GetUrl(key, symbol);
      var response := fetch(url);
      var data :- ExtractSeries(response);
      var lowest := LowestOver(data, OldestWindow(data, n));
      return Success(lowest);
    }

    /** `max`: fetch the series, then scan its `n` newest dates for the
        highest high. */
    method Max(fetch: string -> Response, n: int, symbol: Option<string> := None) returns (r: Result<Option<real>, Error>)
      ensures match ExtractSeries(fetch(GetUrl(key, symbol)))
              case Failure(e) => r == Failure(e)
              case Success(series) => r == Success(HighestHigh(series, n))
    {
      var url := GetUrl(key, symbol);
      var response := fetch(url);
      var data :- ExtractSeries(response);
      var highest := HighestOver(data, NewestWindow(data, n));
      return Success(highest);
    }

    /** `min` as its documentation describes it: the lowest low over the `n`
        NEWEST dates. */
    method MinRecent(fetch: string -> Response, n: int, symbol: Option<string> := None) returns (r: Result<Option<real>, Error>)
      ensures match ExtractSeries(fetch(GetUrl(key, symbol)))
              case Failure(e) => r == Failure(e)
              case Success(series) => r == Success(LowestRecentLow(series, n))
    {
      var url := GetUrl(key, symbol);
      var response := fetch(url);
      var data :- ExtractSeries(response);
      var lowest := LowestOver(data, NewestWindow(data, n));
      return Success(lowest);
    }
  }
}
