/** The daily time series the client works on, the windows `min` and `max`
    scan, and the extrema they compute. */
module TimeSeries {
  import opened Wrappers
  import opened StringOrder
  import opened IsoDates

  /** Top-level key of the decoded response that holds the daily series. */
  const TIME_SERIES_DAILY: string := "Time Series (Daily)"

  /** One trading day. The fields are the decoded `"1. open"`, `"2. high"`,
      `"3. low"`, `"4. close"` and `"5. volume"` entries. */
  datatype DailyRecord = DailyRecord(open: real, high: real, low: real, close: real, volume: int)

  /** Date (`YYYY-MM-DD`) to that day's record. */
  type Series = map<string, DailyRecord>

  /** A top-level value of the decoded response: the daily series, or
      anything else (an error message, a rate-limit note). */
  datatype Value = DailySeries(days: Series) | Other

  /** The decoded JSON body, as its top-level object. */
  type Response = map<string, Value>

  /** The exceptions indexing the response can raise. */
  datatype Error =
    | KeyError(key: string)      // the key is not in the response
    | NotAnObject(key: string)   // the key holds something other than a date-keyed object

  /** `response.json()[TIME_SERIES_DAILY]`: the daily series when the
      response holds one, a `KeyError` when the key is missing. */
  function ExtractSeries(response: Response): (r: Result<Series, Error>)
    ensures r.Success? <==> TIME_SERIES_DAILY in response && response[TIME_SERIES_DAILY].DailySeries?
    ensures r.Success? ==> r.value == response[TIME_SERIES_DAILY].days
    ensures TIME_SERIES_DAILY !in response ==> r == Failure(KeyError(TIME_SERIES_DAILY))
  {
    if TIME_SERIES_DAILY !in response then Failure(KeyError(TIME_SERIES_DAILY))
    else match response[TIME_SERIES_DAILY]
      case DailySeries(days) => Success(days)
      case Other => Failure(NotAnObject(TIME_SERIES_DAILY))
  }

  /** Python's `s[:n]` for an integer `n`. */
  function Prefix<T>(s: seq<T>, n: int): seq<T> {
    if n >= 0 then
      if n < |s| then s[..n] else s
    else
      if -n < |s| then s[..|s| + n] else []
  }

  /** `s[:n]` is a prefix of `s`: the first `n` elements, all of them when
      `n` is at least the length, and for a negative `n` all but the last
      `-n`. */
  lemma PrefixIsPythonSlice<T>(s: seq<T>, n: int)
    ensures |Prefix(s, n)| <= |s| && Prefix(s, n) == s[..|Prefix(s, n)|]
    ensures n >= 0 ==> |Prefix(s, n)| == (if n < |s| then n else |s|)
    ensures n < 0 ==> |Prefix(s, n)| == (if -n < |s| then |s| + n else 0)
  {
  }

  /** The dates `min` scans: `sorted(data.keys())[:n]`. */
  function OldestWindow(series: Series, n: int): (w: seq<string>)
    ensures forall d :: d in w ==> d in series
  {
    PrefixIsPythonSlice(Sorted(series.Keys), n);
    Prefix(Sorted(series.Keys), n)
  }

  /** The dates `max` scans: `sorted(data.keys(), reverse=True)[:n]`. */
  function NewestWindow(series: Series, n: int): (w: seq<string>)
    ensures forall d :: d in w ==> d in series
  {
    PrefixIsPythonSlice(SortedDescending(series.Keys), n);
    Prefix(SortedDescending(series.Keys), n)
  }

  /** Every element a prefix of a strictly ascending sequence keeps comes
      before every element it drops. */
  lemma AscendingPrefix(s: seq<string>, w: seq<string>)
    requires StrictlyAscending(s) && |w| <= |s| && w == s[..|w|]
    ensures StrictlyAscending(w)
    ensures forall d, e :: d in w && e in s && e !in w ==> Less(d, e)
  {
  }

  /** Every element a prefix of a strictly descending sequence keeps comes
      after every element it drops. */
  lemma DescendingPrefix(s: seq<string>, w: seq<string>)
    requires StrictlyDescending(s) && |w| <= |s| && w == s[..|w|]
    ensures StrictlyDescending(w)
    ensures forall d, e :: d in w && e in s && e !in w ==> Less(e, d)
  {
  }

  /** The window of `min` holds, oldest first, dates of the series that all
      come before every date it leaves out. */
  lemma OldestWindowIsOldest(series: Series, n: int)
    ensures StrictlyAscending(OldestWindow(series, n))
    ensures forall d, e :: d in OldestWindow(series, n) && e in series && e !in OldestWindow(series, n) ==> Less(d, e)
  {
    PrefixIsPythonSlice(Sorted(series.Keys), n);
    AscendingPrefix(Sorted(series.Keys), OldestWindow(series, n));
  }

  /** The window of `max` holds, newest first, dates of the series that all
      come after every date it leaves out. */
  lemma NewestWindowIsNewest(series: Series, n: int)
    ensures StrictlyDescending(NewestWindow(series, n))
    ensures forall d, e :: d in NewestWindow(series, n) && e in series && e !in NewestWindow(series, n) ==> Less(e, d)
  {
    PrefixIsPythonSlice(SortedDescending(series.Keys), n);
    DescendingPrefix(SortedDescending(series.Keys), NewestWindow(series, n));
  }

  /** How many dates each window holds: `n` of them (clamped to the series)
      for `n >= 0`, and all but `-n` of them for a negative `n`. */
  lemma WindowSizes(series: Series, n: int)
    ensures |OldestWindow(series, n)| == |NewestWindow(series, n)|
    ensures n >= 0 ==> |OldestWindow(series, n)| == (if n < |series| then n else |series|)
    ensures n < 0 ==> |OldestWindow(series, n)| == (if -n < |series| then |series| + n else 0)
  {
    assert |series.Keys| == |series|;
    PrefixIsPythonSlice(Sorted(series.Keys), n);
    PrefixIsPythonSlice(SortedDescending(series.Keys), n);
  }

  /** With ISO dates as keys, the window of `min` is the `n` earliest
      trading days and the window of `max` the `n` latest. */
  lemma WindowsAreChronological(series: Series, n: int)
    requires forall d :: d in series ==> IsIsoDate(d)
    ensures forall d, e :: d in OldestWindow(series, n) && e in series && e !in OldestWindow(series, n) ==> Before(d, e)
    ensures forall d, e :: d in NewestWindow(series, n) && e in series && e !in NewestWindow(series, n) ==> Before(e, d)
  {
    OldestWindowIsOldest(series, n);
    NewestWindowIsNewest(series, n);
    forall d, e | d in series && e in series
      ensures (Less(d, e) <==> Before(d, e)) && (Less(e, d) <==> Before(e, d))
    {
      LexicographicIsChronological(d, e);
      LexicographicIsChronological(e, d);
    }
  }

  /** The `"3. low"` of each date of `window`, in window order. */
  function Lows(series: Series, window: seq<string>): (lows: seq<real>)
    requires forall d :: d in window ==> d in series
    ensures |lows| == |window|
    ensures forall i :: 0 <= i < |window| ==> lows[i] == series[window[i]].low
  {
    seq(|window|, i requires 0 <= i < |window| => series[window[i]].low)
  }

  /** The `"2. high"` of each date of `window`, in window order. */
  function Highs(series: Series, window: seq<string>): (highs: seq<real>)
    requires forall d :: d in window ==> d in series
    ensures |highs| == |window|
    ensures forall i :: 0 <= i < |window| ==> highs[i] == series[window[i]].high
  {
    seq(|window|, i requires 0 <= i < |window| => series[window[i]].high)
  }

  /** The smallest element, `None` for an empty sequence. */
  function MinOf(xs: seq<real>): (r: Option<real>)
    ensures r.None? <==> |xs| == 0
    ensures r.Some? ==> exists i :: 0 <= i < |xs| && xs[i] == r.value
    ensures r.Some? ==> forall i :: 0 <= i < |xs| ==> r.value <= xs[i]
  {
    if |xs| == 0 then None
    else
      var init := xs[..|xs| - 1];
      var m := MinOf(init);
      var last := xs[|xs| - 1];
      assert forall i :: 0 <= i < |init| ==> init[i] == xs[i];
      if m.None? || last < m.value then Some(last) else m
  }

  /** The largest element, `None` for an empty sequence. */
  function MaxOf(xs: seq<real>): (r: Option<real>)
    ensures r.None? <==> |xs| == 0
    ensures r.Some? ==> exists i :: 0 <= i < |xs| && xs[i] == r.value
    ensures r.Some? ==> forall i :: 0 <= i < |xs| ==> xs[i] <= r.value
  {
    if |xs| == 0 then None
    else
      var init := xs[..|xs| - 1];
      var m := MaxOf(init);
      var last := xs[|xs| - 1];
      assert forall i :: 0 <= i < |init| ==> init[i] == xs[i];
      if m.None? || last > m.value then Some(last) else m
  }

  /** The minimum of the lows of a window is the low of a date in it and
      no greater than any low in it. */
  lemma LowsMinimum(series: Series, w: seq<string>)
    requires forall d :: d in w ==> d in series
    ensures MinOf(Lows(series, w)).Some? ==> exists d :: d in w && series[d].low == MinOf(Lows(series, w)).value
    ensures MinOf(Lows(series, w)).Some? ==> forall d :: d in w ==> MinOf(Lows(series, w)).value <= series[d].low
  {
  }

  /** The maximum of the highs of a window is the high of a date in it and
      no smaller than any high in it. */
  lemma HighsMaximum(series: Series, w: seq<string>)
    requires forall d :: d in w ==> d in series
    ensures MaxOf(Highs(series, w)).Some? ==> exists d :: d in w && series[d].high == MaxOf(Highs(series, w)).value
    ensures MaxOf(Highs(series, w)).Some? ==> forall d :: d in w ==> series[d].high <= MaxOf(Highs(series, w)).value
  {
  }

  /** What `min(n)` returns for a series: the lowest low over the `n`
      oldest dates, `None` when that window is empty. */
  function LowestLow(series: Series, n: int): (r: Option<real>)
    ensures r.None? <==> |OldestWindow(series, n)| == 0
    ensures r.Some? ==> exists d :: d in OldestWindow(series, n) && series[d].low == r.value
    ensures r.Some? ==> forall d :: d in OldestWindow(series, n) ==> r.value <= series[d].low
  {
    LowsMinimum(series, OldestWindow(series, n));
    MinOf(Lows(series, OldestWindow(series, n)))
  }

  /** `max` starts its running maximum at 0 and maps a final 0 back to
      `None`: a maximum that is not above 0 is reported as no data. */
  function AboveZero(m: Option<real>): (r: Option<real>)
    ensures r.Some? <==> m.Some? && m.value > 0.0
    ensures r.Some? ==> r == m
  {
    if m.Some? && m.value > 0.0 then m else None
  }

  /** What `max(n)` returns for a series: the highest high over the `n`
      newest dates, or `None` when no high in that window is above 0
      (which includes the empty window). */
  function HighestHigh(series: Series, n: int): (r: Option<real>)
    ensures r.None? <==> forall d :: d in NewestWindow(series, n) ==> series[d].high <= 0.0
    ensures r.Some? ==> r.value > 0.0 && exists d :: d in NewestWindow(series, n) && series[d].high == r.value
    ensures r.Some? ==> forall d :: d in NewestWindow(series, n) ==> series[d].high <= r.value
  {
    HighsMaximum(series, NewestWindow(series, n));
    AboveZero(MaxOf(Highs(series, NewestWindow(series, n))))
  }

  /** The lowest low over the `n` NEWEST dates: what the documentation of
      `min` ("over the last 'n' data points") describes. */
  function LowestRecentLow(series: Series, n: int): (r: Option<real>)
    ensures r.None? <==> |NewestWindow(series, n)| == 0
    ensures r.Some? ==> exists d :: d in NewestWindow(series, n) && series[d].low == r.value
    ensures r.Some? ==> forall d :: d in NewestWindow(series, n) ==> r.value <= series[d].low
  {
    LowsMinimum(series, NewestWindow(series, n));
    MinOf(Lows(series, NewestWindow(series, n)))
  }
}
