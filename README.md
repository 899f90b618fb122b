# Stocker, modelled in Dafny

`Stocker` is a small client for the Alpha Vantage daily time-series API. It
is built from an API key and an optional default ticker symbol. It offers
three queries:

- `lookup(date)`: the raw record of one trading day;
- `min(n)`: the lowest `"3. low"` over a window of `n` dates;
- `max(n)`: the highest `"2. high"` over a window of `n` dates.

Each query builds the request URL with `_get_url`, fetches the JSON body,
takes its `"Time Series (Daily)"` object, and works on that.

The model has six modules:

- `Wrappers`: `Option` and `Result`.
- `StringOrder`: Python's string `<` as `Less`, proved a strict total order.
  It defines `Sorted` (what `sorted()` yields for a set of keys) and
  `SortedDescending` (`sorted(..., reverse=True)`). Each is proved to hold
  exactly the keys, strictly ordered. `AscendingUnique` and
  `DescendingUnique` prove that no other sequence does.
- `IsoDates`: for `YYYY-MM-DD` keys, string order is calendar order.
- `TimeSeries`: the daily record, the decoded response, and the two windows
  that `min` and `max` scan. It also holds what the two queries compute over
  those windows: `LowestLow`, `HighestHigh`, and their facts.
- `StockerClient`: the class `Stocker` with immutable `key` and `symbol`,
  plus the two scanning loops as methods. Each loop is proved equal to the
  function that specifies it.
- `Fixture`: a three-day series with concrete answers for `min` and `max`.

The HTTP request is a parameter `fetch: string -> Response` of every query.
`Response` is the decoded top-level JSON object.

The fixture's dates are parameters, required only to be in ascending string
order. `FixtureDatesAscending` shows that `2023-01-01 < 2023-01-02 < 2023-01-03`
meets this.

Points where the code does something its docstrings do not say:

- The docstrings (src/stocker/Stocker.py:23, 45, 61, 82) say a symbol must
  be given to the constructor or to each call. `_get_url` does not check
  this: with neither, the f-string writes `None` into the URL
  (`GetUrl`).
- A response without the `"Time Series (Daily)"` key fails when the
  queries index it (lines 50, 66, 87). The model returns
  `Failure(KeyError(..))` there.
- `sorted(keys)[:n]` with a negative `n` keeps all but the last `-n` dates
  (see `Fixture.NonPositiveWindows`).
- `max` starts its running maximum at `0`. So a window whose highs are all
  `<= 0` gives `None`, just as an empty window does.

## Model

| member | source | states |
|---|---|---|
| StockerClient.Stocker.constructor | src/stocker/Stocker.py:18-26 | key and default symbol are stored exactly as given |
| StockerClient.Stocker.GetUrl | src/stocker/Stocker.py:28-38 | the URL starts with the daily-series query prefix; a per-call symbol wins over the stored one; with neither, the text `None` is used and nothing fails; for a symbol without `&` the URL parses back to that symbol and the key |
| StockerClient.ParseBuiltUrl | src/stocker/Stocker.py:38 | a URL built from a `&`-free symbol and any key reads back as exactly that symbol and key |
| TimeSeries.ExtractSeries | src/stocker/Stocker.py:48-50 | succeeds exactly when the response holds the daily series under `"Time Series (Daily)"`, returning it unchanged; a missing key is a `KeyError` |
| StockerClient.Stocker.Lookup | src/stocker/Stocker.py:40-54 | an extraction error is passed on; otherwise the result is `None` exactly when the date is absent, and the stored record unchanged when it is present |
| TimeSeries.PrefixIsPythonSlice | src/stocker/Stocker.py:69 | `s[:n]` is a prefix of `s` of length `min(n, len)` for `n >= 0`, and of length `len + n` (or 0) for `n < 0` |
| TimeSeries.OldestWindow | src/stocker/Stocker.py:69 | every date `min` scans is a date of the series |
| TimeSeries.NewestWindow | src/stocker/Stocker.py:90 | every date `max` scans is a date of the series |
| StringOrder.Sorted | src/stocker/Stocker.py:69 | `sorted(keys)` has exactly the keys, each once, in strictly ascending string order; for a non-empty set its first element is the least key |
| StringOrder.SortedDescending | src/stocker/Stocker.py:90 | `sorted(keys, reverse=True)` has exactly the keys, each once, in strictly descending order |
| StringOrder.AscendingUnique | src/stocker/Stocker.py:69 | two strictly ascending sequences with the same elements are equal, so the sorted order is determined by the keys alone |
| StringOrder.ReverseDescending | src/stocker/Stocker.py:90 | reversing a strictly descending sequence gives a strictly ascending one with the same elements |
| StringOrder.DescendingUnique | src/stocker/Stocker.py:90 | two strictly descending sequences with the same elements are equal, so the `reverse=True` order is determined by the keys alone |
| StringOrder.LessIrreflexive | src/stocker/Stocker.py:69 | no string sorts before itself |
| StringOrder.LessTransitive | src/stocker/Stocker.py:69 | string order is transitive |
| StringOrder.LessTotal | src/stocker/Stocker.py:69 | any two distinct strings are ordered one way or the other |
| StringOrder.LessIsStrictTotalOrder | src/stocker/Stocker.py:69 | the three facts above, for all strings at once |
| StringOrder.LeastExists | src/stocker/Stocker.py:69 | every non-empty key set has a least key |
| TimeSeries.OldestWindowIsOldest | src/stocker/Stocker.py:69 | the window of `min` is strictly ascending, and each of its dates sorts before every date it leaves out |
| TimeSeries.NewestWindowIsNewest | src/stocker/Stocker.py:90 | the window of `max` is strictly descending, and each of its dates sorts after every date it leaves out |
| TimeSeries.WindowSizes | src/stocker/Stocker.py:69 | both windows hold `min(n, size)` dates for `n >= 0`, and all but `-n` of them (or none) for `n < 0` |
| IsoDates.LexicographicIsChronological | src/stocker/Stocker.py:69 | for `YYYY-MM-DD` dates, string order holds exactly when the first date is the earlier calendar day |
| IsoDates.DigitsOrder | src/stocker/Stocker.py:69 | on equal-width digit fields, string order is numeric order, and string equality is numeric equality |
| TimeSeries.WindowsAreChronological | src/stocker/Stocker.py:69 | with ISO keys, `min` scans the `n` earliest trading days and `max` (line 90) the `n` latest |
| TimeSeries.Lows | src/stocker/Stocker.py:70 | the `"3. low"` of each window date, in scan order |
| TimeSeries.Highs | src/stocker/Stocker.py:91 | the `"2. high"` of each window date, in scan order |
| TimeSeries.MinOf | src/stocker/Stocker.py:68-74 | `None` exactly for no values; otherwise a value that occurs and is `<=` every value |
| TimeSeries.MaxOf | src/stocker/Stocker.py:89-93 | `None` exactly for no values; otherwise a value that occurs and is `>=` every value |
| TimeSeries.LowsMinimum | src/stocker/Stocker.py:69-72 | the minimum of the window's lows is the low of one of its dates, and no greater than any of them |
| TimeSeries.HighsMaximum | src/stocker/Stocker.py:90-93 | the maximum of the window's highs is the high of one of its dates, and no smaller than any of them |
| TimeSeries.LowestLow | src/stocker/Stocker.py:68-75 | what `min(n)` returns for a series: `None` exactly when the oldest-`n` window is empty; otherwise a low attained in the window and `<=` every low in it |
| TimeSeries.HighestHigh | src/stocker/Stocker.py:89-96 | what `max(n)` returns, where the running maximum starts at 0 and a final 0 becomes `None`: `None` exactly when no high in the newest-`n` window is above 0; otherwise a positive high attained in the window and `>=` every high in it |
| StockerClient.LowestOver | src/stocker/Stocker.py:68-75 | the loop of `min`, with its `inf` sentinel and the final `inf` to `None` step, returns the minimum of the window's lows |
| StockerClient.HighestOver | src/stocker/Stocker.py:89-96 | the loop of `max`, starting at 0, returns the maximum of the window's highs when that is above 0; a final 0 becomes `None` |
| StockerClient.Stocker.Min | src/stocker/Stocker.py:56-75 | an extraction error is passed on; otherwise the result is `LowestLow` of the fetched series |
| StockerClient.Stocker.Max | src/stocker/Stocker.py:77-96 | an extraction error is passed on; otherwise the result is `HighestHigh` of the fetched series |
| TimeSeries.LowestRecentLow | src/stocker/Stocker.py:58-62 | the lowest low over the `n` newest dates, which is what the documentation of `min` describes: `None` exactly for an empty window, otherwise attained and minimal |
| StockerClient.Stocker.MinRecent | src/stocker/Stocker.py:56-75 | `min` corrected to scan the newest `n` dates: errors are passed on, otherwise the result is `LowestRecentLow` |
| Fixture.ThreeDaysSorted | src/stocker/Stocker.py:69 | three ascending dates sort to `[d1, d2, d3]`, and in reverse to `[d3, d2, d1]` |
| Fixture.OldestWindows | src/stocker/Stocker.py:69 | on three days, `n = 0, 1, 2, -1` select `[]`, `[d1]`, `[d1, d2]` and `[d1, d2]` |
| Fixture.NewestWindows | src/stocker/Stocker.py:90 | on three days, `n = 1, 2` select `[d3]` and `[d3, d2]` |
| Fixture.TwoDayLowest | src/stocker/Stocker.py:68-75 | `min(2)` on the fixture is 5.0, the lower of the two oldest lows |
| Fixture.TwoDayHighest | src/stocker/Stocker.py:89-96 | `max(2)` on the fixture is 11.0, the higher of the two newest highs |
| Fixture.HighestOfTwo | src/stocker/Stocker.py:89-96 | over a two-date window whose larger high is positive, `max` returns that high |
| Fixture.NonPositiveWindows | src/stocker/Stocker.py:69 | `min(0)` is `None` while `min(-1)` is 5.0: a negative `n` drops only the newest date |
| Fixture.MinScansOldestDays | src/stocker/Stocker.py:58-69 | on the fixture `min(1)` is 10.0, the oldest day's low, while the newest day's low is 8.0 |

## Left out

- The network request (`requests.get`) and JSON decoding (`response.json`). They are the `fetch` parameter, and their failures are not modelled.
- The `print` that `_get_url` performs when it falls back to the stored symbol. It is output only.
- Caching. The source has none, and its comments only suggest one.
- Floating point. Prices are exact reals, so rounding, `inf` and `NaN` prices are not modelled. `float()` parsing of the decimal strings is taken as done, and a malformed price string is not modelled.
- Records hold numbers where the API gives decimal strings, and a record missing `"2. high"` or `"3. low"` is not modelled.
- Non-integer `n`, which Python would reject or treat differently when slicing.
- TimeSeries.ExtractSeries: a value under `"Time Series (Daily)"` that is not a date-keyed object is reported as `NotAnObject`. Python would instead go on and fail, or misbehave, when it uses that value.
- StockerClient.Stocker.GetUrl: the read-back of symbol and key is stated only for symbols without `&`. A symbol containing `&` makes an ambiguous query string.
- Python's string order is by code point, and `Less` compares `char` values the same way. No normalisation is modelled.

## Findings

| source | as written | input that shows it | evidently intended | confidence | as-written member | corrected member |
|---|---|---|---|---|---|---|
| src/stocker/Stocker.py:58-69 | `min` scans `sorted(data.keys())[:n]`, the `n` oldest dates | three days 2023-01-01..03 with lows 10, 5, 8 and `n = 1`: `min` returns 10.0, while the latest day's low is 8.0 | the lowest low over the last `n` data points, the `n` newest dates as `max` uses | medium, not executed | Fixture.MinScansOldestDays | StockerClient.Stocker.MinRecent |
