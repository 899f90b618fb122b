/** A three-day series worked through `min` and `max`, and the input that
    shows `min` scanning the oldest dates rather than the latest ones. The
    days are any three dates in ascending order; `FixtureDatesAscending`
    shows that 2023-01-01, 2023-01-02 and 2023-01-03 are such dates. */
module Fixture {
  import opened Wrappers
  import opened StringOrder
  import opened TimeSeries

  /** Lows 10, 5, 8 and highs 12, 9, 11 on three consecutive days. */
  function ThreeDays(day1: string, day2: string, day3: string): Series {
    map[
      day1 := DailyRecord(11.0, 12.0, 10.0, 11.5, 1000),
      day2 := DailyRecord(9.0, 9.0, 5.0, 6.0, 2000),
      day3 := DailyRecord(8.5, 11.0, 8.0, 10.0, 1500)
    ]
  }

  lemma FixtureDatesAscending()
    ensures Less("2023-01-01", "2023-01-02")
    ensures Less("2023-01-02", "2023-01-03")
  {
  }

  lemma ThreeDaysAscending(day1: string, day2: string, day3: string)
    requires Less(day1, day2) && Less(day2, day3)
    ensures StrictlyAscending([day1, day2, day3])
  {
    LessTransitive(day1, day2, day3);
  }

  lemma ReverseThree(day1: string, day2: string, day3: string)
    ensures Reverse([day1, day2, day3]) == [day3, day2, day1]
  {
  }

  /** The keys of the fixture sort to the three days in order. */
  lemma ThreeDaysSorted(day1: string, day2: string, day3: string)
    requires Less(day1, day2) && Less(day2, day3)
    ensures Sorted(ThreeDays(day1, day2, day3).Keys) == [day1, day2, day3]
    ensures SortedDescending(ThreeDays(day1, day2, day3).Keys) == [day3, day2, day1]
  {
    var keys := ThreeDays(day1, day2, day3).Keys;
    assert keys == {day1, day2, day3};
    ThreeDaysAscending(day1, day2, day3);
    AscendingUnique(Sorted(keys), [day1, day2, day3]);
    ReverseThree(day1, day2, day3);
  }

  /** The records of the three days are the ones the fixture lists. */
  lemma ThreeDaysRecords(day1: string, day2: string, day3: string)
    requires Less(day1, day2) && Less(day2, day3)
    ensures ThreeDays(day1, day2, day3)[day1].low == 10.0
    ensures ThreeDays(day1, day2, day3)[day2].low == 5.0 && ThreeDays(day1, day2, day3)[day2].high == 9.0
    ensures ThreeDays(day1, day2, day3)[day3].low == 8.0 && ThreeDays(day1, day2, day3)[day3].high == 11.0
  {
    LessTransitive(day1, day2, day3);
    LessIrreflexive(day1);
    LessIrreflexive(day2);
  }

  /** Python's `[:n]` on a three-element list. */
  lemma PrefixesOfThree(a: string, b: string, c: string)
    ensures Prefix([a, b, c], 0) == []
    ensures Prefix([a, b, c], 1) == [a]
    ensures Prefix([a, b, c], 2) == [a, b]
    ensures Prefix([a, b, c], -1) == [a, b]
  {
  }

  /** The windows `min` scans: the first days in calendar order, all but
      the newest one for `n = -1`. */
  lemma OldestWindows(day1: string, day2: string, day3: string)
    requires Less(day1, day2) && Less(day2, day3)
    ensures OldestWindow(ThreeDays(day1, day2, day3), 0) == []
    ensures OldestWindow(ThreeDays(day1, day2, day3), 1) == [day1]
    ensures OldestWindow(ThreeDays(day1, day2, day3), 2) == [day1, day2]
    ensures OldestWindow(ThreeDays(day1, day2, day3), -1) == [day1, day2]
  {
    ThreeDaysSorted(day1, day2, day3);
    PrefixesOfThree(day1, day2, day3);
  }

  /** The windows `max` scans: the last days, newest first. */
  lemma NewestWindows(day1: string, day2: string, day3: string)
    requires Less(day1, day2) && Less(day2, day3)
    ensures NewestWindow(ThreeDays(day1, day2, day3), 1) == [day3]
    ensures NewestWindow(ThreeDays(day1, day2, day3), 2) == [day3, day2]
  {
    ThreeDaysSorted(day1, day2, day3);
    PrefixesOfThree(day3, day2, day1);
  }

  /** With `n = 2`, `min` looks at the first two days and returns 5. */
  lemma TwoDayLowest(day1: string, day2: string, day3: string)
    requires Less(day1, day2) && Less(day2, day3)
    ensures LowestLow(ThreeDays(day1, day2, day3), 2) == Some(5.0)
  {
    OldestWindows(day1, day2, day3);
    ThreeDaysRecords(day1, day2, day3);
  }

  /** With `n = 2`, `max` looks at the last two days and returns 11. */
  lemma TwoDayHighest(day1: string, day2: string, day3: string)
    requires Less(day1, day2) && Less(day2, day3)
    ensures HighestHigh(ThreeDays(day1, day2, day3), 2) == Some(11.0)
  {
    var series := ThreeDays(day1, day2, day3);
    NewestWindows(day1, day2, day3);
    ThreeDaysRecords(day1, day2, day3);
    HighestOfTwo(series, 2, day3, day2);
  }

  /** A two-date window whose first high is the larger and above 0 has that
      high as its highest. */
  lemma HighestOfTwo(series: Series, n: int, a: string, b: string)
    requires NewestWindow(series, n) == [a, b]
    requires a in series && b in series && series[a].high > 0.0 && series[b].high <= series[a].high
    ensures HighestHigh(series, n) == Some(series[a].high)
  {
    HighestOfPair(series, NewestWindow(series, n), HighestHigh(series, n), a, b);
  }

  /** The maximum of two highs, stated on any window and any result that
      meets the contract of `HighestHigh`. */
  lemma HighestOfPair(series: Series, w: seq<string>, r: Option<real>, a: string, b: string)
    requires w == [a, b]
    requires a in series && b in series && series[a].high > 0.0 && series[b].high <= series[a].high
    requires r.None? <==> forall d :: d in w ==> series[d].high <= 0.0
    requires r.Some? ==> exists d :: d in w && series[d].high == r.value
    requires r.Some? ==> forall d :: d in w ==> series[d].high <= r.value
    ensures r == Some(series[a].high)
  {
  }

  /** `n <= 0` is not always "no data": `n = 0` gives an empty window, but
      `n = -1` drops only the newest date. */
  lemma NonPositiveWindows(day1: string, day2: string, day3: string)
    requires Less(day1, day2) && Less(day2, day3)
    ensures LowestLow(ThreeDays(day1, day2, day3), 0) == None
    ensures LowestLow(ThreeDays(day1, day2, day3), -1) == Some(5.0)
  {
    OldestWindows(day1, day2, day3);
    ThreeDaysRecords(day1, day2, day3);
  }

  /** The documentation of `min` promises the lowest price over the last
      `n` data points; with `n = 1` the code returns the low of the oldest
      day (10) where the latest day's low is 8. */
  lemma MinScansOldestDays(day1: string, day2: string, day3: string)
    requires Less(day1, day2) && Less(day2, day3)
    ensures LowestLow(ThreeDays(day1, day2, day3), 1) == Some(10.0)
    ensures LowestRecentLow(ThreeDays(day1, day2, day3), 1) == Some(8.0)
  {
    OldestWindows(day1, day2, day3);
    NewestWindows(day1, day2, day3);
    ThreeDaysRecords(day1, day2, day3);
  }
}
