/** The synthetic series that replaces real data on every fallback path
    (generate_mock_data, api_connector.py, lines 45-49). */
module MockData {
  import opened Series

  /** Number of monthly points in the synthetic series. */
  const MockLength: nat := 12

  /** The placeholder value of the i-th point, oldest first. */
  function MockValue(i: int): int
  {
    100 + i * 5 + (i % 3) * 10
  }

  /** Twelve month-end points, the newest at `lastMonthEnd`, the ordinal of the
      last month end on or before today; consecutive months are consecutive ordinals. */
  function GenerateMockData(lastMonthEnd: Date): (r: seq<Point>)
    ensures |r| == MockLength
    ensures StrictlyIncreasing(r)
    ensures r[MockLength - 1].date == lastMonthEnd
    ensures r[0].value == 100.0 && r[MockLength - 1].value == 175.0
    ensures forall i :: 0 <= i < |r| ==> 100.0 <= r[i].value <= 175.0
    ensures forall i :: 0 <= i < |r| - 1 ==>
              r[i + 1].value - r[i].value == (if i % 3 == 2 then -15.0 else 15.0)
  {
    seq(MockLength, i requires 0 <= i < MockLength =>
      Point(lastMonthEnd - (MockLength - 1) + i, MockValue(i) as real))
  }

  /** The synthetic series is already in date order, so sorting it is the identity. */
  lemma MockIsSorted(lastMonthEnd: Date)
    ensures SortedByDate(GenerateMockData(lastMonthEnd))
    ensures SortByDate(GenerateMockData(lastMonthEnd)) == GenerateMockData(lastMonthEnd)
  {
    SortKeepsIncreasing(GenerateMockData(lastMonthEnd));
  }

  /** The series is not monotone: it falls after every third point. */
  lemma MockNotMonotone(lastMonthEnd: Date)
    ensures GenerateMockData(lastMonthEnd)[3].value < GenerateMockData(lastMonthEnd)[2].value
  {
  }
}
