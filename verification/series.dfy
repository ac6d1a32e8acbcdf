/** Time series points and the ascending sort applied to a normalised series. */
module Series {

  /** A date as an abstract ordinal: only its order matters to the model. */
  type Date = int

  /** One (date, value) row of a series; neither field can be missing. */
  datatype Point = Point(date: Date, value: real)

  /** Ascending by date (ties allowed). */
  predicate SortedByDate(s: seq<Point>)
  {
    forall i, j :: 0 <= i < j < |s| ==> s[i].date <= s[j].date
  }

  /** Strictly ascending by date: what a generated month range looks like. */
  predicate StrictlyIncreasing(s: seq<Point>)
  {
    forall i, j :: 0 <= i < j < |s| ==> s[i].date < s[j].date
  }

  /** Puts `p` in front of the first point whose date is not smaller. */
  function Insert(p: Point, s: seq<Point>): (r: seq<Point>)
    requires SortedByDate(s)
    ensures SortedByDate(r)
    ensures multiset(r) == multiset(s) + multiset{p}
    ensures forall q :: q in r <==> q == p || q in s
  {
    if |s| == 0 then [p]
    else if p.date <= s[0].date then [p] + s
    else
      var tail := Insert(p, s[1..]);
      assert s == [s[0]] + s[1..];
      assert forall q :: q in tail ==> s[0].date <= q.date;
      ConsSorted(s[0], tail);
      [s[0]] + tail
  }

  /** Putting a point no later than every point of a sorted series in front keeps it sorted. */
  lemma ConsSorted(h: Point, t: seq<Point>)
    requires SortedByDate(t)
    requires forall q :: q in t ==> h.date <= q.date
    ensures SortedByDate([h] + t)
  {
    var r := [h] + t;
    forall i, j | 0 <= i < j < |r|
      ensures r[i].date <= r[j].date
    {
      if i > 0 {
        assert r[i] == t[i - 1] && r[j] == t[j - 1];
      } else {
        assert r[j] in t;
      }
    }
  }

  /** The sort of a series by date. Only the order of dates is promised; the
      relative order of points with equal dates is an artefact of the model. */
  function SortByDate(s: seq<Point>): (r: seq<Point>)
    ensures SortedByDate(r)
    ensures multiset(r) == multiset(s)
    ensures |r| == |s|
  {
    if |s| == 0 then []
    else
      var rest := SortByDate(s[1..]);
      assert s == [s[0]] + s[1..];
      Insert(s[0], rest)
  }

  /** A strictly increasing series is already sorted and sorting leaves it alone. */
  lemma {:induction false} SortKeepsIncreasing(s: seq<Point>)
    requires StrictlyIncreasing(s)
    ensures SortByDate(s) == s
  {
    if |s| > 0 {
      assert StrictlyIncreasing(s[1..]);
      SortKeepsIncreasing(s[1..]);
      if |s| > 1 {
        assert s[0].date < s[1].date;
      }
    }
  }
}
