/** Consequences of the normalisation that the dashboard relies on or that
    distinguish it from a fill-after-drop pipeline. */
module NormaliserFacts {
  import opened Optional
  import opened Series
  import opened Normaliser

  /** If no row's date parses, nothing survives: the series is empty. */
  lemma {:induction false} NoParsedDateYieldsEmpty(raw: seq<RawRow>)
    requires forall i :: 0 <= i < |raw| ==> !raw[i].date.Parsed?
    ensures Normalise(raw) == []
  {
  }

  /** If no row's value parses, the fill has nothing to copy and the series is empty. */
  lemma {:induction false} NoParsedValueYieldsEmpty(raw: seq<RawRow>)
    requires forall i :: 0 <= i < |raw| ==> !raw[i].value.Parsed?
    ensures Normalise(raw) == []
  {
  }

  /** A row whose own date and value both parse always survives with exactly those fields. */
  lemma CompleteRowSurvives(raw: seq<RawRow>, i: int, d: Date, v: real)
    requires 0 <= i < |raw|
    requires raw[i] == RawRow(Parsed(d), Parsed(v))
    ensures Point(d, v) in Normalise(raw)
  {
    var vs := Values(ParseRows(raw));
    FillIsLastParsed(vs, i);
    assert Survives(raw, i, Point(d, v));
  }

  /** The four-row payload used below: the second row's date is bad, the third row's value is bad. */
  function GapPayload(d1: Date, d3: Date, d4: Date): seq<RawRow>
  {
    [RawRow(Parsed(d1), Parsed(100.0)),
     RawRow(Unparseable, Parsed(110.0)),
     RawRow(Parsed(d3), Unparseable),
     RawRow(Parsed(d4), Parsed(130.0))]
  }

  /** Coercing and filling the payload: the third row takes the second row's value. */
  lemma GapPayloadFilled(d1: Date, d3: Date, d4: Date)
    ensures FillValues(ParseRows(GapPayload(d1, d3, d4)))
            == [Row(Some(d1), Some(100.0)), Row(None, Some(110.0)),
                Row(Some(d3), Some(110.0)), Row(Some(d4), Some(130.0))]
  {
    var raw := GapPayload(d1, d3, d4);
    var vs := Values(ParseRows(raw));
    assert vs == [Some(100.0), Some(110.0), None, Some(130.0)];
    var filled := ForwardFill(vs);
    assert filled == [Some(100.0), Some(110.0), Some(110.0), Some(130.0)];
  }

  /** Dropping the filled table removes only the row without a date. */
  lemma GapPayloadKept(d1: Date, d3: Date, d4: Date)
    ensures DropMissing([Row(Some(d1), Some(100.0)), Row(None, Some(110.0)),
                         Row(Some(d3), Some(110.0)), Row(Some(d4), Some(130.0))])
            == [Point(d1, 100.0), Point(d3, 110.0), Point(d4, 130.0)]
  {
    var table := [Row(Some(d1), Some(100.0)), Row(None, Some(110.0)),
                  Row(Some(d3), Some(110.0)), Row(Some(d4), Some(130.0))];
    assert DropMissing(table[3..]) == [Point(d4, 130.0)];
    assert DropMissing(table[2..]) == [Point(d3, 110.0), Point(d4, 130.0)] by {
      assert table[2..][1..] == table[3..];
    }
    assert DropMissing(table[1..]) == [Point(d3, 110.0), Point(d4, 130.0)] by {
      assert table[1..][1..] == table[2..];
    }
  }

  /** A row with a missing value survives with the value of the nearest earlier
      row whose value parses, even when that earlier row is itself dropped for
      a bad date: the fill runs before the drop. */
  lemma FillFromDroppedRow(d1: Date, d3: Date, d4: Date)
    requires d1 < d3 < d4
    ensures Normalise(GapPayload(d1, d3, d4))
            == [Point(d1, 100.0), Point(d3, 110.0), Point(d4, 130.0)]
  {
    var kept := [Point(d1, 100.0), Point(d3, 110.0), Point(d4, 130.0)];
    GapPayloadFilled(d1, d3, d4);
    GapPayloadKept(d1, d3, d4);
    assert DropMissing(FillValues(ParseRows(GapPayload(d1, d3, d4)))) == kept;
    SortKeepsIncreasing(kept);
    assert Normalise(GapPayload(d1, d3, d4)) == SortByDate(kept);
  }

  /** The fill repeats the last present value across a gap: [10, -, -, 40] becomes [10, 10, 10, 40]. */
  lemma FillAcrossGap()
    ensures ForwardFill([Some(10.0), None, None, Some(40.0)])
            == [Some(10.0), Some(10.0), Some(10.0), Some(40.0)]
  {
    var r := ForwardFill([Some(10.0), None, None, Some(40.0)]);
    assert r[0] == Some(10.0);
    assert r[1] == r[0];
    assert r[2] == r[1];
  }
}
