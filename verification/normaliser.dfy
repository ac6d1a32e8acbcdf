/** The normalisation of a commodity payload (api_connector.py, lines 32-36):
    coerce both columns, forward-fill the values, drop incomplete rows, sort. */
module Normaliser {
  import opened Optional
  import opened Series

  /** One field of a payload row as the coercing parsers see it: the row has
      no such key, the text does not parse, or it parses to `v`. */
  datatype Cell<T> = Absent | Unparseable | Parsed(v: T)

  /** A payload row, reduced to its two relevant fields. */
  datatype RawRow = RawRow(date: Cell<Date>, value: Cell<real>)

  /** A row after coercion: a failed parse becomes the missing marker. */
  datatype Row = Row(date: Option<Date>, value: Option<real>)

  /** Coercing parse of one field: anything but a successful parse is missing. */
  function Coerce<T>(c: Cell<T>): (r: Option<T>)
    ensures r.Some? <==> c.Parsed?
    ensures r.Some? ==> r.value == c.v
  {
    if c.Parsed? then Some(c.v) else None
  }

  /** Both columns coerced, row by row. */
  function ParseRows(raw: seq<RawRow>): (r: seq<Row>)
    ensures |r| == |raw|
    ensures forall i :: 0 <= i < |raw| ==> r[i] == Row(Coerce(raw[i].date), Coerce(raw[i].value))
  {
    seq(|raw|, i requires 0 <= i < |raw| => Row(Coerce(raw[i].date), Coerce(raw[i].value)))
  }

  /** The value column of a table. */
  function Values(rows: seq<Row>): (r: seq<Option<real>>)
    ensures |r| == |rows|
    ensures forall i :: 0 <= i < |rows| ==> r[i] == rows[i].value
  {
    seq(|rows|, i requires 0 <= i < |rows| => rows[i].value)
  }

  /** Forward fill with `carry` standing for the last value seen before `vs`. */
  function FillFrom(vs: seq<Option<real>>, carry: Option<real>): (r: seq<Option<real>>)
    ensures |r| == |vs|
    ensures forall i :: 0 <= i < |vs| && vs[i].Some? ==> r[i] == vs[i]
    ensures forall i :: 0 < i < |vs| && vs[i].None? ==> r[i] == r[i - 1]
    ensures |vs| > 0 && vs[0].None? ==> r[0] == carry
  {
    if |vs| == 0 then []
    else
      var c := if vs[0].Some? then vs[0] else carry;
      [c] + FillFrom(vs[1..], c)
  }

  /** Forward fill of a column in row order: a present value stays, a missing
      one repeats its predecessor's filled value, and a leading gap stays missing. */
  function ForwardFill(vs: seq<Option<real>>): (r: seq<Option<real>>)
    ensures |r| == |vs|
    ensures forall i :: 0 <= i < |vs| && vs[i].Some? ==> r[i] == vs[i]
    ensures forall i :: 0 < i < |vs| && vs[i].None? ==> r[i] == r[i - 1]
    ensures |vs| > 0 && vs[0].None? ==> r[0].None?
  {
    FillFrom(vs, None)
  }

  /** Reference definition: the last present value of `vs`, if any. */
  function LastParsed(vs: seq<Option<real>>): (r: Option<real>)
    ensures r.Some? <==> exists k :: 0 <= k < |vs| && vs[k].Some?
  {
    if |vs| == 0 then None
    else if vs[|vs| - 1].Some? then vs[|vs| - 1]
    else LastParsed(vs[..|vs| - 1])
  }

  /** The fill with a carry agrees with the reference: the last present value
      up to and including position i, else the carry. */
  lemma {:induction false} FillFromIsLastParsed(vs: seq<Option<real>>, carry: Option<real>, i: int)
    requires 0 <= i < |vs|
    ensures FillFrom(vs, carry)[i] == (if LastParsed(vs[..i + 1]).Some? then LastParsed(vs[..i + 1]) else carry)
    decreases i
  {
    var r := FillFrom(vs, carry);
    if vs[i].Some? {
      assert vs[..i + 1][i] == vs[i];
    } else if i == 0 {
      assert LastParsed(vs[..1][..0]) == None;
    } else {
      FillFromIsLastParsed(vs, carry, i - 1);
      assert vs[..i + 1][..i] == vs[..i];
    }
  }

  /** The forward fill returns, at every row, the nearest present value at or
      before that row in original order. */
  lemma FillIsLastParsed(vs: seq<Option<real>>, i: int)
    requires 0 <= i < |vs|
    ensures ForwardFill(vs)[i] == LastParsed(vs[..i + 1])
  {
    FillFromIsLastParsed(vs, None, i);
  }

  /** A filled value is missing exactly when every value up to that row is missing. */
  lemma LeadingMissingStays(vs: seq<Option<real>>, i: int)
    requires 0 <= i < |vs|
    ensures ForwardFill(vs)[i].None? <==> forall k :: 0 <= k <= i ==> vs[k].None?
  {
    FillIsLastParsed(vs, i);
    var p := vs[..i + 1];
    assert forall k :: 0 <= k <= i ==> p[k] == vs[k];
  }

  /** A present filled value comes from some earlier-or-same row `j` that holds
      it, with only missing values strictly between `j` and the row; the converse
      direction (a missing fill) is `LeadingMissingStays`. */
  lemma {:induction false} FillComesFromNearestEarlier(vs: seq<Option<real>>, i: int)
    requires 0 <= i < |vs|
    requires ForwardFill(vs)[i].Some?
    ensures exists j :: 0 <= j <= i && vs[j] == ForwardFill(vs)[i]
                        && forall k :: j < k <= i ==> vs[k].None?
    decreases i
  {
    if vs[i].None? {
      if i == 0 {
        assert false;
      }
      FillComesFromNearestEarlier(vs, i - 1);
    }
  }

  /** Reference: the value a row ends up with after the fill, defined from the
      last present value up to that row rather than from the fill itself. */
  function FilledValue(raw: seq<RawRow>, i: int): (r: Option<real>)
    requires 0 <= i < |raw|
  {
    LastParsed(Values(ParseRows(raw))[..i + 1])
  }

  /** Reference: the coerced and filled table, row by row. */
  function ReferenceTable(raw: seq<RawRow>): (r: seq<Row>)
    ensures |r| == |raw|
  {
    seq(|raw|, i requires 0 <= i < |raw| => Row(Coerce(raw[i].date), FilledValue(raw, i)))
  }

  /** The value column replaced by its forward fill; dates untouched. */
  function FillValues(rows: seq<Row>): (r: seq<Row>)
    ensures |r| == |rows|
    ensures forall i :: 0 <= i < |rows| ==> r[i].date == rows[i].date
  {
    var filled := ForwardFill(Values(rows));
    seq(|rows|, i requires 0 <= i < |rows| => Row(rows[i].date, filled[i]))
  }

  /** Keeps exactly the rows with both fields present, as points, in row order. */
  function DropMissing(rows: seq<Row>): (r: seq<Point>)
    ensures |r| <= |rows|
    ensures forall p :: p in r <==>
              exists i :: 0 <= i < |rows| && rows[i] == Row(Some(p.date), Some(p.value))
  {
    if |rows| == 0 then []
    else
      var rest := DropMissing(rows[1..]);
      assert forall i :: 0 < i < |rows| ==> rows[i] == rows[1..][i - 1];
      var h := rows[0];
      if h.date.Some? && h.value.Some? then
        [Point(h.date.value, h.value.value)] + rest
      else rest
  }

  /** Dropping keeps every complete row exactly once: a point occurs as often
      as there are rows carrying that date and value. */
  lemma {:induction false} DropMissingCounts(rows: seq<Row>)
    ensures forall p :: multiset(DropMissing(rows))[p] == multiset(rows)[Row(Some(p.date), Some(p.value))]
  {
    if |rows| > 0 {
      DropMissingCounts(rows[1..]);
      assert rows == [rows[0]] + rows[1..];
    }
  }

  /** A payload row `i` survives normalisation as point `p`. */
  predicate Survives(raw: seq<RawRow>, i: int, p: Point)
    requires 0 <= i < |raw|
  {
    raw[i].date == Parsed(p.date) && FilledValue(raw, i) == Some(p.value)
  }

  /** The full normalisation of a payload. */
  function Normalise(raw: seq<RawRow>): (r: seq<Point>)
    ensures SortedByDate(r)
    ensures |r| <= |raw|
    ensures multiset(r) == multiset(DropMissing(ReferenceTable(raw)))
    ensures forall p :: p in r <==> exists i :: 0 <= i < |raw| && Survives(raw, i, p)
  {
    PipelineIsReference(raw);
    SurvivorsOfReference(raw);
    var r := SortByDate(DropMissing(FillValues(ParseRows(raw))));
    assert forall p :: p in r <==> p in multiset(r);
    r
  }

  /** The points kept from the reference table are exactly the surviving rows. */
  lemma SurvivorsOfReference(raw: seq<RawRow>)
    ensures forall p :: p in DropMissing(ReferenceTable(raw)) <==>
              exists i :: 0 <= i < |raw| && Survives(raw, i, p)
  {
    var ref := ReferenceTable(raw);
    forall p | p in DropMissing(ref)
      ensures exists i :: 0 <= i < |raw| && Survives(raw, i, p)
    {
      var i :| 0 <= i < |ref| && ref[i] == Row(Some(p.date), Some(p.value));
      assert Survives(raw, i, p);
    }
    forall p, i | 0 <= i < |raw| && Survives(raw, i, p)
      ensures p in DropMissing(ref)
    {
      assert ref[i] == Row(Some(p.date), Some(p.value));
    }
  }

  /** The coerce-then-fill pipeline produces the reference table. */
  lemma PipelineIsReference(raw: seq<RawRow>)
    ensures FillValues(ParseRows(raw)) == ReferenceTable(raw)
  {
    var parsed := ParseRows(raw);
    var vs := Values(parsed);
    var a := FillValues(parsed);
    var b := ReferenceTable(raw);
    forall i | 0 <= i < |raw|
      ensures a[i] == b[i]
    {
      FillIsLastParsed(vs, i);
    }
  }
}
