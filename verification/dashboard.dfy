/** Data shaping in the dashboard page (app.py): the base-map lookup, the
    analytic table's column and date-window filter, and the table height. */
module Dashboard {
  import opened Optional
  import opened Series

  /** A map tile source and its attribution. */
  datatype TileLayer = TileLayer(tiles: string, attr: string)

  const OpenStreetMap: string := "OpenStreetMap"

  const TileLayers: map<string, TileLayer> := map[
    OpenStreetMap := TileLayer(OpenStreetMap,
      "&copy; <a href=\"https://www.openstreetmap.org/copyright\">OpenStreetMap</a> contributors"),
    "CartoDB DarkMatter" := TileLayer("CartoDB dark_matter",
      "&copy; <a href=\"https://www.carto.com/attributions\">CARTO</a>"),
    "Stamen Terrain" := TileLayer("Stamen Terrain",
      "Map tiles by <a href=\"http://stamen.com\">Stamen Design</a>, under <a href=\"http://creativecommons.org/licenses/by/3.0\">CC BY 3.0</a>. Data by <a href=\"http://openstreetmap.org\">OpenStreetMap</a>, under <a href=\"http://www.openstreetmap.org/copyright\">ODbL</a>.")
  ]

  /** The tile entry for a base-map name, OpenStreetMap's when the name is unknown. */
  function TileFor(name: string): (t: TileLayer)
    ensures t in TileLayers.Values
    ensures name in TileLayers ==> t == TileLayers[name]
    ensures name !in TileLayers ==> t == TileLayers[OpenStreetMap]
  {
    if name in TileLayers then TileLayers[name] else TileLayers[OpenStreetMap]
  }

  /** The OpenStreetMap tiles are used exactly when the name is not one of the two other base maps. */
  lemma TileFallback(name: string)
    ensures TileFor(name).tiles == OpenStreetMap <==> name != "CartoDB DarkMatter" && name != "Stamen Terrain"
  {
    if name == "CartoDB DarkMatter" {
      assert TileFor(name).tiles == "CartoDB dark_matter";
      assert "CartoDB dark_matter"[0] != OpenStreetMap[0];
    } else if name == "Stamen Terrain" {
      assert TileFor(name).tiles == "Stamen Terrain";
      assert "Stamen Terrain"[0] != OpenStreetMap[0];
    } else {
      assert name !in TileLayers || name == OpenStreetMap;
    }
  }

  /** One row of the price table: its index date and a price per commodity column. */
  datatype Record = Record(date: Date, cells: map<string, real>)

  /** A table: its column order and its rows in index order. */
  datatype Frame = Frame(columns: seq<string>, rows: seq<Record>)

  /** Index dates strictly increase, as for a generated month range. */
  predicate IndexIncreasing(rows: seq<Record>)
  {
    forall i, j :: 0 <= i < j < |rows| ==> rows[i].date < rows[j].date
  }

  /** The tail of a row list holds only its members; in a strictly increasing
      list it stays increasing and lies after the head. */
  lemma TailOfIncreasing(rows: seq<Record>)
    requires |rows| > 0
    ensures forall x :: x in rows[1..] ==> x in rows
    ensures IndexIncreasing(rows) ==> IndexIncreasing(rows[1..])
    ensures IndexIncreasing(rows) ==> forall x :: x in rows[1..] ==> rows[0].date < x.date
  {
  }

  /** Reference: the rows whose date lies in the inclusive window, in row order. */
  function InWindow(rows: seq<Record>, start: Date, end: Date): (r: seq<Record>)
    ensures |r| <= |rows|
    ensures forall x :: x in r <==> x in rows && start <= x.date <= end
    ensures IndexIncreasing(rows) ==> IndexIncreasing(r)
  {
    if |rows| == 0 then []
    else
      var rest := InWindow(rows[1..], start, end);
      TailOfIncreasing(rows);
      if start <= rows[0].date <= end then [rows[0]] + rest else rest
  }

  /** In a strictly increasing list, the tail holds every member but the head. */
  lemma TailMembers(a: seq<Record>)
    requires IndexIncreasing(a) && |a| > 0
    ensures forall x :: x in a[1..] <==> x in a && x != a[0]
    ensures forall x :: x in a && x != a[0] ==> a[0].date < x.date
  {
    forall x | x in a && x != a[0]
      ensures x in a[1..] && a[0].date < x.date
    {
      var k :| 0 <= k < |a| && a[k] == x;
      assert a[1..][k - 1] == x;
    }
    forall x | x in a[1..] ensures x != a[0]
    {
      var k :| 0 <= k < |a| - 1 && a[1..][k] == x;
      assert a[0].date < a[k + 1].date;
    }
  }

  /** Two non-empty strictly increasing lists with the same members share
      their head, and then their tails have the same members. */
  lemma SameHead(a: seq<Record>, b: seq<Record>)
    requires IndexIncreasing(a) && IndexIncreasing(b) && |a| > 0 && |b| > 0
    requires forall x :: x in a <==> x in b
    ensures a[0] == b[0]
    ensures forall x :: x in a[1..] <==> x in b[1..]
  {
    TailMembers(a);
    TailMembers(b);
    var x, y := a[0], b[0];
    assert x in b && y in a;
    assert x != y ==> x.date < y.date;
    assert x != y ==> y.date < x.date;
  }

  /** Two strictly increasing row lists with the same members are the same list. */
  lemma {:induction false} IncreasingUnique(a: seq<Record>, b: seq<Record>)
    requires IndexIncreasing(a) && IndexIncreasing(b)
    requires forall x :: x in a <==> x in b
    ensures a == b
    decreases |a|
  {
    assert |a| > 0 ==> a[0] in a;
    assert |b| > 0 ==> b[0] in b;
    if |a| > 0 && |b| > 0 {
      SameHead(a, b);
      assert IndexIncreasing(a[1..]) && IndexIncreasing(b[1..]);
      IncreasingUnique(a[1..], b[1..]);
      assert a == [a[0]] + a[1..] && b == [b[0]] + b[1..];
    }
  }

  /** Label slicing on a sorted index: binary searches for the first row at
      or after `start` and the first row after `end`, then the rows between. */
  method SliceByLabel(rows: seq<Record>, start: Date, end: Date) returns (r: seq<Record>)
    requires IndexIncreasing(rows)
    ensures r == InWindow(rows, start, end)
  {
    var lo := SearchFirst(rows, start, false);
    var hi := SearchFirst(rows, end, true);
    r := if lo <= hi then rows[lo..hi] else [];
    forall x | x in r ensures x in rows && start <= x.date <= end
    {
      var k :| lo <= k < hi && rows[k] == x;
    }
    forall x | x in rows && start <= x.date <= end ensures x in r
    {
      var k :| 0 <= k < |rows| && rows[k] == x;
      assert rows[lo..hi][k - lo] == x;
    }
    assert IndexIncreasing(r) by {
      forall i, j | 0 <= i < j < |r| ensures r[i].date < r[j].date
      {
        assert r[i] == rows[lo + i] && r[j] == rows[lo + j];
      }
    }
    IncreasingUnique(r, InWindow(rows, start, end));
  }

  /** First position whose date is at least `key` (or, when `after`, greater than `key`). */
  method SearchFirst(rows: seq<Record>, key: Date, after: bool) returns (k: nat)
    requires IndexIncreasing(rows)
    ensures k <= |rows|
    ensures forall i :: 0 <= i < k ==> (if after then rows[i].date <= key else rows[i].date < key)
    ensures forall i :: k <= i < |rows| ==> (if after then rows[i].date > key else rows[i].date >= key)
  {
    var lo, hi := 0, |rows|;
    while lo < hi
      invariant 0 <= lo <= hi <= |rows|
      invariant forall i :: 0 <= i < lo ==> (if after then rows[i].date <= key else rows[i].date < key)
      invariant forall i :: hi <= i < |rows| ==> (if after then rows[i].date > key else rows[i].date >= key)
      decreases hi - lo
    {
      var mid := (lo + hi) / 2;
      if (if after then rows[mid].date <= key else rows[mid].date < key) {
        lo := mid + 1;
      } else {
        hi := mid;
      }
    }
    k := lo;
  }

  /** Keeps only the selected columns of a row. */
  function ProjectRecord(x: Record, sel: seq<string>): (y: Record)
    ensures y.date == x.date
    ensures forall c :: c in y.cells <==> c in x.cells && c in sel
    ensures forall c :: c in y.cells ==> y.cells[c] == x.cells[c]
  {
    Record(x.date, map c | c in x.cells && c in sel :: x.cells[c])
  }

  function Project(rows: seq<Record>, sel: seq<string>): (r: seq<Record>)
    ensures |r| == |rows|
    ensures forall i :: 0 <= i < |rows| ==> r[i] == ProjectRecord(rows[i], sel)
  {
    seq(|rows|, i requires 0 <= i < |rows| => ProjectRecord(rows[i], sel))
  }

  /** The analytic table's filter: the selected columns, in selection order,
      of the rows dated within the inclusive window. It fails (raises) when a
      selected column is not in the table or the window has fewer than two dates. */
  method AnalyticFilter(frame: Frame, sel: seq<string>, window: seq<Date>) returns (r: Option<Frame>)
    requires IndexIncreasing(frame.rows)
    ensures r.None? <==> (exists c :: c in sel && c !in frame.columns) || |window| < 2
    ensures r.Some? ==> r.value.columns == sel
    ensures r.Some? ==> r.value.rows == Project(InWindow(frame.rows, window[0], window[1]), sel)
  {
    if exists c :: c in sel && c !in frame.columns {
      return None;
    }
    if |window| < 2 {
      return None;
    }
    var kept := SliceByLabel(frame.rows, window[0], window[1]);
    r := Some(Frame(sel, Project(kept, sel)));
  }

  /** Height of the rendered table: one 35-pixel line per row plus the header, capped at 600. */
  function TableHeight(rowCount: nat): (h: nat)
    ensures h <= 600
    ensures h == 35 * (rowCount + 1) <==> rowCount <= 16
    ensures rowCount > 16 ==> h == 600
  {
    if 35 * (rowCount + 1) < 600 then 35 * (rowCount + 1) else 600
  }

  /** More rows never make the table shorter. */
  lemma TableHeightMonotone(a: nat, b: nat)
    requires a <= b
    ensures TableHeight(a) <= TableHeight(b)
  {
  }
}
