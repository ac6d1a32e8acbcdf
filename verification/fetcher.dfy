/** Commodity series acquisition (fetch_commodity_data, api_connector.py,
    lines 12-43): build the request, classify what came back, and either
    normalise the payload or fall back to the synthetic series with a notice. */
module Fetcher {
  import opened Optional
  import opened Series
  import opened Normaliser
  import opened MockData

  /** What the HTTP round trip produced, as seen by the handler chain. */
  datatype FetchOutcome =
    | TransportFailure(reason: string)   // a requests exception: timeout, DNS, refused, undecodable body
    | OtherFailure(reason: string)       // any other exception before the rows are read
    | Payload(data: Option<seq<RawRow>>) // a decoded reply; None when `data` is absent or null

  /** The user-visible notice shown before falling back. */
  datatype Notice =
    | NoDataWarning
    | ConnectionError(detail: string)
    | UnexpectedError(detail: string)

  datatype Level = Warning | Error

  /** A notice as rendered: its level and its text. */
  datatype Banner = Banner(level: Level, text: string)

  /** The series handed to the dashboard, tagged with how it was obtained. */
  datatype Acquired =
    | Normalised(points: seq<Point>)
    | Fallback(notice: Notice, points: seq<Point>)

  const UrlPrefix: string := "https://www.alphavantage.co/query?function="
  const UrlInterval: string := "&interval=monthly&apikey="

  /** Text of the key as interpolated: an unset key reads as "None". */
  function KeyText(apiKey: Option<string>): string
  {
    apiKey.GetOr("None")
  }

  /** The request URL: fixed prefix, commodity, fixed interval part, key; nothing is escaped. */
  function RequestUrl(commodity: string, apiKey: Option<string>): (u: string)
    ensures |u| == |UrlPrefix| + |commodity| + |UrlInterval| + |KeyText(apiKey)|
    ensures u[..|UrlPrefix|] == UrlPrefix
    ensures u[|UrlPrefix|..|UrlPrefix| + |commodity|] == commodity
    ensures u[|UrlPrefix| + |commodity|..|UrlPrefix| + |commodity| + |UrlInterval|] == UrlInterval
    ensures u[|UrlPrefix| + |commodity| + |UrlInterval|..] == KeyText(apiKey)
  {
    UrlPrefix + commodity + UrlInterval + KeyText(apiKey)
  }

  /** Position of the first `c` in `s`, or |s| when there is none. */
  function IndexOf(s: string, c: char): (k: nat)
    ensures k <= |s|
    ensures k < |s| ==> s[k] == c
    ensures forall j :: 0 <= j < k ==> s[j] != c
  {
    if |s| == 0 then 0
    else if s[0] == c then 0
    else 1 + IndexOf(s[1..], c)
  }

  /** A string is the concatenation of its four slices at three cut points. */
  lemma SplitAt(u: string, a: nat, b: nat, c: nat)
    requires a <= b <= c <= |u|
    ensures u == u[..a] + u[a..b] + u[b..c] + u[c..]
  {
  }

  /** Reads commodity and key back from a URL, splitting at the first '&'. */
  function SplitUrl(u: string): (r: Option<(string, string)>)
    ensures r.Some? ==> RequestUrl(r.value.0, Some(r.value.1)) == u
  {
    if |u| < |UrlPrefix| || u[..|UrlPrefix|] != UrlPrefix then None
    else
      var rest := u[|UrlPrefix|..];
      var k := IndexOf(rest, '&');
      if |rest| - k < |UrlInterval| || rest[k..k + |UrlInterval|] != UrlInterval then None
      else
        SplitAt(u, |UrlPrefix|, |UrlPrefix| + k, |UrlPrefix| + k + |UrlInterval|);
        Some((rest[..k], rest[k + |UrlInterval|..]))
  }

  /** A commodity name without '&' is recovered intact from its URL, with the key text. */
  lemma UrlRoundTrip(commodity: string, apiKey: Option<string>)
    requires '&' !in commodity
    ensures SplitUrl(RequestUrl(commodity, apiKey)) == Some((commodity, KeyText(apiKey)))
  {
    var u := RequestUrl(commodity, apiKey);
    var rest := u[|UrlPrefix|..];
    assert rest == commodity + UrlInterval + KeyText(apiKey);
    assert IndexOf(rest, '&') == |commodity| by {
      assert rest[|commodity|] == UrlInterval[0] == '&';
      assert forall j :: 0 <= j < |commodity| ==> rest[j] == commodity[j];
    }
    assert rest[..|commodity|] == commodity;
  }

  /** Because nothing is escaped, a commodity that contains the interval part
      shares its URL with a shorter commodity whose key carries the rest. */
  lemma UrlNotEscaped(c: string, k: string, l: string)
    ensures RequestUrl(c + UrlInterval + k, Some(l)) == RequestUrl(c, Some(k + UrlInterval + l))
  {
  }

  const WarningMark: string := "\U{26A0}\U{FE0F} "
  const NoDataText: string := WarningMark + "Dados n\U{E3}o encontrados na API. Usando dados simulados..."
  const ConnectionPrefix: string := "\U{26D4} Falha na conex\U{E3}o: "
  const UnexpectedPrefix: string := "Erro inesperado: "

  /** How a notice is shown: the missing-data case as a warning, failures as errors. */
  function Show(n: Notice): (b: Banner)
    ensures b.level == Warning <==> n.NoDataWarning?
  {
    match n
    case NoDataWarning =>
      Banner(Warning, NoDataText)
    case ConnectionError(detail) =>
      Banner(Error, ConnectionPrefix + detail)
    case UnexpectedError(detail) =>
      Banner(Error, UnexpectedPrefix + detail)
  }

  /** Different notices render differently, so the banner tells the cause of a
      fallback and the underlying message apart. */
  lemma ShowInjective(a: Notice, b: Notice)
    requires Show(a) == Show(b)
    ensures a == b
  {
    var ta, tb := Show(a).text, Show(b).text;
    match a
    case NoDataWarning =>
      assert ta[0] == WarningMark[0] == '\U{26A0}';
    case ConnectionError(da) =>
      assert ta[0] == '\U{26D4}';
      if b.ConnectionError? {
        var p := |ConnectionPrefix|;
        assert da == ta[p..] && b.detail == tb[p..];
      }
    case UnexpectedError(da) =>
      assert ta[0] == 'E';
      if b.UnexpectedError? {
        var p := |UnexpectedPrefix|;
        assert da == ta[p..] && b.detail == tb[p..];
      }
  }

  /** Whether some row carries the key: the column exists only then. */
  predicate HasDateColumn(rows: seq<RawRow>)
  {
    exists i :: 0 <= i < |rows| && !rows[i].date.Absent?
  }

  predicate HasValueColumn(rows: seq<RawRow>)
  {
    exists i :: 0 <= i < |rows| && !rows[i].value.Absent?
  }

  /** A payload the normaliser accepts: rows present, non-empty, both columns exist. */
  predicate Usable(o: FetchOutcome)
  {
    o.Payload? && o.data.Some? && |o.data.value| > 0
    && HasDateColumn(o.data.value) && HasValueColumn(o.data.value)
  }

  /** The handler chain applied to one outcome. The column lookups raise
      KeyError, whose text is the quoted key, and the date column is read first. */
  function Classify(o: FetchOutcome, lastMonthEnd: Date): (r: Acquired)
    ensures r.Normalised? <==> Usable(o)
    ensures r.Fallback? ==> r.points == GenerateMockData(lastMonthEnd)
    ensures r.Normalised? ==> SortedByDate(r.points)
    ensures r.Normalised? ==> forall p :: p in r.points <==>
              exists i :: 0 <= i < |o.data.value| && Survives(o.data.value, i, p)
    ensures r.Normalised? ==> |r.points| <= |o.data.value|
    ensures r.Normalised? ==> multiset(r.points) == multiset(DropMissing(ReferenceTable(o.data.value)))
    ensures r.Normalised? ==> r.points == Normalise(o.data.value)
    ensures r.Fallback? && r.notice.ConnectionError? <==> o.TransportFailure?
    ensures r.Fallback? && r.notice.NoDataWarning? <==>
              o.Payload? && (o.data.None? || |o.data.value| == 0)
    ensures o.TransportFailure? ==> r.notice.detail == o.reason
    ensures o.OtherFailure? ==> r == Fallback(UnexpectedError(o.reason), GenerateMockData(lastMonthEnd))
  {
    var mock := GenerateMockData(lastMonthEnd);
    match o
    case TransportFailure(reason) => Fallback(ConnectionError(reason), mock)
    case OtherFailure(reason) => Fallback(UnexpectedError(reason), mock)
    case Payload(data) =>
      if data.None? || |data.value| == 0 then Fallback(NoDataWarning, mock)
      else if !HasDateColumn(data.value) then Fallback(UnexpectedError("'date'"), mock)
      else if !HasValueColumn(data.value) then Fallback(UnexpectedError("'value'"), mock)
      else Normalised(Normalise(data.value))
  }

  /** The whole acquisition: the transport answers the request built from the
      commodity and the key; the answer is classified. */
  function FetchCommodityData(commodity: string, apiKey: Option<string>,
                              respond: string -> FetchOutcome, lastMonthEnd: Date): (r: Acquired)
    ensures r.Normalised? <==> Usable(respond(RequestUrl(commodity, apiKey)))
    ensures r.Fallback? ==> r.points == GenerateMockData(lastMonthEnd)
    ensures var o := respond(RequestUrl(commodity, apiKey));
              o.TransportFailure? ==> r == Fallback(ConnectionError(o.reason), GenerateMockData(lastMonthEnd))
    ensures var o := respond(RequestUrl(commodity, apiKey));
              o.OtherFailure? ==> r == Fallback(UnexpectedError(o.reason), GenerateMockData(lastMonthEnd))
    ensures var o := respond(RequestUrl(commodity, apiKey));
              o.Payload? && (o.data.None? || |o.data.value| == 0) ==>
                r == Fallback(NoDataWarning, GenerateMockData(lastMonthEnd))
    ensures var o := respond(RequestUrl(commodity, apiKey));
              o.Payload? && o.data.Some? && |o.data.value| > 0 && !HasDateColumn(o.data.value) ==>
                r == Fallback(UnexpectedError("'date'"), GenerateMockData(lastMonthEnd))
    ensures var o := respond(RequestUrl(commodity, apiKey));
              o.Payload? && o.data.Some? && |o.data.value| > 0 && HasDateColumn(o.data.value)
                && !HasValueColumn(o.data.value) ==>
                r == Fallback(UnexpectedError("'value'"), GenerateMockData(lastMonthEnd))
  {
    Classify(respond(RequestUrl(commodity, apiKey)), lastMonthEnd)
  }

  /** The acquisition is the classification of the reply to the request URL,
      so every promise of `Classify` holds of it: in particular a usable reply
      yields exactly its normalised payload. */
  lemma FetchIsClassified(commodity: string, apiKey: Option<string>,
                          respond: string -> FetchOutcome, lastMonthEnd: Date)
    ensures FetchCommodityData(commodity, apiKey, respond, lastMonthEnd)
              == Classify(respond(RequestUrl(commodity, apiKey)), lastMonthEnd)
    ensures Usable(respond(RequestUrl(commodity, apiKey))) ==>
              FetchCommodityData(commodity, apiKey, respond, lastMonthEnd)
                == Normalised(Normalise(respond(RequestUrl(commodity, apiKey)).data.value))
  {
  }

  /** Every outcome yields a date-sorted series; a fallback is never empty and
      a normalised series never contains a synthetic point that no row produced. */
  lemma AlwaysSortedSeries(o: FetchOutcome, lastMonthEnd: Date)
    ensures SortedByDate(Classify(o, lastMonthEnd).points)
    ensures Classify(o, lastMonthEnd).Fallback? ==> |Classify(o, lastMonthEnd).points| == 12
    ensures Classify(o, lastMonthEnd).Normalised? ==> forall p :: p in Classify(o, lastMonthEnd).points ==>
              exists i :: 0 <= i < |o.data.value| && Survives(o.data.value, i, p)
  {
    MockIsSorted(lastMonthEnd);
  }

  /** A non-empty payload whose dates all fail to parse yields the empty series,
      not the synthetic one: there is no fallback after normalisation. */
  lemma UnparseableDatesYieldEmptySeries(rows: seq<RawRow>, lastMonthEnd: Date)
    requires |rows| > 0
    requires forall i :: 0 <= i < |rows| ==> rows[i].date == Unparseable
    requires HasValueColumn(rows)
    ensures Classify(Payload(Some(rows)), lastMonthEnd) == Normalised([])
  {
    assert !rows[0].date.Absent?;
  }

  /** Rows with no `date` key at all raise KeyError and fall back with the unexpected-error notice. */
  lemma MissingDateKeyIsUnexpected(rows: seq<RawRow>, lastMonthEnd: Date)
    requires |rows| > 0
    requires forall i :: 0 <= i < |rows| ==> rows[i].date.Absent?
    ensures Classify(Payload(Some(rows)), lastMonthEnd)
            == Fallback(UnexpectedError("'date'"), GenerateMockData(lastMonthEnd))
  {
  }
}
