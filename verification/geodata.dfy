/** State-level enrichment of the downloaded GeoJSON (load_geodata, app.py,
    lines 25-59): every feature gets a productivity figure and a display name,
    and any failure yields an empty collection instead of a partial result. */
module GeoData {
  import opened Optional

  /** A decoded JSON value, as the dictionary/list structure the loop walks. */
  datatype Json =
    | JNull
    | JBool(b: bool)
    | JNum(x: real)
    | JStr(s: string)
    | JArr(items: seq<Json>)
    | JObj(fields: map<string, Json>)

  /** Productivity (bags per hectare) by state abbreviation. */
  const Productivity: map<string, real> := map[
    "AC" := 50.0, "AL" := 48.0, "AP" := 52.0, "AM" := 55.0,
    "BA" := 48.9, "CE" := 47.0, "DF" := 60.0, "ES" := 53.0,
    "GO" := 59.1, "MA" := 46.0, "MT" := 60.5, "MS" := 61.2,
    "MG" := 52.3, "PA" := 49.0, "PB" := 47.5, "PR" := 58.2,
    "PE" := 48.0, "PI" := 47.0, "RJ" := 54.0, "RN" := 47.0,
    "RS" := 55.8, "RO" := 53.0, "RR" := 51.0, "SC" := 57.0,
    "SP" := 56.7, "SE" := 48.5, "TO" := 50.0
  ]

  /** The document returned on any failure. */
  const EmptyCollection: Json := JObj(map["type" := JStr("FeatureCollection"), "features" := JArr([])])

  /** Lists and objects cannot be dictionary keys; a lookup with one raises. */
  predicate Hashable(j: Json)
  {
    !j.JArr? && !j.JObj?
  }

  /** Reference: the productivity a state abbreviation is given, 0 when the
      table does not list it. */
  function TableValue(sigla: Json): real
  {
    if sigla.JStr? && sigla.s in Productivity then Productivity[sigla.s] else 0.0
  }

  /** The table lookup with default 0; None when the key cannot be hashed. */
  function ProductivityOf(sigla: Json): (r: Option<real>)
    ensures r.None? <==> !Hashable(sigla)
    ensures r.Some? && sigla.JStr? && sigla.s in Productivity ==> r.value == Productivity[sigla.s]
    ensures r.Some? && !(sigla.JStr? && sigla.s in Productivity) ==> r.value == 0.0
  {
    if !Hashable(sigla) then None
    else if sigla.JStr? && sigla.s in Productivity then Some(Productivity[sigla.s])
    else Some(0.0)
  }

  /** The `name` property, or the empty string when the feature has none. */
  function NameOf(props: map<string, Json>): (r: Json)
    ensures "name" in props ==> r == props["name"]
    ensures "name" !in props ==> r == JStr("")
  {
    if "name" in props then props["name"] else JStr("")
  }

  /** A feature the loop body can process without raising: an object whose
      `properties` is an object holding a hashable `sigla`. */
  predicate Enrichable(f: Json)
  {
    f.JObj? && "properties" in f.fields && f.fields["properties"].JObj?
    && "sigla" in f.fields["properties"].fields
    && Hashable(f.fields["properties"].fields["sigla"])
  }

  /** Specification of one enriched feature `g` made from `f`: only the two
      properties are set, everything else is as it was. */
  predicate EnrichedFrom(f: Json, g: Json)
    requires Enrichable(f)
  {
    var props := f.fields["properties"].fields;
    && g.JObj?
    && g.fields.Keys == f.fields.Keys
    && (forall k :: k in f.fields && k != "properties" ==> g.fields[k] == f.fields[k])
    && g.fields["properties"].JObj?
    && var props' := g.fields["properties"].fields;
    && props'.Keys == props.Keys + {"produtividade", "nome"}
    && (forall k :: k in props && k != "produtividade" && k != "nome" ==> props'[k] == props[k])
    && props'["produtividade"] == JNum(TableValue(props["sigla"]))
    && props'["nome"] == (if "name" in props then props["name"] else JStr(""))
  }

  /** The loop body for one feature: update its properties in place. */
  function EnrichFeature(f: Json): (r: Option<Json>)
    ensures r.Some? <==> Enrichable(f)
    ensures r.Some? ==> EnrichedFrom(f, r.value)
  {
    if !f.JObj? || "properties" !in f.fields || !f.fields["properties"].JObj? then None
    else
      var props := f.fields["properties"].fields;
      if "sigla" !in props then None
      else
        var prod := ProductivityOf(props["sigla"]);
        if prod.None? then None
        else
          var props' := props["produtividade" := JNum(prod.value)]["nome" := NameOf(props)];
          Some(JObj(f.fields["properties" := JObj(props')]))
  }

  /** The loop over a feature list: all features enriched, or failure. */
  function EnrichAll(features: seq<Json>): (r: Option<seq<Json>>)
    ensures r.Some? <==> forall i :: 0 <= i < |features| ==> Enrichable(features[i])
    ensures r.Some? ==> |r.value| == |features|
    ensures r.Some? ==> forall i :: 0 <= i < |features| ==> EnrichedFrom(features[i], r.value[i])
  {
    if |features| == 0 then Some([])
    else
      var head := EnrichFeature(features[0]);
      var tail := EnrichAll(features[1..]);
      assert forall i :: 0 < i < |features| ==> features[i] == features[1..][i - 1];
      if head.None? || tail.None? then None
      else Some([head.value] + tail.value)
  }

  /** A document whose `features` the loop walks without raising. */
  predicate Processable(doc: Json)
  {
    doc.JObj? && "features" in doc.fields &&
    match doc.fields["features"]
    case JArr(items) => forall i :: 0 <= i < |items| ==> Enrichable(items[i])
    case JObj(m) => |m| == 0
    case JStr(s) => |s| == 0
    case _ => false
  }

  /** The whole loop over the document's `features`. Iterating an empty
      object or an empty string does nothing; iterating a non-empty one yields
      strings, which cannot be indexed by a key; other values are not iterable. */
  function EnrichDocument(doc: Json): (r: Option<Json>)
    ensures r.Some? <==> Processable(doc)
    ensures r.Some? && doc.fields["features"].JArr? ==>
              EnrichAll(doc.fields["features"].items).Some? &&
              r.value == JObj(doc.fields["features" := JArr(EnrichAll(doc.fields["features"].items).value)])
    ensures r.Some? && !doc.fields["features"].JArr? ==> r.value == doc
  {
    if !doc.JObj? || "features" !in doc.fields then None
    else
      match doc.fields["features"]
      case JArr(items) =>
        var enriched := EnrichAll(items);
        if enriched.None? then None
        else Some(JObj(doc.fields["features" := JArr(enriched.value)]))
      case JObj(m) => if |m| == 0 then Some(doc) else None
      case JStr(s) => if |s| == 0 then Some(doc) else None
      case _ => None
  }

  /** The loader: `download` is the decoded reply, None when the request or
      the decoding raised. Any failure yields the empty collection. */
  function LoadGeodata(download: Option<Json>): (r: Json)
    ensures download.None? ==> r == EmptyCollection
    ensures download.Some? && !Processable(download.value) ==> r == EmptyCollection
    ensures download.Some? && Processable(download.value) ==> r == EnrichDocument(download.value).value
  {
    if download.None? then EmptyCollection
    else EnrichDocument(download.value).GetOr(EmptyCollection)
  }

  /** All or nothing: one feature that cannot be processed discards the whole
      collection, even when the features before it were already updated. */
  lemma OneBadFeatureEmptiesAll(doc: Json, i: int)
    requires doc.JObj? && "features" in doc.fields && doc.fields["features"].JArr?
    requires 0 <= i < |doc.fields["features"].items|
    requires !Enrichable(doc.fields["features"].items[i])
    ensures LoadGeodata(Some(doc)) == EmptyCollection
  {
  }

  /** A collection whose features can all be processed comes back with the
      same features in the same order, each enriched, and its other top-level
      entries untouched. */
  lemma WellFormedCollectionEnriched(doc: Json)
    requires doc.JObj? && "features" in doc.fields && doc.fields["features"].JArr?
    requires forall i :: 0 <= i < |doc.fields["features"].items| ==> Enrichable(doc.fields["features"].items[i])
    ensures var r := LoadGeodata(Some(doc));
            && r.JObj? && r.fields.Keys == doc.fields.Keys
            && (forall k :: k in doc.fields && k != "features" ==> r.fields[k] == doc.fields[k])
            && r.fields["features"].JArr?
            && |r.fields["features"].items| == |doc.fields["features"].items|
            && forall i :: 0 <= i < |doc.fields["features"].items| ==>
                 EnrichedFrom(doc.fields["features"].items[i], r.fields["features"].items[i])
  {
  }

}
