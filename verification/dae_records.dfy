/** The device list's records: how the list view turns store documents into
    flat records, on the attribute-search path (a query snapshot) and on the
    geolocation path (documents ranked with a distance), and what a settled
    geolocation request does to the displayed list. */
module DaeRecords {
  import opened JsValues
  import Decimal

  /** `{id: doc.id, ...doc.data()}`. */
  function NormalizeDoc(d: Doc): (r: Record)
    ensures r.Keys == {"id"} + d.data.Keys
    ensures forall k :: k in d.data ==> r[k] == d.data[k]
    ensures "id" !in d.data ==> r["id"] == StrVal(d.id)
  {
    Spread(map["id" := StrVal(d.id)], d.data)
  }

  /** The list shown after the fetch hook's `data` changes. No data gives the
      empty list; a snapshot without `docs` makes `data.docs.map` throw. */
  function OnSnapshot(data: Option<Snapshot>): (r: Eval<seq<Record>>)
    ensures data.None? ==> r == Ok([])
    ensures r.TypeError? <==> data.Some? && data.value.docs.None?
    ensures data.Some? && data.value.docs.Some? ==>
              var docs := data.value.docs.value;
              && |r.value| == |docs|
              && forall i :: 0 <= i < |docs| ==> r.value[i] == NormalizeDoc(docs[i])
  {
    match data
    case None => Ok([])
    case Some(Snapshot(None)) => TypeError
    case Some(Snapshot(Some(docs))) => Ok(ArrayMap(NormalizeDoc, docs))
  }

  /** One entry of the ranked list the geolocation query returns: a document
      and its distance from the user, in kilometres. */
  datatype GeoItem = GeoItem(doc: Doc, distance: real)

  /** `{id: item.doc.id, distance: Math.round(item.distance), ...item.doc.data()}`. */
  function NormalizeGeoItem(item: GeoItem): (r: Record)
    ensures r.Keys == {"id", "distance"} + item.doc.data.Keys
    ensures forall k :: k in item.doc.data ==> r[k] == item.doc.data[k]
    ensures "id" !in item.doc.data ==> r["id"] == StrVal(item.doc.id)
    ensures "distance" !in item.doc.data ==>
              && r["distance"].IntVal?
              && item.distance - 1.0 / 2.0 < r["distance"].n as real <= item.distance + 1.0 / 2.0
  {
    Spread(map["id" := StrVal(item.doc.id), "distance" := IntVal(Decimal.JsRound(item.distance))],
           item.doc.data)
  }

  /** How the geolocation request settles. */
  datatype GeoOutcome =
    | LocationFailed               // the position could not be obtained
    | FetchFailed                  // the ranked query failed
    | Fetched(items: Option<seq<GeoItem>>)

  /** The displayed list (None before anything was set) after the request
      started by the locate button settles. Failures are only logged. */
  function AfterLocate(shown: Option<seq<Record>>, outcome: GeoOutcome): (r: Option<seq<Record>>)
    ensures outcome.LocationFailed? || outcome.FetchFailed? ==> r == shown
    ensures outcome.Fetched? ==> r.Some?
    ensures outcome == Fetched(None) ==> r == Some([])
    ensures outcome.Fetched? && outcome.items.Some? ==>
              var items := outcome.items.value;
              && |r.value| == |items|
              && forall i :: 0 <= i < |items| ==> r.value[i] == NormalizeGeoItem(items[i])
  {
    match outcome
    case LocationFailed => shown
    case FetchFailed => shown
    case Fetched(None) => Some([])
    case Fetched(Some(items)) => Some(ArrayMap(NormalizeGeoItem, items))
  }

  /** The geolocation record is the attribute-path record plus a rounded
      distance, unless the document has its own `distance` field, which wins. */
  lemma GeoRecordExtendsDocRecord(item: GeoItem)
    ensures "distance" !in item.doc.data ==>
              NormalizeGeoItem(item) == NormalizeDoc(item.doc)["distance" := IntVal(Decimal.JsRound(item.distance))]
    ensures "distance" in item.doc.data ==> NormalizeGeoItem(item) == NormalizeDoc(item.doc)
  {
  }

  /** A record's `id` is the document's own field when it has one, otherwise
      the store identifier; on both paths. */
  lemma RecordId(d: Doc, distance: real)
    ensures NormalizeDoc(d)["id"] == (if "id" in d.data then d.data["id"] else StrVal(d.id))
    ensures NormalizeGeoItem(GeoItem(d, distance))["id"] == NormalizeDoc(d)["id"]
  {
  }
}
