/** The device list view: its cards, the "no matches" rule, and the status
    dispatch around it. */
module DaeList {
  import opened JsValues
  import Availability
  import StatusView
  import DaeRecords

  /** The fields one card shows, read from a record. */
  datatype Card = Card(
    key: Option<Value>,          // entry.id
    title: Option<Value>,        // entry.c_gid
    state: Option<Value>,        // entry.c_etat_fonct
    distance: Option<Value>,     // shown only when present
    place: Option<Value>,        // entry.c_nom
    street: Option<Value>,       // entry.c_adr_voie
    postalCode: Option<Value>,   // entry.c_com_cp
    city: Option<Value>,         // entry.c_com_nom
    availability: Eval<Availability.Line>)

  /** A record whose card renders: `c_disp_j` is a string, so its `replace`
      exists. */
  predicate Renderable(r: Record) {
    "c_disp_j" in r && r["c_disp_j"].StrVal?
  }

  function CardOf(r: Record): (c: Card)
    ensures c.key == Get(r, "id")
    ensures c.title == Get(r, "c_gid")
    ensures c.state == Get(r, "c_etat_fonct")
    ensures c.distance.Some? <==> "distance" in r
    ensures c.distance.Some? ==> c.distance.value == r["distance"]
    ensures c.place == Get(r, "c_nom")
    ensures c.street == Get(r, "c_adr_voie")
    ensures c.postalCode == Get(r, "c_com_cp")
    ensures c.city == Get(r, "c_com_nom")
    ensures c.availability == Availability.AvailabilityLine(Get(r, "c_disp_j"))
    ensures c.availability.TypeError? <==> !Renderable(r)
  {
    Card(Get(r, "id"), Get(r, "c_gid"), Get(r, "c_etat_fonct"), Get(r, "distance"),
         Get(r, "c_nom"), Get(r, "c_adr_voie"), Get(r, "c_com_cp"), Get(r, "c_com_nom"),
         Availability.AvailabilityLine(Get(r, "c_disp_j")))
  }

  /** `data.map(entry => <Card …>)`: one card per record, in order; the first
      record whose card throws aborts the whole map. */
  function RenderCards(rs: seq<Record>): (r: Eval<seq<Card>>)
    ensures r.Ok? <==> forall i :: 0 <= i < |rs| ==> Renderable(rs[i])
    ensures r.Ok? ==>
              && |r.value| == |rs|
              && forall i :: 0 <= i < |rs| ==> r.value[i] == CardOf(rs[i])
  {
    if rs == [] then Ok([])
    else if !Renderable(rs[0]) then TypeError
    else
      match RenderCards(rs[1..])
      case TypeError =>
        assert forall i :: 0 <= i < |rs[1..]| ==> rs[1..][i] == rs[i + 1];
        TypeError
      case Ok(rest) => Ok([CardOf(rs[0])] + rest)
  }

  /** What the list renders. While the list is still unset (`undefined`), the
      heading shows no count and there are no cards. */
  datatype ListView =
    | NoMatches
    | Listing(count: Option<nat>, cards: seq<Card>)

  /** `DAEList`: an empty list renders the "no matches" message; anything
      else renders the count and one card per record, in order, unless a
      record's card throws, which aborts the whole list. */
  function RenderList(data: Option<seq<Record>>): (v: Eval<ListView>)
    ensures v == Ok(NoMatches) <==> data == Some([])
    ensures data.None? ==> v == Ok(Listing(None, []))
    ensures v.TypeError? <==> data.Some? && exists i :: 0 <= i < |data.value| && !Renderable(data.value[i])
    ensures data.Some? && data.value != [] && v.Ok? ==>
              && v.value.count == Some(|data.value|)
              && |v.value.cards| == |data.value|
              && forall i :: 0 <= i < |data.value| ==> v.value.cards[i] == CardOf(data.value[i])
  {
    match data
    case None => Ok(Listing(None, []))
    case Some(rs) =>
      if |rs| == 0 then Ok(NoMatches)
      else
        match RenderCards(rs)
        case TypeError => TypeError
        case Ok(cards) => Ok(Listing(Some(|rs|), cards))
  }

  /** `DaeListResult` of the device list view. */
  function ListResult(status: string, error: string, shown: Option<seq<Record>>): (v: StatusView.View<Eval<ListView>>)
    ensures v.ErrorView? <==> status == "failure"
    ensures v.ErrorView? ==> v.message == error
    ensures v.LoaderView? <==> status == "loading"
    ensures v.ContentView? <==> status == "done"
    ensures v.ContentView? ==> v.content == RenderList(shown)
    ensures v.StatusText? <==> status !in {"failure", "loading", "done"}
    ensures v.StatusText? ==> v.text == status
  {
    StatusView.Dispatch(status, error, RenderList(shown))
  }

  /** A successful search with no result shows "no matches", never the
      error view; an error never shows the list. */
  lemma EmptyIsNotError(error: string)
    ensures ListResult("done", error, Some([])) == StatusView.ContentView(Ok(NoMatches))
    ensures ListResult("failure", error, Some([])) == StatusView.ErrorView(error)
  {
  }

  /** The list built from a snapshot renders exactly when every document's
      own data holds a string `c_disp_j`; the attribute path neither adds
      nor drops that field. */
  lemma SnapshotListRenders(docs: seq<Doc>)
    ensures var rs := DaeRecords.OnSnapshot(Some(Snapshot(Some(docs)))).value;
            RenderList(Some(rs)).Ok? <==>
              forall i :: 0 <= i < |docs| ==> "c_disp_j" in docs[i].data && docs[i].data["c_disp_j"].StrVal?
  {
  }
}
