/** The map view: every device of every snapshot received becomes a map
    marker with a popup; markers accumulate across snapshots. */
module AppSearch {
  import opened JsValues
  import Decimal
  import SearchQuery
  import StatusView
  import DaeList

  /** `[c_lat_coor1, c_long_coor1]`, whatever the document holds there. */
  datatype Geocode = Geocode(lat: Option<Value>, lng: Option<Value>)

  datatype MarkerInfo = MarkerInfo(geocode: Geocode, popUp: string)

  /** One entry of `positions`: the views build it as a one-element list. */
  type Position = seq<MarkerInfo>

  /** A rendered marker: where it stands and what its popup says. */
  datatype MarkerView = MarkerView(at: Geocode, popUp: string)

  /** The query the map view issues when it mounts. */
  const InitialQuery: SearchQuery.Query := [SearchQuery.Pred("c_etat_fonct", StrVal("En fonctionnement"))]

  const PopupPrefix := "Hello, DAE situé au "
  const PopupAvailability := " - Disponibilité : "

  /** How a template literal prints a field value. Printing a double is not
      modelled here and is supplied as `fmtReal`. */
  function TemplateText(v: Option<Value>, fmtReal: real -> string): (t: string)
    ensures v.None? ==> t == "undefined"
    ensures v == Some(NullVal) ==> t == "null"
    ensures v.Some? && v.value.IntVal? ==>
              t == Decimal.Show(v.value.n) && Decimal.Canonical(t) && Decimal.ParseInt(t) == v.value.n
    ensures v.Some? && v.value.RealVal? ==> t == fmtReal(v.value.x)
    ensures v.Some? && v.value.StrVal? ==> t == v.value.s
  {
    Decimal.ParseShowRoundTrip(if v.Some? && v.value.IntVal? then v.value.n else 0);
    match v
    case None => "undefined"
    case Some(NullVal) => "null"
    case Some(IntVal(n)) => Decimal.Show(n)
    case Some(RealVal(x)) => fmtReal(x)
    case Some(StrVal(s)) => s
  }

  /** The popup text of one device: the greeting, then the street number,
      street and postal code separated by single spaces, then the
      availability text exactly as stored. */
  function Popup(data: Record, fmtReal: real -> string): (p: string)
    ensures |p| > |PopupPrefix| && p[..|PopupPrefix|] == PopupPrefix
    ensures var disp := TemplateText(Get(data, "c_disp_j"), fmtReal);
            |p| >= |PopupAvailability| + |disp| &&
            p[|p| - |disp| - |PopupAvailability|..] == PopupAvailability + disp
    ensures var num := TemplateText(Get(data, "c_adr_num"), fmtReal);
            var street := TemplateText(Get(data, "c_adr_voie"), fmtReal);
            var cp := TemplateText(Get(data, "c_com_cp"), fmtReal);
            var disp := TemplateText(Get(data, "c_disp_j"), fmtReal);
            |p| == |PopupPrefix| + |num| + |street| + |cp| + 2 + |PopupAvailability| + |disp| &&
            p[|PopupPrefix|..|p| - |disp| - |PopupAvailability|] == num + " " + street + " " + cp
  {
    var num := TemplateText(Get(data, "c_adr_num"), fmtReal);
    var street := TemplateText(Get(data, "c_adr_voie"), fmtReal);
    var cp := TemplateText(Get(data, "c_com_cp"), fmtReal);
    var disp := TemplateText(Get(data, "c_disp_j"), fmtReal);
    var mid := PopupPrefix + (num + " " + street + " " + cp);
    var tail := PopupAvailability + disp;
    Affixes(PopupPrefix, num + " " + street + " " + cp);
    Affixes(mid, tail);
    assert (mid + tail)[|PopupPrefix|..|mid|] == mid[|PopupPrefix|..];
    mid + tail
  }

  lemma Affixes(a: string, b: string)
    ensures (a + b)[..|a|] == a && (a + b)[|a|..] == b
  {
  }

  /** The position built for one document; nothing is filtered, not even a
      document without coordinates. */
  function PositionOf(d: Doc, fmtReal: real -> string): (p: Position)
    ensures |p| == 1
    ensures p[0].geocode == Geocode(Get(d.data, "c_lat_coor1"), Get(d.data, "c_long_coor1"))
    ensures p[0].popUp == Popup(d.data, fmtReal)
  {
    [MarkerInfo(Geocode(Get(d.data, "c_lat_coor1"), Get(d.data, "c_long_coor1")), Popup(d.data, fmtReal))]
  }

  /** `positions` after the fetch hook's `data` changes: without data or
      docs nothing changes; otherwise the new positions come first, in
      document order, followed by every earlier position. */
  function UpdatePositions(prev: seq<Position>, data: Option<Snapshot>, fmtReal: real -> string): (r: seq<Position>)
    ensures data.None? || data.value.docs.None? ==> r == prev
    ensures data.Some? && data.value.docs.Some? ==>
              var docs := data.value.docs.value;
              && |r| == |docs| + |prev|
              && r[|docs|..] == prev
              && forall i :: 0 <= i < |docs| ==> r[i] == PositionOf(docs[i], fmtReal)
  {
    match data
    case Some(Snapshot(Some(docs))) =>
      var added := ArrayMap((d: Doc) => PositionOf(d, fmtReal), docs);
      assert (added + prev)[|docs|..] == prev;
      added + prev
    case _ => prev
  }

  /** Every entry is a one-element list. */
  predicate Singletons(ps: seq<Position>) {
    forall i :: 0 <= i < |ps| ==> |ps[i]| == 1
  }

  /** Updates keep every entry a one-element list. */
  lemma UpdateKeepsSingletons(prev: seq<Position>, data: Option<Snapshot>, fmtReal: real -> string)
    requires Singletons(prev)
    ensures Singletons(UpdatePositions(prev, data, fmtReal))
  {
  }

  /** The markers inside the cluster group: one per position, at the
      geocode of its first element. An empty entry would throw. */
  function RenderMarkers(ps: seq<Position>): (r: Eval<seq<MarkerView>>)
    ensures r.Ok? <==> forall i :: 0 <= i < |ps| ==> |ps[i]| >= 1
    ensures r.Ok? ==>
              && |r.value| == |ps|
              && forall i :: 0 <= i < |ps| ==> r.value[i] == MarkerView(ps[i][0].geocode, ps[i][0].popUp)
  {
    if ps == [] then Ok([])
    else if |ps[0]| == 0 then TypeError
    else
      match RenderMarkers(ps[1..])
      case TypeError =>
        assert forall i :: 0 <= i < |ps[1..]| ==> ps[1..][i] == ps[i + 1];
        TypeError
      case Ok(rest) => Ok([MarkerView(ps[0][0].geocode, ps[0][0].popUp)] + rest)
  }

  /** After one snapshot the first markers are the new documents', in
      document order, each at the document's coordinates and with its popup;
      the earlier markers follow unchanged. */
  lemma UpdateRendersDocs(prev: seq<Position>, docs: seq<Doc>, fmtReal: real -> string)
    requires Singletons(prev)
    ensures var r := RenderMarkers(UpdatePositions(prev, Some(Snapshot(Some(docs))), fmtReal));
            && r.Ok? && |r.value| == |docs| + |prev|
            && (forall i :: 0 <= i < |docs| ==>
                  r.value[i] == MarkerView(Geocode(Get(docs[i].data, "c_lat_coor1"), Get(docs[i].data, "c_long_coor1")),
                                           Popup(docs[i].data, fmtReal)))
            && r.value[|docs|..] == RenderMarkers(prev).value
  {
  }

  /** `DaeListResult` of the map view. */
  function MapResult(status: string, error: string, ps: seq<Position>): (v: StatusView.View<Eval<seq<MarkerView>>>)
    ensures v.ErrorView? <==> status == "failure"
    ensures v.ErrorView? ==> v.message == error
    ensures v.LoaderView? <==> status == "loading"
    ensures v.ContentView? <==> status == "done"
    ensures v.ContentView? ==> v.content == RenderMarkers(ps)
    ensures v.StatusText? <==> status !in {"failure", "loading", "done"}
    ensures v.StatusText? ==> v.text == status
    ensures v.ContentView? && Singletons(ps) ==>
              && v.content.Ok? && |v.content.value| == |ps|
              && forall i :: 0 <= i < |ps| ==> v.content.value[i] == MarkerView(ps[i][0].geocode, ps[i][0].popUp)
  {
    StatusView.Dispatch(status, error, RenderMarkers(ps))
  }

  /** The positions after a run of snapshots, oldest first. */
  function Replay(prev: seq<Position>, snapshots: seq<Option<Snapshot>>, fmtReal: real -> string): seq<Position>
    decreases |snapshots|
  {
    if snapshots == [] then prev
    else Replay(UpdatePositions(prev, snapshots[0], fmtReal), snapshots[1..], fmtReal)
  }

  /** How many documents a snapshot carries for the map. */
  function DocCount(data: Option<Snapshot>): nat {
    if data.Some? && data.value.docs.Some? then |data.value.docs.value| else 0
  }

  function TotalDocs(snapshots: seq<Option<Snapshot>>): nat {
    if snapshots == [] then 0 else DocCount(snapshots[0]) + TotalDocs(snapshots[1..])
  }

  /** `tail` is a suffix of `s`. */
  ghost predicate EndsWith<T>(s: seq<T>, tail: seq<T>) {
    |tail| <= |s| && s[|s| - |tail|..] == tail
  }

  /** No marker is ever dropped: after any run of snapshots the earlier
      positions are still there, as a suffix, and one position was added per
      document received. */
  lemma {:induction false} ReplayKeepsEverything(prev: seq<Position>, snapshots: seq<Option<Snapshot>>, fmtReal: real -> string)
    ensures |Replay(prev, snapshots, fmtReal)| == |prev| + TotalDocs(snapshots)
    ensures EndsWith(Replay(prev, snapshots, fmtReal), prev)
    decreases |snapshots|
  {
    if snapshots != [] {
      var mid := UpdatePositions(prev, snapshots[0], fmtReal);
      var r := Replay(mid, snapshots[1..], fmtReal);
      UpdateGrows(prev, snapshots[0], fmtReal);
      ReplayKeepsEverything(mid, snapshots[1..], fmtReal);
      assert Replay(prev, snapshots, fmtReal) == r;
      SuffixOfSuffix(r, mid, prev);
    }
  }

  lemma UpdateGrows(prev: seq<Position>, data: Option<Snapshot>, fmtReal: real -> string)
    ensures |UpdatePositions(prev, data, fmtReal)| == |prev| + DocCount(data)
    ensures EndsWith(UpdatePositions(prev, data, fmtReal), prev)
  {
  }

  lemma SuffixOfSuffix<T>(r: seq<T>, mid: seq<T>, prev: seq<T>)
    requires EndsWith(r, mid) && EndsWith(mid, prev)
    ensures EndsWith(r, prev)
  {
  }

  /** Starting from no positions, every position rendered is a marker. */
  lemma {:induction false} ReplayRendersAll(snapshots: seq<Option<Snapshot>>, fmtReal: real -> string)
    ensures var r := Replay([], snapshots, fmtReal);
            RenderMarkers(r).Ok? && |RenderMarkers(r).value| == TotalDocs(snapshots)
  {
    ReplaySingletons([], snapshots, fmtReal);
    ReplayKeepsEverything([], snapshots, fmtReal);
  }

  lemma {:induction false} ReplaySingletons(prev: seq<Position>, snapshots: seq<Option<Snapshot>>, fmtReal: real -> string)
    requires Singletons(prev)
    ensures Singletons(Replay(prev, snapshots, fmtReal))
    decreases |snapshots|
  {
    if snapshots != [] {
      UpdateKeepsSingletons(prev, snapshots[0], fmtReal);
      ReplaySingletons(UpdatePositions(prev, snapshots[0], fmtReal), snapshots[1..], fmtReal);
    }
  }

  /** The list and the map switch the same way: on the same status both
      show the error message, both the spinner, both their content, or both
      the raw status text. */
  lemma ViewsSwitchAlike(status: string, listError: string, shown: Option<seq<Record>>,
                         mapError: string, ps: seq<Position>)
    ensures var l := DaeList.ListResult(status, listError, shown);
            var m := MapResult(status, mapError, ps);
            && (l.ErrorView? <==> m.ErrorView?)
            && (l.LoaderView? <==> m.LoaderView?)
            && (l.ContentView? <==> m.ContentView?)
            && (l.StatusText? <==> m.StatusText?)
            && (l.ErrorView? && listError == mapError ==> l.message == m.message)
            && (l.StatusText? ==> l.text == m.text)
  {
  }

  /** Both views mount with the same query: every working device. */
  lemma SameInitialQuery()
    ensures InitialQuery == SearchQuery.InitialQuery
    ensures SearchQuery.SearchOf(InitialQuery) == Some(SearchQuery.AllActive)
  {
  }

  /** A postal code stored as an integer prints in the popup as the text
      that, typed into the search box, looks that postal code up. */
  lemma PopupPostalCodeSearchable(n: int, fmtReal: real -> string)
    ensures SearchQuery.Classify(TemplateText(Some(IntVal(n)), fmtReal)) == SearchQuery.ByPostalCode(n)
  {
    SearchQuery.PostalCodeTextRoundTrip(n);
  }
}
