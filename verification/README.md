# Defibrillator search views: a Dafny model

This project models the logic inside the two views of a defibrillator
("DAE") finder. The data comes from a Firestore collection of device
documents.

- The **device list** (`DaeRender`) has a search box and a "locate me" button.
  - Text typed into the box becomes a list of equality predicates. Empty text
    lists every working device. Numeric text is a postal code (`c_com_cp`).
    Any other text is a city name (`c_com_nom`), taken verbatim. The status
    predicate `c_etat_fonct == 'En fonctionnement'` always comes last.
  - The store's documents become flat records `{id, ...data}`. Documents
    ranked by the geolocation query become `{id, distance, ...data}`. A failed
    geolocation or fetch only logs and leaves the list as it was.
  - Each card shows the availability text `c_disp_j` with every `{`, `}` and `"`
    removed. The line is hidden when what remains is `non renseigné`. An empty
    list shows a "no matches" message.
- The **map** (`AppSearch`) issues the same initial query when it mounts.
  - It turns every document of each snapshot into a one-element list
    `[{geocode: [lat, long], popUp}]`.
  - It prepends these to the positions it already holds, dropping nothing.
  - It renders one marker per position, at the position's first element.
- Both views choose what to render from the fetch status in the same way.
  `failure` shows the error, `loading` the spinner, `done` the content, and any
  other status its raw text.

Modules:
- `JsValues`: document values, records as maps, object spread as map
  override, `Array.prototype.map`, and a thrown `TypeError`.
- `Decimal`: the `!isNaN`/`parseInt` abstraction, integer printing and
  `Math.round`.
- `SearchQuery`: the initial query and the Enter-key query builder.
- `DaeRecords`: the two document-to-record mappings and the settlement of a
  geolocation request.
- `Availability`: the availability filter and the rule for showing the line.
- `StatusView`: the status dispatch shared by both views.
- `DaeList`: the cards and the empty-list rule.
- `AppSearch`: the positions, the popup text and the markers.

Opaque inputs are parameters of the model:
- the fetch hook's `status`, `error` and `data`;
- the outcome of the geolocation request;
- how a double-typed number prints (`fmtReal`).

## Model

| member | source | states |
|---|---|---|
| JsValues.ArrayMap | src/components/DaeRender.jsx:175-178 | `docs.map(f)` gives exactly one result per document, the i-th being `f` of the i-th document |
| JsValues.Spread | src/components/DaeRender.jsx:175-178 | the spread object has the keys of both parts; a key of the later part wins over the same key of the earlier one |
| JsValues.Get | src/components/DaeRender.jsx:63-103 | reading a field gives its value when the record has the key, and `undefined` exactly when it does not |
| Decimal.DigitsValue | src/components/DaeRender.jsx:146 | the value of a digit string of length k is a natural number below 10^k |
| Decimal.NumericLike | src/components/DaeRender.jsx:139 | text counts as numeric exactly when it is non-empty, ends with a digit, and every character is a digit except possibly a leading `+` or `-` |
| Decimal.ParseInt | src/components/DaeRender.jsx:146 | `parseInt` of numeric text is the digits' value, negated after a `-`, unchanged after a `+` or with no sign; the result is negative only after a `-` |
| Decimal.Show | src/pages/AppSearch.jsx:64 | an integer prints as its decimal digits, with a `-` before the digits of a negative number and never a `+`; the text is canonical: no leading zero and no `-0` |
| Decimal.DigitsOfShowNat | src/pages/AppSearch.jsx:64 | reading back the printed digits of a natural number gives that number |
| Decimal.ParseShowRoundTrip | src/components/DaeRender.jsx:139-146 | `parseInt` of any printed integer, negative ones included, gives the integer back |
| Decimal.ShowParseRoundTrip | src/components/DaeRender.jsx:139-146 | numeric text in canonical form (no `+`, no leading zero, no `-0`) is exactly the printed form of the integer `parseInt` reads from it |
| Decimal.LeadingZeroIgnored | src/components/DaeRender.jsx:146 | a leading `0` does not change the value `parseInt` reads |
| Decimal.JsRound | src/components/DaeRender.jsx:192 | `Math.round(x)` is an integer within one half of x, with halves rounded up |
| Decimal.RoundOfInteger | src/components/DaeRender.jsx:192 | a distance that is already a whole number is shown unchanged |
| Decimal.RoundMonotonic | src/components/DaeRender.jsx:192 | rounding never reverses the order of two distances |
| SearchQuery.Classify | src/components/DaeRender.jsx:139-146 | empty text is the search for every device; non-empty numeric text is a postal-code search for its parsed value, which prints back as the text when the text is canonical; any other text is a city search for the text unchanged |
| SearchQuery.QueryFor | src/components/DaeRender.jsx:140-150 | the query for every device is the single status predicate; a postal-code or city search puts its own field predicate first and the status predicate second |
| SearchQuery.BuildQuery | src/components/DaeRender.jsx:139-150 | empty text gives the single status predicate; other text gives exactly two predicates, the field predicate first and the status predicate second; numeric text searches `c_com_cp` with its parsed value; other text searches `c_com_nom` with the text unchanged; the search can be read back from the query |
| SearchQuery.KeyPress | src/components/DaeRender.jsx:137-153 | any key other than Enter (13) leaves the query as it was; Enter replaces it with the query of the search text, which always ends with the status predicate |
| SearchQuery.SearchQueryRoundTrip | src/components/DaeRender.jsx:140-150 | every search (all, postal code, city) is recovered from the query built for it |
| SearchQuery.QuerySearchRoundTrip | src/components/DaeRender.jsx:140-150 | a query recognised as a search is exactly the query built for that search |
| SearchQuery.QueryForInjective | src/components/DaeRender.jsx:140-150 | two different searches never produce the same store query |
| SearchQuery.PostalCodeTextRoundTrip | src/components/DaeRender.jsx:139-146 | typing the printed form of any integer searches `c_com_cp` for that integer |
| SearchQuery.LeadingZeroSameQuery | src/components/DaeRender.jsx:139-146 | a postal code typed with a leading zero gives the same query as without it |
| SearchQuery.LetterMeansCity | src/components/DaeRender.jsx:139-146 | text containing, anywhere, a letter that occurs in no JavaScript number syntax ("Lyon") is a city search on the unchanged text |
| SearchQuery.CaseSensitiveCity | src/components/DaeRender.jsx:144-146 | two different texts that each contain such a letter produce different queries, so city names that differ only in letter case are different searches |
| SearchQuery.Examples | src/components/DaeRender.jsx:123-150 | "75001" gives the postal code 75001, "Lyon" and "12abc" give city searches, and empty text gives the initial query |
| DaeRecords.NormalizeDoc | src/components/DaeRender.jsx:175-178 | a record carries `id` and every data field; a data field named `id` overrides the document identifier |
| DaeRecords.OnSnapshot | src/components/DaeRender.jsx:172-181 | no data gives the empty list; a snapshot without docs throws; otherwise there is one record per document, in document order |
| DaeRecords.NormalizeGeoItem | src/components/DaeRender.jsx:190-194 | a ranked record carries `id`, `distance` and every data field, and data fields win; the distance is the item's distance rounded to within one half |
| DaeRecords.AfterLocate | src/components/DaeRender.jsx:183-211 | a location or fetch failure leaves the displayed list unchanged; no data gives the empty list; otherwise one record per ranked item, in order |
| DaeRecords.GeoRecordExtendsDocRecord | src/components/DaeRender.jsx:172-196 | the ranked record is the attribute-path record with the rounded distance added, unless the document has its own `distance` field |
| DaeRecords.RecordId | src/components/DaeRender.jsx:175-194 | on both paths `id` is the document's own `id` field when it has one and the store identifier otherwise |
| Availability.Strip | src/components/DaeRender.jsx:105 | the stripped text contains no `{`, `}` or `"` and is no longer than the input |
| Availability.AvailabilityLine | src/components/DaeRender.jsx:105-111 | a value that is not a string throws; a shown line is exactly the stored text with its delimiters stripped, and is never the "non renseigné" marker |
| Availability.StripClean | src/components/DaeRender.jsx:105 | text without delimiters is left exactly as it is |
| Availability.StripIdempotent | src/components/DaeRender.jsx:105-109 | stripping twice is the same as stripping once |
| Availability.StripConcat | src/components/DaeRender.jsx:105 | stripping distributes over concatenation, so the characters that stay keep their order |
| Availability.StripChar | src/components/DaeRender.jsx:105 | a single character is removed exactly when it is `{`, `}` or `"` |
| Availability.StripCounts | src/components/DaeRender.jsx:105 | every other character occurs as often after stripping as before; no delimiter remains |
| Availability.HiddenIffMarker | src/components/DaeRender.jsx:105-111 | the line is hidden if and only if the stripped text is "non renseigné", and otherwise shows exactly the stripped text |
| Availability.AllDelimitersVanish | src/components/DaeRender.jsx:105 | text made only of delimiters strips to the empty string |
| Availability.WrappedTextSameLine | src/components/DaeRender.jsx:105-111 | delimiters before or after the stored text never change what the card shows |
| Availability.WrappedMarkerHidden | src/components/DaeRender.jsx:105-111 | the marker wrapped in quotes or braces is hidden |
| StatusView.Dispatch | src/components/DaeRender.jsx:156-169 | `failure` renders the error message, `loading` the spinner, `done` the content, any other status its own text |
| StatusView.DispatchRoundTrip | src/pages/AppSearch.jsx:73-116 | the status can be read back from the view rendered for it |
| StatusView.SameStatusSameKind | src/components/DaeRender.jsx:156-169 | which kind of view the status switch picks depends on the status alone, never on the error text or the content |
| DaeList.CardOf | src/components/DaeRender.jsx:61-111 | a card's key, title, state, place, street, postal code and city are the record's `id`, `c_gid`, `c_etat_fonct`, `c_nom`, `c_adr_voie`, `c_com_cp` and `c_com_nom`; it shows the record's distance exactly when the record has one; its availability line follows the availability rule and throws exactly when `c_disp_j` is not a string |
| DaeList.RenderCards | src/components/DaeRender.jsx:61-117 | mapping the records to cards throws if and only if some record's `c_disp_j` is not a string; otherwise there is one card per record, in order |
| DaeList.RenderList | src/components/DaeRender.jsx:43-121 | "no matches" if and only if the list is empty; an unset list shows no count and no cards; a non-empty list throws if and only if some record's `c_disp_j` is not a string, and otherwise shows its length and one card per record, in order |
| DaeList.ListResult | src/components/DaeRender.jsx:155-170 | `failure` shows the error message, `loading` the spinner, `done` the list as `DAEList` renders it (a throw included), and any other status its own text |
| DaeList.EmptyIsNotError | src/components/DaeRender.jsx:44-52 | an empty successful result shows "no matches", not the error view |
| DaeList.SnapshotListRenders | src/components/DaeRender.jsx:105-181 | the list built from any snapshot, an empty one included, renders without throwing exactly when every document's own data holds a string `c_disp_j` |
| AppSearch.Popup | src/pages/AppSearch.jsx:64 | the popup starts with the greeting and ends with " - Disponibilité : " and the raw availability text; between them are the number, street and postal code separated by single spaces |
| AppSearch.TemplateText | src/pages/AppSearch.jsx:64 | a template literal prints a missing field as `undefined`, `null` as `null`, a string as itself, and an integer as its canonical decimal text (no `+`, no leading zero, no `-0`), which `parseInt` reads back as that integer |
| AppSearch.PositionOf | src/pages/AppSearch.jsx:52-66 | each document gives a one-element list whose geocode is that document's `[c_lat_coor1, c_long_coor1]`, missing or null included, and whose popup is the document's popup text |
| AppSearch.UpdatePositions | src/pages/AppSearch.jsx:50-71 | without data or docs the positions are unchanged; otherwise the new positions come first, in document order, then the old list intact; the lengths add |
| AppSearch.UpdateGrows | src/pages/AppSearch.jsx:50-71 | an update adds as many positions as the snapshot has documents and keeps the earlier ones as a suffix |
| AppSearch.UpdateKeepsSingletons | src/pages/AppSearch.jsx:52-69 | updates keep every position a one-element list |
| AppSearch.RenderMarkers | src/pages/AppSearch.jsx:96-106 | reading each position's first element (`marker[0]`) fails if and only if some position is empty; otherwise there is one marker per position, at its first element's geocode, with its popup |
| AppSearch.UpdateRendersDocs | src/pages/AppSearch.jsx:50-106 | after one snapshot the first markers are the new documents', in document order, each at its document's coordinates with its document's popup; the earlier markers follow unchanged |
| AppSearch.MapResult | src/pages/AppSearch.jsx:73-116 | `failure` shows the error message, `loading` the spinner, `done` the markers `RenderMarkers` gives (one per position, with its first element's geocode and popup), and any other status its own text |
| AppSearch.ViewsSwitchAlike | src/pages/AppSearch.jsx:73-116 | on the same status the list and the map show the same kind of view, the same error message for the same error, and the same status text |
| AppSearch.ReplayKeepsEverything | src/pages/AppSearch.jsx:50-71 | after any run of snapshots, every earlier position is still there as a suffix, and one position was added per document received |
| AppSearch.ReplaySingletons | src/pages/AppSearch.jsx:52-69 | after any run of snapshots every position is still a one-element list |
| AppSearch.ReplayRendersAll | src/pages/AppSearch.jsx:50-106 | starting from no positions, reading each position's first element never fails, and there is one marker per document ever received |
| AppSearch.SameInitialQuery | src/pages/AppSearch.jsx:40-43 | the map mounts with the same query as the list: the single status predicate |
| AppSearch.PopupPostalCodeSearchable | src/pages/AppSearch.jsx:64 | an integer postal code printed in the popup, typed into the search box, searches that postal code |

## Left out

- SearchQuery.BuildQuery: `!isNaN(text)` is modelled as "an optional sign, then one or more ASCII digits" (`Decimal.NumericLike`). Some text JavaScript also treats as a number is modelled as a city search here, although the view takes the postal-code path:
  - white space only, or around digits (`" "`, `" 12 "`); `parseInt(" ")` is `NaN`;
  - fractions and exponents (`"1.5"`, `"1e3"`, `".5"`);
  - hex, octal and binary literals (`"0x1A"`), and `"Infinity"`.
- Decimal.ParseInt: integers are unbounded here, while JavaScript numbers are doubles. `parseInt` of text with 16 or more significant digits is rounded to the nearest double, and text of roughly 309 or more digits gives `Infinity`. Firestore integers above 2^53 also arrive rounded. The model agrees with the source only for magnitudes up to 2^53.
- Decimal.Show: printing is modelled as plain decimal digits for every integer. JavaScript holds integers exactly only up to 2^53 and prints numbers of 10^21 or more in exponent form (`1e+21`); those cases are not modelled.
- AppSearch.TemplateText: a document value is modelled as missing, `null`, an integer, a double or a string. Booleans, arrays, maps, timestamps and other Firestore types are not modelled. A template literal prints them as `true`/`false`, a comma-joined list, `[object Object]` and the timestamp's own string form. For the same reason `DaeList.CardOf` and `Availability.AvailabilityLine` see only these five kinds; any of the others in `c_disp_j` also throws, as a non-string does in the model.
- AppSearch.RenderMarkers: only the `marker[0]` read is modelled. The Leaflet `Marker` component is not part of this model, so the model does not promise that the map renders. A document without `c_lat_coor1` or `c_long_coor1` still gets a marker at `[undefined, undefined]`, and Leaflet rejects such a position as an invalid coordinate. `AppSearch.ReplayRendersAll` has the same limit.
- AppSearch.Popup: a double-typed field value is printed by the parameter `fmtReal`. JavaScript's number-to-string conversion for doubles is not modelled.
- Issuing queries and effect timing are not modelled. This covers `execute(query)` when `query` changes, the map calling `execute` once on mount, and React's state scheduling. The query is modelled as a value. The source compares query objects by identity: the module-level `initialQuery` is a single object, while every non-empty search builds a new one.
- `useFetchData` (the request life cycle and its stale-response handling) is not part of this model. Its `status`, `error` and `data` are inputs.
- `getGeoDocs` (distance computation and ranking) is not part of this model. Its result is an input list of (document, distance) pairs.
- `getLocation` is an input. Errors are logged with `console.error`, which is I/O and only leaves the list unchanged.
- Firestore (`getDocsCustom`, `where`, `doc.data()`) and `ENDPOINT` are external. A query is the list of its predicates against the fixed collection.
- Distances are real numbers, not IEEE doubles. `Math.round` is exact on them.
- Markup, styling, the Leaflet map, tiles, clustering, the marker icon, the map centre and zoom, and the `key` props are presentational.
- The order of keys in a JavaScript object is not modelled. Records are maps.
