# esri-cli in Dafny

A verified model of the core of `esri-cli`. This Python command-line client lists and queries the services and layers of an ArcGIS REST server. The model covers three parts:

- **The GeoJSON-to-KML encoder of `cli.py`** (module `Kml`, `kml.dfy`).
  - It emits a fixed KML 2.2 envelope (`<?xml …?>`, `<kml xmlns="http://www.opengis.net/kml/2.2">`, `<Document>`) around one `Placemark` per Point or Polygon feature.
  - The name comes from the first property whose key lower-cases to `name`. The description is an HTML table of the other properties inside CDATA.
  - Malformed input raises the same Python exception types as the source.
  - The encoder's three loops (`convert_json_to_kml`, `create_feature_description` and `get_feature_name`) are methods proved against the functions that specify them.
- **The lookup rules of `cli.py`** (module `Lookup`, `lookup.dfy`): resolving a service path from a services listing, finding a layer by id or name, sorting the layer listing by id, and filtering the arguments that become query parameters.
- **The client library** (modules `Client` and `Layers`, `client.dfy` and `layers.dfy`).
  - `EsriClient` is a class. It covers the normalised base URL, the URL builders, and `_get_json`: the default `f`, the retry loop of at most three requests, and the error classification. `GetJson` mirrors the Python `for`/`try`/`except` loop.
  - The HTTP session is replaced by the sequence of outcomes its successive requests produce (`Outcome`).
  - `Layer` is a class. It covers the name default and `query`: the format mapping, the parameter defaults, `int()` coercion, the paginating `while True` loop, and the re-wrapping of `RequestException`.
  - Each `_get_json` call made by `query` is answered by a `Server`. A `Server` holds the layer's features in order, the other members of each response, the largest page it sends (its `maxRecordCount`), and the offsets at which the call raises instead.
- **Shared pieces:** `values.dfy` holds the shared value types (JSON, request parameters, `Option`, `Result`). `text.dfy` holds the Python string operations the code uses: `lower`, `join`, `replace`, `rstrip`, `str(int)` and `int(str)`. It also holds a `split` on one character. The code never calls it; it serves only to state that the Polygon coordinate text and a URL can be taken apart again.

Every method is proved against a function of its inputs. The properties the source promises are lemmas about those functions:

- the envelope and the placemark count;
- which features render, raise or are skipped;
- the name and description rules;
- the Point and Polygon shapes;
- the retry policy;
- pagination returning every feature in `N div P + 1` requests;
- the single request for an explicit offset;
- error re-wrapping.

On these edge cases the model follows the code as written:

- A `null` geometry raises `AttributeError` rather than being skipped.
- A `null` Point coordinate list raises `TypeError`, while a `null` Polygon coordinate list is skipped.
- An `error` member that is not an object raises `AttributeError` from `_get_json`. That error is not a `RequestException`, so `query` lets it through without re-wrapping.
- The `ValueError` of `int()` is raised before `query`'s `try` block, so it is not re-wrapped either.

## Model

| member | source | states |
|---|---|---|
| Text.TrimRight | src/esri_client/client.py:17 | `rstrip('/')` gives a prefix of the input that does not end in `/`, and everything it removed is `/` |
| Text.ReplaceAll | cli.py:177 | `str.replace` removing every occurrence never lengthens the text, and replacing a pattern by itself changes nothing |
| Text.ReplaceAbsent | cli.py:177 | a name that holds no occurrence of `folder/` is left as it is by `str.replace` |
| Text.StripLeading | cli.py:177 | `str.replace` removes a leading `folder/` from a name that holds no further occurrence of it |
| Text.ParseInt | src/esri_client/layer.py:38-41 | `int()` of a string succeeds iff it is a non-empty run of digits, with at most one leading sign; without a leading `-` the value is not negative |
| Text.IntToStringRoundTrip | src/esri_client/client.py:104 | the decimal text of a layer id in a URL reads back as that id: `int(str(n)) == n` |
| Text.SplitJoin | cli.py:497 | splitting a space-joined list of space-free pieces gives the pieces back, so the polygon coordinate text can be taken apart vertex by vertex |
| Lookup.FirstIndex | cli.py:176-177 | the `next(...)` search: the index of the first element that satisfies the test, every earlier one failing it, or the length when none does |
| Lookup.ServicePath | cli.py:160-187 | the path exists iff some listed name matches after `folder/` is removed (inside a folder only); it is `folder/service/type` or `service/type` from the first match; otherwise it is the ValueError message, with ` in folder F` only inside a folder |
| Lookup.FolderPrefixedNameMatches | cli.py:174-179 | a service listed as `folder/service` inside its folder is found and gives `folder/service/type` |
| Lookup.FindLayer | cli.py:397-410 | with an id: found iff some layer has that id, and the result is the first such layer; without an id: found iff a name is given and some layer has it, and the result is the first such layer |
| Lookup.SortById | cli.py:228 | the sorted layer listing is ascending by id and a permutation of the listing |
| Lookup.InsertById | cli.py:238 | inserting into a sorted listing keeps it sorted and adds exactly the new entry |
| Lookup.SortByIdStable | cli.py:228 | the sort is stable: layers that share an id keep their listing order |
| Lookup.QueryParams | cli.py:343 | every argument that is set and is not one of command, url, folder, service, id, name, output is passed to the query, and nothing else is |
| Kml.GetFeatureName | cli.py:466-470 | the scan returns the value of the first key that lower-cases to `name`, or `''` |
| Kml.FeatureNameIsFirstMatch | cli.py:467-469 | when key `i` is the first name key, in any spelling of its case, the name is its value |
| Kml.FeatureNameWithoutNameKey | cli.py:470 | with no name key the name is the empty string |
| Kml.CreateFeatureDescription | cli.py:472-478 | the description is the fixed table header, one row per non-name property in order, and the table footer |
| Kml.RowsAreNonNameProperties | cli.py:474-476 | every non-name property has its `<tr><td>k</td><td>v</td></tr>` row, and every row comes from a non-name property |
| Kml.RowsAppend | cli.py:474-476 | the rows of two property lists one after the other are the rows of each, in order |
| Kml.VertexTexts | cli.py:497 | the ring comprehension succeeds iff every vertex renders, and then gives one `x,y,0` text per vertex, in order |
| Kml.RingText | cli.py:497 | the coordinate text of the first ring exists iff the ring is a list whose every vertex is a list of at least two values |
| Kml.KmlOutputDispatch | cli.py:419 | KML is written only for `--format kml`, only for a dictionary, and for a dictionary exactly when it has `features` |
| Kml.PointPlacemark | cli.py:480-492 | a Point raises iff its coordinates are null; it renders iff it has at least two coordinates, and then its coordinate line is `x,y` from the first two |
| Kml.PolygonPlacemark | cli.py:494-511 | a Polygon raises iff its first ring is present and malformed; it renders iff that ring is well formed, and then its coordinate line is the ring text |
| Kml.Placemark | cli.py:452-464 | a rendered placemark opens with `<Placemark>`, then the name and description lines computed from the properties, and closes with `</Placemark>`; a missing geometry or another geometry type is skipped |
| Kml.PlacemarkCases | cli.py:452-511 | a feature renders iff it is a Point with at least two coordinates or a Polygon with a well-formed first ring; it raises iff its properties or geometry are null, its Point coordinates are null, or its first Polygon ring is malformed; every other feature is skipped |
| Kml.CreateKmlPlacemark | cli.py:452-464 | the placemark method computes the name and description and dispatches on the geometry type exactly as the specification function does |
| Kml.PointShape | cli.py:480-492 | a Point placemark has seven lines, and its coordinates are the first two entries only |
| Kml.PolygonVertices | cli.py:494-511 | a Polygon placemark has eleven lines, and its coordinate text lists every vertex of the first ring as `x,y,0`, in ring order, nothing dropped or added |
| Kml.EmptyRingPolygon | cli.py:496-497 | a first ring that is present but empty still yields a Polygon, with empty coordinate text |
| Kml.PointExample | tests/test_cli.py:198-231 | the feature with key `Name`, its attribute row, and Point coordinates `-74.0,40.0` |
| Kml.SquareRing | tests/test_cli.py:155-168 | the closed unit square renders as `0,0,0 1,0,0 1,1,0 0,1,0 0,0,0` |
| Kml.PolygonExample | tests/test_cli.py:139-168 | the feature whose name key is `NAME` yields the Polygon named `Test Polygon` |
| Kml.PlacemarkLinesAppend | cli.py:444-447 | the placemarks of two feature lists in a row are those of the first followed by those of the second, and the first error stops the document |
| Kml.PlacemarkLinesSingle | cli.py:445-447 | one feature contributes exactly its own placemark lines, or none |
| Kml.BlockOpensOnce | cli.py:483-510 | every rendered placemark block holds exactly one `<Placemark>` line |
| Kml.PointBlockOpensOnce | cli.py:483-491 | a Point block holds exactly one `<Placemark>` line |
| Kml.PolygonBlockOpensOnce | cli.py:498-510 | a Polygon block holds exactly one `<Placemark>` line |
| Kml.PlacemarkCount | cli.py:444-447 | the document holds one `<Placemark>` per rendering feature |
| Kml.PlacemarkLinesFail | cli.py:444-447 | the placemark lines fail iff some feature raises, and then with the error of the first feature that does |
| Kml.DocumentLines | cli.py:435-450 | a document is at least five lines: the three header lines first and the two footer lines last |
| Kml.Document | cli.py:435-450 | the encoder raises iff the feature list is null or some feature raises |
| Kml.EmptyDocument | cli.py:436-450 | an empty or missing feature list yields just the five envelope lines joined by newlines |
| Kml.ConvertJsonToKml | cli.py:435-450 | the encoder's loop builds exactly the header, the placemarks of the renderable features in order, and the footer, joined by newlines, or raises the first feature's error |
| Client.WithDefaultFormat | src/esri_client/client.py:36-38 | `f` is added as `pjson` only when it is missing, and every parameter the caller gave is kept unchanged |
| Client.Inspect | src/esri_client/client.py:55-60 | a body is returned unchanged iff it has no `error` member; a non-object `error` raises AttributeError |
| Client.Attempt | src/esri_client/client.py:43-82 | an attempt is retried iff it is a connection error, a timeout or a 5xx status and it is not the third; it returns iff the status does not raise and the body is JSON without `error`, and then it returns the body unchanged |
| Client.FetchFrom | src/esri_client/client.py:41 | from any attempt on, the call ends after at most three requests in all |
| Client.FetchFromSettles | src/esri_client/client.py:41-82 | from any attempt on, every request before the last failed in a retryable way, and the last one settles the call |
| Client.FetchSettles | src/esri_client/client.py:40-82 | at most three requests; every request before the last was a retryable failure; the last one settles the call, and it is a retryable failure only when it was the third |
| Client.FetchFromSettlesAt | src/esri_client/client.py:41-82 | the first request that does not ask for a retry settles the call, after exactly that many requests |
| Client.FetchSucceeds | src/esri_client/client.py:60 | the call succeeds iff some request among the first three returns an error-free JSON body after retryable failures only, and then it returns that body unchanged |
| Client.ServerErrorsExhaust | src/esri_client/client.py:73-78 | three 5xx responses raise the server error of the third, after three requests |
| Client.OtherStatusIsImmediate | src/esri_client/client.py:79-80 | a 4xx other than 403 and 404 raises at once with its status, after one request |
| Client.InvalidJsonIsImmediate | src/esri_client/client.py:49-52 | a body that is not JSON raises at once, wrapped as a failed request, after one request |
| Client.OtherFailureIsImmediate | src/esri_client/client.py:81-82 | any other request failure raises at once, wrapped as a failed request, after one request |
| Client.NotFoundAndForbiddenAreImmediate | src/esri_client/client.py:69-72 | a 404 or 403 raises at once, after one request, with its own error |
| Client.TransportFailuresExhaust | src/esri_client/client.py:62-67 | three connection errors or timeouts raise an error of the third one's kind, after three requests |
| Client.ServerErrorThenSuccess | src/esri_client/client.py:73-76 | a server error followed by a good response returns the second body, after two requests |
| Client.EsriErrorIsImmediate | src/esri_client/client.py:55-58 | a body with an object `error` member raises at once with its `message`, or `Unknown ESRI error` |
| Client.EsriClient.constructor | src/esri_client/client.py:16-17 | `base_url` is the given URL with every trailing `/` removed |
| Client.EsriClient.GetJson | src/esri_client/client.py:21-82 | the loop sends the parameters with the default `f`, and its result and number of requests are those of the retry policy |
| Client.EsriClient.ServicesUrl | src/esri_client/client.py:86 | the services root is the base URL followed by `/rest/services` |
| Client.EsriClient.FolderUrl | src/esri_client/client.py:92 | a folder's URL is the services root, `/`, then the folder name |
| Client.EsriClient.ServiceUrl | src/esri_client/client.py:98 | a service's URL is the services root, `/`, then the service path |
| Client.EsriClient.LayerUrl | src/esri_client/client.py:104 | a layer's URL is its service's URL, `/`, then the decimal id |
| Client.LayerUrlNesting | src/esri_client/client.py:86-104 | a layer URL is `base_url/rest/services/folder/service/id`, and a service in a folder sits one level below the folder's URL |
| Client.UrlSegmentsReadBack | src/esri_client/client.py:92-104 | the last segment of a layer URL is the id's decimal text and reads back as the id; the last segment of a folder URL is the folder name |
| Client.BaseUrlExample | tests/test_client.py:7-9 | `https://example.com/` is normalised to `https://example.com` |
| Layers.WindowSlice | src/esri_client/layer.py:51 | the server's page, built one feature at a time, is the slice `all[start .. min(start + n, N)]` |
| Layers.PageSlice | src/esri_client/layer.py:51 | within the layer and the server's cap, a page is the slice `all[offset .. min(offset + P, N)]` |
| Layers.Coerce | src/esri_client/layer.py:38-41 | `int()` succeeds iff the parameter is not a string that fails to parse; a string parameter becomes the integer it spells; the other parameters are unchanged |
| Layers.QueryFormat | src/esri_client/layer.py:32 | the query never asks for `kml`: `kml` becomes `geojson` and any other format is kept |
| Layers.Prepare | src/esri_client/layer.py:32-41 | the parameters are `where`, `f` (`geojson` for `kml`) and `resultRecordCount=100`, overridden by the caller's; the paging members are integers; the ValueError is raised iff a string count or offset does not parse |
| Layers.Paginate | src/esri_client/layer.py:49-60 | the loop makes at least one request |
| Layers.PaginateFault | src/esri_client/layer.py:50 | a request that raises ends the loop with that error, after that one request |
| Layers.PaginateShortPage | src/esri_client/layer.py:53-58 | a short page ends the loop with every feature gathered so far, after that one request |
| Layers.PaginateFullPage | src/esri_client/layer.py:53-60 | a full page moves the loop on by one page with its features gathered; it only happens before the end of the layer |
| Layers.PaginateOffsets | src/esri_client/layer.py:49-60 | the loop's requests go to offsets `o, o + P, o + 2P, …` |
| Layers.LastOffsetStep | src/esri_client/layer.py:60 | the last of `n + 1` offsets from `o` is the last of the `n` offsets from `o + P` |
| Layers.OffsetsAt | src/esri_client/layer.py:60 | the `i`-th offset is `o + i * P` |
| Layers.PaginateAnsweredBefore | src/esri_client/layer.py:49-60 | every request before the loop's last one was answered |
| Layers.PaginateLastFault | src/esri_client/layer.py:49-60 | the loop ends in an error iff its last request faults, and with that fault |
| Layers.PaginateFaults | src/esri_client/layer.py:49-60 | the loop ends in an error iff the server faults at its last request, and with that error; every earlier offset was answered |
| Layers.QueryResult | src/esri_client/layer.py:38-66 | no request is made iff coercion raises; an explicit offset makes at most one request |
| Layers.PaginateHealthy | src/esri_client/layer.py:49-63 | against a healthy server, the loop gathers every remaining feature in order, in `(N - o) div P + 1` requests, and the other members come from the last response |
| Layers.CappedServerStopsAfterOnePage | src/esri_client/layer.py:57-58 | when the server's cap is below the page size, the first page is short, so one request is made and only that page comes back |
| Layers.QueryPaginates | src/esri_client/layer.py:45-63 | without an explicit offset, `query` is the paginating loop from offset 0 on the prepared parameters |
| Layers.HealthyFromZero | src/esri_client/layer.py:45-63 | from offset 0 against a healthy server, the loop gathers the whole layer in `N div P + 1` requests, the other members from the response at offset `N div P * P` |
| Layers.PaginateFromZero | src/esri_client/layer.py:47-60 | from offset 0, the `i`-th request is at offset `i * P` |
| Layers.QueryReturnsAllFeatures | src/esri_client/layer.py:45-68 | without an explicit offset, against a healthy server with `0 < P`: every feature in order, in `N div P + 1` requests at offsets `0, P, 2P, …`, and the other members from the last response |
| Layers.QueryFailsOnFault | src/esri_client/layer.py:43-71 | a fault ends the query with that error, re-wrapped with the layer id when it is a `RequestException`; no partial result is returned |
| Layers.ExplicitOffsetFetchesOnePage | src/esri_client/layer.py:64-66 | with an explicit `resultOffset`, one request is made, and its response or its wrapped error is returned as it is |
| Layers.EmptyLayerQueryExample | tests/test_layer.py:16-26 | for an empty layer, the only request is `where`, `f=pjson`, `resultRecordCount=100`, `resultOffset=0` |
| Layers.CoercionExample | src/esri_client/layer.py:32-39 | `resultRecordCount="25"` becomes 25 and `kml` becomes `geojson` |
| Layers.InvalidOffsetExample | src/esri_client/layer.py:40-41 | `resultOffset="ten"` raises before any request |
| Layers.Layer.constructor | src/esri_client/layer.py:8-13 | the fields are those given, and `name` is `data['name']` or `''` |
| Layers.Layer.FetchAllPages | src/esri_client/layer.py:46-63 | the `while True` loop makes the requests of the paginating specification and returns its result |
| Layers.Layer.Query | src/esri_client/layer.py:15-71 | `query` makes exactly the requests, and returns or raises exactly the result, of its specification |
| Layers.QueryUrlExample | tests/test_layer.py:18-24 | the query URL of layer 0 of `service/path` on `https://example.com` is `https://example.com/rest/services/service/path/0/query` |

## Left out

- The HTTP session, `response.json()` and logging are not modelled. Each request's outcome is a parameter (`Outcome` for `_get_json`, `Server` for `query`). The session's 30-second timeout only decides when a `Timeout` outcome occurs.
- Exception messages are constructors carrying what the message is formatted from (url, status, detail, ESRI message). The Python message strings themselves are not built.
- The CLI surface is not modelled: argparse, the handlers that only call the client and print, the exception-to-exit mapping, `print`, `json.dumps` and file writes. Only the KML dispatch condition (`Kml.RendersAsKml`) and the query-argument filter are kept.
- The object-tree constructors in `src/esri_client/services.py`, `src/esri_client/folder.py` and `src/esri_client/service.py` are not part of this model. They only copy fields into child objects. For `get_services`, `get_folder`, `get_service` and `get_layer`, only the URLs they request are modelled.
- Numbers are opaque tokens holding the text `str()` gives them, because Python's float repr is not modelled. `str()` of a nested list is rendered as `[a, b]`. String-valued coordinates and coordinate values that are neither a list nor a number are not modelled.
- `Text.Lower` lower-cases ASCII only and stands in for Python's Unicode `str.lower`.
- `Text.ParseInt` accepts an optional sign and ASCII digits only. It does not accept the surrounding whitespace, the digit-group underscores or the non-ASCII Unicode decimal digits that `int()` also allows.
- Features, properties and geometries that are not JSON objects are not modelled: a feature that is a list or a string, for example.
- `Client.Body`: a decoded body is always a JSON object in the model. For a list or string body, `'error' in json_data` is a membership or substring test. When it holds, `json_data['error']` raises `TypeError`. A string body without `error` is returned as it is. None of these cases is modelled.
- `Layers.Layer.Query` requires a positive page size when it paginates. With `resultRecordCount <= 0` the exit test `len(features) < P` never holds. The source then loops for as long as every request succeeds; a request that raises ends the loop with the wrapped error. Neither run is modelled.
- The `Server` answers every request with a `features` list, so the model does not cover a response whose `features` is missing or not a list.
- `_get_json` inserts `f` into the caller's own dictionary. The model returns the parameters it sends and does not model that aliasing with `query`'s dictionary.
- Response objects are maps, so key order in a response is not modelled. Property order is kept, because names and rows depend on it.
- HTML escaping, a display-field name override, vertex-count splitting and KMZ output are not in the source, and they are not modelled.
