/** `Layer` from src/esri_client/layer.py: the layer's name, and `query`,
    which prepares the request parameters and pages through the layer's
    features. Each `_get_json` call of `query` is answered by a `Server`. */
module Layers {
  import opened Values
  import opened Text
  import opened Client

  /** The layer's `query` endpoint as the loop sees it through `_get_json`: the
      layer's features in order; the other members of the response to the
      request at each `resultOffset`; the most features one response carries
      (the service's `maxRecordCount`); and the offsets at which `_get_json`
      raises instead of returning. */
  datatype Server = Server(
    all: seq<Json>,
    meta: int -> map<string, Json>,
    cap: nat,
    faults: map<int, ClientError>)

  /** One `_get_json(url, params)` call. */
  datatype Request = Request(url: string, params: Params)

  /** What `query` raises: its own re-wrapped `RequestException`, an error that is
      not a `RequestException` and passes through, or the `ValueError` of `int()`. */
  datatype QueryError =
    | Wrapped(layerId: int, cause: ClientError)  // "Layer query failed for layer {id}: {cause}"
    | Unwrapped(cause: ClientError)
    | InvalidInteger(text: string)

  function Min(a: int, b: int): int
  {
    if a < b then a else b
  }

  /** `x` brought into `0..hi`. */
  function Clamp(x: int, hi: nat): (r: nat)
    ensures r <= hi
    ensures 0 <= x <= hi ==> r == x
  {
    if x < 0 then 0 else if x > hi then hi else x
  }

  /** At most `n` items of `s` from `start` on, one at a time. */
  function Window(s: seq<Json>, start: nat, n: nat): seq<Json>
    requires start <= |s|
    decreases n
  {
    if n == 0 || start == |s| then [] else [s[start]] + Window(s, start + 1, n - 1)
  }

  /** The window is the slice `s[start .. min(start + n, |s|)]`. */
  lemma {:induction false} WindowSlice(s: seq<Json>, start: nat, n: nat)
    requires start <= |s|
    ensures Window(s, start, n) == s[start..Min(start + n, |s|)]
    decreases n
  {
    if n != 0 && start != |s| {
      WindowSlice(s, start + 1, n - 1);
      assert s[start..Min(start + n, |s|)] == [s[start]] + s[start + 1..Min(start + n, |s|)];
    }
  }

  /** The features the server sends for one page: at most `count`, and at most its cap. */
  function Page(server: Server, offset: int, count: int): seq<Json>
  {
    Window(server.all, Clamp(offset, |server.all|), Clamp(count, server.cap))
  }

  /** Within the layer and the cap, a page is the slice `all[offset .. min(offset + count, N)]`. */
  lemma PageSlice(server: Server, offset: int, count: int)
    requires 0 <= offset <= |server.all| && 0 <= count <= server.cap
    ensures Page(server, offset, count) == server.all[offset..Min(offset + count, |server.all|)]
  {
    WindowSlice(server.all, offset, count);
  }

  /** Parameters whose paging members are integers, as they are once `query` has coerced them. */
  predicate Paged(params: Params)
  {
    "resultRecordCount" in params && params["resultRecordCount"].PInt? &&
    ("resultOffset" in params ==> params["resultOffset"].PInt?)
  }

  /** `params['resultRecordCount']`, the page size. */
  function PageSize(params: Params): int
    requires Paged(params)
  {
    params["resultRecordCount"].i
  }

  /** The server's answer to the request with these `resultOffset` and
      `resultRecordCount`: the fault at that offset, or the page. */
  function Answer(server: Server, offset: int, count: int): Result<map<string, Json>, ClientError>
  {
    if offset in server.faults then Err(server.faults[offset])
    else Ok(server.meta(offset)["features" := JArr(Page(server, offset, count))])
  }

  /** `response.get('features', [])` */
  function FeaturesOf(response: map<string, Json>): seq<Json>
  {
    if "features" in response && response["features"].JArr? then response["features"].items else []
  }

  /** The `except RequestException` around the requests: only those are re-raised with the layer's id. */
  function Wrap(id: int, e: ClientError): QueryError
  {
    if IsRequestException(e) then Wrapped(id, e) else Unwrapped(e)
  }

  function Rewrap(id: int, r: Result<map<string, Json>, ClientError>): Result<map<string, Json>, QueryError>
  {
    match r
    case Ok(v) => Ok(v)
    case Err(e) => Err(Wrap(id, e))
  }

  // ----------------------------------------------------------- parameters

  /** The `f` requested: KML is built from GeoJSON. */
  function QueryFormat(format: string): (f: string)
    ensures f != "kml"
    ensures format != "kml" ==> f == format
    ensures f == "geojson" <==> format in {"kml", "geojson"}
  {
    if format == "kml" then "geojson" else format
  }

  /** The defaults, overridden by the caller's keyword arguments. */
  function Defaults(where: string, format: string, kwargs: Params): Params
  {
    map["where" := PStr(where), "f" := PStr(QueryFormat(format)), "resultRecordCount" := PInt(100)] + kwargs
  }

  /** A parameter after `int()` coercion: strings are parsed, everything else is kept. */
  predicate CoercedFrom(before: Param, after: Param)
  {
    if before.PStr? then after.PInt? && ParseInt(before.s) == Some(after.i) else after == before
  }

  /** `int()` applied to a string-valued parameter `key`. */
  function Coerce(params: Params, key: string): (r: Result<Params, QueryError>)
    ensures r.Ok? <==> !(key in params && params[key].PStr? && ParseInt(params[key].s).None?)
    ensures r.Ok? ==> r.value.Keys == params.Keys
    ensures r.Ok? ==> forall k :: k in params ==> CoercedFrom(params[k], r.value[k]) || (k != key && r.value[k] == params[k])
    ensures r.Ok? ==> forall k :: k in params && k != key ==> r.value[k] == params[k]
    ensures r.Ok? && key in params ==> CoercedFrom(params[key], r.value[key])
    ensures r.Err? ==> r.error == InvalidInteger(params[key].s)
  {
    if key in params && params[key].PStr? then
      match ParseInt(params[key].s)
      case Some(n) => Ok(params[key := PInt(n)])
      case None => Err(InvalidInteger(params[key].s))
    else Ok(params)
  }

  /** The parameters `query` sends, before `resultOffset` is set by the loop, or
      the ValueError raised before any request. */
  function Prepare(where: string, format: string, kwargs: Params): (r: Result<Params, QueryError>)
    ensures r.Ok? ==> r.value.Keys == kwargs.Keys + {"where", "f", "resultRecordCount"}
    ensures r.Ok? ==> Paged(r.value)
    ensures r.Ok? ==> r.value["f"] == (if "f" in kwargs then kwargs["f"] else PStr(QueryFormat(format)))
    ensures r.Ok? ==> r.value["where"] == (if "where" in kwargs then kwargs["where"] else PStr(where))
    ensures r.Ok? ==> CoercedFrom(if "resultRecordCount" in kwargs then kwargs["resultRecordCount"] else PInt(100),
                                  r.value["resultRecordCount"])
    ensures r.Ok? ==> forall k :: k in kwargs ==> CoercedFrom(kwargs[k], r.value[k]) || r.value[k] == kwargs[k]
    ensures r.Ok? ==> forall k :: k in kwargs && k != "resultRecordCount" && k != "resultOffset" ==> r.value[k] == kwargs[k]
    ensures r.Err? <==> exists key :: key in {"resultRecordCount", "resultOffset"} && key in kwargs &&
                                      kwargs[key].PStr? && ParseInt(kwargs[key].s).None?
  {
    var params := Defaults(where, format, kwargs);
    match Coerce(params, "resultRecordCount")
    case Err(e) => Err(e)
    case Ok(p) => Coerce(p, "resultOffset")
  }

  // ----------------------------------------------------------- pagination

  /** The request with a given `resultOffset`. */
  function OffsetRequest(url: string, params: Params, offset: int): Request
  {
    Request(url, params["resultOffset" := PInt(offset)])
  }

  /** The paginating loop from `offset` on, with `acc` gathered so far: the
      combined response or the error, and the requests made. */
  function Paginate(server: Server, url: string, params: Params, offset: int, acc: seq<Json>)
    : (r: (Result<map<string, Json>, ClientError>, seq<Request>))
    requires Paged(params) && PageSize(params) > 0
    ensures |r.1| >= 1
    decreases |server.all| - offset
  {
    var request := OffsetRequest(url, params, offset);
    match Answer(server, offset, PageSize(params))
    case Err(e) => (Err(e), [request])
    case Ok(response) =>
      var features := FeaturesOf(response);
      if |features| < PageSize(params) then (Ok(response["features" := JArr(acc + features)]), [request])
      else
        var rest := Paginate(server, url, params, offset + PageSize(params), acc + features);
        (rest.0, [request] + rest.1)
  }

  /** A fault ends the loop with that error, after one request. */
  lemma PaginateFault(server: Server, url: string, params: Params, offset: int, acc: seq<Json>)
    requires Paged(params) && PageSize(params) > 0
    requires offset in server.faults
    ensures Paginate(server, url, params, offset, acc) ==
            (Err(server.faults[offset]), [OffsetRequest(url, params, offset)])
  {
  }

  /** A short page ends the loop with the gathered features, after one request. */
  lemma PaginateShortPage(server: Server, url: string, params: Params, offset: int, acc: seq<Json>, page: map<string, Json>)
    requires Paged(params) && PageSize(params) > 0
    requires Answer(server, offset, PageSize(params)) == Ok(page)
    requires |FeaturesOf(page)| < PageSize(params)
    ensures Paginate(server, url, params, offset, acc) ==
            (Ok(page["features" := JArr(acc + FeaturesOf(page))]), [OffsetRequest(url, params, offset)])
  {
  }

  /** A full page moves the loop on by one page, with its features gathered. */
  lemma PaginateFullPage(server: Server, url: string, params: Params, offset: int, acc: seq<Json>, page: map<string, Json>)
    requires Paged(params) && PageSize(params) > 0
    requires Answer(server, offset, PageSize(params)) == Ok(page)
    requires |FeaturesOf(page)| >= PageSize(params)
    ensures offset < |server.all|
    ensures Paginate(server, url, params, offset, acc).0 ==
            Paginate(server, url, params, offset + PageSize(params), acc + FeaturesOf(page)).0
    ensures Paginate(server, url, params, offset, acc).1 ==
            [OffsetRequest(url, params, offset)] +
            Paginate(server, url, params, offset + PageSize(params), acc + FeaturesOf(page)).1
  {
  }

  /** `n` offsets from `offset` on, `step` apart. */
  function Offsets(offset: int, step: int, n: nat): (r: seq<int>)
    ensures |r| == n
    decreases n
  {
    if n == 0 then [] else [offset] + Offsets(offset + step, step, n - 1)
  }

  /** The offset of the last of `n` requests. */
  function LastOffset(offset: int, step: int, n: nat): int
    requires n > 0
  {
    Offsets(offset, step, n)[n - 1]
  }

  /** The last of `n + 1` offsets is the last of the `n` that follow the first. */
  lemma LastOffsetStep(offset: int, step: int, n: nat)
    requires n > 0
    ensures LastOffset(offset, step, n + 1) == LastOffset(offset + step, step, n)
  {
    assert Offsets(offset, step, n + 1) == [offset] + Offsets(offset + step, step, n);
  }

  lemma {:induction false} OffsetsAt(offset: int, step: int, n: nat, i: int)
    requires 0 <= i < n
    ensures Offsets(offset, step, n)[i] == offset + i * step
    decreases n
  {
    if i > 0 {
      OffsetsAt(offset + step, step, n - 1, i - 1);
      assert offset + step + (i - 1) * step == offset + i * step;
    }
  }

  /** The loop's requests go to offsets `offset, offset + P, offset + 2P, ...`. */
  lemma {:induction false} PaginateOffsets(server: Server, url: string, params: Params, offset: int, acc: seq<Json>)
    requires Paged(params) && PageSize(params) > 0
    ensures forall i :: 0 <= i < |Paginate(server, url, params, offset, acc).1| ==>
              Paginate(server, url, params, offset, acc).1[i] ==
              OffsetRequest(url, params, Offsets(offset, PageSize(params), |Paginate(server, url, params, offset, acc).1|)[i])
    decreases |server.all| - offset
  {
    var P := PageSize(params);
    var request := OffsetRequest(url, params, offset);
    var answer := Answer(server, offset, P);
    if answer.Ok? && |FeaturesOf(answer.value)| >= P {
      var features := FeaturesOf(answer.value);
      PaginateOffsets(server, url, params, offset + P, acc + features);
      var rest := Paginate(server, url, params, offset + P, acc + features).1;
      var sent := [request] + rest;
      var later := Offsets(offset + P, P, |rest|);
      assert forall i :: 0 <= i < |rest| ==> rest[i] == OffsetRequest(url, params, later[i]);
      assert Paginate(server, url, params, offset, acc).1 == sent;
      assert Offsets(offset, P, |sent|) == [offset] + later;
      forall i | 1 <= i < |sent|
        ensures sent[i] == OffsetRequest(url, params, Offsets(offset, P, |sent|)[i])
      {
        assert sent[i] == rest[i - 1];
        assert rest[i - 1] == OffsetRequest(url, params, later[i - 1]);
      }
    }
  }

  /** Every request before the loop's last one was answered. */
  lemma {:induction false} PaginateAnsweredBefore(server: Server, url: string, params: Params, offset: int, acc: seq<Json>)
    requires Paged(params) && PageSize(params) > 0
    ensures forall i :: 0 <= i < |Paginate(server, url, params, offset, acc).1| - 1 ==>
              Offsets(offset, PageSize(params), |Paginate(server, url, params, offset, acc).1|)[i] !in server.faults
    decreases |server.all| - offset
  {
    var P := PageSize(params);
    var answer := Answer(server, offset, P);
    if answer.Ok? && |FeaturesOf(answer.value)| >= P {
      var features := FeaturesOf(answer.value);
      PaginateFullPage(server, url, params, offset, acc, answer.value);
      PaginateAnsweredBefore(server, url, params, offset + P, acc + features);
      var rest := Paginate(server, url, params, offset + P, acc + features);
      assert |Paginate(server, url, params, offset, acc).1| == |rest.1| + 1;
      assert Offsets(offset, P, |rest.1| + 1) == [offset] + Offsets(offset + P, P, |rest.1|);
      assert offset !in server.faults;
    }
  }

  /** The loop ends in an error exactly when its last request faults, and with that fault. */
  predicate EndsAtLastFault(server: Server, url: string, params: Params, offset: int, acc: seq<Json>)
    requires Paged(params) && PageSize(params) > 0
  {
    (Paginate(server, url, params, offset, acc).0.Err? <==>
     LastOffset(offset, PageSize(params), |Paginate(server, url, params, offset, acc).1|) in server.faults) &&
    (Paginate(server, url, params, offset, acc).0.Err? ==>
     Paginate(server, url, params, offset, acc).0.error ==
     server.faults[LastOffset(offset, PageSize(params), |Paginate(server, url, params, offset, acc).1|)])
  }

  /** A loop that stops at its first request ends as that request does. */
  lemma EndsAtFirstRequest(server: Server, url: string, params: Params, offset: int, acc: seq<Json>)
    requires Paged(params) && PageSize(params) > 0
    requires Answer(server, offset, PageSize(params)).Err? ||
             |FeaturesOf(Answer(server, offset, PageSize(params)).value)| < PageSize(params)
    ensures EndsAtLastFault(server, url, params, offset, acc)
  {
    var P := PageSize(params);
    assert Offsets(offset, P, 1) == [offset];
    if offset in server.faults {
      PaginateFault(server, url, params, offset, acc);
    } else {
      PaginateShortPage(server, url, params, offset, acc, Answer(server, offset, P).value);
    }
  }

  /** After a full page, the loop ends as the loop from the next page does. */
  lemma EndsAfterFullPage(server: Server, url: string, params: Params, offset: int, acc: seq<Json>,
                          page: map<string, Json>)
    requires Paged(params) && PageSize(params) > 0
    requires Answer(server, offset, PageSize(params)) == Ok(page)
    requires |FeaturesOf(page)| >= PageSize(params)
    requires EndsAtLastFault(server, url, params, offset + PageSize(params), acc + FeaturesOf(page))
    ensures EndsAtLastFault(server, url, params, offset, acc)
  {
    var P := PageSize(params);
    PaginateFullPage(server, url, params, offset, acc, page);
    var rest := Paginate(server, url, params, offset + P, acc + FeaturesOf(page));
    LastOffsetStep(offset, P, |rest.1|);
  }

  /** The loop's last request faults exactly when the loop ends in an error, and with that error. */
  lemma {:induction false} PaginateLastFault(server: Server, url: string, params: Params, offset: int, acc: seq<Json>)
    requires Paged(params) && PageSize(params) > 0
    ensures Paginate(server, url, params, offset, acc).0.Err? <==>
            LastOffset(offset, PageSize(params), |Paginate(server, url, params, offset, acc).1|) in server.faults
    ensures Paginate(server, url, params, offset, acc).0.Err? ==>
            Paginate(server, url, params, offset, acc).0.error ==
            server.faults[LastOffset(offset, PageSize(params), |Paginate(server, url, params, offset, acc).1|)]
    decreases |server.all| - offset
  {
    var P := PageSize(params);
    var answer := Answer(server, offset, P);
    if answer.Err? || |FeaturesOf(answer.value)| < P {
      EndsAtFirstRequest(server, url, params, offset, acc);
    } else {
      PaginateFullPage(server, url, params, offset, acc, answer.value);
      PaginateLastFault(server, url, params, offset + P, acc + FeaturesOf(answer.value));
      EndsAfterFullPage(server, url, params, offset, acc, answer.value);
    }
  }

  /** The loop stops with an error exactly when the server faults, at its last
      request, and with that error; every earlier offset was answered. */
  lemma PaginateFaults(server: Server, url: string, params: Params, offset: int, acc: seq<Json>)
    requires Paged(params) && PageSize(params) > 0
    ensures forall i :: 0 <= i < |Paginate(server, url, params, offset, acc).1| - 1 ==>
              Offsets(offset, PageSize(params), |Paginate(server, url, params, offset, acc).1|)[i] !in server.faults
    ensures Paginate(server, url, params, offset, acc).0.Err? <==>
            LastOffset(offset, PageSize(params), |Paginate(server, url, params, offset, acc).1|) in server.faults
    ensures Paginate(server, url, params, offset, acc).0.Err? ==>
            Paginate(server, url, params, offset, acc).0.error ==
            server.faults[LastOffset(offset, PageSize(params), |Paginate(server, url, params, offset, acc).1|)]
  {
    PaginateAnsweredBefore(server, url, params, offset, acc);
    PaginateLastFault(server, url, params, offset, acc);
  }

  /** What `query` returns or raises, and the requests it makes. */
  function QueryResult(server: Server, url: string, id: int, where: string, format: string, kwargs: Params)
    : (r: (Result<map<string, Json>, QueryError>, seq<Request>))
    requires Terminates(where, format, kwargs)
    ensures Prepare(where, format, kwargs).Err? <==> r.1 == []
    ensures "resultOffset" in kwargs && r.1 != [] ==> |r.1| == 1
  {
    match Prepare(where, format, kwargs)
    case Err(e) => (Err(e), [])
    case Ok(params) =>
      if "resultOffset" !in kwargs then
        var (res, sent) := Paginate(server, url, params, 0, []);
        (Rewrap(id, res), sent)
      else
        (Rewrap(id, Answer(server, params["resultOffset"].i, PageSize(params))), [Request(url, params)])
  }

  /** The loop ends only on a short page, so it needs a positive page size when it runs. */
  predicate Terminates(where: string, format: string, kwargs: Params)
  {
    "resultOffset" in kwargs || Prepare(where, format, kwargs).Err? || PageSize(Prepare(where, format, kwargs).value) > 0
  }

  // ------------------------------------------------------ paging lemmas

  lemma MulMonotone(a: int, b: int, p: int)
    requires p > 0 && a <= b
    ensures a * p <= b * p
  {
  }

  /** Euclidean division is determined by its quotient-remainder decomposition. */
  lemma DivUnique(a: int, p: int, q: int, m: int)
    requires p > 0 && 0 <= m < p && a == q * p + m
    ensures a / p == q
  {
    var q' := a / p;
    assert a == q' * p + a % p;
    if q' <= q - 1 {
      MulMonotone(q', q - 1, p);
    }
    if q' >= q + 1 {
      MulMonotone(q + 1, q', p);
    }
  }

  lemma DivStep(x: int, p: int)
    requires x >= p > 0
    ensures (x - p) / p == x / p - 1
  {
    var q := x / p;
    assert x == q * p + x % p;
    assert x - p == (q - 1) * p + x % p;
    DivUnique(x - p, p, q - 1, x % p);
  }

  /** Against a healthy server that sends whole pages, the loop from `offset`
      gathers every remaining feature, in order, in `(N - offset) div P + 1`
      requests, and the other members come from the last response. */
  lemma {:induction false} PaginateHealthy(server: Server, url: string, params: Params, offset: int, acc: seq<Json>)
    requires Paged(params) && 0 < PageSize(params) <= server.cap
    requires 0 <= offset <= |server.all|
    requires server.faults == map[]
    ensures |Paginate(server, url, params, offset, acc).1| == (|server.all| - offset) / PageSize(params) + 1
    ensures Paginate(server, url, params, offset, acc).0 ==
            Ok(server.meta(LastOffset(offset, PageSize(params), |Paginate(server, url, params, offset, acc).1|))
                 ["features" := JArr(acc + server.all[offset..])])
    decreases |server.all| - offset
  {
    var P := PageSize(params);
    PageSlice(server, offset, P);
    var page := Page(server, offset, P);
    var response := server.meta(offset)["features" := JArr(page)];
    assert Answer(server, offset, P) == Ok(response);
    assert FeaturesOf(response) == page;
    if |page| < P {
      assert |server.all| - offset < P;
      DivUnique(|server.all| - offset, P, 0, |server.all| - offset);
      assert server.all[offset..] == page;
      assert Paginate(server, url, params, offset, acc) ==
             (Ok(response["features" := JArr(acc + page)]), [OffsetRequest(url, params, offset)]);
      assert response["features" := JArr(acc + page)] == server.meta(offset)["features" := JArr(acc + page)];
      assert Offsets(offset, P, 1) == [offset];
    } else {
      DivStep(|server.all| - offset, P);
      PaginateHealthy(server, url, params, offset + P, acc + page);
      var rest := Paginate(server, url, params, offset + P, acc + page);
      assert Paginate(server, url, params, offset, acc) == (rest.0, [OffsetRequest(url, params, offset)] + rest.1);
      assert Offsets(offset, P, |rest.1| + 1) == [offset] + Offsets(offset + P, P, |rest.1|);
      assert server.all[offset..] == page + server.all[offset + P..];
      assert (acc + page) + server.all[offset + P..] == acc + server.all[offset..];
    }
  }

  /** Against a server whose cap is below the page size, the first page is short:
      one request, and only the capped first page comes back. */
  lemma CappedServerStopsAfterOnePage(server: Server, url: string, params: Params)
    requires Paged(params) && server.cap < PageSize(params)
    requires 0 !in server.faults
    ensures Paginate(server, url, params, 0, []) ==
            (Ok(server.meta(0)["features" := JArr(server.all[..Min(server.cap, |server.all|)])]),
             [OffsetRequest(url, params, 0)])
  {
    var page := Page(server, 0, PageSize(params));
    WindowSlice(server.all, 0, server.cap);
    assert page == server.all[..Min(server.cap, |server.all|)];
    var response := server.meta(0)["features" := JArr(page)];
    assert Answer(server, 0, PageSize(params)) == Ok(response);
    assert FeaturesOf(response) == page;
    assert [] + page == page;
    assert response["features" := JArr(page)] == response;
  }

  /** Without an explicit offset, `query` is the paginating loop from offset 0 on the prepared parameters. */
  lemma QueryPaginates(server: Server, url: string, id: int, where: string, format: string, kwargs: Params,
                       params: Params)
    requires "resultOffset" !in kwargs
    requires Prepare(where, format, kwargs) == Ok(params) && PageSize(params) > 0
    ensures QueryResult(server, url, id, where, format, kwargs) ==
            (Rewrap(id, Paginate(server, url, params, 0, []).0), Paginate(server, url, params, 0, []).1)
  {
  }

  /** Without an explicit offset, against a healthy server: every feature of the
      layer, in order, in `N div P + 1` requests at offsets `0, P, 2P, ...`, the
      other members from the response to the last of them. */
  lemma QueryReturnsAllFeatures(server: Server, url: string, id: int, where: string, format: string, kwargs: Params,
                                params: Params)
    requires "resultOffset" !in kwargs
    requires Prepare(where, format, kwargs) == Ok(params)
    requires 0 < PageSize(params) <= server.cap
    requires server.faults == map[]
    ensures QueryResult(server, url, id, where, format, kwargs).0 ==
            Ok(server.meta(|server.all| / PageSize(params) * PageSize(params))["features" := JArr(server.all)])
    ensures |QueryResult(server, url, id, where, format, kwargs).1| == |server.all| / PageSize(params) + 1
    ensures forall i :: 0 <= i < |QueryResult(server, url, id, where, format, kwargs).1| ==>
              QueryResult(server, url, id, where, format, kwargs).1[i] == OffsetRequest(url, params, i * PageSize(params))
  {
    QueryPaginates(server, url, id, where, format, kwargs, params);
    HealthyFromZero(server, url, params);
    PaginateFromZero(server, url, params);
  }

  /** From offset 0, against a healthy server, the loop gathers the whole layer
      in `N div P + 1` requests, the last at offset `N div P * P`. */
  lemma HealthyFromZero(server: Server, url: string, params: Params)
    requires Paged(params) && 0 < PageSize(params) <= server.cap
    requires server.faults == map[]
    ensures Paginate(server, url, params, 0, []).0 ==
            Ok(server.meta(|server.all| / PageSize(params) * PageSize(params))["features" := JArr(server.all)])
    ensures |Paginate(server, url, params, 0, []).1| == |server.all| / PageSize(params) + 1
  {
    var P := PageSize(params);
    PaginateHealthy(server, url, params, 0, []);
    var sent := Paginate(server, url, params, 0, []).1;
    OffsetsAt(0, P, |sent|, |sent| - 1);
    assert [] + server.all[0..] == server.all;
  }

  /** From offset 0, the loop's `i`-th request is at offset `i * P`. */
  lemma PaginateFromZero(server: Server, url: string, params: Params)
    requires Paged(params) && PageSize(params) > 0
    ensures forall i :: 0 <= i < |Paginate(server, url, params, 0, []).1| ==>
              Paginate(server, url, params, 0, []).1[i] == OffsetRequest(url, params, i * PageSize(params))
  {
    var P := PageSize(params);
    PaginateOffsets(server, url, params, 0, []);
    var sent := Paginate(server, url, params, 0, []).1;
    forall i | 0 <= i < |sent|
      ensures sent[i] == OffsetRequest(url, params, i * P)
    {
      OffsetsAt(0, P, |sent|, i);
      assert sent[i] == OffsetRequest(url, params, Offsets(0, P, |sent|)[i]);
    }
  }

  /** A fault ends the paginated query with that error, re-wrapped when it is a
      `RequestException`; no partial result is returned, and every earlier
      request was answered. */
  lemma QueryFailsOnFault(server: Server, url: string, id: int, where: string, format: string, kwargs: Params,
                          params: Params)
    requires "resultOffset" !in kwargs
    requires Prepare(where, format, kwargs) == Ok(params) && PageSize(params) > 0
    ensures forall i :: 0 <= i < |QueryResult(server, url, id, where, format, kwargs).1| - 1 ==>
              Offsets(0, PageSize(params), |QueryResult(server, url, id, where, format, kwargs).1|)[i] !in server.faults
    ensures QueryResult(server, url, id, where, format, kwargs).0.Err? <==>
            LastOffset(0, PageSize(params), |QueryResult(server, url, id, where, format, kwargs).1|) in server.faults
    ensures QueryResult(server, url, id, where, format, kwargs).0.Err? ==>
            QueryResult(server, url, id, where, format, kwargs).0.error ==
            Wrap(id, server.faults[LastOffset(0, PageSize(params), |QueryResult(server, url, id, where, format, kwargs).1|)])
  {
    QueryPaginates(server, url, id, where, format, kwargs, params);
    PaginateFaults(server, url, params, 0, []);
  }

  /** With an explicit `resultOffset`: one request, and the response as the
      server sent it, or its fault. */
  lemma ExplicitOffsetFetchesOnePage(server: Server, url: string, id: int, where: string, format: string, kwargs: Params,
                                     params: Params)
    requires "resultOffset" in kwargs
    requires Prepare(where, format, kwargs) == Ok(params)
    ensures QueryResult(server, url, id, where, format, kwargs).1 == [Request(url, params)]
    ensures params["resultOffset"].i !in server.faults ==>
            QueryResult(server, url, id, where, format, kwargs).0 ==
            Ok(server.meta(params["resultOffset"].i)["features" :=
                 JArr(Page(server, params["resultOffset"].i, PageSize(params)))])
    ensures params["resultOffset"].i in server.faults ==>
            QueryResult(server, url, id, where, format, kwargs).0 == Err(Wrap(id, server.faults[params["resultOffset"].i]))
  {
  }

  /** The first request for an empty layer: `where`, the default `f` and page
      size, offset 0, and no other request. */
  lemma EmptyLayerQueryExample(server: Server, url: string)
    requires server.all == [] && server.faults == map[]
    ensures QueryResult(server, url, 0, "test=1", "pjson", map[]).1 ==
            [Request(url, map["where" := PStr("test=1"), "f" := PStr("pjson"),
                              "resultRecordCount" := PInt(100), "resultOffset" := PInt(0)])]
  {
    var params := map["where" := PStr("test=1"), "f" := PStr("pjson"), "resultRecordCount" := PInt(100)];
    assert Defaults("test=1", "pjson", map[]) == params;
    assert Prepare("test=1", "pjson", map[]) == Ok(params);
  }

  /** A string page size is read as an integer, and `kml` is asked for as `geojson`. */
  lemma CoercionExample()
    ensures Prepare("1=1", "kml", map["resultRecordCount" := PStr("25")]).Ok?
    ensures Prepare("1=1", "kml", map["resultRecordCount" := PStr("25")]).value ==
            map["where" := PStr("1=1"), "f" := PStr("geojson"), "resultRecordCount" := PInt(25)]
  {
    var s := "25";
    assert AllDigits(s);
    assert DigitsValue(s) == DigitsValue(s[..1]) * 10 + 5;
    assert ParseInt(s) == Some(25);
  }

  /** A string offset that is not an integer raises before any request is made. */
  lemma InvalidOffsetExample(server: Server, url: string)
    ensures QueryResult(server, url, 3, "1=1", "pjson", map["resultOffset" := PStr("ten")]) ==
            (Err(InvalidInteger("ten")), [])
  {
    var kw := map["resultOffset" := PStr("ten")];
    assert ParseInt("ten") == None by {
      assert !IsDigit("ten"[0]);
    }
    assert Prepare("1=1", "pjson", kw).Err?;
  }

  // ---------------------------------------------------------------- Layer

  /** Maps that agree once `resultOffset` is set alike agree whatever it is set to;
      setting it again keeps them agreeing. */
  lemma Reoffset(params: Params, prepared: Params, offset: int)
    requires params["resultOffset" := PInt(0)] == prepared["resultOffset" := PInt(0)]
    ensures params["resultOffset" := PInt(offset)] == prepared["resultOffset" := PInt(offset)]
    ensures params["resultOffset" := PInt(offset)]["resultOffset" := PInt(0)] == prepared["resultOffset" := PInt(0)]
  {
    assert forall k :: k != "resultOffset" ==> (k in params <==> k in prepared["resultOffset" := PInt(0)]);
    assert forall k :: k != "resultOffset" && k in params ==> params[k] == params["resultOffset" := PInt(0)][k];
  }

  class Layer {
    var data: map<string, Json>
    var client: EsriClient
    var servicePath: string
    var id: int
    var name: Json

    /** The layer's `name` is the one in its data, or the empty string. */
    constructor(data: map<string, Json>, client: EsriClient, servicePath: string, id: int)
      ensures this.data == data && this.client == client && this.servicePath == servicePath && this.id == id
      ensures name == (if "name" in data then data["name"] else JStr(""))
    {
      this.data := data;
      this.client := client;
      this.servicePath := servicePath;
      this.id := id;
      this.name := if "name" in data then data["name"] else JStr("");
    }

    /** The layer's query endpoint. */
    function QueryUrl(): string
      reads this, client
    {
      client.LayerUrl(servicePath, id) + "/query"
    }

    /** The paginating `while True` loop of `query`, from offset 0, on the prepared parameters. */
    method FetchAllPages(server: Server, url: string, prepared: Params)
      returns (r: Result<map<string, Json>, ClientError>, sent: seq<Request>)
      requires Paged(prepared) && PageSize(prepared) > 0
      ensures (r, sent) == Paginate(server, url, prepared, 0, [])
    {
      var params := prepared;
      var pageSize := params["resultRecordCount"].i;
      var allFeatures: seq<Json> := [];
      var offset := 0;
      sent := [];
      ghost var wholeResult := Paginate(server, url, prepared, 0, []).0;
      ghost var wholeSent := Paginate(server, url, prepared, 0, []).1;
      while true
        invariant offset >= 0
        invariant params["resultOffset" := PInt(0)] == prepared["resultOffset" := PInt(0)]
        invariant wholeResult == Paginate(server, url, prepared, offset, allFeatures).0
        invariant wholeSent == sent + Paginate(server, url, prepared, offset, allFeatures).1
        decreases |server.all| - offset
      {
        Reoffset(params, prepared, offset);
        params := params["resultOffset" := PInt(offset)];
        var response := Answer(server, params["resultOffset"].i, params["resultRecordCount"].i);
        ghost var sentBefore := sent;
        sent := sent + [Request(url, params)];
        if response.Err? {
          PaginateFault(server, url, prepared, offset, allFeatures);
          r := Err(response.error);
          return;
        }
        var features := FeaturesOf(response.value);
        if |features| < pageSize {
          PaginateShortPage(server, url, prepared, offset, allFeatures, response.value);
          allFeatures := allFeatures + features;
          r := Ok(response.value["features" := JArr(allFeatures)]);
          return;
        }
        PaginateFullPage(server, url, prepared, offset, allFeatures, response.value);
        ghost var next := Paginate(server, url, prepared, offset + pageSize, allFeatures + features).1;
        assert sentBefore + ([Request(url, params)] + next) == sent + next;
        allFeatures := allFeatures + features;
        offset := offset + pageSize;
      }
    }

    /** `query(where, format, **kwargs)`: its result or error, and the requests it made. */
    method Query(server: Server, where: string := "1=1", format: string := "pjson", kwargs: Params := map[])
      returns (r: Result<map<string, Json>, QueryError>, sent: seq<Request>)
      requires Terminates(where, format, kwargs)
      ensures (r, sent) == QueryResult(server, QueryUrl(), id, where, format, kwargs)
    {
      var url := client.baseUrl + "/rest/services/" + servicePath + "/" + IntToString(id) + "/query";
      assert url == QueryUrl();
      var queryFormat := if format == "kml" then "geojson" else format;
      var params := map["where" := PStr(where), "f" := PStr(queryFormat), "resultRecordCount" := PInt(100)] + kwargs;
      assert params == Defaults(where, format, kwargs);
      sent := [];

      if "resultRecordCount" in params && params["resultRecordCount"].PStr? {
        var n := ParseInt(params["resultRecordCount"].s);
        if n.None? {
          r := Err(InvalidInteger(params["resultRecordCount"].s));
          return;
        }
        params := params["resultRecordCount" := PInt(n.value)];
      }
      assert Coerce(Defaults(where, format, kwargs), "resultRecordCount") == Ok(params);
      if "resultOffset" in params && params["resultOffset"].PStr? {
        var n := ParseInt(params["resultOffset"].s);
        if n.None? {
          r := Err(InvalidInteger(params["resultOffset"].s));
          return;
        }
        params := params["resultOffset" := PInt(n.value)];
      }
      assert Prepare(where, format, kwargs) == Ok(params);

      if "resultOffset" !in kwargs {
        var res;
        res, sent := FetchAllPages(server, url, params);
        r := Rewrap(id, res);
      } else {
        var response := Answer(server, params["resultOffset"].i, params["resultRecordCount"].i);
        sent := [Request(url, params)];
        r := Rewrap(id, response);
      }
    }
  }

  /** The query URL is the layer's URL followed by `/query`. */
  lemma QueryUrlExample(layer: Layer)
    requires layer.client.baseUrl == "https://example.com"
    requires layer.servicePath == "service/path" && layer.id == 0
    ensures layer.QueryUrl() == "https://example.com/rest/services/service/path/0/query"
  {
    assert IntToString(0) == "0";
  }
}
