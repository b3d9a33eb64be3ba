/** `EsriClient` from src/esri_client/client.py: the normalised base URL, the
    URLs of the REST resources, and `_get_json`'s retry and error
    classification. The HTTP session is replaced by the sequence of outcomes
    its successive `get` calls produce. */
module Client {
  import opened Values
  import opened Text

  /** `max_retries` */
  const MaxRetries: nat := 3

  /** What `response.json()` makes of a body that `raise_for_status` let through. */
  datatype Body = NotJson(detail: string) | Decoded(data: map<string, Json>)

  /** The outcome of one `session.get` call. */
  datatype Outcome =
    | ConnectFailure(detail: string)  // requests' ConnectionError
    | TimeoutFailure(detail: string)  // requests' Timeout
    | OtherFailure(detail: string)    // any other RequestException raised by the call
    | Response(status: int, body: Body)

  datatype Transport = Connection | Timeout

  /** Why a `RequestException("Request failed for {url}: ...")` was raised. */
  datatype Reason =
    | InvalidJson(detail: string)   // "Invalid JSON response from {url}: ..."
    | EsriApi(message: Json)        // "ESRI API error: {message}"
    | Other(detail: string)

  /** The exceptions `_get_json` lets escape; each carries what its message is formatted from. */
  datatype ClientError =
    | Exhausted(kind: Transport, detail: string)  // same exception type, "Failed after 3 attempts: ..."
    | NotFound(url: string)                       // HTTPError "Resource not found: {url}"
    | Forbidden(url: string)                      // HTTPError "Access forbidden: {url}"
    | ServerError(status: int, url: string)       // HTTPError "Server error ({status}): {url}"
    | HttpError(status: int, url: string)         // HTTPError "HTTP error ({status}): {url}"
    | RequestFailed(url: string, reason: Reason)  // RequestException "Request failed for {url}: ..."
    | ErrorNotObject                              // AttributeError: the `error` member has no `.get`

  /** Every error but the AttributeError is a `RequestException`. */
  predicate IsRequestException(e: ClientError)
  {
    !e.ErrorNotObject?
  }

  /** `raise_for_status` raises for client and server error codes only. */
  predicate RaisesForStatus(status: int)
  {
    400 <= status < 600
  }

  /** The failures the loop answers with another attempt, while attempts remain. */
  predicate Retryable(o: Outcome)
  {
    o.ConnectFailure? || o.TimeoutFailure? || (o.Response? && RaisesForStatus(o.status) && o.status >= 500)
  }

  /** The parameters actually sent: `f` defaults to `pjson`, an existing `f` is kept. */
  function WithDefaultFormat(params: Params): (r: Params)
    ensures "f" in r && r.Keys == params.Keys + {"f"}
    ensures r["f"] == (if "f" in params then params["f"] else PStr("pjson"))
    ensures forall k :: k in params ==> r[k] == params[k]
  {
    if "f" in params then params else params["f" := PStr("pjson")]
  }

  /** What one attempt leads to. */
  datatype Step = Return(data: map<string, Json>) | Raise(error: ClientError) | Retry

  /** The `ESRI API error` check on a decoded body. */
  function Inspect(url: string, data: map<string, Json>): (s: Step)
    ensures s.Return? <==> "error" !in data
    ensures s.Return? ==> s.data == data
    ensures s == Raise(ErrorNotObject) <==> "error" in data && !data["error"].JObj?
  {
    if "error" !in data then Return(data)
    else
      var info := data["error"];
      if !info.JObj? then Raise(ErrorNotObject)
      else if "message" in info.members then Raise(RequestFailed(url, EsriApi(info.members["message"])))
      else Raise(RequestFailed(url, EsriApi(JStr("Unknown ESRI error"))))
  }

  /** How attempt number `attempt` (from 0) ends, given its outcome. */
  function Attempt(url: string, o: Outcome, attempt: nat): (s: Step)
    ensures s.Retry? <==> Retryable(o) && attempt < MaxRetries - 1
    ensures s.Return? <==> o.Response? && !RaisesForStatus(o.status) && o.body.Decoded? && "error" !in o.body.data
    ensures s.Return? ==> s.data == o.body.data
  {
    match o
    case ConnectFailure(d) => if attempt < MaxRetries - 1 then Retry else Raise(Exhausted(Connection, d))
    case TimeoutFailure(d) => if attempt < MaxRetries - 1 then Retry else Raise(Exhausted(Timeout, d))
    case OtherFailure(d) => Raise(RequestFailed(url, Other(d)))
    case Response(status, body) =>
      if RaisesForStatus(status) then
        if status == 404 then Raise(NotFound(url))
        else if status == 403 then Raise(Forbidden(url))
        else if status >= 500 then
          if attempt < MaxRetries - 1 then Retry else Raise(ServerError(status, url))
        else Raise(HttpError(status, url))
      else
        match body
        case NotJson(d) => Raise(RequestFailed(url, InvalidJson(d)))
        case Decoded(data) => Inspect(url, data)
  }

  /** The value returned or the exception raised by a settled step. */
  function Settle(s: Step): Result<map<string, Json>, ClientError>
    requires !s.Retry?
  {
    if s.Return? then Ok(s.data) else Err(s.error)
  }

  /** The attempts from `attempt` on: the result and how many requests were made in all. */
  function FetchFrom(url: string, outcomes: seq<Outcome>, attempt: nat): (r: (Result<map<string, Json>, ClientError>, nat))
    requires attempt < MaxRetries <= |outcomes|
    ensures attempt < r.1 <= MaxRetries
    decreases MaxRetries - attempt
  {
    var s := Attempt(url, outcomes[attempt], attempt);
    if s.Retry? then FetchFrom(url, outcomes, attempt + 1) else (Settle(s), attempt + 1)
  }

  /** `_get_json(url, params)` against the outcomes of its successive requests. */
  function Fetch(url: string, outcomes: seq<Outcome>): (Result<map<string, Json>, ClientError>, nat)
    requires MaxRetries <= |outcomes|
  {
    FetchFrom(url, outcomes, 0)
  }

  lemma {:induction false} FetchFromSettles(url: string, outcomes: seq<Outcome>, attempt: nat)
    requires attempt < MaxRetries <= |outcomes|
    ensures var (r, n) := FetchFrom(url, outcomes, attempt);
            attempt < n <= MaxRetries &&
            (forall k :: attempt <= k < n - 1 ==> Retryable(outcomes[k])) &&
            (n < MaxRetries ==> !Retryable(outcomes[n - 1])) &&
            !Attempt(url, outcomes[n - 1], n - 1).Retry? &&
            r == Settle(Attempt(url, outcomes[n - 1], n - 1))
    decreases MaxRetries - attempt
  {
    if Attempt(url, outcomes[attempt], attempt).Retry? {
      FetchFromSettles(url, outcomes, attempt + 1);
    }
  }

  /** The retry policy: at most three requests; every request before the last
      failed in a retryable way; the last one settles the call, and it is a
      retryable failure only when it was the third. */
  lemma FetchSettles(url: string, outcomes: seq<Outcome>)
    requires MaxRetries <= |outcomes|
    ensures var (r, n) := Fetch(url, outcomes);
            1 <= n <= MaxRetries &&
            (forall k :: 0 <= k < n - 1 ==> Retryable(outcomes[k])) &&
            (n < MaxRetries ==> !Retryable(outcomes[n - 1])) &&
            r == Settle(Attempt(url, outcomes[n - 1], n - 1))
  {
    FetchFromSettles(url, outcomes, 0);
  }

  /** The first request that does not ask for a retry settles the call. */
  lemma {:induction false} FetchFromSettlesAt(url: string, outcomes: seq<Outcome>, attempt: nat, m: nat)
    requires attempt <= m < MaxRetries <= |outcomes|
    requires forall k :: attempt <= k < m ==> Retryable(outcomes[k])
    requires !Attempt(url, outcomes[m], m).Retry?
    ensures FetchFrom(url, outcomes, attempt) == (Settle(Attempt(url, outcomes[m], m)), m + 1)
    decreases m - attempt
  {
    if attempt < m {
      assert Attempt(url, outcomes[attempt], attempt).Retry?;
      FetchFromSettlesAt(url, outcomes, attempt + 1, m);
    }
  }

  /** A call succeeds exactly when some request among the first three returns an
      error-free JSON body after retryable failures only, and then it returns
      that body unchanged. */
  lemma FetchSucceeds(url: string, outcomes: seq<Outcome>)
    requires MaxRetries <= |outcomes|
    ensures Fetch(url, outcomes).0.Ok? <==>
            exists n :: 0 <= n < MaxRetries && (forall k :: 0 <= k < n ==> Retryable(outcomes[k])) &&
              Attempt(url, outcomes[n], n).Return?
    ensures Fetch(url, outcomes).0.Ok? ==>
            var n := Fetch(url, outcomes).1 - 1;
            outcomes[n].Response? && Fetch(url, outcomes).0.value == outcomes[n].body.data
  {
    FetchSettles(url, outcomes);
    if exists m :: 0 <= m < MaxRetries && (forall k :: 0 <= k < m ==> Retryable(outcomes[k])) &&
                   Attempt(url, outcomes[m], m).Return? {
      var m :| 0 <= m < MaxRetries && (forall k :: 0 <= k < m ==> Retryable(outcomes[k])) &&
               Attempt(url, outcomes[m], m).Return?;
      FetchFromSettlesAt(url, outcomes, 0, m);
    }
    var n := Fetch(url, outcomes).1 - 1;
    if Fetch(url, outcomes).0.Ok? {
      assert Attempt(url, outcomes[n], n).Return?;
    }
  }

  /** 404 and 403 end the call at once, whatever comes after. */
  lemma NotFoundAndForbiddenAreImmediate(url: string, outcomes: seq<Outcome>)
    requires MaxRetries <= |outcomes|
    requires outcomes[0].Response? && outcomes[0].status in {403, 404}
    ensures Fetch(url, outcomes).1 == 1
    ensures Fetch(url, outcomes).0 == Err(if outcomes[0].status == 404 then NotFound(url) else Forbidden(url))
  {
  }

  /** Three connection failures or timeouts in a row: the last one's kind, after three requests. */
  lemma TransportFailuresExhaust(url: string, outcomes: seq<Outcome>)
    requires MaxRetries <= |outcomes|
    requires forall k :: 0 <= k < MaxRetries ==> outcomes[k].ConnectFailure? || outcomes[k].TimeoutFailure?
    ensures Fetch(url, outcomes).1 == MaxRetries
    ensures Fetch(url, outcomes).0 ==
            Err(Exhausted(if outcomes[2].ConnectFailure? then Connection else Timeout, outcomes[2].detail))
  {
    assert Retryable(outcomes[0]) && Retryable(outcomes[1]);
  }

  /** A server error followed by a good response: the second response's body, after two requests. */
  lemma ServerErrorThenSuccess(url: string, outcomes: seq<Outcome>, data: map<string, Json>)
    requires MaxRetries <= |outcomes|
    requires outcomes[0].Response? && 500 <= outcomes[0].status < 600
    requires outcomes[1] == Response(200, Decoded(data)) && "error" !in data
    ensures Fetch(url, outcomes) == (Ok(data), 2)
  {
  }

  /** Server errors on all three requests: the third one's status, after three requests. */
  lemma ServerErrorsExhaust(url: string, outcomes: seq<Outcome>)
    requires MaxRetries <= |outcomes|
    requires forall k :: 0 <= k < MaxRetries ==> outcomes[k].Response? && 500 <= outcomes[k].status < 600
    ensures Fetch(url, outcomes) == (Err(ServerError(outcomes[2].status, url)), MaxRetries)
  {
    assert Retryable(outcomes[0]) && Retryable(outcomes[1]);
  }

  /** A client error other than 404 and 403 raises at once, with its status. */
  lemma OtherStatusIsImmediate(url: string, outcomes: seq<Outcome>)
    requires MaxRetries <= |outcomes|
    requires outcomes[0].Response? && 400 <= outcomes[0].status < 500 && outcomes[0].status !in {403, 404}
    ensures Fetch(url, outcomes) == (Err(HttpError(outcomes[0].status, url)), 1)
  {
  }

  /** A successful status with a body that is not JSON raises at once. */
  lemma InvalidJsonIsImmediate(url: string, outcomes: seq<Outcome>)
    requires MaxRetries <= |outcomes|
    requires outcomes[0].Response? && !RaisesForStatus(outcomes[0].status) && outcomes[0].body.NotJson?
    ensures Fetch(url, outcomes) == (Err(RequestFailed(url, InvalidJson(outcomes[0].body.detail))), 1)
  {
  }

  /** Any other failure of the request itself raises at once. */
  lemma OtherFailureIsImmediate(url: string, outcomes: seq<Outcome>)
    requires MaxRetries <= |outcomes|
    requires outcomes[0].OtherFailure?
    ensures Fetch(url, outcomes) == (Err(RequestFailed(url, Other(outcomes[0].detail))), 1)
  {
  }

  /** A body with an `error` member is never retried: the ESRI message, or its default. */
  lemma EsriErrorIsImmediate(url: string, outcomes: seq<Outcome>, info: map<string, Json>)
    requires MaxRetries <= |outcomes|
    requires outcomes[0].Response? && !RaisesForStatus(outcomes[0].status)
    requires outcomes[0].body.Decoded? && "error" in outcomes[0].body.data
    requires outcomes[0].body.data["error"] == JObj(info)
    ensures Fetch(url, outcomes) ==
            (Err(RequestFailed(url, EsriApi(if "message" in info then info["message"] else JStr("Unknown ESRI error")))), 1)
  {
  }

  class EsriClient {
    var baseUrl: string

    /** `base_url` with every trailing `/` removed. */
    constructor(url: string)
      ensures baseUrl == TrimRight(url, '/')
      ensures |baseUrl| == 0 || baseUrl[|baseUrl| - 1] != '/'
    {
      baseUrl := TrimRight(url, '/');
    }

    /** The services root sits directly under the base URL. */
    function ServicesUrl(): (r: string)
      reads this
      ensures |r| == |baseUrl| + 14 && r[..|baseUrl|] == baseUrl && r[|baseUrl|..] == "/rest/services"
    {
      baseUrl + "/rest/services"
    }

    /** A folder's URL is the folder name one level below the services root. */
    function FolderUrl(folder: string): (r: string)
      reads this
      ensures |r| == |ServicesUrl()| + 1 + |folder|
      ensures r[..|ServicesUrl()| + 1] == ServicesUrl() + "/" && r[|ServicesUrl()| + 1..] == folder
    {
      ServicesUrl() + "/" + folder
    }

    /** A service's URL is its path below the services root. */
    function ServiceUrl(path: string): (r: string)
      reads this
      ensures |r| == |ServicesUrl()| + 1 + |path|
      ensures r[..|ServicesUrl()| + 1] == ServicesUrl() + "/" && r[|ServicesUrl()| + 1..] == path
    {
      ServicesUrl() + "/" + path
    }

    /** A layer's URL is its decimal id one level below its service's URL. */
    function LayerUrl(path: string, id: int): (r: string)
      reads this
      ensures |r| == |ServiceUrl(path)| + 1 + |IntToString(id)|
      ensures r[..|ServiceUrl(path)| + 1] == ServiceUrl(path) + "/" && r[|ServiceUrl(path)| + 1..] == IntToString(id)
    {
      ServiceUrl(path) + "/" + IntToString(id)
    }

    /** `_get_json(url, params)`: the parameters it sends, its result, and the number of requests it made. */
    method GetJson(url: string, params: Params, outcomes: seq<Outcome>)
      returns (sent: Params, r: Result<map<string, Json>, ClientError>, attempts: nat)
      requires MaxRetries <= |outcomes|
      ensures sent == WithDefaultFormat(params)
      ensures (r, attempts) == Fetch(url, outcomes)
    {
      sent := params;
      if "f" !in sent {
        sent := sent["f" := PStr("pjson")];
      }
      var attempt: nat := 0;
      while true
        invariant attempt < MaxRetries
        invariant FetchFrom(url, outcomes, attempt) == Fetch(url, outcomes)
        decreases MaxRetries - attempt
      {
        var o := outcomes[attempt];
        attempts := attempt + 1;
        if o.ConnectFailure? || o.TimeoutFailure? {
          if attempt < MaxRetries - 1 {
            attempt := attempt + 1;
            continue;
          }
          r := Err(Exhausted(if o.ConnectFailure? then Connection else Timeout, o.detail));
          return;
        }
        if o.OtherFailure? {
          r := Err(RequestFailed(url, Other(o.detail)));
          return;
        }
        if RaisesForStatus(o.status) {
          if o.status == 404 {
            r := Err(NotFound(url));
          } else if o.status == 403 {
            r := Err(Forbidden(url));
          } else if o.status >= 500 {
            if attempt < MaxRetries - 1 {
              attempt := attempt + 1;
              continue;
            }
            r := Err(ServerError(o.status, url));
          } else {
            r := Err(HttpError(o.status, url));
          }
          return;
        }
        if o.body.NotJson? {
          r := Err(RequestFailed(url, InvalidJson(o.body.detail)));
          return;
        }
        var data := o.body.data;
        if "error" in data {
          var info := data["error"];
          if !info.JObj? {
            r := Err(ErrorNotObject);
          } else {
            var message := if "message" in info.members then info.members["message"] else JStr("Unknown ESRI error");
            r := Err(RequestFailed(url, EsriApi(message)));
          }
          return;
        }
        r := Ok(data);
        return;
      }
    }
  }

  /** The last `/`-separated segment of a string. */
  function LastSegment(s: string): string
  {
    var parts := Split(s, '/');
    parts[|parts| - 1]
  }

  /** The text after the last `/` is the last segment. */
  lemma LastSegmentAfterSlash(x: string, t: string)
    ensures '/' !in t ==> LastSegment(x + "/" + t) == t
  {
    if '/' !in t {
      SplitLastPiece(x, '/', t);
    }
  }

  lemma {:induction false} SplitLastPiece(x: string, c: char, t: string)
    requires c !in t
    ensures |Split(x + [c] + t, c)| >= 2
    ensures Split(x + [c] + t, c)[|Split(x + [c] + t, c)| - 1] == t
  {
    var s := x + [c] + t;
    if |x| == 0 {
      assert s == [c] + t && s[1..] == t;
      SplitWithoutSeparator(t, c);
    } else {
      assert s[1..] == x[1..] + [c] + t;
      SplitLastPiece(x[1..], c, t);
    }
  }

  /** The URLs nest: a layer's URL is `base_url/rest/services/path/id`, and a
      service inside a folder lies under that folder's URL. */
  lemma LayerUrlNesting(client: EsriClient, folder: string, service: string, id: int)
    ensures client.LayerUrl(folder + "/" + service, id) ==
            client.baseUrl + "/rest/services/" + folder + "/" + service + "/" + IntToString(id)
    ensures client.ServiceUrl(folder + "/" + service) == client.FolderUrl(folder) + "/" + service
  {
    var services, path := client.ServicesUrl(), folder + "/" + service;
    assert services == client.baseUrl + "/rest/services";
    assert client.ServiceUrl(path) == services + "/" + path;
    assert client.FolderUrl(folder) == services + "/" + folder;
    assert services + "/" + path == services + "/" + folder + "/" + service;
    assert "/rest/services" + "/" == "/rest/services/";
    assert services + "/" == client.baseUrl + "/rest/services/";
  }

  /** The last segment of a layer's URL reads back as the layer id, and the last
      segment of a folder's URL is the folder, when it holds no `/`. */
  lemma UrlSegmentsReadBack(client: EsriClient, path: string, folder: string, id: int)
    ensures LastSegment(client.LayerUrl(path, id)) == IntToString(id)
    ensures ParseInt(LastSegment(client.LayerUrl(path, id))) == Some(id)
    ensures '/' !in folder ==> LastSegment(client.FolderUrl(folder)) == folder
  {
    IntToStringChars(id);
    assert '/' !in IntToString(id);
    SplitLastPiece(client.ServiceUrl(path), '/', IntToString(id));
    IntToStringRoundTrip(id);
    LastSegmentAfterSlash(client.ServicesUrl(), folder);
  }

  /** A single trailing slash is removed from the base URL. */
  lemma BaseUrlExample()
    ensures TrimRight("https://example.com/", '/') == "https://example.com"
  {
    var s := "https://example.com/";
    assert s[|s| - 1] == '/';
    assert s[..|s| - 1] == "https://example.com";
  }
}
