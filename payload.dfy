/** The pure rules of a captured request: how the `send` wrapper turns a body
    into the response snapshot, how the request body and query are merged, how
    the complete URL is built, and the record handed to `generatePayload` when
    the response finishes. */
module Payload {
  import opened Values
  import opened Gate

  /** The facts of an Express request the middleware reads. `body` and `query`
      are `None` when null or undefined. */
  datatype Request = Request(
    verb: string,
    protocol: string,
    hostname: string,
    originalUrl: string,
    ip: Option<string>,
    headers: map<string, Value>,
    body: Option<map<string, Value>>,
    query: Option<map<string, Value>>)

  /** Functions from files outside this model, taken as given:
      `JSON.stringify` (`None` when it returns undefined, as it does for an
      object whose `toJSON` returns undefined), `JSON.parse` (`None` when it
      throws) and `maskSensitiveData(payload, maskingKeys)`. */
  datatype Externals = Externals(
    stringify: Value -> Option<string>,
    parse: string -> Option<Value>,
    mask: (Value, seq<string>) -> Value)

  /** The response snapshot before `send` is first called. */
  const EmptySnapshot := "{}"

  /** The snapshot the `send` wrapper stores for `body`; `None` is the
      undefined that `JSON.stringify` may return. */
  function Snapshot(body: Value, stringify: Value -> Option<string>): (snapshot: Option<string>)
    ensures !Truthy(body) ==> snapshot == Some(EmptySnapshot)
    ensures Truthy(body) && body.Str? ==> snapshot == Some(body.s)
    ensures Truthy(body) && !body.Str? ==> snapshot == stringify(body)
  {
    if !Truthy(body) then Some(EmptySnapshot)
    else if body.Str? then Some(body.s)
    else stringify(body)
  }

  /** The snapshot after `send` was called with each of `bodies` in turn,
      starting from `snapshot`. Last write wins: only the last body sent
      decides it, and with no call it is where it started. */
  function Replay(snapshot: Option<string>, bodies: seq<Value>, stringify: Value -> Option<string>): (r: Option<string>)
    ensures bodies == [] ==> r == snapshot
    ensures bodies != [] ==> r == Snapshot(bodies[|bodies| - 1], stringify)
    decreases |bodies|
  {
    if bodies == [] then snapshot
    else Replay(Snapshot(bodies[0], stringify), bodies[1..], stringify)
  }

  /** The snapshot is never the empty string unless `JSON.stringify` produced
      one: an empty string body is stored as the empty object. */
  lemma SnapshotNeverEmpty(body: Value, stringify: Value -> Option<string>)
    requires body.Str? || stringify(body) != Some("")
    ensures Snapshot(body, stringify) != Some("")
  {
  }

  /** `responseBody ?? "{}"`: the text the `finish` listener parses. */
  function ParsedText(snapshot: Option<string>): (text: string)
    ensures snapshot.Some? ==> text == snapshot.value
    ensures snapshot.None? ==> text == EmptySnapshot
  {
    OrElse(snapshot, Some(EmptySnapshot)).value
  }

  /** `JSON.parse` reads back what `JSON.stringify` wrote for `v`. */
  predicate RoundTrips(ext: Externals, v: Value) {
    ext.stringify(v).Some? ==> ext.parse(ext.stringify(v).value) == Some(v)
  }

  /** The body the `finish` listener parses after any sequence of `send`
      calls: the empty object when there was none, when the last body was
      falsy, or when its serialisation was undefined; the parse of the last
      body's text when it was a string; the last body itself otherwise. */
  lemma ParsedSnapshotIsLastBody(bodies: seq<Value>, ext: Externals)
    requires ext.parse(EmptySnapshot) == Some(Obj(map[]))
    requires bodies != [] ==> RoundTrips(ext, bodies[|bodies| - 1])
    ensures bodies == [] ==> ext.parse(ParsedText(Replay(Some(EmptySnapshot), bodies, ext.stringify))) == Some(Obj(map[]))
    ensures bodies != [] ==>
      var last := bodies[|bodies| - 1];
      ext.parse(ParsedText(Replay(Some(EmptySnapshot), bodies, ext.stringify))) ==
        if !Truthy(last) then Some(Obj(map[]))
        else if last.Str? then ext.parse(last.s)
        else if ext.stringify(last).None? then Some(Obj(map[]))
        else Some(last)
  {
  }

  /** `req.body ?? {}` and `req.query ?? {}` */
  function Entries(fields: Option<map<string, Value>>): (entries: map<string, Value>)
    ensures fields.None? ==> entries == map[]
    ensures fields.Some? ==> entries == fields.value
  {
    if fields.Some? then fields.value else map[]
  }

  /** `{ ...body, ...query }`: every key of either, the query's value winning
      on a key both have. */
  function MergeBody(body: Option<map<string, Value>>, query: Option<map<string, Value>>): (m: map<string, Value>)
    ensures m.Keys == Entries(body).Keys + Entries(query).Keys
    ensures forall k :: k in Entries(query) ==> m[k] == Entries(query)[k]
    ensures forall k :: k in Entries(body) && k !in Entries(query) ==> m[k] == Entries(body)[k]
  {
    Entries(body) + Entries(query)
  }

  /** An absent body or query contributes nothing to the merge. */
  lemma MergeWithAbsent(fields: Option<map<string, Value>>)
    ensures MergeBody(None, fields) == Entries(fields)
    ensures MergeBody(fields, None) == Entries(fields)
  {
  }

  /** `${req.protocol}://${req.hostname}${req.originalUrl}` */
  function CompleteUrl(req: Request): (url: string)
    ensures |url| == |req.protocol| + 3 + |req.hostname| + |req.originalUrl|
    ensures url[..|req.protocol|] == req.protocol
    ensures url[|req.protocol|..|req.protocol| + 3] == "://"
    ensures url[|req.protocol| + 3..|url| - |req.originalUrl|] == req.hostname
    ensures url[|url| - |req.originalUrl|..] == req.originalUrl
  {
    req.protocol + "://" + req.hostname + req.originalUrl
  }

  /** `headers[name] ?? ""`: the user agent is `req.headers["user-agent"] ?? ""`
      and the size `res.get("content-length") ?? ""`, the response headers keyed
      in lower case. */
  function HeaderOrEmpty(headers: map<string, Value>, name: string): (v: Value)
    ensures name !in headers ==> v == Str("")
    ensures name in headers && !Nullish(headers[name]) ==> v == headers[name]
    ensures name in headers && Nullish(headers[name]) ==> v == Str("")
  {
    Coalesce(Get(headers, name), Str(""))
  }

  datatype RequestFacts = RequestFacts(body: Value, headers: Value, verb: string, userAgent: Value)

  datatype ResponseFacts = ResponseFacts(
    body: Value, headers: Value, loadTime: real, size: Value, statusCode: int)

  /** The record handed to `generatePayload`; the response part keeps the
      source's key name `reponse`. */
  datatype PayloadInput = PayloadInput(
    apiKey: string,
    projectId: string,
    ip: Option<string>,
    url: string,
    protocol: string,
    request: RequestFacts,
    reponse: ResponseFacts,
    errors: seq<Value>)

  /** `JSON.parse` threw on the snapshot: the `finish` listener throws. */
  datatype FinishError = ResponseBodyNotJson(snapshot: string)

  /** The work of the `finish` listener, from the captured facts to the record
      handed to `generatePayload`. */
  function Assemble(config: CaptureConfig, req: Request, url: string, snapshot: Option<string>,
                    statusCode: int, resHeaders: map<string, Value>, loadTime: real,
                    ext: Externals): (r: Result<PayloadInput, FinishError>)
    ensures r.Failure? <==> ext.parse(ParsedText(snapshot)).None?
    ensures r.Failure? ==> r.error == ResponseBodyNotJson(ParsedText(snapshot))
    ensures r.Success? ==>
      && r.value.apiKey == config.apiKey && r.value.projectId == config.projectId
      && r.value.ip == req.ip && r.value.url == url && r.value.protocol == req.protocol
      && r.value.request.verb == req.verb
      && r.value.request.body == ext.mask(Obj(MergeBody(req.body, req.query)), config.maskingKeys)
      && r.value.request.headers == ext.mask(Obj(req.headers), config.maskingKeys)
      && r.value.request.userAgent == HeaderOrEmpty(req.headers, "user-agent")
      && r.value.reponse.body == ext.mask(ext.parse(ParsedText(snapshot)).value, config.maskingKeys)
      && r.value.reponse.headers == ext.mask(Obj(resHeaders), config.maskingKeys)
      && r.value.reponse.loadTime == loadTime
      && r.value.reponse.size == HeaderOrEmpty(resHeaders, "content-length")
      && r.value.reponse.statusCode == statusCode
      && r.value.errors == []
  {
    var requestBody := MergeBody(req.body, req.query);
    match ext.parse(ParsedText(snapshot))
    case None => Failure(ResponseBodyNotJson(ParsedText(snapshot)))
    case Some(responseBody) =>
      Success(PayloadInput(
        config.apiKey,
        config.projectId,
        req.ip,
        url,
        req.protocol,
        RequestFacts(
          ext.mask(Obj(requestBody), config.maskingKeys),
          ext.mask(Obj(req.headers), config.maskingKeys),
          req.verb,
          HeaderOrEmpty(req.headers, "user-agent")),
        ResponseFacts(
          ext.mask(responseBody, config.maskingKeys),
          ext.mask(Obj(resHeaders), config.maskingKeys),
          loadTime,
          // `res.get` ignores case; this exact lookup relies on the names of
          // `resHeaders` being lower case, as `res.getHeaders()` returns them
          HeaderOrEmpty(resHeaders, "content-length"),
          statusCode),
        []))
  }

  /** A non-empty text body that is not JSON is stored as is, so the `finish`
      listener throws and nothing is dispatched. */
  lemma TextBodyAbortsFinish(text: string, config: CaptureConfig, req: Request, url: string,
                             statusCode: int, resHeaders: map<string, Value>, loadTime: real,
                             ext: Externals)
    requires text != "" && ext.parse(text).None?
    ensures Assemble(config, req, url, Snapshot(Str(text), ext.stringify), statusCode, resHeaders, loadTime, ext)
      == Failure(ResponseBodyNotJson(text))
  {
  }

  /** What the middleware does to the request pipeline. */
  datatype Step = StartTimer | ReplaceSend | ListenFinish | CallNext

  /** The steps of one middleware call for decision `d`. */
  function Steps(d: Decision): (steps: seq<Step>)
    ensures |steps| > 0 && steps[|steps| - 1] == CallNext
    ensures CallNext !in steps[..|steps| - 1]
    ensures ReplaceSend in steps <==> d.Capture?
    ensures ListenFinish in steps <==> d.Capture?
    ensures StartTimer in steps <==> d.Capture?
  {
    match d
    case Bypass(_) => [CallNext]
    case Capture(_) => [StartTimer, ReplaceSend, ListenFinish, CallNext]
  }
}
