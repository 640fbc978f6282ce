/** The per-request capture context of the middleware: the `responseBody`
    snapshot that the replacement `send` overwrites, the `finish` step that
    turns it into the payload record, and the middleware call that sets them up. */
module Capture {
  import opened Values
  import opened Gate
  import opened Payload

  /** The parts of an Express response the middleware reads when it finishes;
      route handlers may change them while the request is in flight. Header
      names are lower case, as `res.getHeaders()` returns them. */
  class Response {
    var statusCode: int
    var headers: map<string, Value>

    constructor (statusCode: int, headers: map<string, Value>)
      ensures this.statusCode == statusCode && this.headers == headers
    {
      this.statusCode := statusCode;
      this.headers := headers;
    }
  }

  /** The request object the middleware receives. Its facts may change while
      the request is in flight (a body parser registered after the middleware
      fills in `body`, say). The exclude check uses the method as it is on
      entry, and the complete URL is fixed on entry; the record's method, body,
      query, headers, IP and protocol are read when the response finishes. */
  class IncomingRequest {
    var facts: Request

    constructor (facts: Request)
      ensures this.facts == facts
    {
      this.facts := facts;
    }
  }

  /** What happened in a capture context, in order. */
  datatype Event =
    | Forwarded(body: Value)            // the original `send` was called with `body`
    | Stored(snapshot: Option<string>)  // `responseBody` was overwritten
    | Dispatched(payload: PayloadInput) // the record went to `generatePayload`, its result to `sendPayload`

  /** The bodies handed to the original `send`, in order. */
  function Forwards(trace: seq<Event>): seq<Value>
    decreases |trace|
  {
    if trace == [] then []
    else
      var last := trace[|trace| - 1];
      Forwards(trace[..|trace| - 1]) + (if last.Forwarded? then [last.body] else [])
  }

  lemma ForwardsAppend(trace: seq<Event>, e: Event)
    ensures Forwards(trace + [e]) == Forwards(trace) + (if e.Forwarded? then [e.body] else [])
  {
  }

  /** The closure state of one captured request. */
  class CaptureContext {
    const config: CaptureConfig
    const req: IncomingRequest
    const res: Response
    const completeUrl: string
    const ext: Externals
    var responseBody: Option<string>
    ghost var trace: seq<Event>

    /** The snapshot is always the one the calls of `send` so far leave behind. */
    ghost predicate Valid()
      reads this
    {
      responseBody == Replay(Some(EmptySnapshot), Forwards(trace), ext.stringify)
    }

    /** Entering the capture path: the snapshot starts as the empty object and
        the complete URL is fixed from the request as it is on entry. */
    constructor (config: CaptureConfig, req: IncomingRequest, res: Response, ext: Externals)
      ensures Valid()
      ensures this.config == config && this.req == req && this.res == res && this.ext == ext
      ensures completeUrl == CompleteUrl(req.facts)
      ensures responseBody == Some(EmptySnapshot) && trace == []
    {
      this.config := config;
      this.req := req;
      this.res := res;
      this.ext := ext;
      completeUrl := CompleteUrl(req.facts);
      responseBody := Some(EmptySnapshot);
      trace := [];
    }

    /** The replacement `res.send`: forwards `body` to the original `send` once,
        then overwrites the snapshot, and returns the response itself. */
    method Send(body: Value) returns (r: Response)
      requires Valid()
      modifies this`responseBody, this`trace
      ensures Valid()
      ensures r == res
      ensures trace == old(trace) + [Forwarded(body), Stored(responseBody)]
      ensures Forwards(trace) == Forwards(old(trace)) + [body]
      ensures responseBody == Snapshot(body, ext.stringify)
    {
      trace := trace + [Forwarded(body)];
      ForwardsAppend(old(trace), Forwarded(body));
      if !Truthy(body) {
        responseBody := Some(EmptySnapshot);
      } else if body.Str? {
        responseBody := Some(body.s);
      } else {
        responseBody := ext.stringify(body);
      }
      ForwardsAppend(old(trace) + [Forwarded(body)], Stored(responseBody));
      trace := trace + [Stored(responseBody)];
      r := res;
    }

    /** The `finish` listener: assembles the record from the snapshot, the
        complete URL fixed on entry, and the request and response facts as they
        are at finish time, and dispatches it; when `JSON.parse` rejects the
        snapshot the listener throws and nothing is dispatched. */
    method Finish(loadTime: real) returns (outcome: Result<PayloadInput, FinishError>)
      requires Valid()
      modifies this`trace
      ensures Valid()
      ensures responseBody == old(responseBody)
      ensures outcome == Assemble(config, req.facts, completeUrl, responseBody, res.statusCode, res.headers, loadTime, ext)
      ensures outcome.Success? ==> trace == old(trace) + [Dispatched(outcome.value)]
      ensures outcome.Failure? ==> trace == old(trace)
      ensures Forwards(trace) == Forwards(old(trace))
    {
      outcome := Assemble(config, req.facts, completeUrl, responseBody, res.statusCode, res.headers, loadTime, ext);
      if outcome.Success? {
        ForwardsAppend(trace, Dispatched(outcome.value));
        trace := trace + [Dispatched(outcome.value)];
        assert Forwards(trace) == Forwards(old(trace));
      }
    }
  }

  /** One call of the middleware: a bypassed request only reaches `next`; a
      captured one gets a fresh capture context before `next` is called. */
  method Handle(mw: Middleware, req: IncomingRequest, res: Response, ext: Externals)
    returns (ctx: CaptureContext?, steps: seq<Step>)
    ensures steps == Steps(Decide(mw, req.facts.verb))
    ensures ctx == null <==> Decide(mw, req.facts.verb).Bypass?
    ensures ctx != null ==>
      && fresh(ctx) && ctx.Valid()
      && ctx.config == Decide(mw, req.facts.verb).config
      && ctx.req == req && ctx.res == res && ctx.ext == ext
      && ctx.completeUrl == CompleteUrl(req.facts)
      && ctx.responseBody == Some(EmptySnapshot) && ctx.trace == []
  {
    var decision := Decide(mw, req.facts.verb);
    match decision
    case Bypass(_) =>
      ctx, steps := null, [CallNext];
    case Capture(config) =>
      steps := [StartTimer];
      ctx := new CaptureContext(config, req, res, ext);
      steps := steps + [ReplaceSend, ListenFinish];
      steps := steps + [CallNext];
  }
}
