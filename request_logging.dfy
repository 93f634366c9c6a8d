/** The request side of app/monitoring/logging.py: the `LoggingMiddleware`
    event sequence around each request, and the structlog processors that
    enrich every event before it is rendered.

    A request's correlation token and the id that `request_id_processor`
    puts on each event are minted independently; the processor overwrites
    the token, so the rendered events of one request do not share an id.
    The model keeps that behaviour and states it as a lemma. */
module RequestLogging {
  import opened Wrappers
  import opened Json

  /** What the middleware reads from a request; `client` is `None` when the
      server supplied no client address. */
  datatype Request = Request(httpMethod: string, path: string, client: Option<string>)

  datatype Response = Response(statusCode: int, body: string)

  /** A raised exception: its class name (`type(e).__name__`), `str(e)`,
      and whether its class derives from `Exception` (false for the other
      `BaseException` subclasses such as `CancelledError`,
      `KeyboardInterrupt` and `SystemExit`). */
  datatype Failure = Failure(typeName: string, message: string, isException: bool)

  /** What `call_next(request)` ends in. */
  datatype HandlerOutcome = Returned(response: Response) | Raised(failure: Failure)

  /** One structured event: its name, its level and its keyword fields. */
  datatype Event = Event(name: string, level: string, fields: Object)

  /** What `dispatch` ends in: the handler's response, the handler's own
      exception re-raised, or an exception raised by the middleware itself
      before the handler ran. */
  datatype Outcome = Responded(response: Response) | Reraised(failure: Failure) | Crashed(failure: Failure)

  datatype Dispatched = Dispatched(events: seq<Event>, outcome: Outcome)

  /** `dispatch`: `token` is the freshly minted `uuid4()` string and
      `handler` what the wrapped application does with the request. Only
      an `Exception` is caught and logged as `request_failed`; any other
      `BaseException` passes through after the start event alone. */
  function Dispatch(token: string, request: Request, handler: HandlerOutcome): (d: Dispatched)
    ensures request.client.None? ==> d == Dispatched([], Crashed(Failure("AttributeError", "'NoneType' object has no attribute 'host'", true)))
    ensures request.client.Some? ==>
      && |d.events| >= 1
      && d.events[0] == Event("request_started", "info",
           map["request_id" := JStr(token), "method" := JStr(request.httpMethod),
               "path" := JStr(request.path), "client_ip" := JStr(request.client.value)])
    ensures request.client.Some? && (handler.Returned? || handler.failure.isException) ==>
      && |d.events| == 2
      && "request_id" in d.events[1].fields && d.events[1].fields["request_id"] == JStr(token)
    ensures request.client.Some? && handler.Raised? && !handler.failure.isException ==>
      && |d.events| == 1
      && d.outcome == Reraised(handler.failure)
    ensures request.client.Some? && handler.Returned? ==>
      && d.events[1] == Event("request_completed", "info",
           map["request_id" := JStr(token), "status_code" := JInt(handler.response.statusCode)])
      && d.outcome == Responded(handler.response)
    ensures request.client.Some? && handler.Raised? && handler.failure.isException ==>
      && d.events[1] == Event("request_failed", "error",
           map["request_id" := JStr(token), "error" := JStr(handler.failure.message),
               "error_type" := JStr(handler.failure.typeName)])
      && d.outcome == Reraised(handler.failure)
  {
    match request.client
    case None =>
      Dispatched([], Crashed(Failure("AttributeError", "'NoneType' object has no attribute 'host'", true)))
    case Some(host) =>
      var started := Event("request_started", "info",
        map["request_id" := JStr(token), "method" := JStr(request.httpMethod),
            "path" := JStr(request.path), "client_ip" := JStr(host)]);
      match handler
      case Returned(response) =>
        Dispatched([started, Event("request_completed", "info",
          map["request_id" := JStr(token), "status_code" := JInt(response.statusCode)])], Responded(response))
      case Raised(failure) =>
        if !failure.isException then Dispatched([started], Reraised(failure))
        else Dispatched([started, Event("request_failed", "error",
          map["request_id" := JStr(token), "error" := JStr(failure.message), "error_type" := JStr(failure.typeName)])],
          Reraised(failure))
  }

  /** A completed request logs exactly a start and a completion; only the
      second carries `status_code`; the response is passed through. A request
      whose handler raises an `Exception` logs a start and a failure; one
      whose handler raises another `BaseException` logs only the start. In
      both cases the very same exception reaches the caller. */
  lemma DispatchSequence(token: string, request: Request, handler: HandlerOutcome)
    requires request.client.Some?
    ensures var d := Dispatch(token, request, handler);
      && EventNames(d.events)
         == (if handler.Returned? then ["request_started", "request_completed"]
             else if handler.failure.isException then ["request_started", "request_failed"]
             else ["request_started"])
      && "status_code" !in d.events[0].fields
      && (|d.events| == 2 ==> (handler.Returned? <==> "status_code" in d.events[1].fields))
      && (handler.Returned? ==> d.outcome.Responded? && d.outcome.response == handler.response)
      && (handler.Raised? ==> d.outcome.Reraised? && d.outcome.failure == handler.failure)
  {
  }

  function EventNames(events: seq<Event>): seq<string>
  {
    seq(|events|, i requires 0 <= i < |events| => events[i].name)
  }

  /** `LokiProcessor.__call__`: the event dictionary is returned untouched. */
  function LokiProcessor(loggerName: string, methodName: string, eventDict: Object): (r: Object)
    ensures r.Keys == eventDict.Keys && forall k :: k in r ==> r[k] == eventDict[k]
  {
    eventDict
  }

  /** `request_id_processor`: `request_id` is set to the freshly minted id,
      replacing whatever the caller passed; every other key is kept. */
  function RequestIdProcessor(eventDict: Object, freshId: string): (r: Object)
    ensures r.Keys == eventDict.Keys + {"request_id"}
    ensures r["request_id"] == JStr(freshId)
    ensures forall k :: k in eventDict && k != "request_id" ==> r[k] == eventDict[k]
  {
    eventDict["request_id" := JStr(freshId)]
  }

  /** The event dictionary after the configured processor chain, just
      before JSON rendering: the keyword fields plus `event`, `logger`,
      `level` and `timestamp`, then `request_id_processor`. */
  function Enrich(e: Event, loggerName: string, isoTime: string, freshId: string): (r: Object)
    ensures r.Keys == e.fields.Keys + {"event", "logger", "level", "timestamp", "request_id"}
    ensures r["event"] == JStr(e.name) && r["logger"] == JStr(loggerName)
    ensures r["level"] == JStr(e.level) && r["timestamp"] == JStr(isoTime)
    ensures r["request_id"] == JStr(freshId)
    ensures forall k :: k in e.fields && k !in {"event", "logger", "level", "timestamp", "request_id"} ==> k in r && r[k] == e.fields[k]
  {
    var d := e.fields["event" := JStr(e.name)];
    var d := d["logger" := JStr(loggerName)];
    var d := d["level" := JStr(e.level)];
    var d := d["timestamp" := JStr(isoTime)];
    RequestIdProcessor(d, freshId)
  }

  /** The two rendered events of one request carry the two ids minted by
      the processor, not the middleware's token: when those ids differ the
      events cannot be correlated, and the token appears in neither. (A
      request ended by a non-`Exception` logs one event only.) */
  lemma CorrelationLost(token: string, request: Request, handler: HandlerOutcome,
                        isoTime0: string, isoTime1: string, id0: string, id1: string)
    requires request.client.Some?
    requires handler.Returned? || handler.failure.isException
    requires id0 != id1 && id0 != token && id1 != token
    ensures var d := Dispatch(token, request, handler);
      var r0 := Enrich(d.events[0], "api", isoTime0, id0);
      var r1 := Enrich(d.events[1], "api", isoTime1, id1);
      && d.events[0].fields["request_id"] == d.events[1].fields["request_id"] == JStr(token)
      && r0["request_id"] != r1["request_id"]
      && r0["request_id"] != JStr(token) && r1["request_id"] != JStr(token)
  {
  }
}
