/** The gateway entry point `v1`: the guard chain (404, 405, 403), the
    dispatch to the configured handler with POST requests bracketed in a
    transaction, and the mapping of the handler's outcome to a response. */
module Gateway {
  import opened Values
  import opened Endpoints
  import opened Responses

  const GUEST := "Guest"
  const POST := "POST"
  const LOG_TITLE := "Expense Tracker Error"
  const NOT_FOUND_TEXT := "Endpoint not found."
  const METHOD_TEXT := "Method not allowed."
  const GUEST_TEXT := "Guest access not allowed for this endpoint."

  /** The keyword arguments a handler is called with. */
  type Payload = map<string, Value>

  /** How a handler call ends: it returns a value, it raises
      `AuthenticationError`, or it raises any other exception, whose
      `str()` text is kept. Failing to resolve the handler's dotted path, or
      a payload whose keys do not fit the handler's parameters, is `Err`. */
  datatype Outcome = Ok(result: Value) | AuthErr | Err(text: string)

  /** Resolving a dotted handler path and calling it with a payload. */
  type Handler = (string, Payload) -> Outcome

  /** The transaction primitives, as they appear in the database's trace. */
  datatype TxEvent = Began | Committed | RolledBack | Closed

  /** An entry of the error log. */
  datatype LogEntry = LogEntry(title: string, message: string)

  /** How `v1` itself ends: it returns normally, or a `KeyError` escapes
      because the ambient response has no entry under `key`. */
  datatype Completion = Completed | KeyErrorRaised(key: string)

  /** One inbound call: the HTTP method, the session user, the `type`
      argument naming the endpoint, and the optional `data` payload. */
  datatype Request = Request(verb: string, user: string, apiType: string, data: Option<Payload>)

  /** The database connection, seen through the transaction calls made on it. */
  class Database {
    var trace: seq<TxEvent>

    constructor ()
      ensures trace == []
    {
      trace := [];
    }

    method Begin()
      modifies this
      ensures trace == old(trace) + [Began]
    {
      trace := trace + [Began];
    }

    method Commit()
      modifies this
      ensures trace == old(trace) + [Committed]
    {
      trace := trace + [Committed];
    }

    method Close()
      modifies this
      ensures trace == old(trace) + [Closed]
    {
      trace := trace + [Closed];
    }
  }

  /** The error log sink. */
  class ErrorLog {
    var entries: seq<LogEntry>

    constructor ()
      ensures entries == []
    {
      entries := [];
    }

    method LogError(title: string, message: string)
      modifies this
      ensures entries == old(entries) + [LogEntry(title, message)]
    {
      entries := entries + [LogEntry(title, message)];
    }
  }

  /** Where the guard chain stops a request, or the endpoint it admits. */
  datatype Guard = NotFound | MethodNotAllowed | GuestForbidden | Admitted(endpoint: Endpoint)

  /** The three checks of `v1`, in their order: existence, then method,
      then guest access. */
  function Guards(store: seq<GatewayRecord>, req: Request): (g: Guard)
    ensures g == NotFound <==> !Named(store, req.apiType)
    ensures g == MethodNotAllowed ==> req.verb !in GetEndpointDetails(store, req.apiType).value.methods
    ensures g == GuestForbidden ==> && req.verb in GetEndpointDetails(store, req.apiType).value.methods
                                    && !GetEndpointDetails(store, req.apiType).value.allowGuest
                                    && req.user == GUEST
    ensures g.Admitted? ==> && g.endpoint == GetEndpointDetails(store, req.apiType).value
                            && g.endpoint.handler == req.apiType
                            && req.verb in g.endpoint.methods
                            && (g.endpoint.allowGuest || req.user != GUEST)
  {
    match GetEndpointDetails(store, req.apiType)
    case None => NotFound
    case Some(e) =>
      if req.verb !in e.methods then MethodNotAllowed
      else if !e.allowGuest && req.user == GUEST then GuestForbidden
      else Admitted(e)
  }

  /** A falsy `data` argument (`None` or an empty dict) becomes `{}`. */
  function KeywordPayload(data: Option<Payload>): (p: Payload)
    ensures p == map[] <==> data.None? || data.value == map[]
    ensures data.Some? ==> p == data.value
  {
    if data.None? then map[] else data.value
  }

  /** Everything one call of `v1` leaves behind: the ambient response, the
      transaction events and log entries it adds, and how it ends. */
  datatype Run = Run(response: map<string, Value>, tx: seq<TxEvent>, log: seq<LogEntry>, completion: Completion)

  /** The transaction events of an admitted call: only POST is bracketed;
      it begins, commits when the handler returns, and always closes. */
  function Bracket(verb: string, outcome: Outcome): (tx: seq<TxEvent>)
    ensures RolledBack !in tx
    ensures tx != [] <==> verb == POST
    ensures tx != [] ==> && tx[0] == Began && tx[|tx| - 1] == Closed
                         && multiset(tx)[Began] == 1 && multiset(tx)[Closed] == 1
    ensures multiset(tx)[Committed] <= 1
    ensures Committed in tx <==> verb == POST && outcome.Ok?
  {
    if verb == POST then [Began] + (if outcome.Ok? then [Committed] else []) + [Closed] else []
  }

  /** The effect of the try block of `v1` and its handlers on a response
      dictionary `before`, for an admitted endpoint `e`. */
  function Dispatch(e: Endpoint, req: Request, handler: Handler,
                    sanitize: string -> string, traceback: string, before: map<string, Value>): (r: Run)
    ensures var outcome := handler(e.handler, KeywordPayload(req.data));
            && RolledBack !in r.tx
            && (r.log != [] <==> outcome.Err?)
            && (r.completion.KeyErrorRaised? ==> MESSAGE_KEY !in before && r.response == before && !outcome.Err?)
            && (r.completion == Completed ==>
                  && STATUS_KEY in r.response
                  && r.response[STATUS_KEY] in {Int(200), Int(500)}
                  && (r.response[STATUS_KEY] == Int(200) <==> outcome.Ok?))
  {
    var outcome := handler(e.handler, KeywordPayload(req.data));
    var tx := Bracket(req.verb, outcome);
    match outcome
    case Ok(result) =>
      if MESSAGE_KEY in before
      then Run(Written(before, 200, before[MESSAGE_KEY], result, sanitize), tx, [], Completed)
      else Run(before, tx, [], KeyErrorRaised(MESSAGE_KEY))
    case AuthErr =>
      if MESSAGE_KEY in before
      then Run(Written(before, 500, before[MESSAGE_KEY], NoneVal, sanitize), tx, [], Completed)
      else Run(before, tx, [], KeyErrorRaised(MESSAGE_KEY))
    case Err(text) =>
      Run(Written(before, 500, Str(text), NoneVal, sanitize), tx, [LogEntry(LOG_TITLE, traceback)], Completed)
  }

  /** The effect of one call of `v1` on a response dictionary `before`. */
  function Serve(store: seq<GatewayRecord>, req: Request, handler: Handler,
                 sanitize: string -> string, traceback: string, before: map<string, Value>): (r: Run)
    ensures RolledBack !in r.tx
    ensures !Guards(store, req).Admitted? ==> r.tx == [] && r.log == [] && r.completion == Completed
    ensures r.log == [] || r.log == [LogEntry(LOG_TITLE, traceback)]
    ensures r.completion == Completed ==> STATUS_KEY in r.response && MESSAGE_KEY in r.response
    ensures r.completion.KeyErrorRaised? ==> r.response == before
  {
    match Guards(store, req)
    case NotFound => Run(Written(before, 404, Str(NOT_FOUND_TEXT), NoneVal, sanitize), [], [], Completed)
    case MethodNotAllowed => Run(Written(before, 405, Str(METHOD_TEXT), NoneVal, sanitize), [], [], Completed)
    case GuestForbidden => Run(Written(before, 403, Str(GUEST_TEXT), NoneVal, sanitize), [], [], Completed)
    case Admitted(e) => Dispatch(e, req, handler, sanitize, traceback, before)
  }

  /** `v1`: the request, the session user, the record store, the handler
      resolver, the HTML text extractor and the traceback text are inputs;
      the ambient response, the database and the error log are updated. */
  method V1(store: seq<GatewayRecord>, req: Request, handler: Handler, sanitize: string -> string,
            traceback: string, response: Response, db: Database, log: ErrorLog)
    returns (completion: Completion)
    modifies response, db, log
    ensures var run := Serve(store, req, handler, sanitize, traceback, old(response.fields));
            && response.fields == run.response
            && db.trace == old(db.trace) + run.tx
            && log.entries == old(log.entries) + run.log
            && completion == run.completion
  {
    var endpoint := GetEndpointDetails(store, req.apiType);
    if endpoint.None? {
      response.GenResponse(404, Str(NOT_FOUND_TEXT), NoneVal, sanitize);
      return Completed;
    }
    if req.verb !in endpoint.value.methods {
      response.GenResponse(405, Str(METHOD_TEXT), NoneVal, sanitize);
      return Completed;
    }
    var allowGuest := endpoint.value.allowGuest;
    if !allowGuest && req.user == GUEST {
      response.GenResponse(403, Str(GUEST_TEXT), NoneVal, sanitize);
      return Completed;
    }
    completion := Invoke(endpoint.value, req, handler, sanitize, traceback, response, db, log);
  }

  /** The dispatch part of `v1`: default the payload, then the try block
      with its two exception handlers and its `finally` clause. */
  method Invoke(e: Endpoint, req: Request, handler: Handler, sanitize: string -> string,
                traceback: string, response: Response, db: Database, log: ErrorLog)
    returns (completion: Completion)
    modifies response, db, log
    ensures var run := Dispatch(e, req, handler, sanitize, traceback, old(response.fields));
            && response.fields == run.response
            && db.trace == old(db.trace) + run.tx
            && log.entries == old(log.entries) + run.log
            && completion == run.completion
  {
    var data := KeywordPayload(req.data);
    // try
    if req.verb == POST {
      db.Begin();
    }
    var outcome := handler(e.handler, data);
    match outcome {
      case Ok(result) =>
        if req.verb == POST {
          db.Commit();
        }
        // finally
        if req.verb == POST {
          db.Close();
        }
        if MESSAGE_KEY !in response.fields {
          return KeyErrorRaised(MESSAGE_KEY);
        }
        response.GenResponse(200, response.fields[MESSAGE_KEY], result, sanitize);
        return Completed;
      case AuthErr =>
        if MESSAGE_KEY in response.fields {
          response.GenResponse(500, response.fields[MESSAGE_KEY], NoneVal, sanitize);
          completion := Completed;
        } else {
          completion := KeyErrorRaised(MESSAGE_KEY);
        }
        // finally
        if req.verb == POST {
          db.Close();
        }
      case Err(text) =>
        log.LogError(LOG_TITLE, traceback);
        response.GenResponse(500, Str(text), NoneVal, sanitize);
        completion := Completed;
        // finally
        if req.verb == POST {
          db.Close();
        }
    }
  }

  // Properties of the guard chain

  /** The guards of a request whose API name has a record, stated on that
      record: the method is checked first, then guest access, and an
      admitted request gets the record's endpoint. */
  lemma GuardsOfRecord(store: seq<GatewayRecord>, req: Request, k: int)
    requires IsFirst(store, req.apiType, k)
    ensures Guards(store, req)
            == if req.verb != store[k].methodType then MethodNotAllowed
               else if !store[k].allowGuest && req.user == GUEST then GuestForbidden
               else Admitted(Endpoint({store[k].methodType}, req.apiType, store[k].allowGuest))
  {
    EndpointFromFirstRecord(store, req.apiType, k);
  }

  /** An API name without a record is answered 404 "Endpoint not found.",
      whatever the method and the user, and nothing else happens. */
  lemma UnknownEndpointIs404(store: seq<GatewayRecord>, req: Request, handler: Handler,
                             sanitize: string -> string, traceback: string, before: map<string, Value>)
    requires !Named(store, req.apiType)
    ensures var run := Serve(store, req, handler, sanitize, traceback, before);
            && run.response == Written(before, 404, Str(NOT_FOUND_TEXT), NoneVal, sanitize)
            && run.response[STATUS_KEY] == Int(404)
            && run.response[MESSAGE_KEY] == Str(NOT_FOUND_TEXT)
            && run.tx == [] && run.log == [] && run.completion == Completed
  {
  }

  /** A method other than the record's `method_type` is answered 405
      "Method not allowed.", whoever the user is. */
  lemma WrongMethodIs405(store: seq<GatewayRecord>, req: Request, handler: Handler,
                         sanitize: string -> string, traceback: string, before: map<string, Value>, k: int)
    requires IsFirst(store, req.apiType, k) && req.verb != store[k].methodType
    ensures var run := Serve(store, req, handler, sanitize, traceback, before);
            && run.response == Written(before, 405, Str(METHOD_TEXT), NoneVal, sanitize)
            && run.response[STATUS_KEY] == Int(405)
            && run.response[MESSAGE_KEY] == Str(METHOD_TEXT)
            && run.tx == [] && run.log == [] && run.completion == Completed
  {
    GuardsOfRecord(store, req, k);
  }

  /** Once the method matches, the request is refused with 403 exactly when
      the endpoint does not allow guests and the user is "Guest"; otherwise
      it is admitted. */
  lemma GuestCheck(store: seq<GatewayRecord>, req: Request, handler: Handler,
                   sanitize: string -> string, traceback: string, before: map<string, Value>, k: int)
    requires IsFirst(store, req.apiType, k) && req.verb == store[k].methodType
    ensures Guards(store, req) == GuestForbidden <==> !store[k].allowGuest && req.user == GUEST
    ensures Guards(store, req).Admitted? <==> store[k].allowGuest || req.user != GUEST
    ensures Guards(store, req) == GuestForbidden ==>
              var run := Serve(store, req, handler, sanitize, traceback, before);
              && run.response == Written(before, 403, Str(GUEST_TEXT), NoneVal, sanitize)
              && run.response[STATUS_KEY] == Int(403)
              && run.response[MESSAGE_KEY] == Str(GUEST_TEXT)
              && run.tx == [] && run.log == [] && run.completion == Completed
  {
    GuardsOfRecord(store, req, k);
  }

  /** A refused request never reaches the handler (its result does not
      depend on it), opens no transaction, logs nothing, and sets one of the
      three guard statuses. */
  lemma RefusedRequestIsInert(store: seq<GatewayRecord>, req: Request, handler: Handler, other: Handler,
                              sanitize: string -> string, traceback: string, before: map<string, Value>)
    requires !Guards(store, req).Admitted?
    ensures var run := Serve(store, req, handler, sanitize, traceback, before);
            && run == Serve(store, req, other, sanitize, traceback, before)
            && run.tx == [] && run.log == [] && run.completion == Completed
            && run.response[STATUS_KEY] in {Int(403), Int(404), Int(405)}
            && (DATA_KEY in run.response <==> DATA_KEY in before)
            && (DATA_KEY in before ==> run.response[DATA_KEY] == before[DATA_KEY])
  {
  }

  // Properties of the dispatch

  /** An admitted request calls the handler named by the API name itself,
      with the `data` payload (or `{}`) as keyword arguments, and with
      nothing else: two handlers that agree on that one call give the same
      result. */
  lemma HandlerCalledWithPayload(store: seq<GatewayRecord>, req: Request, handler: Handler, other: Handler,
                                 sanitize: string -> string, traceback: string, before: map<string, Value>)
    requires Guards(store, req).Admitted?
    requires handler(req.apiType, KeywordPayload(req.data)) == other(req.apiType, KeywordPayload(req.data))
    ensures Serve(store, req, handler, sanitize, traceback, before)
            == Serve(store, req, other, sanitize, traceback, before)
  {
    assert Guards(store, req).endpoint.handler == req.apiType;
  }

  /** The transaction events of a whole call: a refused request has none;
      an admitted one has the bracketing of its handler call. */
  lemma TransactionBracketing(store: seq<GatewayRecord>, req: Request, handler: Handler,
                              sanitize: string -> string, traceback: string, before: map<string, Value>)
    ensures var run := Serve(store, req, handler, sanitize, traceback, before);
            && (!Guards(store, req).Admitted? ==> run.tx == [])
            && (Guards(store, req).Admitted? ==> run.tx == Bracket(req.verb, handler(req.apiType, KeywordPayload(req.data))))
            && RolledBack !in run.tx
            && (run.tx != [] <==> Guards(store, req).Admitted? && req.verb == POST)
            && (Committed in run.tx <==> && Guards(store, req).Admitted? && req.verb == POST
                                          && handler(req.apiType, KeywordPayload(req.data)).Ok?)
  {
    if Guards(store, req).Admitted? {
      assert Guards(store, req).endpoint.handler == req.apiType;
    }
  }

  // Properties of the outcome mapping

  /** A handler that returns normally gives status 200 with the ambient
      message left as it was; `data` becomes the result unless the result
      is `None`. Without an ambient message the read raises `KeyError` and
      the response is left untouched. */
  lemma SuccessResponse(store: seq<GatewayRecord>, req: Request, handler: Handler,
                        sanitize: string -> string, traceback: string, before: map<string, Value>)
    requires Guards(store, req).Admitted?
    requires handler(req.apiType, KeywordPayload(req.data)).Ok?
    ensures var run := Serve(store, req, handler, sanitize, traceback, before);
            var result := handler(req.apiType, KeywordPayload(req.data)).result;
            && run.log == []
            && (MESSAGE_KEY in before ==>
                  && run.completion == Completed
                  && run.response[STATUS_KEY] == Int(200)
                  && run.response[MESSAGE_KEY] == before[MESSAGE_KEY]
                  && (result != NoneVal ==> run.response[DATA_KEY] == result)
                  && (result == NoneVal ==> (DATA_KEY in run.response <==> DATA_KEY in before))
                  && (result == NoneVal && DATA_KEY in before ==> run.response[DATA_KEY] == before[DATA_KEY]))
            && (MESSAGE_KEY !in before ==> run.completion == KeyErrorRaised(MESSAGE_KEY) && run.response == before)
  {
    assert Guards(store, req).endpoint.handler == req.apiType;
  }

  /** `AuthenticationError` gives status 500 with the ambient message (made
      text and sanitised), logs nothing and writes no data. */
  lemma AuthErrorResponse(store: seq<GatewayRecord>, req: Request, handler: Handler,
                          sanitize: string -> string, traceback: string, before: map<string, Value>)
    requires Guards(store, req).Admitted?
    requires handler(req.apiType, KeywordPayload(req.data)) == AuthErr
    ensures var run := Serve(store, req, handler, sanitize, traceback, before);
            && run.log == []
            && (MESSAGE_KEY in before ==>
                  && run.completion == Completed
                  && run.response[STATUS_KEY] == Int(500)
                  && run.response[MESSAGE_KEY] == Str(sanitize(PyStr(before[MESSAGE_KEY])))
                  && (DATA_KEY in run.response <==> DATA_KEY in before)
                  && (DATA_KEY in before ==> run.response[DATA_KEY] == before[DATA_KEY]))
            && (MESSAGE_KEY !in before ==> run.completion == KeyErrorRaised(MESSAGE_KEY) && run.response == before)
  {
    assert Guards(store, req).endpoint.handler == req.apiType;
  }

  /** Any other exception adds exactly one log entry titled "Expense Tracker
      Error" and gives status 500 with the sanitised exception text. */
  lemma HandlerErrorResponse(store: seq<GatewayRecord>, req: Request, handler: Handler,
                             sanitize: string -> string, traceback: string, before: map<string, Value>)
    requires Guards(store, req).Admitted?
    requires handler(req.apiType, KeywordPayload(req.data)).Err?
    ensures var run := Serve(store, req, handler, sanitize, traceback, before);
            var text := handler(req.apiType, KeywordPayload(req.data)).text;
            && run.log == [LogEntry(LOG_TITLE, traceback)]
            && run.completion == Completed
            && run.response[STATUS_KEY] == Int(500)
            && run.response[MESSAGE_KEY] == Str(sanitize(text))
            && (DATA_KEY in run.response <==> DATA_KEY in before)
            && (DATA_KEY in before ==> run.response[DATA_KEY] == before[DATA_KEY])
  {
    assert Guards(store, req).endpoint.handler == req.apiType;
  }

  /** Every call that returns sets one of the five statuses, and 200 means
      exactly that the request was admitted and the handler returned. A
      `KeyError` escapes only after an admitted call that did not raise a
      generic exception, and leaves the response as it was. */
  lemma StatusTaxonomy(store: seq<GatewayRecord>, req: Request, handler: Handler,
                       sanitize: string -> string, traceback: string, before: map<string, Value>)
    ensures var run := Serve(store, req, handler, sanitize, traceback, before);
            && (run.completion == Completed ==>
                  && STATUS_KEY in run.response
                  && run.response[STATUS_KEY] in {Int(200), Int(403), Int(404), Int(405), Int(500)}
                  && (run.response[STATUS_KEY] == Int(200) <==>
                        Guards(store, req).Admitted? && handler(req.apiType, KeywordPayload(req.data)).Ok?))
            && (run.completion.KeyErrorRaised? ==>
                  && Guards(store, req).Admitted? && MESSAGE_KEY !in before && run.response == before
                  && !handler(req.apiType, KeywordPayload(req.data)).Err?)
  {
    if Guards(store, req).Admitted? {
      assert Guards(store, req).endpoint.handler == req.apiType;
    }
  }

  /** The worked cases: a guest-open GET endpoint "ping" whose handler
      returns "pong", called with GET, with POST, and one that raises. */
  lemma PingExamples(sanitize: string -> string, traceback: string)
    requires sanitize("boom") == "boom"
    ensures var store := [GatewayRecord("ping", "GET", true)];
            var before := map[MESSAGE_KEY := Str("")];
            var pong: Handler := (f, p) => if f == "ping" then Ok(Str("pong")) else Err("no such handler");
            var boom: Handler := (f, p) => Err("boom");
            var get := Serve(store, Request("GET", GUEST, "ping", None), pong, sanitize, traceback, before);
            var post := Serve(store, Request("POST", GUEST, "ping", None), pong, sanitize, traceback, before);
            var fail := Serve(store, Request("GET", "alice", "ping", None), boom, sanitize, traceback, before);
            && get.response == map[MESSAGE_KEY := Str(""), STATUS_KEY := Int(200), DATA_KEY := Str("pong")]
            && post.response == map[MESSAGE_KEY := Str(METHOD_TEXT), STATUS_KEY := Int(405)]
            && fail.response == map[MESSAGE_KEY := Str("boom"), STATUS_KEY := Int(500)]
            && fail.log == [LogEntry(LOG_TITLE, traceback)]
  {
    var store := [GatewayRecord("ping", "GET", true)];
    assert IsFirst(store, "ping", 0);
    EndpointFromFirstRecord(store, "ping", 0);
  }
}
