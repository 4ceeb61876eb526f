# API gateway dispatch

A model of the generic HTTP entry point `v1` of the matrimonial Frappe app and
of its two helpers. A call names an endpoint by its API name (`type`). The
gateway looks up the "API Gateway" record of that name and checks three
guards in a fixed order: the endpoint exists (else 404), the request method
is the one configured (else 405), and a guest may call it (else 403). It
then calls the configured handler with the `data` payload as keyword
arguments. A POST call is bracketed in a database transaction: begin, commit
on a normal return, close on every exit. It has no rollback. The outcome is
written into the ambient response dictionary by `gen_response`.

Modules:

- `Values` (values.dfy): `Option`, the Python values the response holds
  (`Value`) and Python's `str()` on them (`PyStr`).
- `Endpoints` (endpoints.dfy): the record store as a sequence of
  `GatewayRecord`s, the look-up by `api_name` (`FirstMatch`) and
  `get_endpoint_details` (`GetEndpointDetails`).
- `Responses` (responses.dfy): `Written`, the dictionary `gen_response`
  leaves behind, and the `Response` class whose `GenResponse` method updates
  its `fields` map in place key by key.
- `Gateway` (gateway.dfy): handler outcomes, the `Database` (a trace of
  transaction events) and `ErrorLog` classes, the guard chain `Guards`, the
  transaction bracketing `Bracket`, the specifications `Serve` of one call
  and `Dispatch` of its try block, the imperative `V1` and `Invoke` proved
  against them, and the lemmas.

Inputs that come from outside the code are parameters. These are the record
store, the request method, the session user, the handler resolver
(`frappe.get_attr` followed by the call), the HTML text extractor
(BeautifulSoup's `get_text`, an arbitrary `string -> string` function), and
the traceback text.

The request method and the user are plain strings, compared exactly as the
code compares them. The guest is the user `"Guest"`. The look-up returns the
first record whose `api_name` equals the requested name. So the handler
reference, which the code takes from the record's `api_name`, is provably the
requested name. Reading `frappe.response["message"]` when the response has no
`message` key raises `KeyError` in the code. The model keeps that path as the
completion `KeyErrorRaised`: the response is left as it was, and for POST the
transaction is still closed.

## Model

| member | source | states |
|---|---|---|
| `Values.PyStr` | matrimonial/api/__init__.py:80 | `str()` of a string is the string itself, of `None` is "None", of another object its text, and of an integer its canonical decimal numeral (built by `Digits`): '-' exactly when negative, then one or more digits with no leading zero |
| `Values.DigitsValue` | matrimonial/api/__init__.py:80 | the decimal digits printed for a natural number denote that number |
| `Values.PyStrIntRoundTrip` | matrimonial/api/__init__.py:80 | in the model, `int(str(n)) == n` for every integer, so the numeral `str()` gives denotes the integer (Python's digit limit on the conversion is not modelled) |
| `Endpoints.FirstMatch` | matrimonial/api/__init__.py:8-9 | no position exactly when no record carries the name; otherwise the position of the first record that does |
| `Endpoints.GetEndpointDetails` | matrimonial/api/__init__.py:4-17 | `None` exactly when no record carries the API name (no exception); otherwise the methods are the singleton `{method_type}` of the first matching record, the handler reference is the API name, and the guest flag is that record's |
| `Endpoints.EndpointFromFirstRecord` | matrimonial/api/__init__.py:9-14 | the endpoint found is exactly the one built from the first matching record |
| `Endpoints.MethodAdmittedIffRecordMethod` | matrimonial/api/__init__.py:11 | a method is in a found endpoint's set exactly when it equals the record's `method_type` |
| `Responses.Written` | matrimonial/api/__init__.py:77-84 | the status is always set; the message is set, and made text and sanitised only when the status is 500; `data` is set only when it is not `None`; every other key keeps its value and no other key appears |
| `Responses.WrittenIdempotent` | matrimonial/api/__init__.py:77-84 | writing the same response twice, for any status including 500, leaves the same dictionary as writing it once |
| `Responses.Response.GenResponse` | matrimonial/api/__init__.py:77-84 | updates the response in place to exactly `Written` of the old dictionary |
| `Gateway.Database.Begin` | matrimonial/api/__init__.py:52 | appends one `Began` event to the transaction trace |
| `Gateway.Database.Commit` | matrimonial/api/__init__.py:59 | appends one `Committed` event to the transaction trace |
| `Gateway.Database.Close` | matrimonial/api/__init__.py:68 | appends one `Closed` event to the transaction trace |
| `Gateway.ErrorLog.LogError` | matrimonial/api/__init__.py:63 | appends exactly one `(title, message)` entry to the log |
| `Gateway.Guards` | matrimonial/api/__init__.py:26-40 | refuses with "not found" exactly when no record carries the API name; "method not allowed" only for a method outside the endpoint's set; "guest forbidden" only for the user "Guest" on a non-guest endpoint whose method matched; an admitted request gets the found endpoint, whose handler reference is the API name, whose set holds the method, and which allows guests or has a non-guest user |
| `Gateway.Bracket` | matrimonial/api/__init__.py:50-68 | only POST is bracketed; it begins first and closes last, each exactly once; it commits at most once, and exactly when the handler returns normally; it never rolls back |
| `Gateway.KeywordPayload` | matrimonial/api/__init__.py:42-43 | the payload is empty exactly when `data` is falsy (`None` or `{}`), and a given `data` is passed on unchanged |
| `Gateway.Dispatch` | matrimonial/api/__init__.py:42-68 | for an admitted endpoint: never a rollback; a log entry exactly when the handler raises a generic exception; a `KeyError` only without an ambient message, leaving the response as it was; a normal return sets status 200 or 500, and 200 exactly when the handler returned |
| `Gateway.Serve` | matrimonial/api/__init__.py:21-75 | never a rollback; a refused request has no transaction events, no log entry and returns normally; the log gets no entry or the one "Expense Tracker Error" entry; a normal return sets a status and a message; a `KeyError` leaves the response as it was |
| `Gateway.V1` | matrimonial/api/__init__.py:21-75 | the new response, the events added to the transaction trace, the entries added to the log and the way the call ends are exactly those of `Serve` for the old response |
| `Gateway.Invoke` | matrimonial/api/__init__.py:42-68 | the new response, transaction events, log entries and completion of the try block with its handlers and `finally` clause are exactly those of `Dispatch` for the old response |
| `Gateway.GuardsOfRecord` | matrimonial/api/__init__.py:26-40 | for a name with a record: a method other than the record's is refused first, then a guest on a non-guest endpoint, and anything else is admitted with the record's endpoint |
| `Gateway.UnknownEndpointIs404` | matrimonial/api/__init__.py:26-30 | a name without a record gets 404 "Endpoint not found." for every method and user, with no transaction, no log entry and a normal return |
| `Gateway.WrongMethodIs405` | matrimonial/api/__init__.py:32-34 | a found endpoint called with another method gets 405 "Method not allowed." for every user, with no transaction and no log entry |
| `Gateway.GuestCheck` | matrimonial/api/__init__.py:36-40 | once the method matches, 403 happens exactly when guests are not allowed and the user is "Guest", and admission exactly otherwise |
| `Gateway.RefusedRequestIsInert` | matrimonial/api/__init__.py:28-40 | a refused request does not depend on the handler, adds no transaction event and no log entry, returns normally with status 403, 404 or 405, and leaves `data` as it was (present with the same value, or absent) |
| `Gateway.HandlerCalledWithPayload` | matrimonial/api/__init__.py:42-56 | an admitted call depends on the handler only through its one call on the API name with the keyword payload |
| `Gateway.TransactionBracketing` | matrimonial/api/__init__.py:28-68 | a refused request has no transaction events, an admitted one has the bracketing of its handler call, and none has a rollback |
| `Gateway.SuccessResponse` | matrimonial/api/__init__.py:70-74 | a normal return gives 200 with the ambient message unchanged and `data` set to the result, or left as it was when the result is `None`, and no log entry; with no ambient message a `KeyError` escapes and the response is untouched |
| `Gateway.AuthErrorResponse` | matrimonial/api/__init__.py:60-61 | `AuthenticationError` gives 500 with the ambient message made text and sanitised, leaves `data` as it was (present with the same value, or absent) and logs nothing; with no ambient message a `KeyError` escapes |
| `Gateway.HandlerErrorResponse` | matrimonial/api/__init__.py:62-65 | any other exception adds exactly one log entry titled "Expense Tracker Error" and gives 500 with the sanitised exception text, leaving `data` as it was |
| `Gateway.StatusTaxonomy` | matrimonial/api/__init__.py:26-75 | every normal return sets status 200, 403, 404, 405 or 500, and 200 exactly when the request was admitted and the handler returned; a `KeyError` escapes only on an admitted call that did not raise a generic exception |
| `Gateway.PingExamples` | matrimonial/api/__init__.py:26-75 | on a guest-open GET endpoint "ping" whose handler returns "pong": GET gives 200 with data "pong", POST gives 405, and a handler raising "boom" gives 500 "boom" with one log entry |

## Left out

- The record store is a sequence, and the look-up takes the first record whose `api_name` equals the name by exact string equality. The ORM query, the order the database returns rows in and its collation rules are not modelled.
- The Pydantic `model` branch (lines 46-48) is not modelled. `get_endpoint_details` never sets a `"model"` key, so the branch is dead, and the handler is always called with the payload as keyword arguments.
- `frappe.get_attr` and the handler bodies become one total function from the handler path and the payload to an outcome. A path that does not resolve, or a payload whose keys do not fit the handler's parameters, is an `Err` outcome.
- The handler's own writes to `frappe.response`, to the database and to the error log are not modelled. The ambient message read after the handler is the one from before the call.
- `frappe.db.begin`, `commit` and `close` and `frappe.log_error` never raise in the model. In the code, an exception from `begin` or `commit` would take the generic error path.
- `frappe.get_traceback()` is an input string. Only the log entry's title is fixed by the code.
- BeautifulSoup's `get_text` is an arbitrary function on strings. What it strips from HTML is not modelled.
- `Values.PyStr`, `Values.PyStrIntRoundTrip`: Python's limit on integer-string conversion (4300 digits by default, `sys.get_int_max_str_digits()`) and the `ValueError` it raises are not modelled. In the code, `str(message)` on such an integer ambient message after an `AuthenticationError` would raise and escape `v1` after the `finally` closes the transaction; the model instead writes status 500 with the numeral.
- Python's `str()` is modelled for `None`, integers and strings. Any other object is carried with its `str()` text.
- The `@frappe.whitelist` and `@log()` decorators are not modelled, nor is the HTTP method list they allow. The extra `**kwargs` are ignored, as in the code.
- HTTP request and session objects, database connection semantics and concurrency across requests belong to the host framework and are not modelled.
- The order of writes across the response, the database and the log is not stated. Each object's own sequence of updates is stated.
