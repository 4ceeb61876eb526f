/** The response writer `gen_response`, which updates the ambient response
    dictionary in place. */
module Responses {
  import opened Values

  const STATUS_KEY := "http_status_code"
  const MESSAGE_KEY := "message"
  const DATA_KEY := "data"

  /** The dictionary after `gen_response(status, message, data)`: the status
      is always set; the message is set, passed through `str()` and the HTML
      text extractor `sanitize` only when the status is 500; `data` is set
      only when it is not `None`; every other key keeps its entry. */
  function Written(before: map<string, Value>, status: int, message: Value, data: Value,
                   sanitize: string -> string): (after: map<string, Value>)
    ensures STATUS_KEY in after && after[STATUS_KEY] == Int(status)
    ensures MESSAGE_KEY in after
    ensures status == 500 ==> after[MESSAGE_KEY] == Str(sanitize(PyStr(message)))
    ensures status != 500 ==> after[MESSAGE_KEY] == message
    ensures data != NoneVal ==> DATA_KEY in after && after[DATA_KEY] == data
    ensures forall k :: k in before && k != STATUS_KEY && k != MESSAGE_KEY && (k != DATA_KEY || data == NoneVal)
                        ==> k in after && after[k] == before[k]
    ensures forall k :: k in after ==> k in before || k == STATUS_KEY || k == MESSAGE_KEY || (k == DATA_KEY && data != NoneVal)
  {
    var withStatus := before[STATUS_KEY := Int(status)];
    var withMessage := withStatus[MESSAGE_KEY := if status == 500 then Str(sanitize(PyStr(message))) else message];
    if data != NoneVal then withMessage[DATA_KEY := data] else withMessage
  }

  /** Writing the same response twice is the same as writing it once. */
  lemma WrittenIdempotent(before: map<string, Value>, status: int, message: Value, data: Value,
                          sanitize: string -> string)
    ensures Written(Written(before, status, message, data, sanitize), status, message, data, sanitize)
            == Written(before, status, message, data, sanitize)
  {
    var once := Written(before, status, message, data, sanitize);
    var twice := Written(once, status, message, data, sanitize);
    assert twice.Keys == once.Keys;
    assert forall k :: k in twice ==> twice[k] == once[k];
  }

  /** The ambient response object (`frappe.response`). */
  class Response {
    var fields: map<string, Value>

    constructor (initial: map<string, Value>)
      ensures fields == initial
    {
      fields := initial;
    }

    /** `gen_response`: updates the dictionary key by key. */
    method GenResponse(status: int, message: Value, data: Value, sanitize: string -> string)
      modifies this
      ensures fields == Written(old(fields), status, message, data, sanitize)
    {
      fields := fields[STATUS_KEY := Int(status)];
      if status == 500 {
        fields := fields[MESSAGE_KEY := Str(sanitize(PyStr(message)))];
      } else {
        fields := fields[MESSAGE_KEY := message];
      }
      if data != NoneVal {
        fields := fields[DATA_KEY := data];
      }
    }
  }
}
