/** Endpoint resolution: from a stored "API Gateway" record to the endpoint
    description the gateway dispatches on (`get_endpoint_details`). */
module Endpoints {
  import opened Values

  /** The fields of an "API Gateway" record that the gateway reads. */
  datatype GatewayRecord = GatewayRecord(apiName: string, methodType: string, allowGuest: bool)

  /** The endpoint description: the allowed request methods, the dotted
      path of the handler to resolve, and the guest-access flag. */
  datatype Endpoint = Endpoint(methods: set<string>, handler: string, allowGuest: bool)

  /** Some record of the store carries this API name. */
  ghost predicate Named(store: seq<GatewayRecord>, name: string)
  {
    exists i :: 0 <= i < |store| && store[i].apiName == name
  }

  /** Position `k` holds the first record of the store that carries `name`. */
  ghost predicate IsFirst(store: seq<GatewayRecord>, name: string, k: int)
  {
    && 0 <= k < |store|
    && store[k].apiName == name
    && forall j :: 0 <= j < k ==> store[j].apiName != name
  }

  /** The record look-up by the `api_name` field: the position of the first
      matching record, or `None` when no record matches (the case in which
      the store raises `DoesNotExistError`). */
  function FirstMatch(store: seq<GatewayRecord>, name: string): (r: Option<nat>)
    ensures r.None? <==> !Named(store, name)
    ensures r.Some? ==> IsFirst(store, name, r.value)
    decreases |store|
  {
    if |store| == 0 then None
    else if store[0].apiName == name then Some(0)
    else
      match FirstMatch(store[1..], name)
      case None => None
      case Some(k) => Some(k + 1)
  }

  /** `get_endpoint_details`: a missing record gives `None` rather than an
      exception; a found one gives a single-method endpoint whose handler
      reference is the API name that was looked up. */
  function GetEndpointDetails(store: seq<GatewayRecord>, apiName: string): (r: Option<Endpoint>)
    ensures r.None? <==> !Named(store, apiName)
    ensures r.Some? ==> r.value.handler == apiName && |r.value.methods| == 1
    ensures r.Some? ==> exists k :: IsFirst(store, apiName, k)
                                   && r.value.methods == {store[k].methodType}
                                   && r.value.allowGuest == store[k].allowGuest
  {
    match FirstMatch(store, apiName)
    case None => None
    case Some(k) =>
      var doc := store[k];
      Some(Endpoint({doc.methodType}, doc.apiName, doc.allowGuest))
  }

  /** Two positions that are both "first" for a name are the same. */
  lemma FirstIsUnique(store: seq<GatewayRecord>, name: string, k1: int, k2: int)
    requires IsFirst(store, name, k1) && IsFirst(store, name, k2)
    ensures k1 == k2
  {
  }

  /** The endpoint found is built from exactly the first matching record. */
  lemma EndpointFromFirstRecord(store: seq<GatewayRecord>, apiName: string, k: int)
    requires IsFirst(store, apiName, k)
    ensures GetEndpointDetails(store, apiName)
            == Some(Endpoint({store[k].methodType}, apiName, store[k].allowGuest))
  {
    var e := GetEndpointDetails(store, apiName).value;
    var k' :| IsFirst(store, apiName, k') && e.methods == {store[k'].methodType}
                                          && e.allowGuest == store[k'].allowGuest;
    FirstIsUnique(store, apiName, k, k');
  }

  /** A request method is admitted by a found endpoint exactly when it
      equals the record's `method_type`. */
  lemma MethodAdmittedIffRecordMethod(store: seq<GatewayRecord>, apiName: string, k: int, verb: string)
    requires IsFirst(store, apiName, k)
    ensures verb in GetEndpointDetails(store, apiName).value.methods <==> verb == store[k].methodType
  {
    EndpointFromFirstRecord(store, apiName, k);
  }
}
