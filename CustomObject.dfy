/**
  Custom-object requests (src/Model/CustomObject.php). Two of them pass their
  map to `send` as the parameters themselves instead of under `query` or
  `body`, so `send` finds neither and transmits nothing but the token.
*/
module CustomObject {
  import opened Php
  import opened ModelBase
  import opened Requests
  import Client

  /** `manufacture`: one custom-object view per record, in order. */
  method Manufacture(records: seq<Val>) returns (objects: seq<View>)
    ensures |objects| == |records|
    ensures forall i :: 0 <= i < |records| ==> objects[i] == View(CustomObjectKind, records[i])
  {
    objects := ModelBase.Manufacture(CustomObjectKind, records);
  }

  /** `listCustomObjects`: no parameters at all when the name filter is empty, otherwise the
      names as the only query entry. */
  method ListCustomObjects(names: Val := Arr([])) returns (b: Built)
    ensures Sent(b, "GET", "rest/v1/customobjects.json", Manufactured(ObjectMetaDataKind))
    ensures Empty(names) ==> b.call.params == map[]
    ensures !Empty(names) ==> QueryOf(b) == map["names" := names]
    ensures BodyOf(b) == Client.NoBody
  {
    var params: map<string, Val> := map[];
    if !Empty(names) {
      params := map["query" := Obj(map["names" := names])];
    }
    return Sends(Call("GET", "rest/v1/customobjects.json", params, false, Manufactured(ObjectMetaDataKind)));
  }

  /** `getCustomObjects`: the lookup map (batch size and input always; token when not null,
      fields when not empty, filter type when not null) is passed as the parameters of `send`. */
  method GetCustomObjects(customObjectName: Val, fields: Val := Arr([]), filterType: Val := Null,
                          batchSize: Val := Int(300), nextPageToken: Val := Null) returns (b: Built)
    ensures Sent(b, "GET", "rest/v1/customobjects/" + ToText(customObjectName) + ".json", Manufactured(CustomObjectKind))
    ensures b.call.params.Keys <= {"batchSize", "input", "nextPageToken", "fields", "filterType"}
    ensures Has(b.call.params, "batchSize", batchSize) && Has(b.call.params, "input", customObjectName)
    ensures && PutUnlessNull(b.call.params, "nextPageToken", nextPageToken)
            && PutUnlessEmpty(b.call.params, "fields", fields)
            && PutUnlessNull(b.call.params, "filterType", filterType)
    ensures QueryOf(b) == map[] && BodyOf(b) == Client.NoBody
  {
    var body := map["batchSize" := batchSize, "input" := customObjectName];
    if !IsNull(nextPageToken) {
      body := body["nextPageToken" := nextPageToken];
    }
    if !Empty(fields) {
      body := body["fields" := fields];
    }
    if !IsNull(filterType) {
      body := body["filterType" := filterType];
    }
    return Sends(Call("GET", "rest/v1/customobjects/" + ToText(customObjectName) + ".json", body, false,
                      Manufactured(CustomObjectKind)));
  }

  /** `listCustomObjectTypes`: the state (by default `approvedWithDraft`) always, the names only
      when not empty. */
  method ListCustomObjectTypes(names: Val := Arr([]), state: Val := Str("approvedWithDraft")) returns (b: Built)
    ensures Sent(b, "GET", "rest/v1/customobjects/schema.json", Manufactured(ObjectMetaDataKind))
    ensures QueryOf(b).Keys <= {"state", "names"}
    ensures Has(QueryOf(b), "state", state) && PutUnlessEmpty(QueryOf(b), "names", names)
    ensures BodyOf(b) == Client.NoBody
  {
    var query := map["state" := state];
    if !Empty(names) {
      query := query["names" := names];
    }
    return Query("GET", "rest/v1/customobjects/schema.json", query, Manufactured(ObjectMetaDataKind));
  }

  /** `syncCustomObjects`: action and records always, the dedupe field when not null, passed as
      the parameters of `send`: although a POST, nothing is posted. */
  method SyncCustomObjects(customObjectName: Val, records: Val := Arr([]), action: Val := Str("createOrUpdate"),
                           dedupeBy: Val := Null) returns (b: Built)
    ensures Sent(b, "POST", "rest/v1/customobjects/" + ToText(customObjectName) + ".json", Manufactured(CustomObjectKind))
    ensures b.call.params.Keys <= {"action", "input", "dedupeBy"}
    ensures Has(b.call.params, "action", action) && Has(b.call.params, "input", records)
    ensures PutUnlessNull(b.call.params, "dedupeBy", dedupeBy)
    ensures QueryOf(b) == map[] && BodyOf(b) == Client.NoBody
  {
    var body := map["action" := action, "input" := records];
    if !IsNull(dedupeBy) {
      body := body["dedupeBy" := dedupeBy];
    }
    return Sends(Call("POST", "rest/v1/customobjects/" + ToText(customObjectName) + ".json", body, false,
                      Manufactured(CustomObjectKind)));
  }

  /** Parameters without a `query` entry put nothing but the token on the wire. */
  lemma OnlyTokenOnWire(params: map<string, Val>, token: Val, codec: Client.Codec)
    requires "query" !in params
    ensures Client.WireQuery(params, token, codec) == map["access_token" := Lookup(token, "access_token")]
  {
  }
}
