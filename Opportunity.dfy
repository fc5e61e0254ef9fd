/**
  Opportunity and opportunity-role requests of src/Model/Opportunity.php. Their
  paths carry their own `rest/v1/` prefix, and their answers are viewed through
  `manufacture`.
*/
module Opportunity {
  import opened Php
  import opened ModelBase
  import opened Requests
  import Client
  import Environment

  const BatchSizeMessage: string := "Batch size cannot exceed 300"

  /** `getOpportunityFieldByName`: the field name goes into the path. */
  function GetOpportunityFieldByName(fieldApiName: Val): (b: Built)
    ensures Sent(b, "GET", "rest/v1/opportunities/schema/fields/" + ToText(fieldApiName) + ".json", Manufactured(LeadFieldKind))
    ensures QueryOf(b) == map[] && BodyOf(b) == Client.NoBody
  {
    Bare("GET", "rest/v1/opportunities/schema/fields/" + ToText(fieldApiName) + ".json", Manufactured(LeadFieldKind))
  }

  /** `getOpportunityFields`: a batch above 300 is refused before any request; the page token
      is added only when it is not null. */
  method GetOpportunityFields(batchSize: int := 300, nextPageToken: Val := Null) returns (b: Built)
    ensures b.Rejected? <==> batchSize > 300
    ensures b.Rejected? ==> b.message == BatchSizeMessage
    ensures batchSize <= 300 ==> Sent(b, "GET", "rest/v1/opportunities/schema/fields.json", Manufactured(LeadFieldKind))
    ensures batchSize <= 300 ==>
              && QueryOf(b).Keys <= {"batchSize", "nextPageToken"}
              && Has(QueryOf(b), "batchSize", Int(batchSize))
              && PutUnlessNull(QueryOf(b), "nextPageToken", nextPageToken)
  {
    if batchSize > 300 {
      return Rejected(BatchSizeMessage);
    }
    var query := map["batchSize" := Int(batchSize)];
    if !IsNull(nextPageToken) {
      query := query["nextPageToken" := nextPageToken];
    }
    return Query("GET", "rest/v1/opportunities/schema/fields.json", query, Manufactured(LeadFieldKind));
  }

  /** `getOpportunities`: the lookup object is passed as a body of a GET, so `send` drops it and
      nothing but the token reaches the server. */
  method GetOpportunities(filterType: Val, input: Val, fields: Val := Arr([]), batchSize: int := 300,
                          nextPageToken: Val := Null) returns (b: Built)
    ensures Sent(b, "GET", "rest/v1/opportunities.json", Manufactured(CustomObjectKind))
    ensures ParamFields(b, "body").Keys <= {"batchSize", "fields", "filterType", "input", "nextPageToken"}
    ensures && Has(ParamFields(b, "body"), "batchSize", Int(batchSize))
            && Has(ParamFields(b, "body"), "fields", fields)
            && Has(ParamFields(b, "body"), "filterType", filterType)
            && Has(ParamFields(b, "body"), "input", input)
            && PutUnlessNull(ParamFields(b, "body"), "nextPageToken", nextPageToken)
    ensures QueryOf(b) == map[] && BodyOf(b) == Client.NoBody
  {
    var lookupObject := map["batchSize" := Int(batchSize), "fields" := fields, "filterType" := filterType, "input" := input];
    if !IsNull(nextPageToken) {
      lookupObject := lookupObject["nextPageToken" := nextPageToken];
    }
    return Body("GET", "rest/v1/opportunities.json", Obj(lookupObject), Manufactured(CustomObjectKind));
  }

  /** `syncOpportunities`: the records with the action and the dedupe field, by default
      `createOrUpdate` and `email`, posted as JSON. */
  function SyncOpportunities(customObjects: Val, action: Val := Str("createOrUpdate"),
                             dedupeBy: Val := Str("email")): (b: Built)
    ensures Sent(b, "POST", "rest/v1/opportunities.json", Manufactured(CustomObjectKind))
    ensures BodyOf(b) == Client.JsonBody(Obj(map["input" := customObjects, "action" := action, "dedupeBy" := dedupeBy]))
    ensures QueryOf(b) == map[]
  {
    Body("POST", "rest/v1/opportunities.json",
         Obj(map["input" := customObjects, "action" := action, "dedupeBy" := dedupeBy]), Manufactured(CustomObjectKind))
  }

  /** `deleteOpportunities`: the input always, the delete field only when it is not null. */
  method DeleteOpportunities(ids: Val, deleteBy: Val := Null) returns (b: Built)
    ensures Sent(b, "POST", "rest/v1/opportunities/delete.json", Manufactured(CustomObjectKind))
    ensures BodyOf(b).JsonBody?
    ensures JsonFields(b).Keys <= {"input", "deleteBy"}
    ensures Has(JsonFields(b), "input", ids) && PutUnlessNull(JsonFields(b), "deleteBy", deleteBy)
  {
    var body := map["input" := ids];
    if !IsNull(deleteBy) {
      body := body["deleteBy" := deleteBy];
    }
    return Body("POST", "rest/v1/opportunities/delete.json", Obj(body), Manufactured(CustomObjectKind));
  }

  /** `describeOpportunity` */
  function DescribeOpportunity(): (b: Built)
    ensures Sent(b, "GET", "rest/v1/opportunities/describe.json", Manufactured(OpportunityKind))
    ensures QueryOf(b) == map[] && BodyOf(b) == Client.NoBody
  {
    Bare("GET", "rest/v1/opportunities/describe.json", Manufactured(OpportunityKind))
  }

  /** `getOpportunityRoles`: the same batch guard; the body always has the batch size and the
      filter, `fields` and the token only when not null; being a GET, none of it is transmitted.
      The lookup-request argument is not used. */
  method GetOpportunityRoles(lookupRequest: Val, filterType: Val, filterValues: Val, fields: Val := Null,
                             batchSize: int := 300, nextPageToken: Val := Null) returns (b: Built)
    ensures b.Rejected? <==> batchSize > 300
    ensures b.Rejected? ==> b.message == BatchSizeMessage
    ensures batchSize <= 300 ==> Sent(b, "GET", "rest/v1/opportunities/roles.json", Manufactured(CustomObjectKind))
    ensures batchSize <= 300 ==>
              && ParamFields(b, "body").Keys <= {"batchSize", "filterType", "filterValues", "fields", "nextPageToken"}
              && Has(ParamFields(b, "body"), "batchSize", Int(batchSize))
              && Has(ParamFields(b, "body"), "filterType", filterType)
              && Has(ParamFields(b, "body"), "filterValues", filterValues)
              && PutUnlessNull(ParamFields(b, "body"), "fields", fields)
              && PutUnlessNull(ParamFields(b, "body"), "nextPageToken", nextPageToken)
    ensures batchSize <= 300 ==> QueryOf(b) == map[] && BodyOf(b) == Client.NoBody
  {
    if batchSize > 300 {
      return Rejected(BatchSizeMessage);
    }
    var body := map["batchSize" := Int(batchSize), "filterType" := filterType, "filterValues" := filterValues];
    if !IsNull(fields) {
      body := body["fields" := fields];
    }
    if !IsNull(nextPageToken) {
      body := body["nextPageToken" := nextPageToken];
    }
    return Body("GET", "rest/v1/opportunities/roles.json", Obj(body), Manufactured(CustomObjectKind));
  }

  /** `syncOpportunityRoles`: as for opportunities, on the roles endpoint. */
  function SyncOpportunityRoles(customObjects: Val, action: Val := Str("createOrUpdate"),
                                dedupeBy: Val := Str("email")): (b: Built)
    ensures Sent(b, "POST", "rest/v1/opportunities/roles.json", Manufactured(CustomObjectKind))
    ensures BodyOf(b) == Client.JsonBody(Obj(map["input" := customObjects, "action" := action, "dedupeBy" := dedupeBy]))
    ensures QueryOf(b) == map[]
  {
    Body("POST", "rest/v1/opportunities/roles.json",
         Obj(map["input" := customObjects, "action" := action, "dedupeBy" := dedupeBy]), Manufactured(CustomObjectKind))
  }

  /** `deleteOpportunityRoles`: the input always, the delete field only when it is not null. */
  method DeleteOpportunityRoles(input: Val, deleteBy: Val := Null) returns (b: Built)
    ensures Sent(b, "POST", "rest/v1/opportunities/roles/delete.json", Manufactured(CustomObjectKind))
    ensures BodyOf(b).JsonBody?
    ensures JsonFields(b).Keys <= {"input", "deleteBy"}
    ensures Has(JsonFields(b), "input", input) && PutUnlessNull(JsonFields(b), "deleteBy", deleteBy)
  {
    var body := map["input" := input];
    if !IsNull(deleteBy) {
      body := body["deleteBy" := deleteBy];
    }
    return Body("POST", "rest/v1/opportunities/roles/delete.json", Obj(body), Manufactured(CustomObjectKind));
  }

  /** `describeOpportunityRole` */
  function DescribeOpportunityRole(): (b: Built)
    ensures Sent(b, "GET", "rest/v1/opportunities/roles/describe.json", Manufactured(OpportunityKind))
    ensures QueryOf(b) == map[] && BodyOf(b) == Client.NoBody
  {
    Bare("GET", "rest/v1/opportunities/roles/describe.json", Manufactured(OpportunityKind))
  }

  /** As the endpoint already ends in `rest/v1/` and these paths start with it, they reach the
      server with the prefix twice, separated by a doubled slash. */
  lemma DoublePrefix(env: Environment.Environment, query: map<string, Val>, codec: Client.Codec)
    ensures var endpoint := Environment.EndpointFor(env.munchkinId);
            var path := DescribeOpportunity().call.path;
            && Client.RequestUrl(env, path, query, codec) == endpoint + "/" + path + "?" + codec.buildQuery(Obj(query))
            && endpoint[|endpoint| - 8..] == "rest/v1/" && path[..8] == "rest/v1/"
  {
    var endpoint := Environment.EndpointFor(env.munchkinId);
    var tail := ".mktorest.com/rest/v1/";
    assert endpoint == ("https://" + env.munchkinId) + tail;
    assert endpoint[|endpoint| - 8..] == tail[|tail| - 8..];
  }

  /** `manufacture`: one opportunity view per record, in order. */
  method Manufacture(records: seq<Val>) returns (objects: seq<View>)
    ensures |objects| == |records|
    ensures forall i :: 0 <= i < |records| ==> objects[i] == View(OpportunityKind, records[i])
  {
    objects := ModelBase.Manufacture(OpportunityKind, records);
  }
}
