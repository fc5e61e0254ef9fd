/**
  The same opportunity requests as src/Model/Opportunity.php, in the variant of
  src/Model/Opportunities.php: paths relative to the endpoint (no `rest/v1/`
  prefix), and the answer of `send` returned as it is.
*/
module Opportunities {
  import opened Php
  import opened Requests
  import Client

  const BatchSizeMessage: string := "Batch size cannot exceed 300"

  /** `getOpportunityFieldByName`: the field name goes into the path. */
  function GetOpportunityFieldByName(fieldApiName: Val): (b: Built)
    ensures Sent(b, "GET", "opportunities/schema/fields/" + ToText(fieldApiName) + ".json", Unwrapped)
    ensures QueryOf(b) == map[] && BodyOf(b) == Client.NoBody
  {
    Bare("GET", "opportunities/schema/fields/" + ToText(fieldApiName) + ".json", Unwrapped)
  }

  /** `getOpportunityFields`: a batch above 300 is refused before any request; the page token
      is added only when it is not null. */
  method GetOpportunityFields(batchSize: int := 300, nextPageToken: Val := Null) returns (b: Built)
    ensures b.Rejected? <==> batchSize > 300
    ensures b.Rejected? ==> b.message == BatchSizeMessage
    ensures batchSize <= 300 ==> Sent(b, "GET", "opportunities/schema/fields.json", Unwrapped)
    ensures batchSize <= 300 ==>
              && QueryOf(b).Keys <= {"batchSize", "nextPageToken"}
              && Has(QueryOf(b), "batchSize", Int(batchSize))
              && PutUnlessNull(QueryOf(b), "nextPageToken", nextPageToken)
  {
    if batchSize > 300 {
      return Rejected(BatchSizeMessage);
    }
    var query := map["batchSize" := Int(batchSize)];
    if !IsNull(nextPageToken) {
      query := query["nextPageToken" := nextPageToken];
    }
    return Query("GET", "opportunities/schema/fields.json", query, Unwrapped);
  }

  /** `getOpportunities`: the lookup object is passed as a body of a GET, so `send` drops it and
      nothing but the token reaches the server. */
  method GetOpportunities(filterType: Val, filterValues: Val, fields: Val := Arr([]), batchSize: int := 300,
                          nextPageToken: Val := Null) returns (b: Built)
    ensures Sent(b, "GET", "opportunities.json", Unwrapped)
    ensures ParamFields(b, "body").Keys <= {"batchSize", "fields", "filterType", "input", "nextPageToken"}
    ensures && Has(ParamFields(b, "body"), "batchSize", Int(batchSize))
            && Has(ParamFields(b, "body"), "fields", fields)
            && Has(ParamFields(b, "body"), "filterType", filterType)
            && Has(ParamFields(b, "body"), "input", filterValues)
            && PutUnlessNull(ParamFields(b, "body"), "nextPageToken", nextPageToken)
    ensures QueryOf(b) == map[] && BodyOf(b) == Client.NoBody
  {
    var lookupObject := map["batchSize" := Int(batchSize), "fields" := fields, "filterType" := filterType, "input" := filterValues];
    if !IsNull(nextPageToken) {
      lookupObject := lookupObject["nextPageToken" := nextPageToken];
    }
    return Body("GET", "opportunities.json", Obj(lookupObject), Unwrapped);
  }

  /** `syncOpportunities`: the records with the action and the dedupe field, by default
      `createOrUpdate` and `email`, posted as JSON. */
  function SyncOpportunities(customObjects: Val, action: Val := Str("createOrUpdate"),
                             dedupeBy: Val := Str("email")): (b: Built)
    ensures Sent(b, "POST", "opportunities.json", Unwrapped)
    ensures BodyOf(b) == Client.JsonBody(Obj(map["input" := customObjects, "action" := action, "dedupeBy" := dedupeBy]))
    ensures QueryOf(b) == map[]
  {
    Body("POST", "opportunities.json",
         Obj(map["input" := customObjects, "action" := action, "dedupeBy" := dedupeBy]), Unwrapped)
  }

  /** `deleteOpportunities`: the input always, the delete field only when it is not null. */
  method DeleteOpportunities(ids: Val, deleteBy: Val := Null) returns (b: Built)
    ensures Sent(b, "POST", "opportunities/delete.json", Unwrapped)
    ensures BodyOf(b).JsonBody?
    ensures JsonFields(b).Keys <= {"input", "deleteBy"}
    ensures Has(JsonFields(b), "input", ids) && PutUnlessNull(JsonFields(b), "deleteBy", deleteBy)
  {
    var body := map["input" := ids];
    if !IsNull(deleteBy) {
      body := body["deleteBy" := deleteBy];
    }
    return Body("POST", "opportunities/delete.json", Obj(body), Unwrapped);
  }

  /** `describeOpportunity` */
  function DescribeOpportunity(): (b: Built)
    ensures Sent(b, "GET", "opportunities/describe.json", Unwrapped)
    ensures QueryOf(b) == map[] && BodyOf(b) == Client.NoBody
  {
    Bare("GET", "opportunities/describe.json", Unwrapped)
  }

  /** `getOpportunityRoles`: the same batch guard; the body always has the batch size and the
      filter, `fields` and the token only when not null; being a GET, none of it is transmitted.
      The lookup-request argument is not used. */
  method GetOpportunityRoles(lookupRequest: Val, filterType: Val, filterValues: Val, fields: Val := Null,
                             batchSize: int := 300, nextPageToken: Val := Null) returns (b: Built)
    ensures b.Rejected? <==> batchSize > 300
    ensures b.Rejected? ==> b.message == BatchSizeMessage
    ensures batchSize <= 300 ==> Sent(b, "GET", "opportunities/roles.json", Unwrapped)
    ensures batchSize <= 300 ==>
              && ParamFields(b, "body").Keys <= {"batchSize", "filterType", "filterValues", "fields", "nextPageToken"}
              && Has(ParamFields(b, "body"), "batchSize", Int(batchSize))
              && Has(ParamFields(b, "body"), "filterType", filterType)
              && Has(ParamFields(b, "body"), "filterValues", filterValues)
              && PutUnlessNull(ParamFields(b, "body"), "fields", fields)
              && PutUnlessNull(ParamFields(b, "body"), "nextPageToken", nextPageToken)
    ensures batchSize <= 300 ==> QueryOf(b) == map[] && BodyOf(b) == Client.NoBody
  {
    if batchSize > 300 {
      return Rejected(BatchSizeMessage);
    }
    var body := map["batchSize" := Int(batchSize), "filterType" := filterType, "filterValues" := filterValues];
    if !IsNull(fields) {
      body := body["fields" := fields];
    }
    if !IsNull(nextPageToken) {
      body := body["nextPageToken" := nextPageToken];
    }
    return Body("GET", "opportunities/roles.json", Obj(body), Unwrapped);
  }

  /** `syncOpportunityRoles`: as for opportunities, on the roles endpoint. */
  function SyncOpportunityRoles(customObjects: Val, action: Val := Str("createOrUpdate"),
                                dedupeBy: Val := Str("email")): (b: Built)
    ensures Sent(b, "POST", "opportunities/roles.json", Unwrapped)
    ensures BodyOf(b) == Client.JsonBody(Obj(map["input" := customObjects, "action" := action, "dedupeBy" := dedupeBy]))
    ensures QueryOf(b) == map[]
  {
    Body("POST", "opportunities/roles.json",
         Obj(map["input" := customObjects, "action" := action, "dedupeBy" := dedupeBy]), Unwrapped)
  }

  /** `deleteOpportunityRoles`: the input always, the delete field only when it is not null. */
  method DeleteOpportunityRoles(input: Val, deleteBy: Val := Null) returns (b: Built)
    ensures Sent(b, "POST", "opportunities/roles/delete.json", Unwrapped)
    ensures BodyOf(b).JsonBody?
    ensures JsonFields(b).Keys <= {"input", "deleteBy"}
    ensures Has(JsonFields(b), "input", input) && PutUnlessNull(JsonFields(b), "deleteBy", deleteBy)
  {
    var body := map["input" := input];
    if !IsNull(deleteBy) {
      body := body["deleteBy" := deleteBy];
    }
    return Body("POST", "opportunities/roles/delete.json", Obj(body), Unwrapped);
  }

  /** `describeOpportunityRole` */
  function DescribeOpportunityRole(): (b: Built)
    ensures Sent(b, "GET", "opportunities/roles/describe.json", Unwrapped)
    ensures QueryOf(b) == map[] && BodyOf(b) == Client.NoBody
  {
    Bare("GET", "opportunities/roles/describe.json", Unwrapped)
  }
}
