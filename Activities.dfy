/**
  The activity requests in the variant of src/Model/Activities.php: the caller's
  payloads are posted as the JSON body itself, with no wrapping entry, the list
  id is tested with `empty` rather than `is_null`, and every answer of `send` is
  returned as it is.
*/
module Activities {
  import opened Php
  import opened Requests
  import Client

  /** What `send` does with a payload passed directly as the body of a POST: it transmits it
      as JSON when it has entries (a scalar counts as one), and nothing otherwise. */
  function Posted(payload: Val): Client.Body {
    if Count(payload) > 0 then Client.JsonBody(payload) else Client.NoBody
  }

  /** `getLeadActivities`: token, type ids and batch size always; asset ids, list id and lead
      ids only when not empty. */
  method GetLeadActivities(nextPageToken: Val, activityTypeIds: Val, assetIds: Val := Arr([]), listId: Val := Arr([]),
                           leadIds: Val := Arr([]), batchSize: Val := Int(300)) returns (b: Built)
    ensures Sent(b, "GET", "activities.json", Unwrapped)
    ensures QueryOf(b).Keys <= {"nextPageToken", "activityTypeIds", "batchSize", "assetIds", "listId", "leadIds"}
    ensures && Has(QueryOf(b), "nextPageToken", nextPageToken)
            && Has(QueryOf(b), "activityTypeIds", activityTypeIds)
            && Has(QueryOf(b), "batchSize", batchSize)
    ensures && PutUnlessEmpty(QueryOf(b), "assetIds", assetIds)
            && PutUnlessEmpty(QueryOf(b), "listId", listId)
            && PutUnlessEmpty(QueryOf(b), "leadIds", leadIds)
    ensures BodyOf(b) == Client.NoBody
  {
    var query := map["nextPageToken" := nextPageToken, "activityTypeIds" := activityTypeIds, "batchSize" := batchSize];
    if !Empty(assetIds) {
      query := query["assetIds" := assetIds];
    }
    if !Empty(listId) {
      query := query["listId" := listId];
    }
    if !Empty(leadIds) {
      query := query["leadIds" := leadIds];
    }
    return Query("GET", "activities.json", query, Unwrapped);
  }

  /** `getDeletedLeads`: exactly the batch size and the token. */
  function GetDeletedLeads(nextPageToken: Val, batchSize: Val := Int(300)): (b: Built)
    ensures Sent(b, "GET", "deletedleads.json", Unwrapped)
    ensures QueryOf(b).Keys == {"batchSize", "nextPageToken"}
    ensures QueryOf(b)["batchSize"] == batchSize && QueryOf(b)["nextPageToken"] == nextPageToken
  {
    Query("GET", "deletedleads.json", map["batchSize" := batchSize, "nextPageToken" := nextPageToken], Unwrapped)
  }

  /** `addCustomActivities`: the list itself is the body, not wrapped under `input`. */
  function AddCustomActivities(customActivities: Val): (b: Built)
    ensures Sent(b, "POST", "activities/external.json", Unwrapped)
    ensures BodyOf(b) == Posted(customActivities)
  {
    Body("POST", "activities/external.json", customActivities, Unwrapped)
  }

  /** `createCustomActivityType`: the definition itself is the body. */
  function CreateCustomActivityType(definition: Val): (b: Built)
    ensures Sent(b, "POST", "activities/external/type.json", Unwrapped)
    ensures BodyOf(b) == Posted(definition)
  {
    Body("POST", "activities/external/type.json", definition, Unwrapped)
  }

  function TypePath(apiName: Val, suffix: string): string {
    "activities/external/type/" + ToText(apiName) + suffix
  }

  /** `updateCustomActivityType` */
  function UpdateCustomActivityType(apiName: Val, definition: Val): (b: Built)
    ensures Sent(b, "POST", "activities/external/type/" + ToText(apiName) + ".json", Unwrapped)
    ensures BodyOf(b) == Posted(definition)
  {
    Body("POST", TypePath(apiName, ".json"), definition, Unwrapped)
  }

  /** `approveCustomActivityType` */
  function ApproveCustomActivityType(apiName: Val): (b: Built)
    ensures Sent(b, "POST", "activities/external/type/" + ToText(apiName) + "/approve.json", Unwrapped)
    ensures QueryOf(b) == map[] && BodyOf(b) == Client.NoBody
  {
    Bare("POST", TypePath(apiName, "/approve.json"), Unwrapped)
  }

  /** `createCustomActivityTypeAttributes`: the attributes themselves are the body. */
  function CreateCustomActivityTypeAttributes(apiName: Val, attributes: Val): (b: Built)
    ensures Sent(b, "POST", "activities/external/type/" + ToText(apiName) + "/create.json", Unwrapped)
    ensures BodyOf(b) == Posted(attributes)
  {
    Body("POST", TypePath(apiName, "/create.json"), attributes, Unwrapped)
  }

  /** `deleteCustomActivityTypeAttributes` */
  function DeleteCustomActivityTypeAttributes(apiName: Val, attributes: Val): (b: Built)
    ensures Sent(b, "POST", "activities/external/type/" + ToText(apiName) + "/attributes/delete.json", Unwrapped)
    ensures BodyOf(b) == Posted(attributes)
  {
    Body("POST", TypePath(apiName, "/attributes/delete.json"), attributes, Unwrapped)
  }

  /** `updateCustomActivityTypeAttributes` */
  function UpdateCustomActivityTypeAttributes(apiName: Val, attributes: Val): (b: Built)
    ensures Sent(b, "POST", "activities/external/type/" + ToText(apiName) + "/attributes/update.json", Unwrapped)
    ensures BodyOf(b) == Posted(attributes)
  {
    Body("POST", TypePath(apiName, "/attributes/update.json"), attributes, Unwrapped)
  }

  /** `deleteCustomActivityType` */
  function DeleteCustomActivityType(apiName: Val): (b: Built)
    ensures Sent(b, "POST", "activities/external/type/" + ToText(apiName) + "/delete.json", Unwrapped)
    ensures QueryOf(b) == map[] && BodyOf(b) == Client.NoBody
  {
    Bare("POST", TypePath(apiName, "/delete.json"), Unwrapped)
  }

  /** `describeCustomActivityType` */
  function DescribeCustomActivityType(apiName: Val, draft: Val := Bool(false)): (b: Built)
    ensures Sent(b, "GET", "activities/external/type/" + ToText(apiName) + "/describe.json", Unwrapped)
    ensures QueryOf(b) == map["draft" := draft] && BodyOf(b) == Client.NoBody
  {
    Query("GET", TypePath(apiName, "/describe.json"), map["draft" := draft], Unwrapped)
  }

  /** `discardCustomActivityTypeDraft` */
  function DiscardCustomActivityTypeDraft(apiName: Val): (b: Built)
    ensures Sent(b, "POST", "activities/external/type/" + ToText(apiName) + "/discardDraft.json", Unwrapped)
    ensures QueryOf(b) == map[] && BodyOf(b) == Client.NoBody
  {
    Bare("POST", TypePath(apiName, "/discardDraft.json"), Unwrapped)
  }

  /** `getCustomActivityTypes` */
  function GetCustomActivityTypes(): (b: Built)
    ensures Sent(b, "GET", "activities/external/types.json", Unwrapped)
    ensures QueryOf(b) == map[] && BodyOf(b) == Client.NoBody
  {
    Bare("GET", "activities/external/types.json", Unwrapped)
  }

  /** `getLeadChanges`: token, fields and batch size always; list id and lead ids only when not empty. */
  method GetLeadChanges(nextPageToken: Val, fields: Val, listId: Val := Arr([]), leadIds: Val := Arr([]),
                        batchSize: Val := Int(300)) returns (b: Built)
    ensures Sent(b, "GET", "activities/leadchanges.json", Unwrapped)
    ensures QueryOf(b).Keys <= {"nextPageToken", "fields", "batchSize", "listId", "leadIds"}
    ensures && Has(QueryOf(b), "nextPageToken", nextPageToken)
            && Has(QueryOf(b), "fields", fields)
            && Has(QueryOf(b), "batchSize", batchSize)
    ensures PutUnlessEmpty(QueryOf(b), "listId", listId) && PutUnlessEmpty(QueryOf(b), "leadIds", leadIds)
    ensures BodyOf(b) == Client.NoBody
  {
    var query := map["nextPageToken" := nextPageToken, "fields" := fields, "batchSize" := batchSize];
    if !Empty(listId) {
      query := query["listId" := listId];
    }
    if !Empty(leadIds) {
      query := query["leadIds" := leadIds];
    }
    return Query("GET", "activities/leadchanges.json", query, Unwrapped);
  }

  /** `getPagingToken`: the whole answer of `send` is returned, not its token. */
  function GetPagingToken(since: Val): (b: Built)
    ensures Sent(b, "GET", "activities/pagingtoken.json", Unwrapped)
    ensures QueryOf(b) == map["sinceDatetime" := since]
  {
    Query("GET", "activities/pagingtoken.json", map["sinceDatetime" := since], Unwrapped)
  }

  /** `getActivityTypes` */
  function GetActivityTypes(): (b: Built)
    ensures Sent(b, "GET", "activities/types.json", Unwrapped)
    ensures QueryOf(b) == map[] && BodyOf(b) == Client.NoBody
  {
    Bare("GET", "activities/types.json", Unwrapped)
  }
}
