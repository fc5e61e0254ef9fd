/**
  Activity, lead-change and custom-activity-type requests of
  src/Model/Activity.php; their answers are viewed through the matching
  class's `manufacture`.
*/
module Activity {
  import opened Php
  import opened ModelBase
  import opened Requests
  import Client

  /** `manufacture`: one activity view per record, in order. */
  method Manufacture(records: seq<Val>) returns (objects: seq<View>)
    ensures |objects| == |records|
    ensures forall i :: 0 <= i < |records| ==> objects[i] == View(ActivityKind, records[i])
  {
    objects := ModelBase.Manufacture(ActivityKind, records);
  }

  /** `getLeadActivities`: token, type ids and batch size always; asset and lead ids only when
      not empty, the list id only when not null. No batch guard. */
  method GetLeadActivities(nextPageToken: Val, activityTypeIds: Val, assetIds: Val := Arr([]), listId: Val := Null,
                           leadIds: Val := Arr([]), batchSize: Val := Int(300)) returns (b: Built)
    ensures Sent(b, "GET", "activities.json", Manufactured(ActivityKind))
    ensures QueryOf(b).Keys <= {"nextPageToken", "activityTypeIds", "batchSize", "assetIds", "listId", "leadIds"}
    ensures && Has(QueryOf(b), "nextPageToken", nextPageToken)
            && Has(QueryOf(b), "activityTypeIds", activityTypeIds)
            && Has(QueryOf(b), "batchSize", batchSize)
    ensures && PutUnlessEmpty(QueryOf(b), "assetIds", assetIds)
            && PutUnlessNull(QueryOf(b), "listId", listId)
            && PutUnlessEmpty(QueryOf(b), "leadIds", leadIds)
    ensures BodyOf(b) == Client.NoBody
  {
    var query := map["nextPageToken" := nextPageToken, "activityTypeIds" := activityTypeIds, "batchSize" := batchSize];
    if !Empty(assetIds) {
      query := query["assetIds" := assetIds];
    }
    if !IsNull(listId) {
      query := query["listId" := listId];
    }
    if !Empty(leadIds) {
      query := query["leadIds" := leadIds];
    }
    return Query("GET", "activities.json", query, Manufactured(ActivityKind));
  }

  /** `getDeletedLeads`: exactly the batch size and the token. */
  function GetDeletedLeads(nextPageToken: Val, batchSize: Val := Int(300)): (b: Built)
    ensures Sent(b, "GET", "deletedleads.json", Manufactured(ActivityKind))
    ensures QueryOf(b).Keys == {"batchSize", "nextPageToken"}
    ensures QueryOf(b)["batchSize"] == batchSize && QueryOf(b)["nextPageToken"] == nextPageToken
  {
    Query("GET", "deletedleads.json", map["batchSize" := batchSize, "nextPageToken" := nextPageToken], Manufactured(ActivityKind))
  }

  /** `addCustomActivities`: the activities are posted under `input`. */
  function AddCustomActivities(customActivities: Val): (b: Built)
    ensures Sent(b, "POST", "activities/external.json", Manufactured(CustomActivityKind))
    ensures BodyOf(b) == Client.JsonBody(Obj(map["input" := customActivities]))
  {
    Body("POST", "activities/external.json", Obj(map["input" := customActivities]), Manufactured(CustomActivityKind))
  }

  /** The five entries every type definition carries. */
  function TypeDefinition(apiName: Val, filterName: Val, name: Val, primaryAttribute: Val, triggerName: Val): map<string, Val> {
    map["apiName" := apiName, "filterName" := filterName, "name" := name,
        "primaryAttribute" := primaryAttribute, "triggerName" := triggerName]
  }

  /** `createCustomActivityType`: the five fixed entries, and the description only when not empty. */
  method CreateCustomActivityType(apiName: Val, filterName: Val, name: Val, primaryAttribute: Val, triggerName: Val,
                                  description: Val := Str("")) returns (b: Built)
    ensures Sent(b, "POST", "activities/external/type.json", Manufactured(CustomActivityKind))
    ensures BodyOf(b).JsonBody?
    ensures JsonFields(b).Keys <= TypeDefinition(apiName, filterName, name, primaryAttribute, triggerName).Keys + {"description"}
    ensures forall k :: k in TypeDefinition(apiName, filterName, name, primaryAttribute, triggerName) ==>
              Has(JsonFields(b), k, TypeDefinition(apiName, filterName, name, primaryAttribute, triggerName)[k])
    ensures PutUnlessEmpty(JsonFields(b), "description", description)
  {
    var body := TypeDefinition(apiName, filterName, name, primaryAttribute, triggerName);
    if !Empty(description) {
      body := body["description" := description];
    }
    return Body("POST", "activities/external/type.json", Obj(body), Manufactured(CustomActivityKind));
  }

  /** The path of the operations on one custom activity type. */
  function TypePath(apiName: Val, suffix: string): string {
    "activities/external/type/" + ToText(apiName) + suffix
  }

  /** `updateCustomActivityType`: as creation, on the type's own path. */
  method UpdateCustomActivityType(apiName: Val, filterName: Val, name: Val, primaryAttribute: Val, triggerName: Val,
                                  description: Val := Str("")) returns (b: Built)
    ensures Sent(b, "POST", "activities/external/type/" + ToText(apiName) + ".json", Manufactured(CustomActivityTypeKind))
    ensures BodyOf(b).JsonBody?
    ensures JsonFields(b).Keys <= TypeDefinition(apiName, filterName, name, primaryAttribute, triggerName).Keys + {"description"}
    ensures forall k :: k in TypeDefinition(apiName, filterName, name, primaryAttribute, triggerName) ==>
              Has(JsonFields(b), k, TypeDefinition(apiName, filterName, name, primaryAttribute, triggerName)[k])
    ensures PutUnlessEmpty(JsonFields(b), "description", description)
  {
    var body := TypeDefinition(apiName, filterName, name, primaryAttribute, triggerName);
    if !Empty(description) {
      body := body["description" := description];
    }
    return Body("POST", TypePath(apiName, ".json"), Obj(body), Manufactured(CustomActivityTypeKind));
  }

  /** `approveCustomActivityType` */
  function ApproveCustomActivityType(apiName: Val): (b: Built)
    ensures Sent(b, "POST", "activities/external/type/" + ToText(apiName) + "/approve.json", Manufactured(CustomActivityTypeKind))
    ensures QueryOf(b) == map[] && BodyOf(b) == Client.NoBody
  {
    Bare("POST", TypePath(apiName, "/approve.json"), Manufactured(CustomActivityTypeKind))
  }

  /** `createCustomActivityTypeAttributes`: the attributes are posted under `attributes`. */
  function CreateCustomActivityTypeAttributes(apiName: Val, customActivityType: Val): (b: Built)
    ensures Sent(b, "POST", "activities/external/type/" + ToText(apiName) + "/create.json", Manufactured(CustomActivityTypeKind))
    ensures BodyOf(b) == Client.JsonBody(Obj(map["attributes" := customActivityType]))
  {
    Body("POST", TypePath(apiName, "/create.json"), Obj(map["attributes" := customActivityType]), Manufactured(CustomActivityTypeKind))
  }

  /** `deleteCustomActivityTypeAttributes`: the attributes are posted under `attributes`. */
  function DeleteCustomActivityTypeAttributes(apiName: Val, attributes: Val): (b: Built)
    ensures Sent(b, "POST", "activities/external/type/" + ToText(apiName) + "/attributes/delete.json", Manufactured(CustomActivityTypeKind))
    ensures BodyOf(b) == Client.JsonBody(Obj(map["attributes" := attributes]))
  {
    Body("POST", TypePath(apiName, "/attributes/delete.json"), Obj(map["attributes" := attributes]), Manufactured(CustomActivityTypeKind))
  }

  /** `updateCustomActivityTypeAttributes`: the attributes are posted under `attributes`. */
  function UpdateCustomActivityTypeAttributes(apiName: Val, attributes: Val): (b: Built)
    ensures Sent(b, "POST", "activities/external/type/" + ToText(apiName) + "/attributes/update.json", Manufactured(CustomActivityTypeKind))
    ensures BodyOf(b) == Client.JsonBody(Obj(map["attributes" := attributes]))
  {
    Body("POST", TypePath(apiName, "/attributes/update.json"), Obj(map["attributes" := attributes]), Manufactured(CustomActivityTypeKind))
  }

  /** `deleteCustomActivityType` */
  function DeleteCustomActivityType(apiName: Val): (b: Built)
    ensures Sent(b, "POST", "activities/external/type/" + ToText(apiName) + "/delete.json", Manufactured(CustomActivityTypeKind))
    ensures QueryOf(b) == map[] && BodyOf(b) == Client.NoBody
  {
    Bare("POST", TypePath(apiName, "/delete.json"), Manufactured(CustomActivityTypeKind))
  }

  /** `describeCustomActivityType`: the draft flag, false by default, as the only query entry. */
  function DescribeCustomActivityType(apiName: Val, draft: Val := Bool(false)): (b: Built)
    ensures Sent(b, "GET", "activities/external/type/" + ToText(apiName) + "/describe.json", Manufactured(CustomActivityTypeKind))
    ensures QueryOf(b) == map["draft" := draft] && BodyOf(b) == Client.NoBody
  {
    Query("GET", TypePath(apiName, "/describe.json"), map["draft" := draft], Manufactured(CustomActivityTypeKind))
  }

  /** `discardCustomActivityTypeDraft` */
  function DiscardCustomActivityTypeDraft(apiName: Val): (b: Built)
    ensures Sent(b, "POST", "activities/external/type/" + ToText(apiName) + "/discardDraft.json", Manufactured(CustomActivityTypeKind))
    ensures QueryOf(b) == map[] && BodyOf(b) == Client.NoBody
  {
    Bare("POST", TypePath(apiName, "/discardDraft.json"), Manufactured(CustomActivityTypeKind))
  }

  /** Distinct type names address distinct type paths, for every operation on a type. */
  lemma {:induction false} TypePathInjective(a: Val, b: Val, suffix: string)
    requires TypePath(a, suffix) == TypePath(b, suffix)
    ensures ToText(a) == ToText(b)
  {
    var pre := "activities/external/type/";
    var ta, tb := ToText(a), ToText(b);
    assert |ta| == |tb|;
    forall k | 0 <= k < |ta|
      ensures ta[k] == tb[k]
    {
      assert TypePath(a, suffix)[|pre| + k] == ta[k];
      assert TypePath(b, suffix)[|pre| + k] == tb[k];
    }
  }

  /** `getCustomActivityTypes` */
  function GetCustomActivityTypes(): (b: Built)
    ensures Sent(b, "GET", "activities/external/types.json", Manufactured(CustomActivityTypeKind))
    ensures QueryOf(b) == map[] && BodyOf(b) == Client.NoBody
  {
    Bare("GET", "activities/external/types.json", Manufactured(CustomActivityTypeKind))
  }

  /** `getLeadChanges`: token, fields and batch size always; the list id only when not null,
      the lead ids only when not empty. */
  method GetLeadChanges(nextPageToken: Val, fields: Val, listId: Val := Null, leadIds: Val := Arr([]),
                        batchSize: Val := Int(300)) returns (b: Built)
    ensures Sent(b, "GET", "activities/leadchanges.json", Manufactured(LeadChangeKind))
    ensures QueryOf(b).Keys <= {"nextPageToken", "fields", "batchSize", "listId", "leadIds"}
    ensures && Has(QueryOf(b), "nextPageToken", nextPageToken)
            && Has(QueryOf(b), "fields", fields)
            && Has(QueryOf(b), "batchSize", batchSize)
    ensures PutUnlessNull(QueryOf(b), "listId", listId) && PutUnlessEmpty(QueryOf(b), "leadIds", leadIds)
    ensures BodyOf(b) == Client.NoBody
  {
    var query := map["nextPageToken" := nextPageToken, "fields" := fields, "batchSize" := batchSize];
    if !IsNull(listId) {
      query := query["listId" := listId];
    }
    if !Empty(leadIds) {
      query := query["leadIds" := leadIds];
    }
    return Query("GET", "activities/leadchanges.json", query, Manufactured(LeadChangeKind));
  }

  /** `getPagingToken`: asks for a paging token since a date; the answer is then asked for
      `getNextPageToken()`, which `Result` does not define. */
  function GetPagingToken(since: Val): (b: Built)
    ensures Sent(b, "GET", "activities/pagingtoken.json", NextPageTokenOf)
    ensures QueryOf(b) == map["sinceDatetime" := since]
  {
    Query("GET", "activities/pagingtoken.json", map["sinceDatetime" := since], NextPageTokenOf)
  }

  /** `getActivityTypes` */
  function GetActivityTypes(): (b: Built)
    ensures Sent(b, "GET", "activities/types.json", Manufactured(ActivityTypeKind))
    ensures QueryOf(b) == map[] && BodyOf(b) == Client.NoBody
  {
    Bare("GET", "activities/types.json", Manufactured(ActivityTypeKind))
  }
}
