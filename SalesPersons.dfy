/**
  Sales-person requests (src/Model/SalesPersons.php, class SalesPerson); their
  answers are viewed as sales persons, except the description, viewed as
  object metadata.
*/
module SalesPersons {
  import opened Php
  import opened ModelBase
  import opened Requests
  import Client

  /** `manufacture`: one sales-person view per record, in order. */
  method Manufacture(records: seq<Val>) returns (objects: seq<View>)
    ensures |objects| == |records|
    ensures forall i :: 0 <= i < |records| ==> objects[i] == View(SalesPersonKind, records[i])
  {
    objects := ModelBase.Manufacture(SalesPersonKind, records);
  }

  /** `getSalesPersons`: batch size and filter always; fields only when not empty, the token only
      when not null. */
  method GetSalesPersons(filterType: Val, filterValues: Val, fields: Val := Arr([]), batchSize: Val := Int(300),
                         nextPageToken: Val := Null) returns (b: Built)
    ensures Sent(b, "GET", "rest/v1/salespersons.json", Manufactured(SalesPersonKind))
    ensures QueryOf(b).Keys <= {"batchSize", "filterType", "filterValues", "fields", "nextPageToken"}
    ensures && Has(QueryOf(b), "batchSize", batchSize)
            && Has(QueryOf(b), "filterType", filterType)
            && Has(QueryOf(b), "filterValues", filterValues)
    ensures PutUnlessEmpty(QueryOf(b), "fields", fields) && PutUnlessNull(QueryOf(b), "nextPageToken", nextPageToken)
    ensures BodyOf(b) == Client.NoBody
  {
    var query := map["batchSize" := batchSize, "filterType" := filterType, "filterValues" := filterValues];
    if !Empty(fields) {
      query := query["fields" := fields];
    }
    if !IsNull(nextPageToken) {
      query := query["nextPageToken" := nextPageToken];
    }
    return Query("GET", "rest/v1/salespersons.json", query, Manufactured(SalesPersonKind));
  }

  /** `syncSalesPersons`: the records with action and dedupe field, by default `createOrUpdate`
      and `email`. */
  function SyncSalesPersons(input: Val, action: Val := Str("createOrUpdate"), dedupeBy: Val := Str("email")): (b: Built)
    ensures Sent(b, "POST", "rest/v1/salespersons.json", Manufactured(SalesPersonKind))
    ensures BodyOf(b) == Client.JsonBody(Obj(map["input" := input, "action" := action, "dedupeBy" := dedupeBy]))
  {
    Body("POST", "rest/v1/salespersons.json", Obj(map["input" := input, "action" := action, "dedupeBy" := dedupeBy]),
         Manufactured(SalesPersonKind))
  }

  /** `deleteSalesPersons`: input and delete field, both always present, even when null. */
  function DeleteSalesPersons(input: Val, deleteBy: Val): (b: Built)
    ensures Sent(b, "POST", "rest/v1/salespersons/delete.json", Manufactured(SalesPersonKind))
    ensures BodyOf(b) == Client.JsonBody(Obj(map["input" := input, "deleteBy" := deleteBy]))
  {
    Body("POST", "rest/v1/salespersons/delete.json", Obj(map["input" := input, "deleteBy" := deleteBy]),
         Manufactured(SalesPersonKind))
  }

  /** `describeSalesPersons`: viewed as object metadata. */
  function DescribeSalesPersons(): (b: Built)
    ensures Sent(b, "GET", "rest/v1/salespersons/describe.json", Manufactured(ObjectMetaDataKind))
    ensures QueryOf(b) == map[] && BodyOf(b) == Client.NoBody
  {
    Bare("GET", "rest/v1/salespersons/describe.json", Manufactured(ObjectMetaDataKind))
  }
}
