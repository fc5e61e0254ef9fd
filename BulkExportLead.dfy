/**
  Bulk lead-export jobs (src/Model/BulkExportLead.php). The job listing and job
  operations view their answers as export jobs; the file fetch returns the
  answer of `send` as it is.
*/
module BulkExportLead {
  import opened Php
  import opened ModelBase
  import opened Requests
  import Client

  /** `manufacture`: one bulk-export-lead view per record, in order. */
  method Manufacture(records: seq<Val>) returns (objects: seq<View>)
    ensures |objects| == |records|
    ensures forall i :: 0 <= i < |records| ==> objects[i] == View(BulkExportLeadKind, records[i])
  {
    objects := ModelBase.Manufacture(BulkExportLeadKind, records);
  }

  /** `getExportLeadJobs`: the batch size, and the token only when not null. The status filter
      is accepted but never placed in the request. */
  method GetExportLeadJobs(status: Val := Arr([]), batchSize: Val := Int(300), nextPageToken: Val := Null)
    returns (b: Built)
    ensures Sent(b, "GET", "bulk/v1/leads/export.json", Manufactured(ExportKind))
    ensures QueryOf(b).Keys <= {"batchSize", "nextPageToken"}
    ensures Has(QueryOf(b), "batchSize", batchSize) && PutUnlessNull(QueryOf(b), "nextPageToken", nextPageToken)
    ensures "status" !in QueryOf(b) && BodyOf(b) == Client.NoBody
  {
    var query := map["batchSize" := batchSize];
    if !IsNull(nextPageToken) {
      query := query["nextPageToken" := nextPageToken];
    }
    return Query("GET", "bulk/v1/leads/export.json", query, Manufactured(ExportKind));
  }

  /** `createExportLeadJob`: filter and format (CSV by default) always; column header names and
      fields only when not empty. */
  method CreateExportLeadJob(filter: Val, columnHeaderNames: Val := Arr([]), fields: Val := Arr([]),
                             format: Val := Str("CSV")) returns (b: Built)
    ensures Sent(b, "POST", "bulk/v1/leads/export/create.json", Manufactured(ExportKind))
    ensures BodyOf(b).JsonBody?
    ensures JsonFields(b).Keys <= {"filter", "format", "columnHeaderNames", "fields"}
    ensures Has(JsonFields(b), "filter", filter) && Has(JsonFields(b), "format", format)
    ensures PutUnlessEmpty(JsonFields(b), "columnHeaderNames", columnHeaderNames) && PutUnlessEmpty(JsonFields(b), "fields", fields)
  {
    var body := map["filter" := filter, "format" := format];
    if !Empty(columnHeaderNames) {
      body := body["columnHeaderNames" := columnHeaderNames];
    }
    if !Empty(fields) {
      body := body["fields" := fields];
    }
    return Body("POST", "bulk/v1/leads/export/create.json", Obj(body), Manufactured(ExportKind));
  }

  /** The path of an operation on one export job. */
  function JobPath(exportId: Val, operation: string): string {
    "bulk/v1/leads/export/" + ToText(exportId) + "/" + operation + ".json"
  }

  /** `cancelExportLeadJob` */
  function CancelExportLeadJob(exportId: Val): (b: Built)
    ensures Sent(b, "POST", "bulk/v1/leads/export/" + ToText(exportId) + "/cancel.json", Manufactured(ExportKind))
    ensures QueryOf(b) == map[] && BodyOf(b) == Client.NoBody
  {
    Bare("POST", JobPath(exportId, "cancel"), Manufactured(ExportKind))
  }

  /** `enqueueExportLeadJob` */
  function EnqueueExportLeadJob(exportId: Val): (b: Built)
    ensures Sent(b, "POST", "bulk/v1/leads/export/" + ToText(exportId) + "/enqueue.json", Manufactured(ExportKind))
    ensures QueryOf(b) == map[] && BodyOf(b) == Client.NoBody
  {
    Bare("POST", JobPath(exportId, "enqueue"), Manufactured(ExportKind))
  }

  /** `getExportLeadFile`: the answer is returned as `send` gives it. */
  function GetExportLeadFile(exportId: Val): (b: Built)
    ensures Sent(b, "GET", "bulk/v1/leads/export/" + ToText(exportId) + "/file.json", Unwrapped)
    ensures QueryOf(b) == map[] && BodyOf(b) == Client.NoBody
  {
    Bare("GET", JobPath(exportId, "file"), Unwrapped)
  }

  /** `getExportLeadJobStatus` */
  function GetExportLeadJobStatus(exportId: Val): (b: Built)
    ensures Sent(b, "GET", "bulk/v1/leads/export/" + ToText(exportId) + "/status.json", Manufactured(ExportKind))
    ensures QueryOf(b) == map[] && BodyOf(b) == Client.NoBody
  {
    Bare("GET", JobPath(exportId, "status"), Manufactured(ExportKind))
  }
}
