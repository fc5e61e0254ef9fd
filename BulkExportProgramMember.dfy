/**
  Bulk program-member export jobs (src/Model/BulkExportProgramMember.php). Its
  signatures carry PHP type declarations, which become the types and
  preconditions below; the file fetch asks `send` for the raw answer.
*/
module BulkExportProgramMember {
  import opened Php
  import opened ModelBase
  import opened Requests
  import Client

  /** `manufacture`: one bulk-export-program-member view per record, in order. */
  method Manufacture(records: seq<Val>) returns (objects: seq<View>)
    ensures |objects| == |records|
    ensures forall i :: 0 <= i < |records| ==> objects[i] == View(BulkExportProgramMemberKind, records[i])
  {
    objects := ModelBase.Manufacture(BulkExportProgramMemberKind, records);
  }

  /** `getExportProgramMemberJobs(Array $status, int $batch_size, ?String $next_page_token)`:
      batch size and status always, the token only when given. */
  method GetExportProgramMemberJobs(status: Val, batchSize: int := 300, nextPageToken: Option<string> := None)
    returns (b: Built)
    requires IsArray(status)
    ensures Sent(b, "GET", "bulk/v1/program/members/export.json", Manufactured(ExportKind))
    ensures QueryOf(b).Keys <= {"batchSize", "status", "nextPageToken"}
    ensures Has(QueryOf(b), "batchSize", Int(batchSize)) && Has(QueryOf(b), "status", status)
    ensures ("nextPageToken" in QueryOf(b) <==> nextPageToken.Some?)
    ensures nextPageToken.Some? ==> QueryOf(b)["nextPageToken"] == Str(nextPageToken.value)
    ensures BodyOf(b) == Client.NoBody
  {
    var query := map["batchSize" := Int(batchSize), "status" := status];
    if nextPageToken.Some? {
      query := query["nextPageToken" := Str(nextPageToken.value)];
    }
    return Query("GET", "bulk/v1/program/members/export.json", query, Manufactured(ExportKind));
  }

  /** A list of statuses reaches the wire comma-joined. */
  lemma StatusListIsJoined(status: seq<Val>, batchSize: int, nextPageToken: Option<string>, codec: Client.Codec, token: Val)
    ensures var query := map["batchSize" := Int(batchSize), "status" := Arr(status)];
            var q := if nextPageToken.Some? then query["nextPageToken" := Str(nextPageToken.value)] else query;
            Client.WireQuery(map["query" := Obj(q)], token, codec)["status"] == Str(Implode(",", status))
  {
  }

  /** `createExportProgramMemberJob(int $program_id, Array $fields, ?Array $column_header_names, String $format)`:
      the filter on the program, the format (CSV by default) and the fields always; the column
      header names only when not null. */
  method CreateExportProgramMemberJob(programId: int, fields: Val, columnHeaderNames: Val := Null,
                                      format: string := "CSV") returns (b: Built)
    requires IsArray(fields)
    requires IsNull(columnHeaderNames) || IsArray(columnHeaderNames)
    ensures Sent(b, "POST", "bulk/v1/program/members/export/create.json", Manufactured(ExportKind))
    ensures BodyOf(b).JsonBody?
    ensures JsonFields(b).Keys <= {"filter", "format", "fields", "columnHeaderNames"}
    ensures Has(JsonFields(b), "filter", Obj(map["programId" := Int(programId)]))
    ensures Has(JsonFields(b), "format", Str(format)) && Has(JsonFields(b), "fields", fields)
    ensures PutUnlessNull(JsonFields(b), "columnHeaderNames", columnHeaderNames)
  {
    var body := map["filter" := Obj(map["programId" := Int(programId)]), "format" := Str(format), "fields" := fields];
    if !IsNull(columnHeaderNames) {
      body := body["columnHeaderNames" := columnHeaderNames];
    }
    return Body("POST", "bulk/v1/program/members/export/create.json", Obj(body), Manufactured(ExportKind));
  }

  function JobPath(exportId: Val, operation: string): string {
    "bulk/v1/program/members/export/" + ToText(exportId) + "/" + operation + ".json"
  }

  /** `cancelExportProgramMemberJob` */
  function CancelExportProgramMemberJob(exportId: Val): (b: Built)
    ensures Sent(b, "POST", "bulk/v1/program/members/export/" + ToText(exportId) + "/cancel.json", Manufactured(ExportKind))
    ensures QueryOf(b) == map[] && BodyOf(b) == Client.NoBody
  {
    Bare("POST", JobPath(exportId, "cancel"), Manufactured(ExportKind))
  }

  /** `enqueueExportProgramMemberJob` */
  function EnqueueExportProgramMemberJob(exportId: Val): (b: Built)
    ensures Sent(b, "POST", "bulk/v1/program/members/export/" + ToText(exportId) + "/enqueue.json", Manufactured(ExportKind))
    ensures QueryOf(b) == map[] && BodyOf(b) == Client.NoBody
  {
    Bare("POST", JobPath(exportId, "enqueue"), Manufactured(ExportKind))
  }

  /** `getExportProgramMemberFile`: the only request of the library that asks for the raw answer. */
  function GetExportProgramMemberFile(exportId: Val): (b: Built)
    ensures b.Sends? && b.call.raw
    ensures b.call.verb == "GET" && b.call.path == "bulk/v1/program/members/export/" + ToText(exportId) + "/file.json"
    ensures b.call.wrap == Unwrapped
    ensures QueryOf(b) == map[] && BodyOf(b) == Client.NoBody
  {
    Sends(Call("GET", JobPath(exportId, "file"), map[], true, Unwrapped))
  }

  /** The file is handed back unparsed, whatever the server answers: envelope dispatch is bypassed. */
  lemma FileBypassesDispatch(exportId: Val, w: Client.Wire, codec: Client.Codec)
    ensures Client.Dispatch(GetExportProgramMemberFile(exportId).call.raw, w, codec) == Client.RawReturned(w)
  {
  }

  /** `getExportProgramMemberJobStatus` */
  function GetExportProgramMemberJobStatus(exportId: Val): (b: Built)
    ensures Sent(b, "GET", "bulk/v1/program/members/export/" + ToText(exportId) + "/status.json", Manufactured(ExportKind))
    ensures QueryOf(b) == map[] && BodyOf(b) == Client.NoBody
  {
    Bare("GET", JobPath(exportId, "status"), Manufactured(ExportKind))
  }
}
