/**
  The envelope of a listing call (src/ListResult.php): the decoded response,
  stored verbatim, with getters for its paging entries and a reading of its
  `result` records as lead-field descriptions.
*/
module ListResults {
  import opened Php
  import opened ModelBase

  datatype ListResult = ListResult(response: Val)

  /** The records `foreach ($this->response['result'] ...)` visits. */
  function Records(l: ListResult): seq<Val> {
    Elements(Lookup(l.response, "result"))
  }

  function GetRequestId(l: ListResult): (id: Val)
    ensures l.response.Obj? && "requestId" in l.response.fields ==> id == l.response.fields["requestId"]
    ensures l.response.Obj? && "requestId" !in l.response.fields ==> id == Null
  {
    Lookup(l.response, "requestId")
  }

  function GetNextPageToken(l: ListResult): (token: Val)
    ensures l.response.Obj? && "nextPageToken" in l.response.fields ==> token == l.response.fields["nextPageToken"]
    ensures l.response.Obj? && "nextPageToken" !in l.response.fields ==> token == Null
  {
    Lookup(l.response, "nextPageToken")
  }

  function GetMoreResult(l: ListResult): (more: Val)
    ensures l.response.Obj? && "moreResult" in l.response.fields ==> more == l.response.fields["moreResult"]
    ensures l.response.Obj? && "moreResult" !in l.response.fields ==> more == Null
  {
    Lookup(l.response, "moreResult")
  }

  function GetSuccess(l: ListResult): (success: Val)
    ensures l.response.Obj? && "success" in l.response.fields ==> success == l.response.fields["success"]
    ensures l.response.Obj? && "success" !in l.response.fields ==> success == Null
  {
    Lookup(l.response, "success")
  }

  /** `leads` has an empty body: it gives null whatever the response. */
  function Leads(l: ListResult): (leads: Val)
    ensures leads == Null
  {
    Null
  }

  /** `fields`: all or nothing. Null as soon as one record has no `displayName`; otherwise one
      lead-field view per record, in the order of the records. */
  method Fields(l: ListResult) returns (fields: Option<seq<View>>)
    ensures fields.None? <==> exists i :: 0 <= i < |Records(l)| && !IsSet(Records(l)[i], "displayName")
    ensures fields.Some? ==> |fields.value| == |Records(l)|
    ensures fields.Some? ==> forall i :: 0 <= i < |Records(l)| ==> fields.value[i] == View(LeadFieldKind, Records(l)[i])
    ensures Records(l) == [] ==> fields == Some([])
  {
    var records := Records(l);
    var response: seq<View> := [];
    for i := 0 to |records|
      invariant |response| == i
      invariant forall j :: 0 <= j < i ==> IsSet(records[j], "displayName")
      invariant forall j :: 0 <= j < i ==> response[j] == View(LeadFieldKind, records[j])
    {
      if !IsSet(records[i], "displayName") {
        return None;
      }
      response := response + [View(LeadFieldKind, records[i])];
    }
    return Some(response);
  }
}
