/**
  Lead lookups (src/Model/Lead.php) and the lead view's own `__get`.
*/
module Lead {
  import opened Php
  import opened ModelBase
  import opened Requests
  import Client

  /** `getLeadById`: the id goes into the path; the empty body it passes is never transmitted. */
  function GetLeadById(leadId: Val, fields: Val := Arr([])): (b: Built)
    ensures Sent(b, "GET", "lead/" + ToText(leadId) + ".json", Unwrapped)
    ensures QueryOf(b) == map["fields" := fields]
    ensures "body" in b.call.params && b.call.params["body"] == Arr([])
    ensures BodyOf(b) == Client.NoBody
  {
    Sends(Call("GET", "lead/" + ToText(leadId) + ".json",
               map["query" := Obj(map["fields" := fields]), "body" := Arr([])], false, Unwrapped))
  }

  const BatchSizeMessage: string := "getLeadsByFilterType: batchSize cannot exceed 300."

  /** `getLeadsByFilterType`: refuses a batch above 300 before any request; otherwise the query
      has all five entries, the page token even when it is null. */
  function GetLeadsByFilterType(filterType: Val, filterValues: Val, fields: Val := Arr([]),
                                batchSize: int := 300, nextPageToken: Val := Null): (b: Built)
    ensures b.Rejected? <==> batchSize > 300
    ensures b.Rejected? ==> b.message == BatchSizeMessage
    ensures batchSize <= 300 ==> Sent(b, "GET", "leads.json", Unwrapped)
    ensures batchSize <= 300 ==> QueryOf(b).Keys == {"filterType", "filterValues", "fields", "batchSize", "nextPageToken"}
    ensures batchSize <= 300 ==>
              && QueryOf(b)["filterType"] == filterType
              && QueryOf(b)["filterValues"] == filterValues
              && QueryOf(b)["fields"] == fields
              && QueryOf(b)["batchSize"] == Int(batchSize)
              && QueryOf(b)["nextPageToken"] == nextPageToken
  {
    if batchSize > 300 then Rejected(BatchSizeMessage)
    else
      Query("GET", "leads.json",
            map["filterType" := filterType, "filterValues" := filterValues, "fields" := fields,
                "batchSize" := Int(batchSize), "nextPageToken" := nextPageToken],
            Unwrapped)
  }

  /** `describeLead` */
  function DescribeLead(): (b: Built)
    ensures Sent(b, "GET", "leads/describe.json", Unwrapped)
    ensures QueryOf(b) == map[] && BodyOf(b) == Client.NoBody
  {
    Bare("GET", "leads/describe.json", Unwrapped)
  }

  /** `describeLead2` */
  function DescribeLead2(): (b: Built)
    ensures Sent(b, "GET", "leads/describe2.json", Unwrapped)
    ensures QueryOf(b) == map[] && BodyOf(b) == Client.NoBody
  {
    Bare("GET", "leads/describe2.json", Unwrapped)
  }

  /** `Lead::__get`: the stored entry when it is set, null otherwise. Unlike the base class's
      `__get` it does answer; its `isset` guard changes nothing, since an unset entry reads as null. */
  function Get(v: View, name: string): (r: Val)
    ensures r == Lookup(v.values, name)
    ensures IsSet(v.values, name) <==> r != Null
  {
    if IsSet(v.values, name) then Lookup(v.values, name) else Null
  }

  /** A response that passes the lead presence check answers every declared field through `__get`. */
  lemma {:induction false} DeclaredFieldsReadable(response: Val)
    requires forall j :: 0 <= j < |LeadFields| ==> IsSet(response, LeadFields[j])
    ensures forall j :: 0 <= j < |LeadFields| ==> Get(View(LeadKind, response), LeadFields[j]) != Null
  {
    forall j | 0 <= j < |LeadFields|
      ensures Get(View(LeadKind, response), LeadFields[j]) != Null
    {
      assert IsSet(response, LeadFields[j]);
    }
  }
}
