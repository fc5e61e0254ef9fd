/**
  The envelope of a successful call (src/Result.php): the decoded response,
  stored verbatim, with a request-id getter and a reading of the response as a
  single lead.
*/
module Results {
  import opened Php
  import opened ModelBase

  datatype Result = Result(response: Val)

  /** `getRequestId`: the envelope's `requestId` entry, or null when it has none. */
  function GetRequestId(r: Result): (id: Val)
    ensures r.response.Obj? && "requestId" in r.response.fields ==> id == r.response.fields["requestId"]
    ensures r.response.Obj? && "requestId" !in r.response.fields ==> id == Null
  {
    Lookup(r.response, "requestId")
  }

  /** `lead`: checks the top-level entries of the response against Lead's declared fields,
      stops at the first one missing or null, and otherwise views the whole response as a lead. */
  method ReadLead(r: Result) returns (lead: Option<View>)
    ensures lead.None? <==> exists j :: 0 <= j < |LeadFields| && !IsSet(r.response, LeadFields[j])
    ensures lead.Some? ==> lead.value == View(LeadKind, r.response)
  {
    for i := 0 to |LeadFields|
      invariant forall j :: 0 <= j < i ==> IsSet(r.response, LeadFields[j])
    {
      if !IsSet(r.response, LeadFields[i]) {
        return None;
      }
    }
    return Some(View(LeadKind, r.response));
  }

  /** The presence check looks at the response itself, not at its `result` entry: a response
      whose lead data sits under `result` is not read as a lead. */
  lemma NestedLeadIsNotALead(fields: map<string, Val>)
    ensures "id" !in fields ==> exists j :: 0 <= j < |LeadFields| && !IsSet(Obj(map["result" := Obj(fields)]), LeadFields[j])
  {
    if "id" !in fields {
      assert LeadFields[0] == "id";
      assert !IsSet(Obj(map["result" := Obj(fields)]), LeadFields[0]);
    }
  }
}
