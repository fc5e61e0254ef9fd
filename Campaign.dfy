/**
  Campaign requests (src/Model/Campaign.php). Every filter of `getCampaigns` is
  written under the one query key `id`, so the last non-empty filter is the only
  one the server sees.
*/
module Campaign {
  import opened Php
  import opened ModelBase
  import opened Requests
  import Client

  /** `manufacture`: one campaign view per record, in order. */
  method Manufacture(records: seq<Val>) returns (objects: seq<View>)
    ensures |objects| == |records|
    ensures forall i :: 0 <= i < |records| ==> objects[i] == View(CampaignKind, records[i])
  {
    objects := ModelBase.Manufacture(CampaignKind, records);
  }

  /** The value a sequence of `if (!empty($v)) $m[$key] = $v;` writes leave under a key that
      starts absent: the last non-empty value, if any. */
  function LastNonEmpty(vs: seq<Val>): Option<Val>
  {
    if vs == [] then None
    else if !Empty(vs[|vs| - 1]) then Some(vs[|vs| - 1])
    else LastNonEmpty(vs[..|vs| - 1])
  }

  /** `LastNonEmpty` is absent exactly when every value is empty, and otherwise is a non-empty
      value followed only by empty ones. */
  lemma {:induction false} LastNonEmptyIsLast(vs: seq<Val>)
    ensures LastNonEmpty(vs).None? <==> forall i :: 0 <= i < |vs| ==> Empty(vs[i])
    ensures LastNonEmpty(vs).Some? ==>
              exists i :: && 0 <= i < |vs| && vs[i] == LastNonEmpty(vs).value
                          && forall j :: i < j < |vs| ==> Empty(vs[j])
  {
    if vs != [] && Empty(vs[|vs| - 1]) {
      var init := vs[..|vs| - 1];
      LastNonEmptyIsLast(init);
      assert forall i :: 0 <= i < |init| ==> init[i] == vs[i];
      if LastNonEmpty(vs).Some? {
        var i :| && 0 <= i < |init| && init[i] == LastNonEmpty(init).value
                 && forall j :: i < j < |init| ==> Empty(init[j]);
        assert forall j :: i < j < |vs| ==> Empty(vs[j]);
      }
    } else if vs != [] {
      assert vs[|vs| - 1] == LastNonEmpty(vs).value;
    }
  }

  /** Appending a value: it becomes the last non-empty one unless it is empty itself. */
  lemma {:induction false} LastNonEmptySnoc(vs: seq<Val>, v: Val)
    ensures LastNonEmpty(vs + [v]) == if Empty(v) then LastNonEmpty(vs) else Some(v)
  {
    assert (vs + [v])[..|vs|] == vs;
  }

  /** The query's `id` entry is present exactly when `last` holds a value, and then holds it. */
  predicate Carries(query: map<string, Val>, last: Option<Val>) {
    ("id" in query <==> last.Some?) && (last.Some? ==> query["id"] == last.value)
  }

  /** The filters of `getCampaigns`, in the order they are written to the query. */
  function Filters(id: Val, name: Val, programName: Val, workspaceName: Val, nextPageToken: Val): seq<Val> {
    [id, name, programName, workspaceName, nextPageToken]
  }

  /** One conditional write, on the value the key holds so far. */
  function Overwrite(last: Option<Val>, v: Val): Option<Val> {
    if Empty(v) then last else Some(v)
  }

  /** What the five writes of `getCampaigns` leave under `id`, one write after another. */
  function Written(id: Val, name: Val, programName: Val, workspaceName: Val, nextPageToken: Val): Option<Val> {
    Overwrite(Overwrite(Overwrite(Overwrite(Overwrite(None, id), name), programName), workspaceName), nextPageToken)
  }

  /** The five writes of `getCampaigns`, one after another, leave the last non-empty filter. */
  lemma {:induction false} FiltersInOrder(id: Val, name: Val, programName: Val, workspaceName: Val, nextPageToken: Val)
    ensures Written(id, name, programName, workspaceName, nextPageToken) ==
            LastNonEmpty(Filters(id, name, programName, workspaceName, nextPageToken))
  {
    LastNonEmptySnoc([], id);
    assert [] + [id] == [id];
    LastNonEmptySnoc([id], name);
    assert [id] + [name] == [id, name];
    LastNonEmptySnoc([id, name], programName);
    assert [id, name] + [programName] == [id, name, programName];
    LastNonEmptySnoc([id, name, programName], workspaceName);
    assert [id, name, programName] + [workspaceName] == [id, name, programName, workspaceName];
    LastNonEmptySnoc([id, name, programName, workspaceName], nextPageToken);
    assert [id, name, programName, workspaceName] + [nextPageToken] == Filters(id, name, programName, workspaceName, nextPageToken);
  }

  /** `if (!empty($v)) $query['id'] = $v;` */
  function WriteId(query: map<string, Val>, v: Val): map<string, Val> {
    if Empty(v) then query else query["id" := v]
  }

  /** A query of `getCampaigns` so far: batch size, triggerable flag and `last` under `id`. */
  predicate Shaped(query: map<string, Val>, batchSize: Val, isTriggerable: Val, last: Option<Val>) {
    && query.Keys <= {"batchSize", "isTriggerable", "id"}
    && Has(query, "batchSize", batchSize) && Has(query, "isTriggerable", isTriggerable)
    && Carries(query, last)
  }

  lemma {:induction false} WriteIdStep(query: map<string, Val>, batchSize: Val, isTriggerable: Val, last: Option<Val>, v: Val)
    requires Shaped(query, batchSize, isTriggerable, last)
    ensures Shaped(WriteId(query, v), batchSize, isTriggerable, Overwrite(last, v))
  {
  }

  /** The five writes leave the batch size, the flag and the last non-empty filter. */
  lemma {:induction false} WritesCarry(batchSize: Val, isTriggerable: Val, id: Val, name: Val, programName: Val,
                                       workspaceName: Val, nextPageToken: Val)
    ensures Shaped(WriteId(WriteId(WriteId(WriteId(WriteId(
                     map["batchSize" := batchSize, "isTriggerable" := isTriggerable],
                     id), name), programName), workspaceName), nextPageToken),
                   batchSize, isTriggerable, LastNonEmpty(Filters(id, name, programName, workspaceName, nextPageToken)))
  {
    var q0 := map["batchSize" := batchSize, "isTriggerable" := isTriggerable];
    WriteIdStep(q0, batchSize, isTriggerable, None, id);
    var q1 := WriteId(q0, id);
    WriteIdStep(q1, batchSize, isTriggerable, Overwrite(None, id), name);
    var q2 := WriteId(q1, name);
    WriteIdStep(q2, batchSize, isTriggerable, Overwrite(Overwrite(None, id), name), programName);
    var q3 := WriteId(q2, programName);
    WriteIdStep(q3, batchSize, isTriggerable, Overwrite(Overwrite(Overwrite(None, id), name), programName), workspaceName);
    var q4 := WriteId(q3, workspaceName);
    WriteIdStep(q4, batchSize, isTriggerable, Overwrite(Overwrite(Overwrite(Overwrite(None, id), name), programName), workspaceName), nextPageToken);
    FiltersInOrder(id, name, programName, workspaceName, nextPageToken);
  }

  /** `getCampaigns`: batch size and triggerable flag always; the `id` entry holds what the five
      conditional writes leave, which `FiltersInOrder` shows to be the last non-empty of the id,
      name, program-name, workspace-name and page-token filters (absent when they are all empty). */
  method GetCampaigns(id: Val := Arr([]), name: Val := Arr([]), programName: Val := Arr([]),
                      workspaceName: Val := Arr([]), batchSize: Val := Int(300), nextPageToken: Val := Str(""),
                      isTriggerable: Val := Bool(false)) returns (b: Built)
    ensures Sent(b, "GET", "campaigns.json", Manufactured(CampaignKind))
    ensures QueryOf(b).Keys <= {"batchSize", "isTriggerable", "id"}
    ensures Has(QueryOf(b), "batchSize", batchSize) && Has(QueryOf(b), "isTriggerable", isTriggerable)
    ensures Carries(QueryOf(b), LastNonEmpty(Filters(id, name, programName, workspaceName, nextPageToken)))
    ensures BodyOf(b) == Client.NoBody
  {
    var query := map["batchSize" := batchSize, "isTriggerable" := isTriggerable];
    query := SetUnlessEmpty(query, "id", id);
    query := SetUnlessEmpty(query, "id", name);
    query := SetUnlessEmpty(query, "id", programName);
    query := SetUnlessEmpty(query, "id", workspaceName);
    query := SetUnlessEmpty(query, "id", nextPageToken);
    WritesCarry(batchSize, isTriggerable, id, name, programName, workspaceName, nextPageToken);
    QueryReachesSend("GET", "campaigns.json", query, Manufactured(CampaignKind));
    return Query("GET", "campaigns.json", query, Manufactured(CampaignKind));
  }

  /** With every filter at its default the query carries no `id` entry: the empty default page
      token is not written. */
  lemma DefaultsSendNoFilter()
    ensures LastNonEmpty(Filters(Arr([]), Arr([]), Arr([]), Arr([]), Str(""))).None?
  {
    FiltersInOrder(Arr([]), Arr([]), Arr([]), Arr([]), Str(""));
  }

  /** A non-empty page token overrides every other filter: it is what the `id` entry carries. */
  lemma {:induction false} PageTokenOverridesFilters(id: Val, name: Val, programName: Val, workspaceName: Val, nextPageToken: Val)
    requires !Empty(nextPageToken)
    ensures LastNonEmpty(Filters(id, name, programName, workspaceName, nextPageToken)) == Some(nextPageToken)
  {
    FiltersInOrder(id, name, programName, workspaceName, nextPageToken);
  }

  /** A non-empty name given together with a non-empty id replaces it: the campaign id is lost. */
  lemma {:induction false} NameReplacesId(id: Val, name: Val)
    requires !Empty(id) && !Empty(name)
    ensures LastNonEmpty(Filters(id, name, Arr([]), Arr([]), Str(""))) == Some(name)
  {
    FiltersInOrder(id, name, Arr([]), Arr([]), Str(""));
  }

  /** `getCampaignById` */
  function GetCampaignById(campaignId: Val): (b: Built)
    ensures Sent(b, "GET", "campaigns/" + ToText(campaignId) + ".json", Manufactured(CampaignKind))
    ensures QueryOf(b) == map[] && BodyOf(b) == Client.NoBody
  {
    Bare("GET", "campaigns/" + ToText(campaignId) + ".json", Manufactured(CampaignKind))
  }

  /** `scheduleCampaign`: the schedule data is posted under `input`. */
  function ScheduleCampaign(campaignId: Val, scheduleCampaignData: Val): (b: Built)
    ensures Sent(b, "POST", "campaigns/" + ToText(campaignId) + "/schedule.json", Manufactured(CampaignKind))
    ensures BodyOf(b) == Client.JsonBody(Obj(map["input" := scheduleCampaignData]))
  {
    Body("POST", "campaigns/" + ToText(campaignId) + "/schedule.json", Obj(map["input" := scheduleCampaignData]),
         Manufactured(CampaignKind))
  }

  /** `requestCampaign`: the trigger data is posted under `input`. */
  function RequestCampaign(campaignId: Val, triggerCampaignData: Val): (b: Built)
    ensures Sent(b, "POST", "campaigns/" + ToText(campaignId) + "/trigger.json", Manufactured(CampaignKind))
    ensures BodyOf(b) == Client.JsonBody(Obj(map["input" := triggerCampaignData]))
  {
    Body("POST", "campaigns/" + ToText(campaignId) + "/trigger.json", Obj(map["input" := triggerCampaignData]),
         Manufactured(CampaignKind))
  }
}
