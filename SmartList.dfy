/**
  Smart-list asset requests (src/Model/SmartList.php). The signatures carry PHP
  type declarations: `int` ids, `string` names, and nullable `string` options,
  which become `Option<string>` here.
*/
module SmartList {
  import opened Php
  import opened ModelBase
  import opened Requests
  import Client

  /** `manufacture`: one smart-list view per record, in order. */
  method Manufacture(records: seq<Val>) returns (objects: seq<View>)
    ensures |objects| == |records|
    ensures forall i :: 0 <= i < |records| ==> objects[i] == View(SmartListKind, records[i])
  {
    objects := ModelBase.Manufacture(SmartListKind, records);
  }

  /** `getSmartListById`: the rules flag (false by default) is the only query entry. */
  function GetSmartListById(smartListId: int, includeRules: Val := Bool(false)): (b: Built)
    ensures Sent(b, "GET", "rest/asset/v1/smartList/" + IntToString(smartListId) + ".json", Manufactured(SmartListKind))
    ensures QueryOf(b) == map["includeRules" := includeRules] && BodyOf(b) == Client.NoBody
  {
    Query("GET", "rest/asset/v1/smartList/" + IntToString(smartListId) + ".json", map["includeRules" := includeRules],
          Manufactured(SmartListKind))
  }

  /** `getSmartListByName`: the name is the only query entry. */
  function GetSmartListByName(name: string): (b: Built)
    ensures Sent(b, "GET", "rest/asset/v1/smartList/byName.json", Manufactured(SmartListKind))
    ensures QueryOf(b) == map["name" := Str(name)] && BodyOf(b) == Client.NoBody
  {
    Query("GET", "rest/asset/v1/smartList/byName.json", map["name" := Str(name)], Manufactured(SmartListKind))
  }

  /** `deleteSmartList`: the answer of `send` is returned as it is. */
  function DeleteSmartList(smartListId: int): (b: Built)
    ensures Sent(b, "POST", "rest/asset/v1/smartList/" + IntToString(smartListId) + "/delete.json", Unwrapped)
    ensures QueryOf(b) == map[] && BodyOf(b) == Client.NoBody
  {
    Bare("POST", "rest/asset/v1/smartList/" + IntToString(smartListId) + "/delete.json", Unwrapped)
  }

  /** The entry an optional string contributes when present. */
  predicate PutIfGiven(m: map<string, Val>, key: string, v: Option<string>) {
    (key in m <==> v.Some?) && (v.Some? ==> m[key] == Str(v.value))
  }

  /** `getSmartLists`: page size (20 by default) and offset (0 by default) always; folder and the
      update-time bounds only when given. */
  method GetSmartLists(folder: Option<string> := None, offset: int := 0, maxReturn: int := 20,
                       earliestUpdatedAt: Option<string> := None, latestUpdatedAt: Option<string> := None)
    returns (b: Built)
    ensures Sent(b, "GET", "rest/asset/v1/smartLists.json", Manufactured(SmartListKind))
    ensures QueryOf(b).Keys <= {"maxReturn", "offset", "folder", "earliestUpdatedAt", "latestUpdatedAt"}
    ensures Has(QueryOf(b), "maxReturn", Int(maxReturn)) && Has(QueryOf(b), "offset", Int(offset))
    ensures && PutIfGiven(QueryOf(b), "folder", folder)
            && PutIfGiven(QueryOf(b), "earliestUpdatedAt", earliestUpdatedAt)
            && PutIfGiven(QueryOf(b), "latestUpdatedAt", latestUpdatedAt)
    ensures BodyOf(b) == Client.NoBody
  {
    var query := map["maxReturn" := Int(maxReturn), "offset" := Int(offset)];
    if folder.Some? {
      query := query["folder" := Str(folder.value)];
    }
    if earliestUpdatedAt.Some? {
      query := query["earliestUpdatedAt" := Str(earliestUpdatedAt.value)];
    }
    if latestUpdatedAt.Some? {
      query := query["latestUpdatedAt" := Str(latestUpdatedAt.value)];
    }
    return Query("GET", "rest/asset/v1/smartLists.json", query, Manufactured(SmartListKind));
  }

  /** `cloneSmartList`: the body is exactly name and folder. The description is written into a
      local map that is never sent, so it never reaches the server. */
  method CloneSmartList(smartListId: int, name: string, folder: string, description: Option<string> := None)
    returns (b: Built)
    ensures Sent(b, "POST", "rest/asset/v1/smartList/" + IntToString(smartListId) + "/clone.json", Manufactured(SmartListKind))
    ensures BodyOf(b) == Client.JsonBody(Obj(map["name" := Str(name), "folder" := Str(folder)]))
    ensures "description" !in JsonFields(b) && QueryOf(b) == map[]
  {
    var body := map["name" := Str(name), "folder" := Str(folder)];
    var query: map<string, Val> := map[];
    if description.Some? {
      query := query["description" := Str(description.value)];
    }
    return Body("POST", "rest/asset/v1/smartList/" + IntToString(smartListId) + "/clone.json", Obj(body),
                Manufactured(SmartListKind));
  }
}
