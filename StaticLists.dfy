/**
  Static-list asset requests (src/Model/StaticLists.php). Bodies and queries are
  built by successive conditional writes; creation overwrites the folder entry
  with its JSON text and posts the result form-encoded.
*/
module StaticLists {
  import opened Php
  import opened ModelBase
  import opened Requests
  import Client

  /** `manufacture`: one static-list view per record, in order. */
  method Manufacture(records: seq<Val>) returns (objects: seq<View>)
    ensures |objects| == |records|
    ensures forall i :: 0 <= i < |records| ==> objects[i] == View(StaticListsKind, records[i])
  {
    objects := ModelBase.Manufacture(StaticListsKind, records);
  }

  /** The folder reference a new list is created in. */
  function FolderRef(folderId: Val): Val {
    Obj(map["id" := folderId, "type" := Str("Folder")])
  }

  /** `createStaticList`: name, the folder reference as JSON text, and the description only when
      not null, posted form-encoded (there is no `body` entry to take precedence). */
  method CreateStaticList(codec: Client.Codec, name: Val, folderId: Val, description: Val := Null) returns (b: Built)
    ensures Sent(b, "POST", "rest/asset/v1/staticLists.json", Manufactured(StaticListsKind))
    ensures BodyOf(b).FormBody? && BodyOf(b).payload.Obj?
    ensures BodyOf(b).payload.fields.Keys <= {"name", "folder", "description"}
    ensures Has(BodyOf(b).payload.fields, "name", name)
    ensures Has(BodyOf(b).payload.fields, "folder", Str(codec.jsonEncode(FolderRef(folderId))))
    ensures PutUnlessNull(BodyOf(b).payload.fields, "description", description)
    ensures QueryOf(b) == map[]
  {
    var body := map["name" := name, "folder" := FolderRef(folderId)];
    if !IsNull(description) {
      body := body["description" := description];
    }
    body := body["folder" := Str(codec.jsonEncode(body["folder"]))];
    return Sends(Call("POST", "rest/asset/v1/staticLists.json", map["form-encode" := Obj(body)], false,
                      Manufactured(StaticListsKind)));
  }

  /** `getStaticListById` */
  function GetStaticListById(id: Val): (b: Built)
    ensures Sent(b, "GET", "rest/asset/v1/staticList/" + ToText(id) + ".json", Manufactured(StaticListsKind))
    ensures QueryOf(b) == map[] && BodyOf(b) == Client.NoBody
  {
    Bare("GET", "rest/asset/v1/staticList/" + ToText(id) + ".json", Manufactured(StaticListsKind))
  }

  /** `updateStaticListMetadata`: returns null without a request when both name and description
      are null; otherwise posts exactly the ones that are not null. */
  method UpdateStaticListMetadata(id: Val, name: Val := Null, description: Val := Null) returns (b: Built)
    ensures b.Skipped? <==> IsNull(name) && IsNull(description)
    ensures !b.Skipped? ==> Sent(b, "POST", "rest/asset/v1/staticList/" + ToText(id) + ".json", Unwrapped)
    ensures !b.Skipped? ==> BodyOf(b).JsonBody? && JsonFields(b).Keys <= {"name", "description"}
    ensures !b.Skipped? ==> PutUnlessNull(JsonFields(b), "name", name) && PutUnlessNull(JsonFields(b), "description", description)
  {
    var body: map<string, Val> := map[];
    if !IsNull(name) {
      body := body["name" := name];
    }
    if !IsNull(description) {
      body := body["description" := description];
    }
    assert ("name" in body <==> !IsNull(name)) && ("description" in body <==> !IsNull(description));
    if Empty(Obj(body)) {
      return Skipped;
    }
    return Body("POST", "rest/asset/v1/staticList/" + ToText(id) + ".json", Obj(body), Unwrapped);
  }

  /** `getStaticLists`: each entry only when not null; with the defaults, offset 0 and page size 20
      are present. */
  method GetStaticLists(folder: Val := Null, offset: Val := Int(0), maxReturn: Val := Int(20),
                        earliestUpdatedAt: Val := Null, lastUpdatedAt: Val := Null) returns (b: Built)
    ensures Sent(b, "GET", "rest/asset/v1/staticLists.json", Manufactured(StaticListsKind))
    ensures QueryOf(b).Keys <= {"folder", "offset", "maxReturn", "earliestUpdatedAt", "lastUpdatedAt"}
    ensures && PutUnlessNull(QueryOf(b), "folder", folder)
            && PutUnlessNull(QueryOf(b), "offset", offset)
            && PutUnlessNull(QueryOf(b), "maxReturn", maxReturn)
            && PutUnlessNull(QueryOf(b), "earliestUpdatedAt", earliestUpdatedAt)
            && PutUnlessNull(QueryOf(b), "lastUpdatedAt", lastUpdatedAt)
    ensures BodyOf(b) == Client.NoBody
  {
    var query: map<string, Val> := map[];
    query := SetUnlessNull(query, "folder", folder);
    query := SetUnlessNull(query, "offset", offset);
    query := SetUnlessNull(query, "maxReturn", maxReturn);
    query := SetUnlessNull(query, "earliestUpdatedAt", earliestUpdatedAt);
    query := SetUnlessNull(query, "lastUpdatedAt", lastUpdatedAt);
    QueryReachesSend("GET", "rest/asset/v1/staticLists.json", query, Manufactured(StaticListsKind));
    return Query("GET", "rest/asset/v1/staticLists.json", query, Manufactured(StaticListsKind));
  }

  /** `getStaticListByName`: the name is the only query entry. */
  function GetStaticListByName(name: Val): (b: Built)
    ensures Sent(b, "GET", "rest/asset/v1/staticList/byName.json", Manufactured(StaticListsKind))
    ensures QueryOf(b) == map["name" := name] && BodyOf(b) == Client.NoBody
  {
    Query("GET", "rest/asset/v1/staticList/byName.json", map["name" := name], Manufactured(StaticListsKind))
  }

  /** `deleteStaticList`: the answer of `send` is returned as it is. */
  function DeleteStaticList(id: Val): (b: Built)
    ensures Sent(b, "POST", "rest/asset/v1/staticList/" + ToText(id) + "/delete.json", Unwrapped)
    ensures QueryOf(b) == map[] && BodyOf(b) == Client.NoBody
  {
    Bare("POST", "rest/asset/v1/staticList/" + ToText(id) + "/delete.json", Unwrapped)
  }
}
