/**
  Folder asset requests (src/Model/Folders.php). Every optional entry is added
  under `is_null`. Its `manufacture` builds static-list views, not folder views.
*/
module Folders {
  import opened Php
  import opened ModelBase
  import opened Requests
  import Client

  /** `manufacture`: one view per record, in order, each of them a static list. */
  method Manufacture(records: seq<Val>) returns (objects: seq<View>)
    ensures |objects| == |records|
    ensures forall i :: 0 <= i < |records| ==> objects[i] == View(StaticListsKind, records[i])
  {
    objects := ModelBase.Manufacture(StaticListsKind, records);
  }

  /** `getFolderByName`: the name always; type, root and workspace only when not null. */
  method GetFolderByName(name: Val, folderType: Val := Null, root: Val := Null, workSpace: Val := Null) returns (b: Built)
    ensures Sent(b, "GET", "rest/asset/v1/folder/byName.json", Manufactured(StaticListsKind))
    ensures QueryOf(b).Keys <= {"name", "type", "root", "workSpace"}
    ensures Has(QueryOf(b), "name", name)
    ensures && PutUnlessNull(QueryOf(b), "type", folderType)
            && PutUnlessNull(QueryOf(b), "root", root)
            && PutUnlessNull(QueryOf(b), "workSpace", workSpace)
    ensures BodyOf(b) == Client.NoBody
  {
    var query := map["name" := name];
    if !IsNull(folderType) {
      query := query["type" := folderType];
    }
    if !IsNull(root) {
      query := query["root" := root];
    }
    if !IsNull(workSpace) {
      query := query["workSpace" := workSpace];
    }
    return Query("GET", "rest/asset/v1/folder/byName.json", query, Manufactured(StaticListsKind));
  }

  /** `getFolderById`: the type (by default `Folder`) is the only query entry. */
  function GetFolderById(id: Val, folderType: Val := Str("Folder")): (b: Built)
    ensures Sent(b, "GET", "rest/asset/v1/folder/" + ToText(id) + ".json", Manufactured(StaticListsKind))
    ensures QueryOf(b) == map["type" := folderType] && BodyOf(b) == Client.NoBody
  {
    Query("GET", "rest/asset/v1/folder/" + ToText(id) + ".json", map["type" := folderType], Manufactured(StaticListsKind))
  }

  /** `updateFolderMetadata`: the type always; name, archive flag and description only when not null. */
  method UpdateFolderMetadata(id: Val, folderType: Val, name: Val := Null, isArchive: Val := Null,
                              description: Val := Null) returns (b: Built)
    ensures Sent(b, "POST", "rest/asset/v1/folder/" + ToText(id) + ".json", Unwrapped)
    ensures BodyOf(b).JsonBody?
    ensures JsonFields(b).Keys <= {"type", "name", "isArchive", "description"}
    ensures Has(JsonFields(b), "type", folderType)
    ensures && PutUnlessNull(JsonFields(b), "name", name)
            && PutUnlessNull(JsonFields(b), "isArchive", isArchive)
            && PutUnlessNull(JsonFields(b), "description", description)
  {
    var body := map["type" := folderType];
    if !IsNull(name) {
      body := body["name" := name];
    }
    if !IsNull(isArchive) {
      body := body["isArchive" := isArchive];
    }
    if !IsNull(description) {
      body := body["description" := description];
    }
    return Body("POST", "rest/asset/v1/folder/" + ToText(id) + ".json", Obj(body), Unwrapped);
  }

  /** `getFolderContents`: type (by default `Folder`) and page size (by default 20) always; the
      offset only when not null. */
  method GetFolderContents(id: Val, folderType: Val := Str("Folder"), maxReturn: Val := Int(20), offset: Val := Null)
    returns (b: Built)
    ensures Sent(b, "GET", "rest/asset/v1/folder/" + ToText(id) + "/content.json", Unwrapped)
    ensures QueryOf(b).Keys <= {"type", "maxReturn", "offset"}
    ensures Has(QueryOf(b), "type", folderType) && Has(QueryOf(b), "maxReturn", maxReturn)
    ensures PutUnlessNull(QueryOf(b), "offset", offset)
    ensures BodyOf(b) == Client.NoBody
  {
    var query := map["type" := folderType, "maxReturn" := maxReturn];
    if !IsNull(offset) {
      query := query["offset" := offset];
    }
    return Query("GET", "rest/asset/v1/folder/" + ToText(id) + "/content.json", query, Unwrapped);
  }

  /** `deleteFolder`: the type (by default `Folder`) is posted. */
  function DeleteFolder(id: Val, folderType: Val := Str("Folder")): (b: Built)
    ensures Sent(b, "POST", "rest/asset/v1/folder/" + ToText(id) + "/delete.json", Unwrapped)
    ensures BodyOf(b) == Client.JsonBody(Obj(map["type" := folderType]))
  {
    Body("POST", "rest/asset/v1/folder/" + ToText(id) + "/delete.json", Obj(map["type" := folderType]), Unwrapped)
  }

  /** `getFolders`: depth (2), page size (20) and offset (0) always; root and workspace only when
      not null. */
  method GetFolders(root: Val := Null, maxDepth: Val := Int(2), maxReturn: Val := Int(20), offset: Val := Int(0),
                    workSpace: Val := Null) returns (b: Built)
    ensures Sent(b, "GET", "rest/asset/v1/folders.json", Manufactured(StaticListsKind))
    ensures QueryOf(b).Keys <= {"maxDepth", "maxReturn", "offset", "root", "workSpace"}
    ensures && Has(QueryOf(b), "maxDepth", maxDepth)
            && Has(QueryOf(b), "maxReturn", maxReturn)
            && Has(QueryOf(b), "offset", offset)
    ensures PutUnlessNull(QueryOf(b), "root", root) && PutUnlessNull(QueryOf(b), "workSpace", workSpace)
    ensures BodyOf(b) == Client.NoBody
  {
    var query := map["maxDepth" := maxDepth, "maxReturn" := maxReturn, "offset" := offset];
    if !IsNull(root) {
      query := query["root" := root];
    }
    if !IsNull(workSpace) {
      query := query["workSpace" := workSpace];
    }
    return Query("GET", "rest/asset/v1/folders.json", query, Manufactured(StaticListsKind));
  }

  /** `createFolder`: the name always; parent and description only when not null. */
  method CreateFolder(name: Val, parent: Val := Null, description: Val := Null) returns (b: Built)
    ensures Sent(b, "POST", "rest/asset/v1/folders.json", Unwrapped)
    ensures BodyOf(b).JsonBody?
    ensures JsonFields(b).Keys <= {"name", "parent", "description"}
    ensures Has(JsonFields(b), "name", name)
    ensures PutUnlessNull(JsonFields(b), "parent", parent) && PutUnlessNull(JsonFields(b), "description", description)
  {
    var body := map["name" := name];
    if !IsNull(parent) {
      body := body["parent" := parent];
    }
    if !IsNull(description) {
      body := body["description" := description];
    }
    return Body("POST", "rest/asset/v1/folders.json", Obj(body), Unwrapped);
  }
}
