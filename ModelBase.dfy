/**
  The record-view base class (src/Model/Model.php): every typed view stores the
  decoded record it was built from, verbatim, and exposes it through PHP's
  magic `__get` / `__isset`, guarded by the class's declared field list.

  The guard is written with `self::$fields`, which PHP binds to the base class
  Model itself, whose list is empty; so for every view and every name the guard
  fails, `__get` yields null and `__isset` is false.
*/
module ModelBase {
  import opened Php

  /** The concrete view classes whose objects the library builds. */
  datatype Kind =
    | LeadKind
    | LeadFieldKind
    | ActivityKind
    | ActivityTypeKind
    | CustomActivityKind
    | CustomActivityTypeKind
    | LeadChangeKind
    | BulkExportLeadKind
    | BulkExportProgramMemberKind
    | ExportKind
    | CustomObjectKind
    | ObjectMetaDataKind
    | OpportunityKind
    | SalesPersonKind
    | SmartListKind
    | StaticListsKind
    | CampaignKind

  /** A view object: its class and the record the constructor stored. */
  datatype View = View(kind: Kind, values: Val)

  /** `Model::$fields`, the list `self::$fields` denotes inside Model. */
  const BaseFields: Val := Arr([])

  /** The guard of `__get` and `__isset`, for a declared field list `declared`:
      the name is an element of the list and also addresses an entry of it. */
  predicate Guard(declared: Val, name: string) {
    InArray(Str(name), declared) && IsSet(declared, name)
  }

  /** `__get` with a given declared list: past the guard it reads `values['result'][name]`. */
  function GetWith(declared: Val, v: View, name: string): (r: Val)
    ensures !Guard(declared, name) ==> r == Null
  {
    if Guard(declared, name) then Lookup(Lookup(v.values, "result"), name) else Null
  }

  /** `Model::__get`: null for every view and every name. */
  function Get(v: View, name: string): (r: Val)
    ensures r == Null
  {
    GetWith(BaseFields, v, name)
  }

  /** `Model::__isset`: false for every view and every name. */
  predicate IsSetProperty(v: View, name: string)
    ensures !IsSetProperty(v, name)
  {
    Guard(BaseFields, name)
  }

  /** Even with a subclass's list of identifiers in place of `self::$fields`, the guard fails for
      every name: `isset($fields[$name])` on a list only succeeds for a decimal position. */
  lemma {:induction false} GuardFailsOnIdentifiers(declared: seq<string>, name: string)
    requires forall j :: 0 <= j < |declared| ==> ListIndex(declared[j]).None?
    ensures !Guard(Arr(seq(|declared|, j requires 0 <= j < |declared| => Str(declared[j]))), name)
  {
    var list := seq(|declared|, j requires 0 <= j < |declared| => Str(declared[j]));
    if InArray(Str(name), Arr(list)) {
      var j :| 0 <= j < |list| && list[j] == Str(name);
      assert declared[j] == name;
      assert !IsSet(Arr(list), name);
    }
  }

  /** Past the guard the read is always into the record's `result` entry. */
  lemma ReadTargetIsNestedResult(declared: Val, v: View, name: string)
    requires Guard(declared, name)
    ensures GetWith(declared, v, name) == Lookup(Lookup(v.values, "result"), name)
  {
  }

  /** A record without a `result` entry reads as null under every name, whatever it holds at
      its top level and whatever the declared list. */
  lemma {:induction false} TopLevelIsNotRead(declared: Val, kind: Kind, fields: map<string, Val>, name: string)
    requires "result" !in fields
    ensures GetWith(declared, View(kind, Obj(fields)), name) == Null
  {
    assert Lookup(Obj(fields), "result") == Null;
  }

  /** The guard can be passed: a declared list holding the decimal text of its own position.
      The record below holds the name at top level, and still reads as null. */
  lemma GuardCanPass()
    ensures var v := View(LeadKind, Obj(map["0" := Int(7)]));
            Guard(Arr([Str("0")]), "0") && GetWith(Arr([Str("0")]), v, "0") == Null && Lookup(v.values, "0") == Int(7)
  {
    assert ListIndex("0") == Some(0) by {
      assert IsCanonicalIndex("0");
      assert DigitsValue("0") == DigitsValue("0"[..0]) * 10 + DigitValue('0');
    }
  }

  /** `Lead::$fields`: the entries a response must have before it is read as a lead. */
  const LeadFields: seq<string> := ["id", "firstName", "lastName", "email", "updatedAt", "createdAt"]

  /** The `manufacture` loop each view class repeats: one view per record, in order. */
  method Manufacture(kind: Kind, records: seq<Val>) returns (objects: seq<View>)
    ensures |objects| == |records|
    ensures forall i :: 0 <= i < |records| ==> objects[i] == View(kind, records[i])
  {
    objects := [];
    for i := 0 to |records|
      invariant |objects| == i
      invariant forall j :: 0 <= j < i ==> objects[j] == View(kind, records[j])
    {
      objects := objects + [View(kind, records[i])];
    }
  }
}
