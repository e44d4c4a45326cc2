/** A value as `JSON.parse` returns it: the input the import validators inspect. */
module Json {
  import opened Wrappers

  datatype Json =
    | JNull
    | JBool(b: bool)
    | JNumber(n: int)
    | JString(s: string)
    | JArray(items: seq<Json>)
    | JObject(fields: seq<(string, Json)>)

  /** `obj[key]` over an object's members in text order: the last member named `key`,
      since `JSON.parse` lets a later duplicate overwrite an earlier one. */
  function Lookup(fields: seq<(string, Json)>, key: string): Option<Json> {
    if fields == [] then None
    else if fields[|fields| - 1].0 == key then Some(fields[|fields| - 1].1)
    else Lookup(fields[..|fields| - 1], key)
  }

  /** `j.key` when `j` is an object or an array: only objects carry members here. */
  function Property(j: Json, key: string): Option<Json> {
    match j
    case JObject(fields) => Lookup(fields, key)
    case _ => None
  }

  function FieldKeys(fields: seq<(string, Json)>): set<string> {
    set f | f in fields :: f.0
  }

  predicate UniqueMembers(fields: seq<(string, Json)>) {
    forall i, j :: 0 <= i < j < |fields| ==> fields[i].0 != fields[j].0
  }

  /** A member is found exactly when its key is present; with unique keys, the value found is that member's. */
  lemma {:induction false} LookupFound(fields: seq<(string, Json)>, i: nat)
    requires i < |fields| && UniqueMembers(fields)
    ensures Lookup(fields, fields[i].0) == Some(fields[i].1)
  {
    if i < |fields| - 1 {
      LookupFound(fields[..|fields| - 1], i);
    }
  }

  lemma {:induction false} LookupAbsent(fields: seq<(string, Json)>, key: string)
    requires key !in FieldKeys(fields)
    ensures Lookup(fields, key) == None
  {
    if fields != [] {
      assert fields[|fields| - 1] in fields;
      assert FieldKeys(fields[..|fields| - 1]) <= FieldKeys(fields) by {
        forall f | f in fields[..|fields| - 1] ensures f in fields {
        }
      }
      LookupAbsent(fields[..|fields| - 1], key);
    }
  }

  lemma {:induction false} LookupPresent(fields: seq<(string, Json)>, key: string)
    requires key in FieldKeys(fields)
    ensures Lookup(fields, key).Some?
  {
    var f :| f in fields && f.0 == key;
    var i :| 0 <= i < |fields| && fields[i] == f;
    if i < |fields| - 1 && fields[|fields| - 1].0 != key {
      assert fields[..|fields| - 1][i] == f;
      LookupPresent(fields[..|fields| - 1], key);
    }
  }
}
