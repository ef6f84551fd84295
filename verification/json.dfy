/** Optional values, as Rust's `Option`. */
module Wrappers {
  datatype Option<+T> = None | Some(value: T)
}

/**
 * JSON values as serde_json produces them. Objects keep their fields in
 * serialisation order (serde emits a struct's fields in declaration order).
 * Floating-point numbers are opaque: the driver stores and copies them and
 * never computes with them.
 */
module Json {
  import opened Wrappers

  /** An IEEE-754 double, kept as its bit pattern. */
  datatype F64 = F64(bits: bv64)

  datatype Json =
    | JNull
    | JBool(b: bool)
    | JInt(i: int)
    | JFloat(f: F64)
    | JStr(s: string)
    | JArr(items: seq<Json>)
    | JObj(fields: seq<Field>)

  datatype Field = Field(key: string, value: Json)

  /** The value stored under `key` (the first such field), if any. */
  function Get(fields: seq<Field>, key: string): (r: Option<Json>)
    ensures r.Some? <==> exists i :: 0 <= i < |fields| && fields[i].key == key
  {
    if fields == [] then None
    else if fields[0].key == key then Some(fields[0].value)
    else
      var rest := Get(fields[1..], key);
      assert forall i :: 1 <= i < |fields| ==> fields[i] == fields[1..][i - 1];
      rest
  }

  /** One entry of an option struct: a key and the field's value, if set. */
  datatype Entry = Entry(key: string, value: Option<Json>)

  ghost predicate DistinctKeys(entries: seq<Entry>) {
    forall i, j :: 0 <= i < j < |entries| ==> entries[i].key != entries[j].key
  }

  /**
   * A struct whose `Option` fields all carry serde's
   * `skip_serializing_if = "Option::is_none"`: unset fields are left out,
   * set fields are written in declaration order.
   */
  function SparseObject(entries: seq<Entry>): (r: seq<Field>)
    ensures |r| <= |entries|
    ensures forall f :: f in r ==> exists e :: e in entries && e.key == f.key && e.value == Some(f.value)
  {
    if entries == [] then []
    else
      (if entries[0].value.Some? then [Field(entries[0].key, entries[0].value.value)] else [])
      + SparseObject(entries[1..])
  }

  /**
   * In a sparse object each key is present exactly when its field is set,
   * and then carries the field's value.
   */
  lemma {:induction false} SparseObjectGet(entries: seq<Entry>, k: nat)
    requires DistinctKeys(entries) && k < |entries|
    ensures Get(SparseObject(entries), entries[k].key) == entries[k].value
  {
    var head := if entries[0].value.Some? then [Field(entries[0].key, entries[0].value.value)] else [];
    assert SparseObject(entries) == head + SparseObject(entries[1..]);
    if k == 0 {
      if entries[0].value.None? {
        SparseObjectOmits(entries[1..], entries[0].key);
      }
    } else {
      assert DistinctKeys(entries[1..]) by {
        forall i, j | 0 <= i < j < |entries[1..]|
          ensures entries[1..][i].key != entries[1..][j].key
        {
          assert entries[1..][i] == entries[i + 1] && entries[1..][j] == entries[j + 1];
        }
      }
      assert entries[1..][k - 1] == entries[k];
      SparseObjectGet(entries[1..], k - 1);
      GetSkipsHead(head, SparseObject(entries[1..]), entries[k].key);
    }
  }

  /** A key that no entry carries is absent from the sparse object. */
  lemma {:induction false} SparseObjectOmits(entries: seq<Entry>, key: string)
    requires forall e :: e in entries ==> e.key != key
    ensures Get(SparseObject(entries), key) == None
  {
  }

  /** Fields in front whose keys differ do not hide a later field. */
  lemma {:induction false} GetSkipsHead(head: seq<Field>, rest: seq<Field>, key: string)
    requires forall f :: f in head ==> f.key != key
    ensures Get(head + rest, key) == Get(rest, key)
  {
    if head != [] {
      assert (head + rest)[1..] == head[1..] + rest;
      assert head[0] in head && (head + rest)[0] == head[0];
      GetSkipsHead(head[1..], rest, key);
      assert Get(head + rest, key) == Get((head + rest)[1..], key);
    } else {
      assert head + rest == rest;
    }
  }
}
