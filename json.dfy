/** JSON-shaped Python values: the dictionaries and lists the core sends to the event
    topic, receives from the language model and writes to the warehouse. */
module Json {
  import opened Wrappers

  /** A JSON value. Objects keep their keys in insertion order, as Python dictionaries do. */
  datatype Json =
    | JNull
    | JBool(b: bool)
    | JInt(i: int)
    | JNum(r: real)
    | JStr(s: string)
    | JList(items: seq<Json>)
    | JObj(fields: seq<(string, Json)>)

  /** The position of the last binding of `key`, or -1 when there is none. */
  function LastIndexOf(fields: seq<(string, Json)>, key: string): (i: int)
    ensures -1 <= i < |fields|
    ensures i == -1 <==> forall k :: 0 <= k < |fields| ==> fields[k].0 != key
    ensures i >= 0 ==> fields[i].0 == key && forall k :: i < k < |fields| ==> fields[k].0 != key
  {
    if fields == [] then -1
    else if fields[|fields| - 1].0 == key then |fields| - 1
    else LastIndexOf(fields[..|fields| - 1], key)
  }

  /** `d.get(key)` on a dictionary written as a sequence of bindings: when a key is bound
      twice (a literal or a JSON text that repeats it) the last binding wins. */
  function Lookup(fields: seq<(string, Json)>, key: string): (r: Option<Json>)
    ensures r.None? <==> forall k :: 0 <= k < |fields| ==> fields[k].0 != key
    ensures r.Some? ==> (key, r.value) in fields
  {
    var i := LastIndexOf(fields, key);
    if i < 0 then None else Some(fields[i].1)
  }

  /** A binding that no later binding overrides is the one `Lookup` finds. */
  lemma LookupLast(fields: seq<(string, Json)>, i: int, key: string)
    requires 0 <= i < |fields| && fields[i].0 == key
    requires forall k :: i < k < |fields| ==> fields[k].0 != key
    ensures Lookup(fields, key) == Some(fields[i].1)
  {
    var j := LastIndexOf(fields, key);
  }

  /** A dictionary literal: `keys[i]` bound to `values[i]`, in order. */
  function Zip(keys: seq<string>, values: seq<Json>): (f: seq<(string, Json)>)
    requires |keys| == |values|
    ensures |f| == |keys| && forall i :: 0 <= i < |f| ==> f[i] == (keys[i], values[i])
  {
    if keys == [] then [] else [(keys[0], values[0])] + Zip(keys[1..], values[1..])
  }

  /** The keys of a literal are the keys written in it. */
  lemma KeysOfZip(keys: seq<string>, values: seq<Json>)
    requires |keys| == |values|
    ensures Keys(Zip(keys, values)) == keys
  {
    var f := Zip(keys, values);
    assert forall i :: 0 <= i < |keys| ==> Keys(f)[i] == keys[i];
  }

  /** The keys of a literal are pairwise distinct. */
  predicate DistinctKeys(keys: seq<string>) {
    forall i, j :: 0 <= i < j < |keys| ==> keys[i] != keys[j]
  }

  /** In a literal whose keys are distinct, every key finds the value written beside it. */
  lemma LookupZip(keys: seq<string>, values: seq<Json>, i: int)
    requires |keys| == |values| && 0 <= i < |keys| && DistinctKeys(keys)
    ensures Lookup(Zip(keys, values), keys[i]) == Some(values[i])
  {
    LookupLast(Zip(keys, values), i, keys[i]);
  }

  /** `key in d`. */
  predicate HasKey(j: Json, key: string) {
    j.JObj? && Lookup(j.fields, key).Some?
  }

  /** The keys of a dictionary, in insertion order. */
  function Keys(fields: seq<(string, Json)>): (r: seq<string>)
    ensures |r| == |fields| && forall i :: 0 <= i < |fields| ==> r[i] == fields[i].0
  {
    if fields == [] then [] else [fields[0].0] + Keys(fields[1..])
  }

  /** Python truthiness of a JSON value. */
  predicate Truthy(j: Json) {
    match j
    case JNull => false
    case JBool(b) => b
    case JInt(i) => i != 0
    case JNum(r) => r != 0.0
    case JStr(s) => s != ""
    case JList(items) => items != []
    case JObj(fields) => fields != []
  }

  /** A string or `None`, the encoding of an optional text field. */
  function OptStr(s: Option<string>): Json {
    match s
    case None => JNull
    case Some(v) => JStr(v)
  }

  /** A list of strings. */
  function StrList(xs: seq<string>): (r: Json)
    ensures r.JList? && |r.items| == |xs|
    ensures forall i :: 0 <= i < |xs| ==> r.items[i] == JStr(xs[i])
  {
    if xs == [] then JList([]) else JList([JStr(xs[0])] + StrList(xs[1..]).items)
  }
}
