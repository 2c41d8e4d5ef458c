/** An already-parsed JSON document and the few Jackson `JsonNode` accessors the
    OSRM parser uses. Objects keep their fields in document order. */
module Json {
  import opened Model

  datatype Json =
    | JNull
    | JBool(b: bool)
    | JNum(n: real)
    | JStr(s: string)
    | JArr(items: seq<Json>)
    | JObj(fields: seq<(string, Json)>)

  /** `node.get(key)` on an object: the value of the last field with that name (the tree
      reader keeps the last of repeated keys); null (None) otherwise. */
  function Field(node: Json, key: string): (r: Option<Json>)
    ensures r.Some? ==> node.JObj? && exists i :: 0 <= i < |node.fields| && node.fields[i] == (key, r.value)
                                                 && forall j :: i < j < |node.fields| ==> node.fields[j].0 != key
    ensures r.None? ==> !node.JObj? || forall i :: 0 <= i < |node.fields| ==> node.fields[i].0 != key
  {
    if node.JObj? then FieldIn(node.fields, key) else None
  }

  function FieldIn(fields: seq<(string, Json)>, key: string): (r: Option<Json>)
    ensures r.Some? ==> exists i :: 0 <= i < |fields| && fields[i] == (key, r.value)
                                    && forall j :: i < j < |fields| ==> fields[j].0 != key
    ensures r.None? ==> forall i :: 0 <= i < |fields| ==> fields[i].0 != key
  {
    if fields == [] then None
    else if fields[|fields| - 1].0 == key then Some(fields[|fields| - 1].1)
    else
      var r := FieldIn(fields[..|fields| - 1], key);
      assert forall i :: 0 <= i < |fields| - 1 ==> fields[i] == fields[..|fields| - 1][i];
      r
  }

  /** `node.has(key)`: true for an object holding the field, even when its value is JSON null. */
  predicate Has(node: Json, key: string)
  {
    Field(node, key).Some?
  }

  /** `node.get(key)` after `node.has(key)`. */
  function Get(node: Json, key: string): Json
    requires Has(node, key)
  {
    Field(node, key).value
  }

  /** `node.isArray()`. */
  predicate IsArray(node: Json)
  {
    node.JArr?
  }

  /** `node.size()`: elements of an array, fields of an object, 0 for a value. */
  function Size(node: Json): nat
  {
    match node
    case JArr(items) => |items|
    case JObj(fields) => |fields|
    case _ => 0
  }

  /** What `for (JsonNode x : node)` visits: array elements, object field values,
      nothing for a value node. */
  function Elements(node: Json): (r: seq<Json>)
    ensures |r| == Size(node)
    ensures node.JArr? ==> r == node.items
    ensures node.JObj? ==> forall i :: 0 <= i < |r| ==> r[i] == node.fields[i].1
    ensures !node.JArr? && !node.JObj? ==> r == []
  {
    match node
    case JArr(items) => items
    case JObj(fields) => seq(|fields|, i requires 0 <= i < |fields| => fields[i].1)
    case _ => []
  }

  /** `node.asDouble()`: a number's value, 1.0 / 0.0 for booleans, 0.0 otherwise.
      Jackson parses the text of a string node; that parse is not modelled and gives 0.0. */
  function AsDouble(node: Json): real
  {
    match node
    case JNum(n) => n
    case JBool(b) => if b then 1.0 else 0.0
    case _ => 0.0
  }

  /** `node.asText(fallback)`: a string's text, the fallback for JSON null, the literal
      of a boolean, the printed number (via `show`), and "" for arrays and objects. */
  function AsText(node: Json, fallback: string, show: real -> string): string
  {
    match node
    case JStr(s) => s
    case JNull => fallback
    case JBool(b) => if b then "true" else "false"
    case JNum(n) => show(n)
    case _ => ""
  }

  /** `node.has(key) && node.get(key).isArray()`, returning the elements. */
  function ArrayField(node: Json, key: string): Option<seq<Json>>
  {
    if Has(node, key) && IsArray(Get(node, key)) then Some(Get(node, key).items) else None
  }
}
