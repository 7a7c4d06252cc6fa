/**
 * The parsed JSON tree that Jackson's ObjectMapper.readTree hands to the
 * decoders, and the JsonNode accessors they use. Parsing itself is not part of
 * the model: a decoder receives the tree (or None when readTree threw).
 *
 * A numeral, whether it came quoted ("4450.16") or bare (4450.16), is a JNum
 * carrying the text that asText() reports and its exact value; JStr is text
 * that is not a numeral; JBool and JNull are the literals. An object keeps its fields in insertion order; an
 * ObjectNode never holds two fields with one name, so lookups take the first.
 */
module Json {
  import opened Wrappers

  datatype Number = Number(text: string, value: real)

  datatype Json =
    | JObj(fields: seq<Field>)
    | JArr(items: seq<Json>)
    | JStr(s: string)
    | JNum(n: Number)
    | JBool(b: bool)
    | JNull

  datatype Field = Field(key: string, value: Json)

  function Lookup(fields: seq<Field>, key: string): (r: Option<Json>)
    ensures r.Some? ==> exists i :: 0 <= i < |fields| && fields[i] == Field(key, r.value)
    ensures r.None? ==> forall i :: 0 <= i < |fields| ==> fields[i].key != key
  {
    if fields == [] then None
    else if fields[0].key == key then Some(fields[0].value)
    else Lookup(fields[1..], key)
  }

  /** An object's field names are pairwise different. */
  predicate DistinctKeys(fields: seq<Field>) {
    forall i, j :: 0 <= i < j < |fields| ==> fields[i].key != fields[j].key
  }

  /** With distinct names, looking a field's name up finds that field. */
  lemma {:induction false} LookupDistinct(fields: seq<Field>, i: int)
    requires DistinctKeys(fields) && 0 <= i < |fields|
    ensures Lookup(fields, fields[i].key) == Some(fields[i].value)
  {
    if i > 0 {
      assert fields[0].key != fields[i].key;
      assert fields[1..][i - 1] == fields[i];
      assert DistinctKeys(fields[1..]) by {
        forall a, b | 0 <= a < b < |fields[1..]| ensures fields[1..][a].key != fields[1..][b].key {
          assert fields[1..][a] == fields[a + 1] && fields[1..][b] == fields[b + 1];
        }
      }
      LookupDistinct(fields[1..], i - 1);
    }
  }

  /** JsonNode.get(name): the field's value on an object, null (None) on anything else. */
  function Get(j: Json, key: string): Option<Json> {
    if j.JObj? then Lookup(j.fields, key) else None
  }

  /** JsonNode.has(name). */
  predicate Has(j: Json, key: string) {
    Get(j, key).Some?
  }

  /** JsonNode.asText(): string nodes give their text, numbers their numeral, containers "". */
  function AsText(j: Json): string {
    match j
    case JStr(s) => s
    case JNum(n) => n.text
    case JBool(b) => if b then "true" else "false"
    case JNull => "null"
    case _ => ""
  }

  /** `new BigDecimal(node.asText())`: only a numeral parses; anything else throws (None). */
  function Decimal(j: Json): Option<real> {
    if j.JNum? then Some(j.n.value) else None
  }

  /** JsonNode.asDouble(): a numeral's value, 1.0 for true, otherwise Jackson's default 0.0 (floating point left out). */
  function AsDouble(j: Json): real {
    match j
    case JNum(n) => n.value
    case JBool(b) => if b then 1.0 else 0.0
    case _ => 0.0
  }

  /** Conversion of a real to a Java long by truncation toward zero. */
  function Truncate(x: real): (n: int)
    ensures x >= 0.0 ==> n as real <= x < n as real + 1.0
    ensures x < 0.0 ==> n as real - 1.0 < x <= n as real
  {
    if x >= 0.0 then x.Floor else -((-x).Floor)
  }

  /** JsonNode.asLong(): a numeral's value truncated toward zero, 1 for true, otherwise 0. */
  function AsLong(j: Json): int {
    match j
    case JNum(n) => Truncate(n.value)
    case JBool(b) => if b then 1 else 0
    case _ => 0
  }

  /** JsonNode.isArray() and size(). */
  predicate IsArray(j: Json) {
    j.JArr?
  }

  function Size(j: Json): nat {
    match j
    case JArr(items) => |items|
    case JObj(fields) => |fields|
    case _ => 0
  }

  function Values(fields: seq<Field>): (r: seq<Json>)
    ensures |r| == |fields| && forall i :: 0 <= i < |fields| ==> r[i] == fields[i].value
  {
    if fields == [] then [] else [fields[0].value] + Values(fields[1..])
  }

  /** What `for (JsonNode x : node)` visits: array items, or object values in order; nothing otherwise. */
  function Elements(j: Json): seq<Json> {
    match j
    case JArr(items) => items
    case JObj(fields) => Values(fields)
    case _ => []
  }

  /** `node.get(key).asText()`: a missing field (or a non-object node) throws a NullPointerException, here None. */
  function FieldText(j: Json, key: string): Option<string> {
    match Get(j, key)
    case None => None
    case Some(v) => Some(AsText(v))
  }

  /** `new BigDecimal(node.get(key).asText())`: None when the field is missing or not a numeral. */
  function FieldDecimal(j: Json, key: string): Option<real> {
    match Get(j, key)
    case None => None
    case Some(v) => Decimal(v)
  }
}
