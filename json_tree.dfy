/**
 * The JSON trees that the client reads with Jackson (`JsonNode`). Parsing text into a tree
 * and rendering a tree back to text are not modelled; the navigation the client performs
 * on a parsed tree (`get`, `has`, `isArray`, `isObject`, `asText`) is.
 */
module JsonTree {
  import opened Wrappers

  /** A parsed JSON value. An object keeps its fields in document order; a parser yields
      each key at most once. */
  datatype Json =
    | JNull
    | JBool(b: bool)
    | JNum(literal: string)
    | JStr(s: string)
    | JArr(items: seq<Json>)
    | JObj(fields: seq<(string, Json)>)

  /** The value stored under `key` in a list of fields, if any. */
  function Lookup(fields: seq<(string, Json)>, key: string): Option<Json>
  {
    if |fields| == 0 then None
    else if fields[0].0 == key then Some(fields[0].1)
    else Lookup(fields[1..], key)
  }

  /** `JsonNode.get(name)`: the field of an object; null (None) for a missing field and for
      every node that is not an object. */
  function Get(j: Json, key: string): Option<Json>
  {
    if j.JObj? then Lookup(j.fields, key) else None
  }

  /** `JsonNode.has(name)`, which Jackson defines as `get(name) != null`. */
  predicate Has(j: Json, key: string)
  {
    Get(j, key).Some?
  }

  /** `JsonNode.asText()`: the text of a string node, the literal of a scalar, "null" for a
      null node and the empty string for containers. */
  function AsText(j: Json): string
  {
    match j
    case JNull => "null"
    case JBool(b) => if b then "true" else "false"
    case JNum(literal) => literal
    case JStr(s) => s
    case JArr(_) => ""
    case JObj(_) => ""
  }
}
