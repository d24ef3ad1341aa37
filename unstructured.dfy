/**
 * The untyped document tree that holds a resource once it has been converted to
 * `map[string]interface{}`, and the accessors the tests read it with.
 */
module Unstructured {
  import opened Wrappers

  /** One node of a converted JSON document: a scalar, a list or a map. */
  datatype Value =
    | Null
    | Bool(b: bool)
    | Int(i: int)
    | Str(s: string)
    | List(items: seq<Value>)
    | Obj(fields: map<string, Value>)

  /** One step of a path into a tree: a map key or a list index. */
  datatype Step = Key(key: string) | Index(index: nat)

  /** The node reached by following `path` from `v`, if every step exists. */
  function At(v: Value, path: seq<Step>): Option<Value>
    decreases |path|
  {
    if path == [] then Some(v)
    else match path[0]
      case Key(k) => if v.Obj? && k in v.fields then At(v.fields[k], path[1..]) else None
      case Index(i) => if v.List? && i < |v.items| then At(v.items[i], path[1..]) else None
  }

  /** A path made only of map keys, as the field accessors take it. */
  function KeyPath(fields: seq<string>): seq<Step>
  {
    seq(|fields|, i requires 0 <= i < |fields| => Key(fields[i]))
  }

  /**
   * The three outcomes of a nested-field accessor: the value, "not found" with no
   * error, or an accessor error because an intermediate value is not a map.
   */
  datatype Lookup = Found(value: Value) | Absent | AccessorError

  /**
   * Descends through maps only. A nil value met before the last field reads as
   * not found; any other non-map value reads as an accessor error; a nil value
   * stored at the last field is found.
   */
  function FieldOf(v: Value, fields: seq<string>): (r: Lookup)
    ensures r.Found? <==> At(v, KeyPath(fields)).Some?
    ensures r.Found? ==> At(v, KeyPath(fields)) == Some(r.value)
    decreases |fields|
  {
    if fields == [] then Found(v)
    else
      assert KeyPath(fields)[0] == Key(fields[0]) && KeyPath(fields)[1..] == KeyPath(fields[1..]);
      match v
      case Null => Absent
      case Obj(m) => if fields[0] in m then FieldOf(m[fields[0]], fields[1..]) else Absent
      case _ => AccessorError
  }

  /** `unstructured.NestedFieldCopy` on a document's top-level map (the copy is immaterial on values). */
  function NestedField(obj: map<string, Value>, fields: seq<string>): Lookup
  {
    FieldOf(Obj(obj), fields)
  }

  /** `unstructured.NestedSlice`: the field must hold a list; any other found value is an accessor error. */
  function NestedSlice(obj: map<string, Value>, fields: seq<string>): (r: Lookup)
    ensures r.Found? <==> NestedField(obj, fields).Found? && NestedField(obj, fields).value.List?
    ensures r.Found? ==> r == NestedField(obj, fields)
    ensures !NestedField(obj, fields).Found? ==> r == NestedField(obj, fields)
    ensures NestedField(obj, fields).Found? && !NestedField(obj, fields).value.List? ==> r == AccessorError
  {
    match NestedField(obj, fields)
    case Found(List(xs)) => Found(List(xs))
    case Found(_) => AccessorError
    case other => other
  }

  /** The string at `fields`, or the empty string when it is missing or not a string. */
  function NestedString(obj: map<string, Value>, fields: seq<string>): (s: string)
    ensures s != "" ==> NestedField(obj, fields) == Found(Str(s))
    ensures NestedField(obj, fields).Found? && NestedField(obj, fields).value.Str? ==>
              s == NestedField(obj, fields).value.s
  {
    match NestedField(obj, fields)
    case Found(Str(x)) => x
    case _ => ""
  }

  /** `GetName()` of an unstructured object: `metadata.name`. */
  function GetName(obj: map<string, Value>): (name: string)
    ensures name != "" ==> NestedField(obj, ["metadata", "name"]) == Found(Str(name))
    ensures NestedField(obj, ["metadata", "name"]).Found? && NestedField(obj, ["metadata", "name"]).value.Str? ==>
              name == NestedField(obj, ["metadata", "name"]).value.s
  {
    NestedString(obj, ["metadata", "name"])
  }

  /** `GetNamespace()` of an unstructured object: `metadata.namespace`. */
  function GetNamespace(obj: map<string, Value>): (namespace: string)
    ensures namespace != "" ==> NestedField(obj, ["metadata", "namespace"]) == Found(Str(namespace))
    ensures NestedField(obj, ["metadata", "namespace"]).Found? &&
            NestedField(obj, ["metadata", "namespace"]).value.Str? ==>
              namespace == NestedField(obj, ["metadata", "namespace"]).value.s
  {
    NestedString(obj, ["metadata", "namespace"])
  }
}
