/**
 * The self-describing configuration model of the camera wrapper: the persistable attributes
 * are an ordered list of names, exported to and imported from a name-to-value mapping.
 * Python does not type-check `setattr`, so an attribute holds any `Value`; the places that
 * use an attribute as a number coerce it with `AsReal` or `AsInt` and fail on a string.
 */
module Config {
  import opened Outcomes

  /** A configuration value: the types the camera's attributes are stored with. */
  datatype Value = Str(s: string) | Int(i: int) | Real(r: real)

  /** The declared persistable attributes, in declaration order. */
  const ConfigAttrs: seq<string> :=
    ["ip_address", "grab_timeout", "exposure_time", "frame_rate", "gamma", "gain"]

  /** The attribute values a freshly constructed camera holds. */
  const DefaultAttrs: map<string, Value> :=
    map["ip_address" := Str(""), "gamma" := Real(1.0), "gain" := Real(0.0),
        "frame_rate" := Int(0), "exposure_time" := Real(0.0), "grab_timeout" := Int(1000)]

  /** Every declared name exists as an attribute (Python's `hasattr` holds for each). */
  predicate Declared(attrs: map<string, Value>, names: seq<string>)
  {
    forall k :: k in names ==> k in attrs
  }

  /** The mapping get_as_dict builds when every declared attribute exists. */
  function Exported(attrs: map<string, Value>, names: seq<string>): (r: map<string, Value>)
    requires Declared(attrs, names)
    ensures forall k :: k in r <==> k in names
    ensures forall k :: k in r ==> r[k] == attrs[k]
  {
    map k | k in names :: attrs[k]
  }

  /**
   * The attributes after set_from_dict(data): a key of `data` overwrites an attribute only
   * when it is declared and already exists; every other key of `data` is ignored.
   */
  function Overlay(attrs: map<string, Value>, data: map<string, Value>, names: seq<string>): (r: map<string, Value>)
    ensures r.Keys == attrs.Keys
    ensures forall k :: k in r && k !in names ==> r[k] == attrs[k]
    ensures forall k :: k in r && k !in data ==> r[k] == attrs[k]
  {
    map k | k in attrs :: if k in data && k in names then data[k] else attrs[k]
  }

  /** Python's `int(x)` on a real: truncation toward zero. */
  function Trunc(x: real): (n: int)
    ensures 0.0 <= x ==> n as real <= x < n as real + 1.0
    ensures x < 0.0 ==> n as real - 1.0 < x <= n as real
  {
    if x >= 0.0 then x.Floor else -((-x).Floor)
  }

  /** A value used where Python compares with 0 or passes a float: strings are rejected. */
  function AsReal(v: Value): Option<real>
  {
    match v
    case Int(i) => Some(i as real)
    case Real(r) => Some(r)
    case Str(_) => None
  }

  /** Python's `int(v)` on a numeric value; a string is rejected (parsing is not modelled). */
  function AsInt(v: Value): (r: Option<int>)
    ensures r.Some? <==> AsReal(v).Some?
    ensures r.Some? ==> r.value == Trunc(AsReal(v).value)
  {
    match v
    case Int(i) => Some(i)
    case Real(x) => Some(Trunc(x))
    case Str(_) => None
  }

  /** Restoring what was just exported changes nothing. */
  lemma RestoreOwnExport(attrs: map<string, Value>, names: seq<string>)
    requires Declared(attrs, names)
    ensures Overlay(attrs, Exported(attrs, names), names) == attrs
  {
  }

  /**
   * Restoring never removes an attribute, so after restoring any mapping every declared
   * attribute still exists, and the export then agrees with the mapping on every declared
   * key it holds and with the previous attributes on the others.
   */
  lemma ExportAfterRestore(attrs: map<string, Value>, data: map<string, Value>, names: seq<string>)
    requires Declared(attrs, names)
    ensures Overlay(attrs, data, names).Keys == attrs.Keys
    ensures Declared(Overlay(attrs, data, names), names)
    ensures forall k :: k in names ==>
      Exported(Overlay(attrs, data, names), names)[k] == (if k in data then data[k] else attrs[k])
  {
  }

  /** Restoring only keys that are not declared changes nothing. */
  lemma RestoreUndeclaredIsNoOp(attrs: map<string, Value>, data: map<string, Value>, names: seq<string>)
    requires forall k :: k in data ==> k !in names
    ensures Overlay(attrs, data, names) == attrs
  {
  }
}
