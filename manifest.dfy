/**
 * The parsed manifest documents (`toml::Value` for Cargo.toml,
 * `serde_json::Value` for package.json) as one small value tree, with the
 * optional key lookup that both libraries offer through `get`.
 */
module Manifest {
  import opened Wrappers

  /**
   * A manifest value: a string, an array, a table (object) of named values,
   * or any other scalar (number, boolean, date, null), which the detector
   * never inspects beyond its presence.
   */
  datatype Value =
    | Str(s: string)
    | Arr(items: seq<Value>)
    | Table(fields: map<string, Value>)
    | Scalar

  /** `value.get(key)`: only a table has keys; on any other value it is absent. */
  function Get(v: Value, key: string): Option<Value> {
    if v.Table? && key in v.fields then Some(v.fields[key]) else None
  }

  /** `option.and_then(|v| v.get(key))`: one more step down a chain of lookups. */
  function AndGet(o: Option<Value>, key: string): Option<Value> {
    match o
    case None => None
    case Some(v) => Get(v, key)
  }

  /** `option.and_then(|n| n.as_str()).unwrap_or(default)`. */
  function StrOr(o: Option<Value>, default: string): string {
    match o
    case Some(Str(s)) => s
    case _ => default
  }
}
