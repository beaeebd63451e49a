/**
 * The values that `yaml.safe_load` produces, as far as the stop-sequence
 * parser looks at them, together with the Python operations the parser and
 * the stop-sequence executor apply to them: truthiness, `float(...)` and
 * `str.strip()`.
 */
module Yaml {
  import opened Wrappers

  /** A loaded YAML document. Mapping keys are strings. */
  datatype YValue =
    | YNull
    | YBool(b: bool)
    | YInt(i: int)
    | YFloat(f: real)
    | YStr(s: string)
    | YList(items: seq<YValue>)
    | YMap(fields: map<string, YValue>)

  /** Python's `bool(v)`: empty containers, zero, `False` and `None` are false. */
  predicate Truthy(v: YValue) {
    match v
    case YNull => false
    case YBool(b) => b
    case YInt(i) => i != 0
    case YFloat(f) => f != 0.0
    case YStr(s) => s != []
    case YList(items) => items != []
    case YMap(fields) => fields != map[]
  }

  /** `mapping.get(key)`: the value under `key`, or `None` when it is absent. */
  function Lookup(m: map<string, YValue>, key: string): (r: YValue)
    ensures key in m ==> r == m[key]
    ensures key !in m ==> r == YNull
  {
    if key in m then m[key] else YNull
  }

  /**
   * Python's `float(v)`, `None` where it raises `TypeError` or `ValueError`.
   * Converting a string is a foreign routine and comes in as `strToFloat`.
   */
  function ToFloat(v: YValue, strToFloat: string -> Option<real>): (r: Option<real>)
    ensures v.YNull? || v.YList? || v.YMap? ==> r == None
    ensures v.YInt? ==> r == Some(v.i as real)
    ensures v.YFloat? ==> r == Some(v.f)
  {
    match v
    case YNull => None
    case YBool(b) => Some(if b then 1.0 else 0.0)
    case YInt(i) => Some(i as real)
    case YFloat(f) => Some(f)
    case YStr(s) => strToFloat(s)
    case YList(_) => None
    case YMap(_) => None
  }

  /** The characters Python's `str.strip()` removes (those for which `str.isspace()` holds). */
  predicate IsSpace(c: char) {
    c == ' ' || ('\t' <= c <= '\r') || ('\U{1C}' <= c <= '\U{1F}') ||
    c == '\U{85}' || c == '\U{A0}' || c == '\U{1680}' ||
    ('\U{2000}' <= c <= '\U{200A}') || c == '\U{2028}' || c == '\U{2029}' ||
    c == '\U{202F}' || c == '\U{205F}' || c == '\U{3000}'
  }

  /** `not raw or not raw.strip()`: the text is empty or whitespace only. */
  predicate IsBlank(raw: string) {
    forall k :: 0 <= k < |raw| ==> IsSpace(raw[k])
  }
}
