/**
 * Values shared by every part of the build schematic model: the JSON-like
 * values that settings and task options are made of, JavaScript truthiness,
 * the optional and failing results, and the errors the schematic throws.
 */
module Common {

  datatype Option<+T> = None | Some(value: T)

  /** A JSON-like value as it appears in a parsed workspace spec or a task's options. */
  datatype Value =
    | Undefined
    | Null
    | Bool(b: bool)
    | Num(n: int)
    | Str(s: string)
    | Arr(items: seq<Value>)
    | Obj(fields: map<string, Value>)

  /** An options or settings object; `{...a, ...b}` is `a + b`. */
  type Config = map<string, Value>

  /** JavaScript truthiness of a value. */
  predicate IsTruthy(v: Value)
  {
    match v
    case Undefined => false
    case Null => false
    case Bool(b) => b
    case Num(n) => n != 0
    case Str(s) => s != ""
    case Arr(_) => true
    case Obj(_) => true
  }

  /** Truthiness of an optional string: `undefined` and `""` are falsy. */
  predicate Present(o: Option<string>)
  {
    o.Some? && o.value != ""
  }

  /** The value an optional string takes inside an options object. */
  function ValueOf(o: Option<string>): (v: Value)
    ensures o.Some? <==> v.Str?
    ensures IsTruthy(v) <==> Present(o)
  {
    match o
    case None => Undefined
    case Some(s) => Str(s)
  }

  /** The `SchematicsException`s thrown by the build schematic. */
  datatype BuildError =
    | MissingSchema                  // "$schema property is required"
    | AliasNotFound(node: string)    // "Alias not found for <node>. ..."
    | MissingCollection              // "Collection is not defined in the schematic."
    | MissingSchematicName           // "Schematic name is not defined in the schematic."
    | MissingProjectType             // "Type is needed for every project"
    | UndeclaredProject(name: string) // the TypeError of reading `type` of a project the spec lacks

  datatype Result<+T> = Ok(value: T) | Err(error: BuildError)

  /** The id the task dispatcher hands out for a submitted task. */
  type TaskId = nat

  /** `[lo, lo + 1, ..., hi - 1]` */
  function Range(lo: nat, hi: nat): (r: seq<nat>)
    requires lo <= hi
    ensures |r| == hi - lo
    ensures forall i :: 0 <= i < |r| ==> r[i] == lo + i
    decreases hi - lo
  {
    if lo == hi then [] else [lo] + Range(lo + 1, hi)
  }

  /** Adjacent ranges join up. */
  lemma RangeAppend(lo: nat, mid: nat, hi: nat)
    requires lo <= mid <= hi
    ensures Range(lo, mid) + Range(mid, hi) == Range(lo, hi)
  {
    assert forall i :: 0 <= i < hi - lo ==> (Range(lo, mid) + Range(mid, hi))[i] == lo + i;
  }
}
