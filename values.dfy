/**
 * JavaScript values as the command line sees them: the few shapes that flags,
 * configuration fields and stats options take, and JavaScript truthiness.
 */
module Values {

  datatype Option<T> = None | Some(value: T)

  /** Properties of the stats-options record that the command line reads or
      writes. `PrivateEnv` is the `_env` property. `Other(name)` stands for any
      further property that a preset or a configuration may carry; the command
      line passes those through. Each listed property has exactly one key: the
      model never writes `Other` with a listed property's name. */
  datatype Key =
    | Children | Context | Env | PrivateEnv | Json | Modules | Colors
    | ModulesSort | ChunksSort | AssetsSort | Exclude
    | Cached | CachedAssets | Chunks | ChunkModules | Entrypoints | Reasons | Depth
    | UsedExports | ProvidedExports | OptimizationBailout | ErrorDetails | ChunkOrigins
    | MaxModules
    | Other(name: string)

  /** A JavaScript value. Numbers are integers; `Infinity` is the one
      non-integer number the command line produces. `Obj` is a plain object
      (such as `watchOptions`), `Stats` a stats-options record. */
  datatype Value =
    | Undefined
    | Null
    | Bool(b: bool)
    | Num(n: int)
    | Infinity
    | Str(s: string)
    | List(items: seq<Value>)
    | Obj(props: map<string, Value>)
    | Stats(fields: map<Key, Value>)

  /** A stats-options record: own properties only. */
  type Record = map<Key, Value>

  /** JavaScript truthiness: `undefined`, `null`, `false`, `0` and `""` are
      falsy; every array and object is truthy, even an empty one. */
  predicate Truthy(v: Value) {
    match v
    case Undefined => false
    case Null => false
    case Bool(b) => b
    case Num(n) => n != 0
    case Str(s) => s != ""
    case _ => true
  }

  /** `r[k]` on a record without a prototype: a missing property reads as `undefined`. */
  function Field(r: Record, k: Key): Value {
    if k in r then r[k] else Undefined
  }

  /** `v[name]` on a value that is neither `undefined` nor `null` (reading a
      property of those throws). Primitives, arrays and stats records carry no
      property of interest here, so they read as `undefined`. */
  function Prop(v: Value, name: string): (r: Value)
    requires !v.Undefined? && !v.Null?
    ensures !v.Obj? ==> r == Undefined
    ensures v.Obj? && name !in v.props ==> r == Undefined
    ensures v.Obj? && name in v.props ==> r == v.props[name]
  {
    if v.Obj? && name in v.props then v.props[name] else Undefined
  }
}
