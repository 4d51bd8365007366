/**
 * The parsed argument map (`argv`) and the two ways the command line reads
 * it: through `ifArg`, which hands every occurrence of a flag to a callback,
 * and directly, where JavaScript truthiness of the raw entry decides.
 */
module CliArgs {
  import opened Values

  /** One entry of `argv`: missing, or a value. A flag given several times
      is an array entry, `One(List(xs))`. */
  datatype Arg = Absent | One(value: Value)

  /** The entries of `argv` this part of the command line reads, one per
      flag the parser declares (`--env` and `--json` are `EnvFlag` and
      `JsonFlag`, so as not to clash with the stats properties of the same
      name). No other entry is read by the parts of
      the command line modelled here. */
  datatype Flag =
    | Display | Verbose | EnvFlag | JsonFlag | Color | Silent
    | SortModulesBy | SortChunksBy | SortAssetsBy | DisplayExclude
    | DisplayChunks | DisplayEntrypoints | DisplayReasons | DisplayDepth
    | DisplayUsedExports | DisplayProvidedExports | DisplayOptimizationBailout
    | DisplayErrorDetails | DisplayOrigins | DisplayMaxModules
    | DisplayCached | DisplayCachedAssets | DisplayModules | HideModules

  type Argv = map<Flag, Arg>

  function ArgOf(argv: Argv, f: Flag): Arg {
    if f in argv then argv[f] else Absent
  }

  /** The values `ifArg` passes to its callback, in call order: each element
      of an array, left to right; a defined scalar once; nothing for
      `undefined`. */
  function Occurrences(a: Arg): (vs: seq<Value>)
    ensures a.One? && a.value.List? ==> vs == a.value.items
    ensures a.One? && !a.value.List? && !a.value.Undefined? ==> vs == [a.value]
    ensures vs == [] <==> a.Absent? || a == One(Undefined) || a == One(List([]))
  {
    match a
    case Absent => []
    case One(v) => if v.Undefined? then [] else if v.List? then v.items else [v]
  }

  /** Truthiness of `argv[name]` itself: an array entry is truthy even when it
      is empty or holds only `false`. */
  predicate ArgTruthy(a: Arg) {
    match a
    case Absent => false
    case One(v) => Truthy(v)
  }

  /** Some occurrence is truthy. */
  predicate AnyTruthy(vs: seq<Value>) {
    |vs| > 0 && (Truthy(vs[0]) || AnyTruthy(vs[1..]))
  }

  /** The last truthy occurrence, or `undefined` when none is truthy. */
  function LastTruthy(vs: seq<Value>): (r: Value)
    ensures Truthy(r) <==> AnyTruthy(vs)
    ensures !AnyTruthy(vs) ==> r == Undefined
    decreases |vs|
  {
    if vs == [] then Undefined
    else if AnyTruthy(vs[1..]) then LastTruthy(vs[1..])
    else if Truthy(vs[0]) then vs[0]
    else Undefined
  }

  /** `LastTruthy` is a truthy occurrence after which every occurrence is
      falsy. */
  lemma {:induction false} LastTruthyIsLast(vs: seq<Value>)
    requires AnyTruthy(vs)
    ensures exists i ::
      && 0 <= i < |vs| && LastTruthy(vs) == vs[i]
      && forall j :: i < j < |vs| ==> !Truthy(vs[j])
    decreases |vs|
  {
    if AnyTruthy(vs[1..]) {
      LastTruthyIsLast(vs[1..]);
      var i :| 0 <= i < |vs[1..]| && LastTruthy(vs[1..]) == vs[1..][i]
        && forall j :: i < j < |vs[1..]| ==> !Truthy(vs[1..][j]);
      assert LastTruthy(vs) == vs[i + 1];
      forall j | i + 1 < j < |vs| ensures !Truthy(vs[j]) {
        assert vs[j] == vs[1..][j - 1];
      }
    } else {
      AnyTruthyIff(vs[1..]);
      forall j | 0 < j < |vs| ensures !Truthy(vs[j]) {
        assert vs[j] == vs[1..][j - 1];
      }
    }
  }

  function Last(vs: seq<Value>): Value
    requires |vs| > 0
  {
    vs[|vs| - 1]
  }

  /** The last occurrence, or `dflt` when there is none. */
  function LastOr(vs: seq<Value>, dflt: Value): Value {
    if vs == [] then dflt else Last(vs)
  }

  lemma {:induction false} AnyTruthyIff(vs: seq<Value>)
    ensures AnyTruthy(vs) <==> exists i :: 0 <= i < |vs| && Truthy(vs[i])
  {
    if |vs| > 0 {
      AnyTruthyIff(vs[1..]);
      if AnyTruthy(vs[1..]) {
        var i :| 0 <= i < |vs[1..]| && Truthy(vs[1..][i]);
        assert Truthy(vs[i + 1]);
      }
      if exists i :: 0 <= i < |vs| && Truthy(vs[i]) {
        var i :| 0 <= i < |vs| && Truthy(vs[i]);
        if i > 0 {
          assert Truthy(vs[1..][i - 1]);
        }
      }
    }
  }

  /** `--verbose` is an alias: a truthy `verbose` entry replaces whatever
      `display` held with the single preset name "verbose". */
  function ApplyVerbose(argv: Argv): (r: Argv)
    ensures ArgTruthy(ArgOf(argv, Verbose)) ==> ArgOf(r, Display) == One(Str("verbose"))
    ensures !ArgTruthy(ArgOf(argv, Verbose)) ==> r == argv
    ensures forall f :: f != Display ==> ArgOf(r, f) == ArgOf(argv, f)
  {
    if ArgTruthy(ArgOf(argv, Verbose)) then argv[Display := One(Str("verbose"))] else argv
  }
}
