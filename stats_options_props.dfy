/**
 * What the normalizer promises, one property at a time.
 *
 * `Effect` states in closed form what `ifArg(f, cb)` leaves in one
 * property: the last value for an assigning callback, `true` after any truthy
 * occurrence for a toggle, and so on. `NormalizedAt` composes these effects,
 * and the defaults, into the final value of one property computed from the
 * base record alone. `NormalizedAgrees` proves it equal to what the
 * statement-by-statement normalization produces; the remaining lemmas read
 * the override policy off it.
 */
module StatsOptionsProperties {
  import opened Values
  import opened CliArgs
  import opened StatsOptions

  function Occ(argv: Argv, f: Flag): seq<Value> {
    Occurrences(ArgOf(argv, f))
  }

  // ---------------------------------------------------------------------------
  // One flag, one property

  /** The value property `k` holds after one call of `cb` with `v`, when it
      held `x` before. For `env` this is the call made while the record has a
      truthy `env`; otherwise that callback does nothing. */
  function KeyStep(cb: Callback, v: Value, k: Key, x: Value): Value {
    match cb
    case Assign(key) => if k == key then v else x
    case EnableIfTruthy(key) => if k == key && Truthy(v) then Bool(true) else x
    case CopyIfTruthy(key) => if k == key && Truthy(v) then v else x
    case EnvCallback => if k == PrivateEnv then v else x
    case JsonCallback => if (k == Json || k == Modules) && Truthy(v) then v else x
    case ChunksCallback =>
      if k == Modules && Truthy(v) then Bool(false)
      else if (k == Chunks || k == ChunkModules) && Truthy(v) then Bool(true)
      else x
    case HideModulesCallback =>
      if (k == Modules || k == ChunkModules) && Truthy(v) then Bool(false) else x
  }

  /** One call per occurrence, first to last, seen from property `k`. */
  function Steps(cb: Callback, vs: seq<Value>, k: Key, x: Value): Value
    decreases |vs|
  {
    if vs == [] then x else Steps(cb, vs[1..], k, KeyStep(cb, vs[0], k, x))
  }

  /** The same, in closed form: the last occurrence for an assigning callback,
      `true` after any truthy occurrence for a toggle, the last truthy
      occurrence for a copying one. */
  function Effect(cb: Callback, vs: seq<Value>, k: Key, x: Value): Value {
    if !Writes(cb, k) then x else
    match cb
    case Assign(key) => if k == key then LastOr(vs, x) else x
    case EnableIfTruthy(key) => if k == key && AnyTruthy(vs) then Bool(true) else x
    case CopyIfTruthy(key) => if k == key && AnyTruthy(vs) then LastTruthy(vs) else x
    case EnvCallback => if k == PrivateEnv then LastOr(vs, x) else x
    case JsonCallback => if (k == Json || k == Modules) && AnyTruthy(vs) then LastTruthy(vs) else x
    case ChunksCallback =>
      if k == Modules && AnyTruthy(vs) then Bool(false)
      else if (k == Chunks || k == ChunkModules) && AnyTruthy(vs) then Bool(true)
      else x
    case HideModulesCallback =>
      if (k == Modules || k == ChunkModules) && AnyTruthy(vs) then Bool(false) else x
  }

  lemma SetGet(d: DisplayOptions, key: Key, v: Value, k: Key)
    ensures d.Set(key, v).Get(k) == if k == key then v else d.Get(k)
  {
  }

  lemma {:induction false} ApplyStep(cb: Callback, v: Value, d: DisplayOptions, k: Key)
    requires cb.EnvCallback? ==> Truthy(d.Get(Env))
    ensures Apply(cb, v, d).Get(k) == KeyStep(cb, v, k, d.Get(k))
  {
    match cb {
      case Assign(key) => SetGet(d, key, v, k);
      case EnableIfTruthy(key) => SetGet(d, key, Bool(true), k);
      case CopyIfTruthy(key) => SetGet(d, key, v, k);
      case EnvCallback => SetGet(d, PrivateEnv, v, k);
      case JsonCallback =>
        SetGet(d, Json, v, k);
        SetGet(d.Set(Json, v), Modules, v, k);
      case ChunksCallback =>
        var d1 := d.Set(Modules, Bool(false));
        var d2 := d1.Set(Chunks, Bool(true));
        SetGet(d, Modules, Bool(false), k);
        SetGet(d1, Chunks, Bool(true), k);
        SetGet(d2, ChunkModules, Bool(true), k);
      case HideModulesCallback =>
        SetGet(d, Modules, Bool(false), k);
        SetGet(d.Set(Modules, Bool(false)), ChunkModules, Bool(false), k);
    }
  }

  lemma {:induction false} FoldSteps(cb: Callback, vs: seq<Value>, d: DisplayOptions, k: Key)
    requires cb.EnvCallback? ==> Truthy(d.Get(Env))
    ensures Fold(cb, vs, d).Get(k) == Steps(cb, vs, k, d.Get(k))
    decreases |vs|
  {
    if vs != [] {
      ApplyStep(cb, vs[0], d, k);
      ApplyStep(cb, vs[0], d, Env);
      FoldSteps(cb, vs[1..], Apply(cb, vs[0], d), k);
    }
  }

  /** Without a truthy `env`, the `env` flag changes nothing. */
  lemma {:induction false} EnvFlagNeedsEnv(vs: seq<Value>, d: DisplayOptions)
    requires !Truthy(d.Get(Env))
    ensures Fold(EnvCallback, vs, d) == d
    decreases |vs|
  {
    if vs != [] {
      EnvFlagNeedsEnv(vs[1..], d);
    }
  }

  lemma {:induction false} StepsAssign(key: Key, vs: seq<Value>, k: Key, x: Value)
    ensures Steps(Assign(key), vs, k, x) == Effect(Assign(key), vs, k, x)
    decreases |vs|
  {
    if vs != [] {
      StepsAssign(key, vs[1..], k, KeyStep(Assign(key), vs[0], k, x));
      if |vs| > 1 {
        assert Last(vs[1..]) == Last(vs);
      }
    }
  }

  lemma {:induction false} StepsEnable(key: Key, vs: seq<Value>, k: Key, x: Value)
    ensures Steps(EnableIfTruthy(key), vs, k, x) == Effect(EnableIfTruthy(key), vs, k, x)
    decreases |vs|
  {
    if vs != [] {
      StepsEnable(key, vs[1..], k, KeyStep(EnableIfTruthy(key), vs[0], k, x));
    }
  }

  lemma {:induction false} StepsCopy(key: Key, vs: seq<Value>, k: Key, x: Value)
    ensures Steps(CopyIfTruthy(key), vs, k, x) == Effect(CopyIfTruthy(key), vs, k, x)
    decreases |vs|
  {
    if vs != [] {
      StepsCopy(key, vs[1..], k, KeyStep(CopyIfTruthy(key), vs[0], k, x));
    }
  }

  lemma {:induction false} StepsEnv(vs: seq<Value>, k: Key, x: Value)
    ensures Steps(EnvCallback, vs, k, x) == Effect(EnvCallback, vs, k, x)
    decreases |vs|
  {
    if vs != [] {
      StepsEnv(vs[1..], k, KeyStep(EnvCallback, vs[0], k, x));
      if |vs| > 1 {
        assert Last(vs[1..]) == Last(vs);
      }
    }
  }

  lemma {:induction false} StepsJson(vs: seq<Value>, k: Key, x: Value)
    ensures Steps(JsonCallback, vs, k, x) == Effect(JsonCallback, vs, k, x)
    decreases |vs|
  {
    if vs != [] {
      StepsJson(vs[1..], k, KeyStep(JsonCallback, vs[0], k, x));
    }
  }

  lemma {:induction false} StepsChunks(vs: seq<Value>, k: Key, x: Value)
    ensures Steps(ChunksCallback, vs, k, x) == Effect(ChunksCallback, vs, k, x)
    decreases |vs|
  {
    if vs != [] {
      StepsChunks(vs[1..], k, KeyStep(ChunksCallback, vs[0], k, x));
    }
  }

  lemma {:induction false} StepsHide(vs: seq<Value>, k: Key, x: Value)
    ensures Steps(HideModulesCallback, vs, k, x) == Effect(HideModulesCallback, vs, k, x)
    decreases |vs|
  {
    if vs != [] {
      StepsHide(vs[1..], k, KeyStep(HideModulesCallback, vs[0], k, x));
    }
  }

  lemma {:induction false} StepsEffect(cb: Callback, vs: seq<Value>, k: Key, x: Value)
    ensures Steps(cb, vs, k, x) == Effect(cb, vs, k, x)
  {
    match cb {
      case Assign(key) => StepsAssign(key, vs, k, x);
      case EnableIfTruthy(key) => StepsEnable(key, vs, k, x);
      case CopyIfTruthy(key) => StepsCopy(key, vs, k, x);
      case EnvCallback => StepsEnv(vs, k, x);
      case JsonCallback => StepsJson(vs, k, x);
      case ChunksCallback => StepsChunks(vs, k, x);
      case HideModulesCallback => StepsHide(vs, k, x);
    }
  }

  /** `ifArg(f, cb)` leaves each property as `Effect` says; the `env`
      callback acts only on a record with a truthy `env`. */
  lemma {:induction false} FoldEffect(cb: Callback, vs: seq<Value>, d: DisplayOptions, k: Key)
    ensures Fold(cb, vs, d).Get(k)
         == if cb.EnvCallback? && !Truthy(d.Get(Env)) then d.Get(k) else Effect(cb, vs, k, d.Get(k))
  {
    if cb.EnvCallback? && !Truthy(d.Get(Env)) {
      EnvFlagNeedsEnv(vs, d);
    } else {
      FoldSteps(cb, vs, d, k);
      StepsEffect(cb, vs, k, d.Get(k));
    }
  }

  // ---------------------------------------------------------------------------
  // Each callback family, as the stages below use it

  /** `if (bool) o[key] = true` over all occurrences: `true` after any truthy one. */
  function Enabled(vs: seq<Value>, x: Value): Value {
    if AnyTruthy(vs) then Bool(true) else x
  }

  /** `if (value) o[key] = value` over all occurrences: the last truthy one. */
  function Copied(vs: seq<Value>, x: Value): Value {
    if AnyTruthy(vs) then LastTruthy(vs) else x
  }

  /** `display-chunks` seen from property `k`. */
  function ChunksShownAt(vs: seq<Value>, k: Key, x: Value): Value {
    if !AnyTruthy(vs) then x
    else if k == Modules then Bool(false)
    else if k == Chunks || k == ChunkModules then Bool(true)
    else x
  }

  /** `hide-modules` seen from property `k`. */
  function HiddenAt(vs: seq<Value>, k: Key, x: Value): Value {
    if AnyTruthy(vs) && (k == Modules || k == ChunkModules) then Bool(false) else x
  }

  lemma {:induction false} FoldAssign(key: Key, vs: seq<Value>, d: DisplayOptions, k: Key)
    ensures Fold(Assign(key), vs, d).Get(k) == if k == key then LastOr(vs, d.Get(k)) else d.Get(k)
  {
    FoldEffect(Assign(key), vs, d, k);
  }

  lemma {:induction false} FoldEnable(key: Key, vs: seq<Value>, d: DisplayOptions, k: Key)
    ensures Fold(EnableIfTruthy(key), vs, d).Get(k) == if k == key then Enabled(vs, d.Get(k)) else d.Get(k)
  {
    FoldEffect(EnableIfTruthy(key), vs, d, k);
  }

  lemma {:induction false} FoldCopy(key: Key, vs: seq<Value>, d: DisplayOptions, k: Key)
    ensures Fold(CopyIfTruthy(key), vs, d).Get(k) == if k == key then Copied(vs, d.Get(k)) else d.Get(k)
  {
    FoldEffect(CopyIfTruthy(key), vs, d, k);
  }

  lemma {:induction false} FoldEnv(vs: seq<Value>, d: DisplayOptions, k: Key)
    ensures Fold(EnvCallback, vs, d).Get(k)
         == if k == PrivateEnv && Truthy(d.Get(Env)) then LastOr(vs, d.Get(k)) else d.Get(k)
  {
    FoldEffect(EnvCallback, vs, d, k);
  }

  lemma {:induction false} FoldJson(vs: seq<Value>, d: DisplayOptions, k: Key)
    ensures Fold(JsonCallback, vs, d).Get(k) == if k == Json || k == Modules then Copied(vs, d.Get(k)) else d.Get(k)
  {
    FoldEffect(JsonCallback, vs, d, k);
  }

  lemma {:induction false} FoldChunks(vs: seq<Value>, d: DisplayOptions, k: Key)
    ensures Fold(ChunksCallback, vs, d).Get(k) == ChunksShownAt(vs, k, d.Get(k))
  {
    FoldEffect(ChunksCallback, vs, d, k);
  }

  lemma {:induction false} FoldHide(vs: seq<Value>, d: DisplayOptions, k: Key)
    ensures Fold(HideModulesCallback, vs, d).Get(k) == HiddenAt(vs, k, d.Get(k))
  {
    FoldEffect(HideModulesCallback, vs, d, k);
  }

  /** `if (typeof o[key] === "undefined") o[key] = v`, seen from property `k`. */
  function DefaultAt(key: Key, v: Value, k: Key, x: Value): Value {
    if k == key && x.Undefined? then v else x
  }

  // ---------------------------------------------------------------------------
  // Each stage, one property at a time

  function SeededAt(options: BuildOptions, k: Key, x: Value): Value
    requires WellFormed(options)
  {
    var x1 := if k == Children && options.Multi? && !Truthy(x) then List(ChildStats(options.configs)) else x;
    DefaultAt(Context, First(options).context, k, x1)
  }

  function EnvJsonColorsAt(argv: Argv, env: Environment, k: Key, x: Value, envOn: bool): Value {
    var x3 := if k == PrivateEnv && envOn then LastOr(Occ(argv, EnvFlag), x) else x;
    var x4 := if k == Json || k == Modules then Copied(Occ(argv, JsonFlag), x3) else x3;
    DefaultAt(Colors, env.supportsColor, k, x4)
  }

  function SortAndExcludeAt(argv: Argv, k: Key, x: Value): Value {
    var x1 := if k == ModulesSort then LastOr(Occ(argv, SortModulesBy), x) else x;
    var x2 := if k == ChunksSort then LastOr(Occ(argv, SortChunksBy), x1) else x1;
    var x3 := if k == AssetsSort then LastOr(Occ(argv, SortAssetsBy), x2) else x2;
    if k == Exclude then LastOr(Occ(argv, DisplayExclude), x3) else x3
  }

  function ChunkTogglesAt(argv: Argv, k: Key, x: Value): Value {
    var x1 := ChunksShownAt(Occ(argv, DisplayChunks), k, x);
    var x2 := if k == Entrypoints then Enabled(Occ(argv, DisplayEntrypoints), x1) else x1;
    var x3 := if k == Reasons then Enabled(Occ(argv, DisplayReasons), x2) else x2;
    var x4 := if k == Depth then Enabled(Occ(argv, DisplayDepth), x3) else x3;
    var x5 := if k == UsedExports then Enabled(Occ(argv, DisplayUsedExports), x4) else x4;
    if k == ProvidedExports then Enabled(Occ(argv, DisplayProvidedExports), x5) else x5
  }

  function DetailTogglesAt(argv: Argv, k: Key, x: Value): Value {
    var x1 := if k == OptimizationBailout then Copied(Occ(argv, DisplayOptimizationBailout), x) else x;
    var x2 := if k == ErrorDetails then Enabled(Occ(argv, DisplayErrorDetails), x1) else x1;
    var x3 := if k == ChunkOrigins then Enabled(Occ(argv, DisplayOrigins), x2) else x2;
    var x4 := if k == MaxModules then LastOr(Occ(argv, DisplayMaxModules), x3) else x3;
    var x5 := if k == Cached then Enabled(Occ(argv, DisplayCached), x4) else x4;
    if k == CachedAssets then Enabled(Occ(argv, DisplayCachedAssets), x5) else x5
  }

  function ExcludeFallbackAt(k: Key, x: Value): Value {
    if k == Exclude && !Truthy(x) then DefaultExclude else x
  }

  function DisplayModulesAt(argv: Argv, k: Key, x: Value): Value {
    if !ArgTruthy(ArgOf(argv, DisplayModules)) then x
    else if k == MaxModules then Infinity
    else if k == Exclude then Undefined
    else if k == Modules then Bool(true)
    else x
  }

  function TextBlockAt(argv: Argv, k: Key, x: Value): Value {
    var x2 := DefaultAt(CachedAssets, Bool(false), k, DefaultAt(Cached, Bool(false), k, x));
    var x3 := DetailTogglesAt(argv, k, ChunkTogglesAt(argv, k, x2));
    DisplayModulesAt(argv, k, ExcludeFallbackAt(k, x3))
  }

  /** Property `k` just before the JSON-mode test. */
  function PreludeAt(options: BuildOptions, argv: Argv, env: Environment, k: Key): Value
    requires WellFormed(options)
  {
    var b := BaseOf(options, argv, env);
    var s := SeededAt(options, k, Field(b, k));
    SortAndExcludeAt(argv, k, EnvJsonColorsAt(argv, env, k, s, Truthy(Field(b, Env))))
  }

  /** Property `k` of the final stats options. */
  function NormalizedAt(options: BuildOptions, argv: Argv, env: Environment, k: Key): Value
    requires WellFormed(options)
  {
    var p := PreludeAt(options, argv, env, k);
    var g := if Truthy(PreludeAt(options, argv, env, Json)) then p else TextBlockAt(argv, k, p);
    HiddenAt(Occ(argv, HideModules), k, g)
  }

  // ---------------------------------------------------------------------------
  // The two views agree

  lemma {:induction false} EnvJsonColorsAgrees(argv: Argv, env: Environment, d: DisplayOptions, k: Key)
    ensures EnvJsonColors(argv, env, d).Get(k) == EnvJsonColorsAt(argv, env, k, d.Get(k), Truthy(d.Get(Env)))
  {
    var x := d.Get(k);
    var d3 := WithFlag(argv, EnvFlag, EnvCallback, d);
    FoldEnv(Occ(argv, EnvFlag), d, k);
    var x3 := if k == PrivateEnv && Truthy(d.Get(Env)) then LastOr(Occ(argv, EnvFlag), x) else x;
    assert d3.Get(k) == x3;
    var d4 := WithFlag(argv, JsonFlag, JsonCallback, d3);
    FoldJson(Occ(argv, JsonFlag), d3, k);
    assert d4.Get(k) == if k == Json || k == Modules then Copied(Occ(argv, JsonFlag), x3) else x3;
    DefaultAgrees(Colors, env.supportsColor, d4, k);
  }

  lemma {:induction false} SortAndExcludeAgrees(argv: Argv, d: DisplayOptions, k: Key)
    ensures SortAndExclude(argv, d).Get(k) == SortAndExcludeAt(argv, k, d.Get(k))
  {
    var s1 := WithFlag(argv, SortModulesBy, Assign(ModulesSort), d);
    var s2 := WithFlag(argv, SortChunksBy, Assign(ChunksSort), s1);
    var s3 := WithFlag(argv, SortAssetsBy, Assign(AssetsSort), s2);
    FoldAssign(ModulesSort, Occ(argv, SortModulesBy), d, k);
    FoldAssign(ChunksSort, Occ(argv, SortChunksBy), s1, k);
    FoldAssign(AssetsSort, Occ(argv, SortAssetsBy), s2, k);
    FoldAssign(Exclude, Occ(argv, DisplayExclude), s3, k);
  }

  lemma {:induction false} ChunkTogglesAgrees(argv: Argv, d: DisplayOptions, k: Key)
    ensures ChunkToggles(argv, d).Get(k) == ChunkTogglesAt(argv, k, d.Get(k))
  {
    var t1 := WithFlag(argv, DisplayChunks, ChunksCallback, d);
    var t2 := WithFlag(argv, DisplayEntrypoints, EnableIfTruthy(Entrypoints), t1);
    var t3 := WithFlag(argv, DisplayReasons, EnableIfTruthy(Reasons), t2);
    var t4 := WithFlag(argv, DisplayDepth, EnableIfTruthy(Depth), t3);
    var t5 := WithFlag(argv, DisplayUsedExports, EnableIfTruthy(UsedExports), t4);
    FoldChunks(Occ(argv, DisplayChunks), d, k);
    FoldEnable(Entrypoints, Occ(argv, DisplayEntrypoints), t1, k);
    FoldEnable(Reasons, Occ(argv, DisplayReasons), t2, k);
    FoldEnable(Depth, Occ(argv, DisplayDepth), t3, k);
    FoldEnable(UsedExports, Occ(argv, DisplayUsedExports), t4, k);
    FoldEnable(ProvidedExports, Occ(argv, DisplayProvidedExports), t5, k);
  }

  lemma {:induction false} DetailTogglesAgrees(argv: Argv, d: DisplayOptions, k: Key)
    ensures DetailToggles(argv, d).Get(k) == DetailTogglesAt(argv, k, d.Get(k))
  {
    var t1 := WithFlag(argv, DisplayOptimizationBailout, CopyIfTruthy(OptimizationBailout), d);
    var t2 := WithFlag(argv, DisplayErrorDetails, EnableIfTruthy(ErrorDetails), t1);
    var t3 := WithFlag(argv, DisplayOrigins, EnableIfTruthy(ChunkOrigins), t2);
    var t4 := WithFlag(argv, DisplayMaxModules, Assign(MaxModules), t3);
    var t5 := WithFlag(argv, DisplayCached, EnableIfTruthy(Cached), t4);
    FoldCopy(OptimizationBailout, Occ(argv, DisplayOptimizationBailout), d, k);
    FoldEnable(ErrorDetails, Occ(argv, DisplayErrorDetails), t1, k);
    FoldEnable(ChunkOrigins, Occ(argv, DisplayOrigins), t2, k);
    FoldAssign(MaxModules, Occ(argv, DisplayMaxModules), t3, k);
    FoldEnable(Cached, Occ(argv, DisplayCached), t4, k);
    FoldEnable(CachedAssets, Occ(argv, DisplayCachedAssets), t5, k);
  }

  lemma DefaultAgrees(key: Key, v: Value, d: DisplayOptions, k: Key)
    ensures WithDefault(key, v, d).Get(k) == DefaultAt(key, v, k, d.Get(k))
  {
    SetGet(d, key, v, k);
  }

  lemma ExcludeFallbackAgrees(d: DisplayOptions, k: Key)
    ensures WithExcludeFallback(d).Get(k) == ExcludeFallbackAt(k, d.Get(k))
  {
    SetGet(d, Exclude, DefaultExclude, k);
  }

  lemma DisplayModulesAgrees(argv: Argv, d: DisplayOptions, k: Key)
    ensures DisplayModulesOverride(argv, d).Get(k) == DisplayModulesAt(argv, k, d.Get(k))
  {
    var d1 := d.Set(MaxModules, Infinity);
    var d2 := d1.Set(Exclude, Undefined);
    SetGet(d, MaxModules, Infinity, k);
    SetGet(d1, Exclude, Undefined, k);
    SetGet(d2, Modules, Bool(true), k);
  }

  lemma {:induction false} TextBlockAgrees(argv: Argv, d: DisplayOptions, k: Key)
    ensures TextBlock(argv, d).Get(k) == TextBlockAt(argv, k, d.Get(k))
  {
    var b1 := WithDefault(Cached, Bool(false), d);
    var b2 := WithDefault(CachedAssets, Bool(false), b1);
    var c := ChunkToggles(argv, b2);
    var b3 := DetailToggles(argv, c);
    DefaultAgrees(Cached, Bool(false), d, k);
    DefaultAgrees(CachedAssets, Bool(false), b1, k);
    ChunkTogglesAgrees(argv, b2, k);
    DetailTogglesAgrees(argv, c, k);
    ExcludeFallbackAgrees(b3, k);
    DisplayModulesAgrees(argv, WithExcludeFallback(b3), k);
  }

  lemma {:induction false} SeededAgrees(options: BuildOptions, argv: Argv, env: Environment, k: Key)
    requires WellFormed(options)
    ensures Seeded(options, argv, env).Get(k) == SeededAt(options, k, Field(BaseOf(options, argv, env), k))
  {
    var w := Wrapped(options, argv, env);
    if options.Multi? {
      SetGet(w, Children, List(ChildStats(options.configs)), k);
    }
    DefaultAgrees(Context, First(options).context, WithChildren(options, w), k);
  }

  lemma {:induction false} PreludeAgrees(options: BuildOptions, argv: Argv, env: Environment, k: Key)
    requires WellFormed(options)
    ensures Prelude(options, argv, env).Get(k) == PreludeAt(options, argv, env, k)
  {
    var s := Seeded(options, argv, env);
    SeededAgrees(options, argv, env, k);
    SeededAgrees(options, argv, env, Env);
    EnvJsonColorsAgrees(argv, env, s, k);
    SortAndExcludeAgrees(argv, EnvJsonColors(argv, env, s), k);
  }

  lemma {:induction false} JsonModeAt(options: BuildOptions, argv: Argv, env: Environment)
    requires WellFormed(options)
    ensures JsonMode(options, argv, env) <==> Truthy(PreludeAt(options, argv, env, Json))
  {
    PreludeAgrees(options, argv, env, Json);
  }

  /** The last statement: `hide-modules` on whichever record the JSON-mode
      test left. */
  lemma {:induction false} NormalizedShape(options: BuildOptions, argv: Argv, env: Environment)
    requires WellFormed(options)
    ensures var p := Prelude(options, argv, env);
      Normalized(options, argv, env)
      == WithFlag(argv, HideModules, HideModulesCallback, if JsonMode(options, argv, env) then p else TextBlock(argv, p))
  {
  }

  lemma {:induction false} HideAgrees(argv: Argv, d: DisplayOptions, k: Key)
    ensures WithFlag(argv, HideModules, HideModulesCallback, d).Get(k) == HiddenAt(Occ(argv, HideModules), k, d.Get(k))
  {
    FoldHide(Occ(argv, HideModules), d, k);
  }

  /** The final stats options, property by property. */
  lemma {:induction false} NormalizedAgrees(options: BuildOptions, argv: Argv, env: Environment, k: Key)
    requires WellFormed(options)
    ensures Normalized(options, argv, env).Get(k) == NormalizedAt(options, argv, env, k)
  {
    var p := Prelude(options, argv, env);
    NormalizedShape(options, argv, env);
    PreludeAgrees(options, argv, env, k);
    JsonModeAt(options, argv, env);
    if JsonMode(options, argv, env) {
      HideAgrees(argv, p, k);
    } else {
      TextBlockAgrees(argv, p, k);
      HideAgrees(argv, TextBlock(argv, p), k);
    }
  }

  // ---------------------------------------------------------------------------
  // Base record

  /** `--verbose` selects the "verbose" preset, whatever the configuration
      and any `--display` said. */
  lemma VerboseSelectsVerbosePreset(options: BuildOptions, argv: Argv, env: Environment)
    requires ArgTruthy(ArgOf(argv, Verbose))
    ensures BaseOf(options, ApplyVerbose(argv), env) == env.presetToOptions(Str("verbose"))
  {
    assert Occurrences(One(Str("verbose"))) == [Str("verbose")];
  }

  /** Once `--display` is given, the configured `stats` no longer matters. */
  lemma DisplayReplacesConfiguredStats(o1: BuildOptions, o2: BuildOptions, argv: Argv, env: Environment)
    requires Occurrences(ArgOf(argv, Display)) != []
    ensures BaseOf(o1, argv, env) == BaseOf(o2, argv, env)
    ensures BaseOf(o1, argv, env) == env.presetToOptions(Last(Occurrences(ArgOf(argv, Display))))
  {
  }

  /** `--display` given twice: the preset function sees each element of the
      array in turn, so the preset named last decides. */
  lemma RepeatedDisplayLastWins(options: BuildOptions, env: Environment)
    ensures var argv := map[Display := One(List([Str("none"), Str("verbose")]))];
      BaseOf(options, argv, env) == env.presetToOptions(Str("verbose"))
  {
    var argv := map[Display := One(List([Str("none"), Str("verbose")]))];
    DisplayReplacesConfiguredStats(options, options, argv, env);
  }
}
