/**
 * The stats-options normalizer of `processOptions`: it picks a base record
 * (the configured stats preset, or the `--display` preset), wraps it so that
 * writes land in an overlay while reads fall through to the base, and then
 * applies the command-line flags in a fixed order. That order is the
 * override policy.
 *
 * The functions below state the result step by step; the class
 * `OutputOptions` and the method `ComputeOutputOptions` perform the same
 * updates in place and are proved to reach that result.
 */
module StatsOptions {
  import opened Values
  import opened CliArgs

  // ---------------------------------------------------------------------------
  // Build configuration

  /** The `stats` field of a configuration: absent (`undefined`), `null`, a
      boolean, a preset name, or an options record. */
  datatype StatsSetting = NoStats | NullStats | StatsFlag(flag: bool) | StatsPreset(name: string) | StatsGiven(record: Record)

  /** The fields of one configuration record that the command line reads. */
  datatype Config = Config(stats: StatsSetting, context: Value, watch: Value, watchOptions: Value)

  /** A single configuration, or an array of them (multi-compiler mode). An
      array may carry its own `stats` and `watch` properties, which are read
      as `options.stats` and `options.watch`. */
  datatype BuildOptions = Single(config: Config) | Multi(configs: seq<Config>, stats: StatsSetting, watch: Value)

  /** An empty array of configurations has no first element; the command line
      reads properties of that missing element and throws. */
  predicate WellFormed(options: BuildOptions) {
    options.Multi? ==> |options.configs| > 0
  }

  /** `[].concat(options)[0]` */
  function First(options: BuildOptions): Config
    requires WellFormed(options)
  {
    match options
    case Single(c) => c
    case Multi(cs, _, _) => cs[0]
  }

  /** `options.stats`: the configuration's own, or the array's property. */
  function TopStats(options: BuildOptions): StatsSetting {
    match options
    case Single(c) => c.stats
    case Multi(_, s, _) => s
  }

  /** `options.watch`: the configuration's own, or the array's property. */
  function TopWatch(options: BuildOptions): Value {
    match options
    case Single(c) => c.watch
    case Multi(_, _, w) => w
  }

  /** A `stats` setting as the JavaScript value it is. */
  function StatsValue(s: StatsSetting): Value {
    match s
    case NoStats => Undefined
    case NullStats => Null
    case StatsFlag(b) => Bool(b)
    case StatsPreset(name) => Str(name)
    case StatsGiven(r) => Stats(r)
  }

  /** `options.map(o => o.stats)` */
  function ChildStats(cs: seq<Config>): (r: seq<Value>)
    ensures |r| == |cs|
    ensures forall i :: 0 <= i < |cs| ==> r[i] == StatsValue(cs[i].stats)
  {
    if cs == [] then [] else [StatsValue(cs[0].stats)] + ChildStats(cs[1..])
  }

  /** The collaborators the normalizer consults: the stats preset resolver
      and the colour-support probe. Both are opaque. */
  datatype Environment = Environment(presetToOptions: Value -> Record, supportsColor: Value)

  // ---------------------------------------------------------------------------
  // Base record

  /** The record `options.stats` resolves to before any flag is applied. */
  function InitialBase(stats: StatsSetting, presetToOptions: Value -> Record): Record {
    match stats
    case StatsFlag(b) => presetToOptions(Bool(b))
    case StatsPreset(name) => presetToOptions(Str(name))
    case NoStats => map[]
    case NullStats => map[]
    case StatsGiven(r) => r
  }

  /** The base record after the `display` flag: each occurrence replaces the
      record wholesale, so the last one decides. */
  function BaseRecord(stats: StatsSetting, display: Arg, presetToOptions: Value -> Record): Record {
    var occ := Occurrences(display);
    if occ == [] then InitialBase(stats, presetToOptions) else presetToOptions(Last(occ))
  }

  function BaseOf(options: BuildOptions, argv: Argv, env: Environment): Record {
    BaseRecord(TopStats(options), ArgOf(argv, Display), env.presetToOptions)
  }

  /** Resolves the base record the way the source does: expand the configured
      setting, then let every `display` occurrence replace it in turn. */
  method ResolveBase(stats: StatsSetting, display: Arg, presetToOptions: Value -> Record) returns (base: Record)
    ensures Occurrences(display) == [] ==> base == InitialBase(stats, presetToOptions)
    ensures Occurrences(display) != [] ==> base == presetToOptions(Last(Occurrences(display)))
  {
    match stats {
      case StatsFlag(b) => base := presetToOptions(Bool(b));
      case StatsPreset(name) => base := presetToOptions(Str(name));
      case NoStats => base := map[];
      case NullStats => base := map[];
      case StatsGiven(r) => base := r;
    }
    var occ := Occurrences(display);
    var i := 0;
    while i < |occ|
      invariant 0 <= i <= |occ|
      invariant i == 0 ==> base == InitialBase(stats, presetToOptions)
      invariant i > 0 ==> base == presetToOptions(occ[i - 1])
    {
      base := presetToOptions(occ[i]);
      i := i + 1;
    }
  }

  // ---------------------------------------------------------------------------
  // The two-layer record

  /** `Object.create(base)` after some writes: `own` holds the properties
      written since (possibly an explicit `undefined`), `base` the prototype. */
  datatype DisplayOptions = DisplayOptions(base: Record, own: Record) {
    /** Property read: an own property wins, even when it is `undefined`;
        otherwise the read falls through to the base. */
    function Get(k: Key): Value {
      if k in own then own[k] else Field(base, k)
    }

    function Set(k: Key, v: Value): DisplayOptions {
      DisplayOptions(base, own[k := v])
    }
  }

  /** `if (typeof o[k] === "undefined") o[k] = v` */
  function WithDefault(k: Key, v: Value, d: DisplayOptions): DisplayOptions {
    if d.Get(k).Undefined? then d.Set(k, v) else d
  }

  // ---------------------------------------------------------------------------
  // ifArg and its callbacks

  /** The callbacks `processOptions` hands to `ifArg`. */
  datatype Callback =
    | Assign(key: Key)          // o[key] = value
    | EnableIfTruthy(key: Key)  // if (value) o[key] = true
    | CopyIfTruthy(key: Key)    // if (value) o[key] = value
    | EnvCallback               // if (o.env) o._env = value
    | JsonCallback              // if (value) o.json = o.modules = value
    | ChunksCallback            // if (value) modules = false, chunks = chunkModules = true
    | HideModulesCallback       // if (value) modules = chunkModules = false

  /** The properties a callback may write. */
  predicate Writes(cb: Callback, k: Key) {
    match cb
    case Assign(key) => k == key
    case EnableIfTruthy(key) => k == key
    case CopyIfTruthy(key) => k == key
    case EnvCallback => k == PrivateEnv
    case JsonCallback => k == Json || k == Modules
    case ChunksCallback => k == Modules || k == Chunks || k == ChunkModules
    case HideModulesCallback => k == Modules || k == ChunkModules
  }

  /** One call of a callback with one occurrence's value. */
  function Apply(cb: Callback, v: Value, d: DisplayOptions): DisplayOptions {
    match cb
    case Assign(k) => d.Set(k, v)
    case EnableIfTruthy(k) => if Truthy(v) then d.Set(k, Bool(true)) else d
    case CopyIfTruthy(k) => if Truthy(v) then d.Set(k, v) else d
    case EnvCallback => if Truthy(d.Get(Env)) then d.Set(PrivateEnv, v) else d
    case JsonCallback => if Truthy(v) then d.Set(Json, v).Set(Modules, v) else d
    case ChunksCallback =>
      if Truthy(v) then d.Set(Modules, Bool(false)).Set(Chunks, Bool(true)).Set(ChunkModules, Bool(true)) else d
    case HideModulesCallback =>
      if Truthy(v) then d.Set(Modules, Bool(false)).Set(ChunkModules, Bool(false)) else d
  }

  /** The callback applied to each value in turn, first to last (`forEach`). */
  function Fold(cb: Callback, vs: seq<Value>, d: DisplayOptions): (r: DisplayOptions)
    ensures r.base == d.base
    decreases |vs|
  {
    if vs == [] then d else Fold(cb, vs[1..], Apply(cb, vs[0], d))
  }

  /** The record after `ifArg(f, cb)`. */
  function WithFlag(argv: Argv, f: Flag, cb: Callback, d: DisplayOptions): DisplayOptions {
    Fold(cb, Occurrences(ArgOf(argv, f)), d)
  }

  lemma {:induction false} FoldSnoc(cb: Callback, vs: seq<Value>, v: Value, d: DisplayOptions)
    ensures Fold(cb, vs + [v], d) == Apply(cb, v, Fold(cb, vs, d))
    decreases |vs|
  {
    if vs != [] {
      assert (vs + [v])[1..] == vs[1..] + [v];
      FoldSnoc(cb, vs[1..], v, Apply(cb, vs[0], d));
    }
  }

  lemma FoldOne(cb: Callback, v: Value, d: DisplayOptions)
    ensures Fold(cb, [v], d) == Apply(cb, v, d)
  {
    assert [v][1..] == [];
  }

  // ---------------------------------------------------------------------------
  // The normalization, step by step

  const DefaultExclude: Value := List([Str("node_modules"), Str("bower_components"), Str("components")])

  /** `Object.create(outputOptions)`: a fresh overlay on the base record. */
  function Wrapped(options: BuildOptions, argv: Argv, env: Environment): DisplayOptions {
    DisplayOptions(BaseOf(options, argv, env), map[])
  }

  /** An array configuration gets `children`, unless the record has a truthy one. */
  function WithChildren(options: BuildOptions, d: DisplayOptions): DisplayOptions {
    if options.Multi? && !Truthy(d.Get(Children)) then d.Set(Children, List(ChildStats(options.configs))) else d
  }

  /** `context` from the first configuration, unless the record defines one. */
  function WithContext(options: BuildOptions, d: DisplayOptions): DisplayOptions
    requires WellFormed(options)
  {
    WithDefault(Context, First(options).context, d)
  }

  /** The sort keys and `display-exclude`. */
  function SortAndExclude(argv: Argv, d: DisplayOptions): DisplayOptions {
    var s1 := WithFlag(argv, SortModulesBy, Assign(ModulesSort), d);
    var s2 := WithFlag(argv, SortChunksBy, Assign(ChunksSort), s1);
    var s3 := WithFlag(argv, SortAssetsBy, Assign(AssetsSort), s2);
    WithFlag(argv, DisplayExclude, Assign(Exclude), s3)
  }

  /** The wrapped record with `children` and `context` filled in. */
  function Seeded(options: BuildOptions, argv: Argv, env: Environment): DisplayOptions
    requires WellFormed(options)
  {
    WithContext(options, WithChildren(options, Wrapped(options, argv, env)))
  }

  /** `env`, `json` and the `colors` default. */
  function EnvJsonColors(argv: Argv, env: Environment, d: DisplayOptions): DisplayOptions {
    var d3 := WithFlag(argv, EnvFlag, EnvCallback, d);
    var d4 := WithFlag(argv, JsonFlag, JsonCallback, d3);
    WithDefault(Colors, env.supportsColor, d4)
  }

  /** Everything up to the JSON-mode test. */
  function Prelude(options: BuildOptions, argv: Argv, env: Environment): DisplayOptions
    requires WellFormed(options)
  {
    SortAndExclude(argv, EnvJsonColors(argv, env, Seeded(options, argv, env)))
  }

  /** The properties the first six display toggles may write. */
  predicate ChunkToggleWrites(k: Key) {
    k == Modules || k == Chunks || k == ChunkModules || k == Entrypoints || k == Reasons
    || k == Depth || k == UsedExports || k == ProvidedExports
  }

  /** The properties the last six display toggles may write. */
  predicate DetailToggleWrites(k: Key) {
    k == OptimizationBailout || k == ErrorDetails || k == ChunkOrigins || k == MaxModules
    || k == Cached || k == CachedAssets
  }

  /** `display-chunks` to `display-provided-exports`. */
  function ChunkToggles(argv: Argv, d: DisplayOptions): DisplayOptions {
    var t1 := WithFlag(argv, DisplayChunks, ChunksCallback, d);
    var t2 := WithFlag(argv, DisplayEntrypoints, EnableIfTruthy(Entrypoints), t1);
    var t3 := WithFlag(argv, DisplayReasons, EnableIfTruthy(Reasons), t2);
    var t4 := WithFlag(argv, DisplayDepth, EnableIfTruthy(Depth), t3);
    var t5 := WithFlag(argv, DisplayUsedExports, EnableIfTruthy(UsedExports), t4);
    WithFlag(argv, DisplayProvidedExports, EnableIfTruthy(ProvidedExports), t5)
  }

  /** `display-optimization-bailout` to `display-cached-assets`. */
  function DetailToggles(argv: Argv, d: DisplayOptions): DisplayOptions {
    var t7 := WithFlag(argv, DisplayOptimizationBailout, CopyIfTruthy(OptimizationBailout), d);
    var t8 := WithFlag(argv, DisplayErrorDetails, EnableIfTruthy(ErrorDetails), t7);
    var t9 := WithFlag(argv, DisplayOrigins, EnableIfTruthy(ChunkOrigins), t8);
    var t10 := WithFlag(argv, DisplayMaxModules, Assign(MaxModules), t9);
    var t11 := WithFlag(argv, DisplayCached, EnableIfTruthy(Cached), t10);
    WithFlag(argv, DisplayCachedAssets, EnableIfTruthy(CachedAssets), t11)
  }

  /** `display-modules`, read directly from `argv`, overrides `exclude`,
      `maxModules` and `modules` whatever came before. */
  function DisplayModulesOverride(argv: Argv, d: DisplayOptions): DisplayOptions {
    if ArgTruthy(ArgOf(argv, DisplayModules)) then
      d.Set(MaxModules, Infinity).Set(Exclude, Undefined).Set(Modules, Bool(true))
    else d
  }

  /** A falsy `exclude` is replaced by the default list. */
  function WithExcludeFallback(d: DisplayOptions): DisplayOptions {
    if Truthy(d.Get(Exclude)) then d else d.Set(Exclude, DefaultExclude)
  }

  /** The block that runs only outside JSON mode. */
  function TextBlock(argv: Argv, d: DisplayOptions): DisplayOptions {
    var b1 := WithDefault(Cached, Bool(false), d);
    var b2 := WithDefault(CachedAssets, Bool(false), b1);
    var b3 := DetailToggles(argv, ChunkToggles(argv, b2));
    DisplayModulesOverride(argv, WithExcludeFallback(b3))
  }

  /** JSON mode: the `json` property after the prelude, own or inherited. */
  predicate JsonMode(options: BuildOptions, argv: Argv, env: Environment)
    requires WellFormed(options)
  {
    Truthy(Prelude(options, argv, env).Get(Json))
  }

  /** The stats options `processOptions` hands to the renderer. */
  function Normalized(options: BuildOptions, argv: Argv, env: Environment): DisplayOptions
    requires WellFormed(options)
  {
    var p := Prelude(options, argv, env);
    var g := if Truthy(p.Get(Json)) then p else TextBlock(argv, p);
    WithFlag(argv, HideModules, HideModulesCallback, g)
  }

  // ---------------------------------------------------------------------------
  // The object the source mutates

  /** `outputOptions` after `Object.create`: the prototype is fixed, the own
      properties are written one by one. */
  class OutputOptions {
    const base: Record
    var own: Record

    function View(): DisplayOptions
      reads this
    {
      DisplayOptions(base, own)
    }

    constructor (base: Record)
      ensures View() == DisplayOptions(base, map[])
    {
      this.base := base;
      own := map[];
    }

    method Put(k: Key, v: Value)
      modifies this
      ensures View() == old(View()).Set(k, v)
    {
      own := own[k := v];
    }

    method FillIfUndefined(k: Key, v: Value)
      modifies this
      ensures View() == WithDefault(k, v, old(View()))
    {
      if View().Get(k).Undefined? {
        own := own[k := v];
      }
    }

    /** One call of a callback. */
    method Call(cb: Callback, v: Value)
      modifies this
      ensures View() == Apply(cb, v, old(View()))
    {
      match cb {
        case Assign(k) =>
          own := own[k := v];
        case EnableIfTruthy(k) =>
          if Truthy(v) { own := own[k := Bool(true)]; }
        case CopyIfTruthy(k) =>
          if Truthy(v) { own := own[k := v]; }
        case EnvCallback =>
          if Truthy(View().Get(Env)) { own := own[PrivateEnv := v]; }
        case JsonCallback =>
          if Truthy(v) {
            own := own[Json := v];
            own := own[Modules := v];
          }
        case ChunksCallback =>
          if Truthy(v) {
            own := own[Modules := Bool(false)];
            own := own[Chunks := Bool(true)];
            own := own[ChunkModules := Bool(true)];
          }
        case HideModulesCallback =>
          if Truthy(v) {
            own := own[Modules := Bool(false)];
            own := own[ChunkModules := Bool(false)];
          }
      }
    }

    /** `forEach(fn)` over the occurrences of an array entry. */
    method CallEach(cb: Callback, vs: seq<Value>)
      modifies this
      ensures View() == Fold(cb, vs, old(View()))
    {
      var i := 0;
      while i < |vs|
        invariant 0 <= i <= |vs|
        invariant View() == Fold(cb, vs[..i], old(View()))
      {
        FoldSnoc(cb, vs[..i], vs[i], old(View()));
        assert vs[..i + 1] == vs[..i] + [vs[i]];
        Call(cb, vs[i]);
        i := i + 1;
      }
      assert vs[..i] == vs;
    }

    /** `ifArg(f, cb)`: `forEach` over an array entry, one call for a
        defined scalar, none for `undefined`. */
    method IfArg(argv: Argv, f: Flag, cb: Callback)
      modifies this
      ensures View() == Fold(cb, Occurrences(ArgOf(argv, f)), old(View()))
    {
      var arg := ArgOf(argv, f);
      if arg.One? && arg.value.List? {
        CallEach(cb, arg.value.items);
      } else if arg.One? && !arg.value.Undefined? {
        FoldOne(cb, arg.value, View());
        Call(cb, arg.value);
      }
    }

    /** Lines 323-393 of the source, run when `json` is falsy. */
    method ApplyTextBlock(argv: Argv)
      modifies this
      ensures View() == TextBlock(argv, old(View()))
    {
      FillIfUndefined(Cached, Bool(false));
      FillIfUndefined(CachedAssets, Bool(false));
      IfArg(argv, DisplayChunks, ChunksCallback);
      IfArg(argv, DisplayEntrypoints, EnableIfTruthy(Entrypoints));
      IfArg(argv, DisplayReasons, EnableIfTruthy(Reasons));
      IfArg(argv, DisplayDepth, EnableIfTruthy(Depth));
      IfArg(argv, DisplayUsedExports, EnableIfTruthy(UsedExports));
      IfArg(argv, DisplayProvidedExports, EnableIfTruthy(ProvidedExports));
      IfArg(argv, DisplayOptimizationBailout, CopyIfTruthy(OptimizationBailout));
      IfArg(argv, DisplayErrorDetails, EnableIfTruthy(ErrorDetails));
      IfArg(argv, DisplayOrigins, EnableIfTruthy(ChunkOrigins));
      IfArg(argv, DisplayMaxModules, Assign(MaxModules));
      IfArg(argv, DisplayCached, EnableIfTruthy(Cached));
      IfArg(argv, DisplayCachedAssets, EnableIfTruthy(CachedAssets));
      if !Truthy(View().Get(Exclude)) {
        Put(Exclude, DefaultExclude);
      }
      if ArgTruthy(ArgOf(argv, DisplayModules)) {
        Put(MaxModules, Infinity);
        Put(Exclude, Undefined);
        Put(Modules, Bool(true));
      }
    }
  }

  /** Lines 266-400 of `processOptions`: the stats options the renderer gets. */
  method ComputeOutputOptions(options: BuildOptions, argv: Argv, env: Environment) returns (o: OutputOptions)
    requires WellFormed(options)
    ensures fresh(o)
    ensures o.View() == Normalized(options, argv, env)
  {
    var firstOptions := First(options);
    var base := ResolveBase(TopStats(options), ArgOf(argv, Display), env.presetToOptions);
    o := new OutputOptions(base);
    if options.Multi? && !Truthy(o.View().Get(Children)) {
      o.Put(Children, List(ChildStats(options.configs)));
    }
    o.FillIfUndefined(Context, firstOptions.context);
    o.IfArg(argv, EnvFlag, EnvCallback);
    o.IfArg(argv, JsonFlag, JsonCallback);
    o.FillIfUndefined(Colors, env.supportsColor);
    o.IfArg(argv, SortModulesBy, Assign(ModulesSort));
    o.IfArg(argv, SortChunksBy, Assign(ChunksSort));
    o.IfArg(argv, SortAssetsBy, Assign(AssetsSort));
    o.IfArg(argv, DisplayExclude, Assign(Exclude));
    assert o.View() == Prelude(options, argv, env);
    if !Truthy(o.View().Get(Json)) {
      o.ApplyTextBlock(argv);
    }
    o.IfArg(argv, HideModules, HideModulesCallback);
  }
}
