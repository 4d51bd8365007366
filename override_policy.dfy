/**
 * The override policy of the stats-options normalizer, property by property:
 * which flag or default decides each property of the final record, and in
 * which mode.
 *
 * Each stage is first read for one property on values (`PreludeAt`,
 * `TextBlockAt`), then on records through the agreement lemmas; the rules at
 * the end speak of `Normalized` itself and of the base record alone.
 */
module OverridePolicy {
  import opened Values
  import opened CliArgs
  import opened StatsOptions
  import opened StatsOptionsProperties

  // ---------------------------------------------------------------------------
  // Which flag drives which property

  /** The three sort flags, each assigning its value to one property. */
  predicate SortFlag(f: Flag, k: Key) {
    (f == SortModulesBy && k == ModulesSort) || (f == SortChunksBy && k == ChunksSort)
    || (f == SortAssetsBy && k == AssetsSort)
  }

  /** The toggles that set a property to `true` after a truthy occurrence:
      five run among the chunk toggles, two among the detail toggles. */
  predicate ChunkToggleFlag(f: Flag, k: Key) {
    (f == DisplayEntrypoints && k == Entrypoints) || (f == DisplayReasons && k == Reasons)
    || (f == DisplayDepth && k == Depth) || (f == DisplayUsedExports && k == UsedExports)
    || (f == DisplayProvidedExports && k == ProvidedExports)
  }

  predicate DetailToggleFlag(f: Flag, k: Key) {
    (f == DisplayErrorDetails && k == ErrorDetails) || (f == DisplayOrigins && k == ChunkOrigins)
  }

  /** The toggles whose property also gets a `false` default. */
  predicate CachedFlag(f: Flag, k: Key) {
    (f == DisplayCached && k == Cached) || (f == DisplayCachedAssets && k == CachedAssets)
  }

  lemma CachedKeys(f: Flag, k: Key)
    requires CachedFlag(f, k)
    ensures !PreludeWrites(k) && k != Modules && k != ChunkModules
  {
  }

  /** The properties written before the JSON-mode test. */
  predicate PreludeWrites(k: Key) {
    k == Children || k == Context || k == PrivateEnv || k == Json || k == Modules || k == Colors
    || k == ModulesSort || k == ChunksSort || k == AssetsSort || k == Exclude
  }

  /** The properties the text-mode block may write. */
  predicate TextBlockWrites(k: Key) {
    ChunkToggleWrites(k) || DetailToggleWrites(k) || k == Exclude
  }

  // ---------------------------------------------------------------------------
  // The prelude, one property at a time

  lemma PreludeAtFrame(options: BuildOptions, argv: Argv, env: Environment, k: Key)
    requires WellFormed(options)
    requires !PreludeWrites(k)
    ensures PreludeAt(options, argv, env, k) == Field(BaseOf(options, argv, env), k)
  {
  }

  lemma PreludeAtJson(options: BuildOptions, argv: Argv, env: Environment, k: Key)
    requires WellFormed(options)
    requires k == Json || k == Modules
    ensures PreludeAt(options, argv, env, k) == Copied(Occ(argv, JsonFlag), Field(BaseOf(options, argv, env), k))
  {
  }

  lemma PreludeAtAssign(options: BuildOptions, argv: Argv, env: Environment, f: Flag, k: Key)
    requires WellFormed(options)
    requires SortFlag(f, k) || (f == DisplayExclude && k == Exclude)
    ensures PreludeAt(options, argv, env, k) == LastOr(Occ(argv, f), Field(BaseOf(options, argv, env), k))
  {
  }

  /** Nothing before the JSON-mode test writes a property it does not list. */
  lemma {:induction false} PreludeFrame(options: BuildOptions, argv: Argv, env: Environment, k: Key)
    requires WellFormed(options)
    requires !PreludeWrites(k)
    ensures Prelude(options, argv, env).Get(k) == Field(BaseOf(options, argv, env), k)
  {
    PreludeAgrees(options, argv, env, k);
    PreludeAtFrame(options, argv, env, k);
  }

  /** `children` is filled in for an array configuration, over a falsy value only. */
  lemma {:induction false} PreludeChildren(options: BuildOptions, argv: Argv, env: Environment)
    requires WellFormed(options)
    ensures var b := Field(BaseOf(options, argv, env), Children);
      Prelude(options, argv, env).Get(Children)
      == if options.Multi? && !Truthy(b) then List(ChildStats(options.configs)) else b
  {
    PreludeAgrees(options, argv, env, Children);
  }

  /** `context` comes from the first configuration, over `undefined` only. */
  lemma {:induction false} PreludeContext(options: BuildOptions, argv: Argv, env: Environment)
    requires WellFormed(options)
    ensures var b := Field(BaseOf(options, argv, env), Context);
      Prelude(options, argv, env).Get(Context) == if b.Undefined? then First(options).context else b
  {
    PreludeAgrees(options, argv, env, Context);
  }

  /** `_env` takes the last `env` occurrence, and only when the record already
      has a truthy `env`. */
  lemma {:induction false} PreludeEnv(options: BuildOptions, argv: Argv, env: Environment)
    requires WellFormed(options)
    ensures var b := BaseOf(options, argv, env);
      Prelude(options, argv, env).Get(PrivateEnv)
      == if Truthy(Field(b, Env)) then LastOr(Occ(argv, EnvFlag), Field(b, PrivateEnv)) else Field(b, PrivateEnv)
  {
    PreludeAgrees(options, argv, env, PrivateEnv);
  }

  /** `json` and `modules` take the last truthy `json` occurrence. */
  lemma {:induction false} PreludeJson(options: BuildOptions, argv: Argv, env: Environment, k: Key)
    requires WellFormed(options)
    requires k == Json || k == Modules
    ensures Prelude(options, argv, env).Get(k) == Copied(Occ(argv, JsonFlag), Field(BaseOf(options, argv, env), k))
  {
    PreludeAgrees(options, argv, env, k);
    PreludeAtJson(options, argv, env, k);
  }

  /** `colors` comes from the colour probe, over `undefined` only. */
  lemma {:induction false} PreludeColors(options: BuildOptions, argv: Argv, env: Environment)
    requires WellFormed(options)
    ensures var b := Field(BaseOf(options, argv, env), Colors);
      Prelude(options, argv, env).Get(Colors) == if b.Undefined? then env.supportsColor else b
  {
    PreludeAgrees(options, argv, env, Colors);
  }

  /** The sort flags and `display-exclude`: the last occurrence wins. */
  lemma {:induction false} PreludeAssign(options: BuildOptions, argv: Argv, env: Environment, f: Flag, k: Key)
    requires WellFormed(options)
    requires SortFlag(f, k) || (f == DisplayExclude && k == Exclude)
    ensures Prelude(options, argv, env).Get(k) == LastOr(Occ(argv, f), Field(BaseOf(options, argv, env), k))
  {
    PreludeAgrees(options, argv, env, k);
    PreludeAtAssign(options, argv, env, f, k);
  }

  // ---------------------------------------------------------------------------
  // The text-mode block, one property at a time

  lemma ChunkTogglesAtEnable(argv: Argv, f: Flag, k: Key, x: Value)
    requires ChunkToggleFlag(f, k)
    ensures ChunkTogglesAt(argv, k, x) == Enabled(Occ(argv, f), x)
  {
  }

  lemma DetailTogglesAtEnable(argv: Argv, f: Flag, k: Key, x: Value)
    requires DetailToggleFlag(f, k) || CachedFlag(f, k)
    ensures DetailTogglesAt(argv, k, x) == Enabled(Occ(argv, f), x)
  {
  }

  /** Each of the five chunk toggles sets its property to `true` after a
      truthy occurrence and leaves it alone otherwise. */
  lemma {:induction false} ChunkTogglesEnable(argv: Argv, d: DisplayOptions, f: Flag, k: Key)
    requires ChunkToggleFlag(f, k)
    ensures ChunkToggles(argv, d).Get(k) == Enabled(Occ(argv, f), d.Get(k))
  {
    ChunkTogglesAgrees(argv, d, k);
    ChunkTogglesAtEnable(argv, f, k, d.Get(k));
  }

  /** The same for `display-error-details`, `display-origins`,
      `display-cached` and `display-cached-assets`. */
  lemma {:induction false} DetailTogglesEnable(argv: Argv, d: DisplayOptions, f: Flag, k: Key)
    requires DetailToggleFlag(f, k) || CachedFlag(f, k)
    ensures DetailToggles(argv, d).Get(k) == Enabled(Occ(argv, f), d.Get(k))
  {
    DetailTogglesAgrees(argv, d, k);
    DetailTogglesAtEnable(argv, f, k, d.Get(k));
  }

  lemma TextBlockAtFrame(argv: Argv, k: Key, x: Value)
    requires !TextBlockWrites(k)
    ensures TextBlockAt(argv, k, x) == x
  {
  }

  lemma TextBlockAtCached(argv: Argv, f: Flag, k: Key, x: Value)
    requires CachedFlag(f, k)
    ensures TextBlockAt(argv, k, x) == if AnyTruthy(Occ(argv, f)) then Bool(true) else if x.Undefined? then Bool(false) else x
  {
  }

  lemma TextBlockAtExclude(argv: Argv, x: Value)
    ensures TextBlockAt(argv, Exclude, x)
         == if ArgTruthy(ArgOf(argv, DisplayModules)) then Undefined else if Truthy(x) then x else DefaultExclude
  {
  }

  lemma TextBlockAtMaxModules(argv: Argv, x: Value)
    ensures TextBlockAt(argv, MaxModules, x)
         == if ArgTruthy(ArgOf(argv, DisplayModules)) then Infinity else LastOr(Occ(argv, DisplayMaxModules), x)
  {
  }

  lemma TextBlockAtModules(argv: Argv, x: Value)
    ensures TextBlockAt(argv, Modules, x)
         == if ArgTruthy(ArgOf(argv, DisplayModules)) then Bool(true)
            else if AnyTruthy(Occ(argv, DisplayChunks)) then Bool(false) else x
  {
  }

  lemma TextBlockAtChunks(argv: Argv, k: Key, x: Value)
    requires k == Chunks || k == ChunkModules
    ensures TextBlockAt(argv, k, x) == if AnyTruthy(Occ(argv, DisplayChunks)) then Bool(true) else x
  {
  }

  lemma TextBlockAtBailout(argv: Argv, x: Value)
    ensures TextBlockAt(argv, OptimizationBailout, x) == Copied(Occ(argv, DisplayOptimizationBailout), x)
  {
  }

  /** The text-mode block writes only the properties it lists. */
  lemma {:induction false} TextBlockFrame(argv: Argv, d: DisplayOptions, k: Key)
    requires !TextBlockWrites(k)
    ensures TextBlock(argv, d).Get(k) == d.Get(k)
  {
    TextBlockAgrees(argv, d, k);
    TextBlockAtFrame(argv, k, d.Get(k));
  }

  /** `cached` and `cachedAssets`: `true` after a truthy toggle, else `false`
      over `undefined` only. */
  lemma {:induction false} TextBlockCached(argv: Argv, d: DisplayOptions, f: Flag, k: Key)
    requires CachedFlag(f, k)
    ensures TextBlock(argv, d).Get(k)
         == if AnyTruthy(Occ(argv, f)) then Bool(true) else if d.Get(k).Undefined? then Bool(false) else d.Get(k)
  {
    TextBlockAgrees(argv, d, k);
    TextBlockAtCached(argv, f, k, d.Get(k));
  }

  /** `exclude`: a falsy value becomes the default list, and a truthy
      `display-modules` then removes it. */
  lemma {:induction false} TextBlockExclude(argv: Argv, d: DisplayOptions)
    ensures TextBlock(argv, d).Get(Exclude)
         == if ArgTruthy(ArgOf(argv, DisplayModules)) then Undefined
            else if Truthy(d.Get(Exclude)) then d.Get(Exclude) else DefaultExclude
  {
    TextBlockAgrees(argv, d, Exclude);
    TextBlockAtExclude(argv, d.Get(Exclude));
  }

  /** `maxModules`: the last `display-max-modules` occurrence, unless a truthy
      `display-modules` makes it unbounded. */
  lemma {:induction false} TextBlockMaxModules(argv: Argv, d: DisplayOptions)
    ensures TextBlock(argv, d).Get(MaxModules)
         == if ArgTruthy(ArgOf(argv, DisplayModules)) then Infinity
            else LastOr(Occ(argv, DisplayMaxModules), d.Get(MaxModules))
  {
    TextBlockAgrees(argv, d, MaxModules);
    TextBlockAtMaxModules(argv, d.Get(MaxModules));
  }

  /** `modules`: `display-modules` beats `display-chunks`, which hides them. */
  lemma {:induction false} TextBlockModules(argv: Argv, d: DisplayOptions)
    ensures TextBlock(argv, d).Get(Modules)
         == if ArgTruthy(ArgOf(argv, DisplayModules)) then Bool(true)
            else if AnyTruthy(Occ(argv, DisplayChunks)) then Bool(false) else d.Get(Modules)
  {
    TextBlockAgrees(argv, d, Modules);
    TextBlockAtModules(argv, d.Get(Modules));
  }

  /** `chunks` and `chunkModules`: `true` after a truthy `display-chunks`. */
  lemma {:induction false} TextBlockChunks(argv: Argv, d: DisplayOptions, k: Key)
    requires k == Chunks || k == ChunkModules
    ensures TextBlock(argv, d).Get(k) == if AnyTruthy(Occ(argv, DisplayChunks)) then Bool(true) else d.Get(k)
  {
    TextBlockAgrees(argv, d, k);
    TextBlockAtChunks(argv, k, d.Get(k));
  }

  /** `optimizationBailout` takes the last truthy occurrence itself. */
  lemma {:induction false} TextBlockBailout(argv: Argv, d: DisplayOptions)
    ensures TextBlock(argv, d).Get(OptimizationBailout)
         == Copied(Occ(argv, DisplayOptimizationBailout), d.Get(OptimizationBailout))
  {
    TextBlockAgrees(argv, d, OptimizationBailout);
    TextBlockAtBailout(argv, d.Get(OptimizationBailout));
  }

  // ---------------------------------------------------------------------------
  // The two modes

  /** `hide-modules` touches only `modules` and `chunkModules`. */
  lemma {:induction false} HideKeeps(argv: Argv, d: DisplayOptions, k: Key)
    requires k != Modules && k != ChunkModules
    ensures WithFlag(argv, HideModules, HideModulesCallback, d).Get(k) == d.Get(k)
  {
    HideAgrees(argv, d, k);
  }

  /** In JSON mode the text-mode block is skipped: apart from what
      `hide-modules` writes, the final record is the prelude's. */
  lemma {:induction false} JsonModeKeeps(options: BuildOptions, argv: Argv, env: Environment, k: Key)
    requires WellFormed(options)
    requires JsonMode(options, argv, env)
    requires k != Modules && k != ChunkModules
    ensures Normalized(options, argv, env).Get(k) == Prelude(options, argv, env).Get(k)
  {
    NormalizedShape(options, argv, env);
    HideKeeps(argv, Prelude(options, argv, env), k);
  }

  /** Outside JSON mode, apart from what `hide-modules` writes, the final
      record is the text-mode block's. */
  lemma {:induction false} TextModeKeeps(options: BuildOptions, argv: Argv, env: Environment, k: Key)
    requires WellFormed(options)
    requires !JsonMode(options, argv, env)
    requires k != Modules && k != ChunkModules
    ensures Normalized(options, argv, env).Get(k) == TextBlock(argv, Prelude(options, argv, env)).Get(k)
  {
    NormalizedShape(options, argv, env);
    HideKeeps(argv, TextBlock(argv, Prelude(options, argv, env)), k);
  }

  /** A property neither the text-mode block nor `hide-modules` writes is
      final once the prelude has run, in either mode. */
  lemma {:induction false} NormalizedKeeps(options: BuildOptions, argv: Argv, env: Environment, k: Key)
    requires WellFormed(options)
    requires !TextBlockWrites(k)
    ensures Normalized(options, argv, env).Get(k) == Prelude(options, argv, env).Get(k)
  {
    if JsonMode(options, argv, env) {
      JsonModeKeeps(options, argv, env, k);
    } else {
      TextModeKeeps(options, argv, env, k);
      TextBlockFrame(argv, Prelude(options, argv, env), k);
    }
  }

  /** JSON mode is on exactly when a `json` occurrence is truthy or the base
      record has a truthy `json`. */
  lemma {:induction false} JsonModeIff(options: BuildOptions, argv: Argv, env: Environment)
    requires WellFormed(options)
    ensures JsonMode(options, argv, env)
        <==> AnyTruthy(Occ(argv, JsonFlag)) || Truthy(Field(BaseOf(options, argv, env), Json))
  {
    PreludeJson(options, argv, env, Json);
  }

  /** In JSON mode no text-mode default or toggle applies: every property
      the prelude does not write, apart from the two `hide-modules` writes,
      is the base record's. */
  lemma {:induction false} JsonModeIgnoresTextFlags(options: BuildOptions, argv: Argv, env: Environment, k: Key)
    requires WellFormed(options)
    requires JsonMode(options, argv, env)
    requires !PreludeWrites(k) && k != ChunkModules
    ensures Normalized(options, argv, env).Get(k) == Field(BaseOf(options, argv, env), k)
  {
    JsonModeKeeps(options, argv, env, k);
    PreludeFrame(options, argv, env, k);
  }

  // ---------------------------------------------------------------------------
  // The final record, property by property

  /** A property no stage writes (`env`, or any property the command line
      does not know) keeps the base record's value. */
  lemma {:induction false} PassThrough(options: BuildOptions, argv: Argv, env: Environment, k: Key)
    requires WellFormed(options)
    requires !PreludeWrites(k) && !TextBlockWrites(k)
    ensures Normalized(options, argv, env).Get(k) == Field(BaseOf(options, argv, env), k)
  {
    NormalizedKeeps(options, argv, env, k);
    PreludeFrame(options, argv, env, k);
  }

  lemma {:induction false} ChildrenRule(options: BuildOptions, argv: Argv, env: Environment)
    requires WellFormed(options)
    ensures var b := Field(BaseOf(options, argv, env), Children);
      Normalized(options, argv, env).Get(Children)
      == if options.Multi? && !Truthy(b) then List(ChildStats(options.configs)) else b
  {
    NormalizedKeeps(options, argv, env, Children);
    PreludeChildren(options, argv, env);
  }

  lemma {:induction false} ContextRule(options: BuildOptions, argv: Argv, env: Environment)
    requires WellFormed(options)
    ensures var b := Field(BaseOf(options, argv, env), Context);
      Normalized(options, argv, env).Get(Context) == if b.Undefined? then First(options).context else b
  {
    NormalizedKeeps(options, argv, env, Context);
    PreludeContext(options, argv, env);
  }

  lemma {:induction false} EnvRule(options: BuildOptions, argv: Argv, env: Environment)
    requires WellFormed(options)
    ensures var b := BaseOf(options, argv, env);
      Normalized(options, argv, env).Get(PrivateEnv)
      == if Truthy(Field(b, Env)) then LastOr(Occ(argv, EnvFlag), Field(b, PrivateEnv)) else Field(b, PrivateEnv)
  {
    NormalizedKeeps(options, argv, env, PrivateEnv);
    PreludeEnv(options, argv, env);
  }

  lemma {:induction false} ColorsRule(options: BuildOptions, argv: Argv, env: Environment)
    requires WellFormed(options)
    ensures var b := Field(BaseOf(options, argv, env), Colors);
      Normalized(options, argv, env).Get(Colors) == if b.Undefined? then env.supportsColor else b
  {
    NormalizedKeeps(options, argv, env, Colors);
    PreludeColors(options, argv, env);
  }

  lemma {:induction false} JsonRule(options: BuildOptions, argv: Argv, env: Environment)
    requires WellFormed(options)
    ensures Normalized(options, argv, env).Get(Json)
         == Copied(Occ(argv, JsonFlag), Field(BaseOf(options, argv, env), Json))
  {
    NormalizedKeeps(options, argv, env, Json);
    PreludeJson(options, argv, env, Json);
  }

  lemma {:induction false} SortRule(options: BuildOptions, argv: Argv, env: Environment, f: Flag, k: Key)
    requires WellFormed(options)
    requires SortFlag(f, k)
    ensures Normalized(options, argv, env).Get(k) == LastOr(Occ(argv, f), Field(BaseOf(options, argv, env), k))
  {
    NormalizedKeeps(options, argv, env, k);
    PreludeAssign(options, argv, env, f, k);
  }

  /** A flag given twice is an array entry: `ifArg` visits each element, so
      the later `--sort-modules-by` wins. */
  lemma RepeatedSortFlagLastWins(options: BuildOptions, env: Environment)
    requires WellFormed(options)
    ensures Normalized(options, map[SortModulesBy := One(List([Str("a"), Str("b")]))], env).Get(ModulesSort) == Str("b")
  {
    var argv := map[SortModulesBy := One(List([Str("a"), Str("b")]))];
    SortRule(options, argv, env, SortModulesBy, ModulesSort);
    assert Occ(argv, SortModulesBy) == [Str("a"), Str("b")];
  }

  /** `exclude`: the last `display-exclude` occurrence, or the base value; in
      text mode a falsy one becomes the default list, and a truthy
      `display-modules` removes it whatever `display-exclude` said. */
  lemma {:induction false} ExcludeRule(options: BuildOptions, argv: Argv, env: Environment)
    requires WellFormed(options)
    ensures var x := LastOr(Occ(argv, DisplayExclude), Field(BaseOf(options, argv, env), Exclude));
      Normalized(options, argv, env).Get(Exclude)
      == if JsonMode(options, argv, env) then x
         else if ArgTruthy(ArgOf(argv, DisplayModules)) then Undefined
         else if Truthy(x) then x else DefaultExclude
  {
    var p := Prelude(options, argv, env);
    PreludeAssign(options, argv, env, DisplayExclude, Exclude);
    if JsonMode(options, argv, env) {
      JsonModeKeeps(options, argv, env, Exclude);
    } else {
      TextModeKeeps(options, argv, env, Exclude);
      TextBlockExclude(argv, p);
    }
  }

  /** `maxModules`: in text mode a truthy `display-modules` makes it
      unbounded whatever `display-max-modules` said. */
  lemma {:induction false} MaxModulesRule(options: BuildOptions, argv: Argv, env: Environment)
    requires WellFormed(options)
    ensures var b := Field(BaseOf(options, argv, env), MaxModules);
      Normalized(options, argv, env).Get(MaxModules)
      == if JsonMode(options, argv, env) then b
         else if ArgTruthy(ArgOf(argv, DisplayModules)) then Infinity
         else LastOr(Occ(argv, DisplayMaxModules), b)
  {
    var p := Prelude(options, argv, env);
    PreludeFrame(options, argv, env, MaxModules);
    if JsonMode(options, argv, env) {
      JsonModeKeeps(options, argv, env, MaxModules);
    } else {
      TextModeKeeps(options, argv, env, MaxModules);
      TextBlockMaxModules(argv, p);
    }
  }

  /** `cached` and `cachedAssets`: in text mode `true` after a truthy toggle,
      else `false` unless the base record defines them. */
  lemma {:induction false} CachedRule(options: BuildOptions, argv: Argv, env: Environment, f: Flag, k: Key)
    requires WellFormed(options)
    requires CachedFlag(f, k)
    ensures var b := Field(BaseOf(options, argv, env), k);
      Normalized(options, argv, env).Get(k)
      == if JsonMode(options, argv, env) then b
         else if AnyTruthy(Occ(argv, f)) then Bool(true)
         else if b.Undefined? then Bool(false) else b
  {
    var p := Prelude(options, argv, env);
    CachedKeys(f, k);
    PreludeFrame(options, argv, env, k);
    if JsonMode(options, argv, env) {
      JsonModeKeeps(options, argv, env, k);
    } else {
      TextModeKeeps(options, argv, env, k);
      TextBlockCached(argv, p, f, k);
    }
  }

  lemma {:induction false} BailoutRule(options: BuildOptions, argv: Argv, env: Environment)
    requires WellFormed(options)
    ensures var b := Field(BaseOf(options, argv, env), OptimizationBailout);
      Normalized(options, argv, env).Get(OptimizationBailout)
      == if JsonMode(options, argv, env) then b else Copied(Occ(argv, DisplayOptimizationBailout), b)
  {
    var p := Prelude(options, argv, env);
    PreludeFrame(options, argv, env, OptimizationBailout);
    if JsonMode(options, argv, env) {
      JsonModeKeeps(options, argv, env, OptimizationBailout);
    } else {
      TextModeKeeps(options, argv, env, OptimizationBailout);
      TextBlockBailout(argv, p);
    }
  }

  lemma {:induction false} ChunksRule(options: BuildOptions, argv: Argv, env: Environment)
    requires WellFormed(options)
    ensures var b := Field(BaseOf(options, argv, env), Chunks);
      Normalized(options, argv, env).Get(Chunks)
      == if JsonMode(options, argv, env) then b
         else if AnyTruthy(Occ(argv, DisplayChunks)) then Bool(true) else b
  {
    var p := Prelude(options, argv, env);
    PreludeFrame(options, argv, env, Chunks);
    if JsonMode(options, argv, env) {
      JsonModeKeeps(options, argv, env, Chunks);
    } else {
      TextModeKeeps(options, argv, env, Chunks);
      TextBlockChunks(argv, p, Chunks);
    }
  }

  /** `modules`: a truthy `hide-modules` wins over everything; below it the
      `json` flag, then `display-modules` over `display-chunks`. */
  lemma {:induction false} ModulesRule(options: BuildOptions, argv: Argv, env: Environment)
    requires WellFormed(options)
    ensures var x := Copied(Occ(argv, JsonFlag), Field(BaseOf(options, argv, env), Modules));
      Normalized(options, argv, env).Get(Modules)
      == if AnyTruthy(Occ(argv, HideModules)) then Bool(false)
         else if JsonMode(options, argv, env) then x
         else if ArgTruthy(ArgOf(argv, DisplayModules)) then Bool(true)
         else if AnyTruthy(Occ(argv, DisplayChunks)) then Bool(false)
         else x
  {
    var p := Prelude(options, argv, env);
    NormalizedShape(options, argv, env);
    PreludeJson(options, argv, env, Modules);
    if JsonMode(options, argv, env) {
      HideAgrees(argv, p, Modules);
    } else {
      TextBlockModules(argv, p);
      HideAgrees(argv, TextBlock(argv, p), Modules);
    }
  }

  /** `chunkModules`: a truthy `hide-modules` wins over `display-chunks`. */
  lemma {:induction false} ChunkModulesRule(options: BuildOptions, argv: Argv, env: Environment)
    requires WellFormed(options)
    ensures var b := Field(BaseOf(options, argv, env), ChunkModules);
      Normalized(options, argv, env).Get(ChunkModules)
      == if AnyTruthy(Occ(argv, HideModules)) then Bool(false)
         else if JsonMode(options, argv, env) then b
         else if AnyTruthy(Occ(argv, DisplayChunks)) then Bool(true)
         else b
  {
    var p := Prelude(options, argv, env);
    NormalizedShape(options, argv, env);
    PreludeFrame(options, argv, env, ChunkModules);
    if JsonMode(options, argv, env) {
      HideAgrees(argv, p, ChunkModules);
    } else {
      TextBlockChunks(argv, p, ChunkModules);
      HideAgrees(argv, TextBlock(argv, p), ChunkModules);
    }
  }
}
