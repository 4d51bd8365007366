/**
 * How a build is started once the stats options are known: watched or run
 * once, with which watch options, and how the output gate is configured.
 */
module RunDecision {
  import opened Values
  import opened CliArgs
  import opened StatsOptions
  import opened StatsOptionsProperties
  import opened OverridePolicy
  import opened OutputGate

  /** Watch when the first configuration or the top-level value asks for it. */
  predicate ShouldWatch(options: BuildOptions)
    requires WellFormed(options)
  {
    Truthy(First(options).watch) || Truthy(TopWatch(options))
  }

  /** `firstOptions.watchOptions || firstOptions.watch || options.watch || {}` */
  function WatchOptionsFor(options: BuildOptions): Value
    requires WellFormed(options)
  {
    var first := First(options);
    if Truthy(first.watchOptions) then first.watchOptions
    else if Truthy(first.watch) then first.watch
    else if Truthy(TopWatch(options)) then TopWatch(options)
    else Obj(map[])
  }

  /** The first truthy value of a list, or `dflt` when none is truthy. */
  function FirstTruthy(vs: seq<Value>, dflt: Value): Value
    decreases |vs|
  {
    if vs == [] then dflt else if Truthy(vs[0]) then vs[0] else FirstTruthy(vs[1..], dflt)
  }

  /** `FirstTruthy` picks the truthy value that comes first, or the default
      when there is none. */
  lemma {:induction false} FirstTruthyIsFirst(vs: seq<Value>, dflt: Value)
    ensures (exists i :: 0 <= i < |vs| && Truthy(vs[i])) ==>
      exists i :: 0 <= i < |vs| && Truthy(vs[i]) && FirstTruthy(vs, dflt) == vs[i]
        && forall j :: 0 <= j < i ==> !Truthy(vs[j])
    ensures (forall i :: 0 <= i < |vs| ==> !Truthy(vs[i])) ==> FirstTruthy(vs, dflt) == dflt
    decreases |vs|
  {
    if vs != [] {
      FirstTruthyIsFirst(vs[1..], dflt);
      if !Truthy(vs[0]) && exists i :: 0 <= i < |vs| && Truthy(vs[i]) {
        var i :| 0 <= i < |vs| && Truthy(vs[i]);
        assert Truthy(vs[1..][i - 1]);
        var k :| 0 <= k < |vs[1..]| && Truthy(vs[1..][k]) && FirstTruthy(vs[1..], dflt) == vs[1..][k]
          && forall j :: 0 <= j < k ==> !Truthy(vs[1..][j]);
        assert forall j :: 0 <= j < k + 1 ==> !Truthy(vs[j]) by {
          forall j | 0 <= j < k + 1 ensures !Truthy(vs[j]) {
            if j > 0 {
              assert vs[j] == vs[1..][j - 1];
            }
          }
        }
        assert Truthy(vs[k + 1]) && FirstTruthy(vs, dflt) == vs[k + 1];
      }
      if forall i :: 0 <= i < |vs| ==> !Truthy(vs[i]) {
        assert forall i :: 0 <= i < |vs[1..]| ==> !Truthy(vs[1..][i]) by {
          forall i | 0 <= i < |vs[1..]| ensures !Truthy(vs[1..][i]) {
            assert vs[1..][i] == vs[i + 1];
          }
        }
      }
    }
  }

  /** The `||` chain is the first truthy of the three candidates, else `{}`. */
  lemma {:induction false} WatchOptionsIsFirstTruthy(options: BuildOptions)
    requires WellFormed(options)
    ensures var first := First(options);
      WatchOptionsFor(options) == FirstTruthy([first.watchOptions, first.watch, TopWatch(options)], Obj(map[]))
  {
    var first := First(options);
    var vs := [first.watchOptions, first.watch, TopWatch(options)];
    var d := Obj(map[]);
    assert vs[1..] == [first.watch, TopWatch(options)];
    assert vs[1..][1..] == [TopWatch(options)];
    assert vs[1..][1..][1..] == [];
    assert FirstTruthy(vs[1..][1..], d) == if Truthy(TopWatch(options)) then TopWatch(options) else d;
    assert FirstTruthy(vs[1..], d) == if Truthy(first.watch) then first.watch else FirstTruthy(vs[1..][1..], d);
    assert FirstTruthy(vs, d) == if Truthy(first.watchOptions) then first.watchOptions else FirstTruthy(vs[1..], d);
  }

  /** On the watch path the `{}` fallback is never reached: one of the two
      values that started watching is itself truthy, so the watch options
      are one of the three candidates and never undefined. */
  lemma WatchOptionsOnWatchPath(options: BuildOptions)
    requires WellFormed(options)
    requires ShouldWatch(options)
    ensures var first := First(options); var w := WatchOptionsFor(options);
      w == first.watchOptions || w == first.watch || w == TopWatch(options)
    ensures Truthy(WatchOptionsFor(options))
  {
  }

  /** `watchOptions.stdin`: the process exits when standard input ends. */
  predicate ListensOnStdin(options: BuildOptions)
    requires WellFormed(options)
    requires ShouldWatch(options)
  {
    WatchOptionsOnWatchPath(options);
    Truthy(Prop(WatchOptionsFor(options), "stdin"))
  }

  /** `watch: true` gives no watch options of its own, so no stdin listener. */
  lemma WatchTrueHasNoStdin(options: BuildOptions)
    requires WellFormed(options)
    requires !Truthy(First(options).watchOptions) && First(options).watch == Bool(true)
    ensures ShouldWatch(options) && !ListensOnStdin(options)
  {
  }

  /** How the compiler is started. */
  datatype Start = Watch(watchOptions: Value, exitOnStdinEnd: bool) | RunOnce

  function StartFor(options: BuildOptions): (r: Start)
    requires WellFormed(options)
    ensures r.Watch? <==> ShouldWatch(options)
    ensures r.Watch? ==> r.watchOptions == WatchOptionsFor(options) && Truthy(r.watchOptions)
    ensures r.Watch? ==> (r.exitOnStdinEnd <==> Truthy(Prop(r.watchOptions, "stdin")))
  {
    if ShouldWatch(options) then
      WatchOptionsOnWatchPath(options);
      Watch(WatchOptionsFor(options), ListensOnStdin(options))
    else RunOnce
  }

  /** `watchOptions: {stdin: true}` on a watched configuration installs the
      listener that ends the process with standard input. */
  lemma StdinWatchOptionsListen(options: BuildOptions)
    requires WellFormed(options)
    requires Truthy(First(options).watch)
    requires First(options).watchOptions == Obj(map["stdin" := Bool(true)])
    ensures StartFor(options) == Watch(Obj(map["stdin" := Bool(true)]), true)
  {
  }

  /** A single configuration is its own first configuration: it is watched
      exactly when the gate treats its builds as watched. */
  lemma SingleWatchAgrees(options: BuildOptions, argv: Argv, env: Environment)
    requires options.Single?
    ensures StartFor(options).Watch? <==> GateConfigFor(options, argv, env).watch
  {
  }

  /** An array of configurations with its own truthy `watch` is watched, and
      the gate treats its builds as watched: a good build is not purged and
      errors never set exit code 2. */
  lemma {:induction false} ArrayOwnWatchIsWatched(options: BuildOptions, argv: Argv, env: Environment, s: GateState, st: BuildStats)
    requires WellFormed(options) && options.Multi?
    requires Truthy(options.watch)
    requires s.exited.None?
    ensures StartFor(options).Watch?
    ensures var cfg := GateConfigFor(options, argv, env);
      var r := Step(cfg, s, Built(st));
      cfg.watch && (|r.log| > |s.log| ==> r.log[|s.log|] != Purge) && r.exitCode == s.exitCode
  {
    PurgeIff(GateConfigFor(options, argv, env), s, Built(st));
  }

  /** The gate's configuration: `outputOptions.json` of the final stats
      options, the top-level `options.watch`, and `--silent`. */
  function GateConfigFor(options: BuildOptions, argv: Argv, env: Environment): GateConfig
    requires WellFormed(options)
  {
    GateConfig(Truthy(Normalized(options, argv, env).Get(Json)), Truthy(TopWatch(options)), ArgTruthy(ArgOf(argv, Silent)))
  }

  /** The gate prints JSON exactly when the text-mode block was skipped. */
  lemma {:induction false} GatePrintsJsonIffJsonMode(options: BuildOptions, argv: Argv, env: Environment)
    requires WellFormed(options)
    ensures GateConfigFor(options, argv, env).json <==> JsonMode(options, argv, env)
  {
    NormalizedKeeps(options, argv, env, Json);
  }

  /** An array of configurations without its own `watch`: when only its
      first configuration asks for watching, the compiler watches but the
      gate still treats every build as a one-off, so it purges after each
      build and a build with errors sets exit code 2. */
  lemma {:induction false} ArrayWatchGateNotWatching(options: BuildOptions, argv: Argv, env: Environment, s: GateState, st: BuildStats)
    requires WellFormed(options) && options.Multi?
    requires Truthy(First(options).watch) && !Truthy(options.watch)
    requires s.exited.None?
    ensures StartFor(options).Watch?
    ensures var cfg := GateConfigFor(options, argv, env);
      var r := Step(cfg, s, Built(st));
      !cfg.watch && |r.log| > |s.log| && r.log[|s.log|] == Purge && (st.hasErrors ==> r.exitCode == 2)
  {
    PurgeIff(GateConfigFor(options, argv, env), s, Built(st));
  }
}
