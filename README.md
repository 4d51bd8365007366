# webpack-cli `bin/webpack.js`: stats options, output gate and dispatch

This project is a Dafny model of the decision logic in webpack-cli's command-line entry point, `bin/webpack.js`. It covers three parts:

* **Stats-options normaliser** (`processOptions`, with its flag helper `ifArg`). It picks a base stats record:
  * the configured `stats`, expanded by the preset function when it is a boolean or a string;
  * `{}` when it is falsy;
  * the record itself otherwise;
  * a `--display` preset replaces the base, and `--verbose` selects the `verbose` preset.

  It then wraps the base with `Object.create`: writes go to an own layer, and reads fall through to the base (`StatsOptions.DisplayOptions`). Finally it applies the flags in the source's fixed order.
* **Output gate** (`compilerCallback`) and the **run decision** that follows it:
  * when the compiler is purged;
  * how compiler errors are reported, and that they exit with status 1;
  * that JSON is written on every build;
  * that text is written only when the hash changes, and only when it's non-empty;
  * exit status 2 for a one-off build with errors;
  * `--silent`;
  * whether to watch, and the `watchOptions` chain.
* **Dispatch rules**: the non-compilation subcommand search and the removal of `"serve"`, the parser-callback branch, the red/bold colour wrapping and the two validation-error reports.

Each part is written in the form the source takes:

* **The flag callbacks** (`StatsOptions.OutputOptions`) are a class whose methods update the record field by field. `IfArg` loops over repeated flags the way `forEach` does. `ComputeOutputOptions` runs the whole sequence and is proved to produce `Normalized`, a function of the inputs. The lemmas in `StatsOptionsProperties` and `OverridePolicy` state, key by key, what `Normalized` holds.
* **The callback's closure state** (`OutputGate.Session`) is a class with the fields `lastHash`, `exitCode`, `exited` and an output log. `Callback` is proved to perform `Step`, and lemmas about `Step` and `Run` state the gate's rules.
* **The `serve` filter reassigns `process.argv`**, so it is a method on a `Process` class; the rest of dispatch is functions.

Foreign calls are parameters:

* `presetToOptions` and `supports-color` are fields of `StatsOptions.Environment`.
* A build's `toJson`/`toString` output is an opaque string in `OutputGate.BuildStats`.
* The cleaned validation stack is an opaque string.

The parsed command line is a map from the flags the core reads to an `Arg`: absent, or one value. A flag given several times is an array value, and `ifArg` visits its elements.

## Model

| member | source | states |
|---|---|---|
| Values.Prop | bin/webpack.js:461 | Reading a property an object has gives its value; reading a property of a non-object, or a missing one, gives `undefined`. |
| Values.Truthy | bin/webpack.js:297-298 | JavaScript truthiness: `undefined`, `null`, `false`, `0` and `""` are falsy; everything else, arrays and objects included, is truthy. |
| Values.Field | bin/webpack.js:270-282 | A property read on a plain record: a missing property reads as `undefined`. |
| CliArgs.ArgOf | bin/webpack.js:247-250 | `argv[name]`: an entry the parser did not produce reads as absent. |
| CliArgs.ArgTruthy | bin/webpack.js:388 | Truthiness of the entry itself, as `argv["display-modules"]` and `argv.silent` test it: an array entry is truthy. |
| CliArgs.AnyTruthy | bin/webpack.js:329-379 | Some occurrence passes a callback's `if (bool)` test. |
| CliArgs.LastTruthy | bin/webpack.js:297-302 | The value a copying callback (`json = bool`, `optimizationBailout = bool`) leaves behind; truthy iff some occurrence is. |
| CliArgs.LastTruthyIsLast | bin/webpack.js:297-302 | That value is an occurrence, and every occurrence after it is falsy. |
| CliArgs.LastOr | bin/webpack.js:307-321 | The value an assigning callback leaves behind: the last occurrence, or the old value when there is none. |
| CliArgs.Occurrences | bin/webpack.js:246-254 | `ifArg` sees each element of an array entry in order, a defined non-array value once, and nothing for an absent or undefined entry; it sees nothing exactly for those two and the empty array. |
| CliArgs.ApplyVerbose | bin/webpack.js:212-214 | A truthy `verbose` sets `display` to the single value `"verbose"`. Every other flag is unchanged, and without `verbose` the arguments are untouched. |
| StatsOptions.WellFormed | bin/webpack.js:266-289 | An array of configurations is non-empty, so `firstOptions` exists and `firstOptions.context` can be read. |
| StatsOptions.DisplayOptions.Get | bin/webpack.js:284 | A read of `outputOptions` after `Object.create`: an own property wins, even an own `undefined`; otherwise the read falls through to the prototype. |
| StatsOptions.DisplayOptions.Set | bin/webpack.js:284-400 | Each `outputOptions.x = v` writes an own property and leaves the prototype alone. |
| StatsOptions.First | bin/webpack.js:266 | `[].concat(options)[0]`: the configuration itself, or the array's first entry. |
| StatsOptions.TopStats | bin/webpack.js:270 | `options.stats`: the configuration's own, or the array's own property. |
| StatsOptions.TopWatch | bin/webpack.js:432 | `options.watch`: the configuration's own, or the array's own property. |
| StatsOptions.StatsValue | bin/webpack.js:286 | A configuration's `stats` as the value `o.stats` gives, `null` and `undefined` kept apart. |
| StatsOptions.InitialBase | bin/webpack.js:270-278 | A boolean or string `stats` goes through the preset function; `undefined` or `null` gives `{}`; a record is used as it is. |
| StatsOptions.BaseRecord | bin/webpack.js:280-282 | Each `display` occurrence replaces the base with its preset, so the last one decides. |
| StatsOptions.BaseOf | bin/webpack.js:270-282 | The base record for given options, arguments and environment. |
| StatsOptions.WithDefault | bin/webpack.js:288-289 | `if (typeof r[k] === "undefined") r[k] = v`. |
| StatsOptions.Apply | bin/webpack.js:291-400 | One call of each flag's callback, as written in the source. |
| StatsOptions.WithFlag | bin/webpack.js:246-254 | `ifArg(name, fn)` as a fold over the flag's occurrences. |
| StatsOptions.Wrapped | bin/webpack.js:284 | `Object.create(base)`: the base with an empty own layer. |
| StatsOptions.WithChildren | bin/webpack.js:285-287 | An array configuration without a truthy `children` gets the list of `stats`. |
| StatsOptions.WithContext | bin/webpack.js:288-289 | The first configuration's `context`, over `undefined` only. |
| StatsOptions.Seeded | bin/webpack.js:284-289 | The wrapped base with `children` and `context` filled in. |
| StatsOptions.EnvJsonColors | bin/webpack.js:291-305 | The `env` and `json` callbacks, then the `colors` default. |
| StatsOptions.SortAndExclude | bin/webpack.js:307-321 | The three sort flags, then `display-exclude`, in source order. |
| StatsOptions.Prelude | bin/webpack.js:284-321 | Everything before the JSON test, in source order. |
| StatsOptions.ChunkToggles | bin/webpack.js:329-355 | `display-chunks` through `display-provided-exports`. |
| StatsOptions.DetailToggles | bin/webpack.js:357-379 | `display-optimization-bailout`, then `display-error-details` through `display-cached-assets`. |
| StatsOptions.WithExcludeFallback | bin/webpack.js:381-386 | The three-directory `exclude` default for a falsy value. |
| StatsOptions.DisplayModulesOverride | bin/webpack.js:388-392 | The `display-modules` override. |
| StatsOptions.TextBlock | bin/webpack.js:323-393 | The body of the `!outputOptions.json` block, in source order. |
| StatsOptions.JsonMode | bin/webpack.js:323 | The JSON test, read through both layers. |
| StatsOptions.Normalized | bin/webpack.js:266-400 | The whole normalisation: the text block only outside JSON mode, then `hide-modules`. |
| StatsOptions.ChildStats | bin/webpack.js:285-287 | `children` lists each configuration's `stats`, one per configuration, in order. |
| StatsOptions.ResolveBase | bin/webpack.js:270-282 | As a method: the base is the expanded configured setting when there is no `display`, otherwise the preset of the last `display` occurrence. |
| StatsOptions.Fold | bin/webpack.js:284 | Applying callbacks never changes the base layer of the `Object.create` record. |
| StatsOptions.FoldSnoc | bin/webpack.js:248 | Folding one more occurrence applies the callback after all earlier ones (the `forEach` order). |
| StatsOptions.FoldOne | bin/webpack.js:251-252 | A single scalar occurrence calls the callback exactly once. |
| StatsOptions.OutputOptions.constructor | bin/webpack.js:284 | A new record has the given base and an empty own layer. |
| StatsOptions.OutputOptions.Put | bin/webpack.js:284 | A write goes to the own layer only. |
| StatsOptions.OutputOptions.FillIfUndefined | bin/webpack.js:288-289 | Writes a default only when the property reads as `undefined` through both layers. |
| StatsOptions.OutputOptions.Call | bin/webpack.js:291-400 | One callback call updates the record exactly as the callback for that flag does. |
| StatsOptions.OutputOptions.CallEach | bin/webpack.js:248 | The loop over an array value performs the head-first fold of the callback. |
| StatsOptions.OutputOptions.IfArg | bin/webpack.js:246-254 | `ifArg` is the fold of the callback over the flag's occurrences. |
| StatsOptions.OutputOptions.ApplyTextBlock | bin/webpack.js:323-393 | The non-JSON block performs the text-mode stage: cached defaults, display toggles, the exclude fallback and the `display-modules` override. |
| StatsOptions.ComputeOutputOptions | bin/webpack.js:266-400 | The in-place normalisation ends in the record `Normalized` describes. |
| StatsOptionsProperties.SetGet | bin/webpack.js:284 | After a write, reading that key gives the written value and every other key is unchanged. |
| StatsOptionsProperties.ApplyStep | bin/webpack.js:291-400 | Each callback's effect on any one key depends only on that key's previous value. The `env` callback needs a truthy `env`. |
| StatsOptionsProperties.FoldSteps | bin/webpack.js:248 | A fold over occurrences, read at one key, is the per-key step iterated over the occurrences. |
| StatsOptionsProperties.EnvFlagNeedsEnv | bin/webpack.js:291-295 | Without a truthy `env` property, `--env` leaves the record unchanged. |
| StatsOptionsProperties.StepsAssign | bin/webpack.js:307-321 | For a plain assignment the last occurrence wins; with none, the old value stays. |
| StatsOptionsProperties.StepsEnable | bin/webpack.js:337-379 | A `display-*` toggle yields `true` if any occurrence is truthy, and otherwise the old value. |
| StatsOptionsProperties.StepsCopy | bin/webpack.js:357-359 | A copying toggle yields the last truthy occurrence, or the old value if none is truthy. |
| StatsOptionsProperties.StepsEnv | bin/webpack.js:291-295 | `--env` sets `_env` to its last occurrence and touches nothing else. |
| StatsOptionsProperties.StepsJson | bin/webpack.js:297-302 | `--json` copies its last truthy occurrence into `json` and `modules` only. |
| StatsOptionsProperties.StepsChunks | bin/webpack.js:329-335 | A truthy `display-chunks` gives `modules` false, `chunks` true and `chunkModules` true. |
| StatsOptionsProperties.StepsHide | bin/webpack.js:395-400 | A truthy `hide-modules` gives `modules` and `chunkModules` false. |
| StatsOptionsProperties.StepsEffect | bin/webpack.js:246-254 | Every callback's iterated effect on a key matches its closed-form effect. |
| StatsOptionsProperties.FoldEffect | bin/webpack.js:246-254 | Running `ifArg` with any callback, read at any key, gives that closed-form effect. |
| StatsOptionsProperties.FoldAssign | bin/webpack.js:307-321 | Assigning callbacks: the last occurrence wins at their key, and every other key is unchanged. |
| StatsOptionsProperties.FoldEnable | bin/webpack.js:337-379 | Enabling toggles: `true` iff some occurrence is truthy (else the old value), and all else unchanged. |
| StatsOptionsProperties.FoldCopy | bin/webpack.js:357-359 | `optimizationBailout` receives the last truthy occurrence, and all else is unchanged. |
| StatsOptionsProperties.FoldEnv | bin/webpack.js:291-295 | `_env` becomes the last `--env` value only when `env` is truthy. |
| StatsOptionsProperties.FoldJson | bin/webpack.js:297-302 | `json` and `modules` receive the last truthy `--json` value, and all else is unchanged. |
| StatsOptionsProperties.FoldChunks | bin/webpack.js:329-335 | The `display-chunks` effect on each key. |
| StatsOptionsProperties.FoldHide | bin/webpack.js:395-400 | The `hide-modules` effect on each key. |
| StatsOptionsProperties.DefaultAgrees | bin/webpack.js:288-289 | A default fills only a key that reads as `undefined`. |
| StatsOptionsProperties.SeededAgrees | bin/webpack.js:284-289 | After wrapping and the `children`/`context` defaults, every key reads its base value unless that default applied. |
| StatsOptionsProperties.EnvJsonColorsAgrees | bin/webpack.js:291-305 | The `env`, `json` and `colors` stage, key by key. |
| StatsOptionsProperties.SortAndExcludeAgrees | bin/webpack.js:307-321 | The sort and `display-exclude` stage, key by key. |
| StatsOptionsProperties.ChunkTogglesAgrees | bin/webpack.js:329-355 | The chunk-related toggles, key by key. |
| StatsOptionsProperties.DetailTogglesAgrees | bin/webpack.js:357-379 | The bailout copy, the detail toggles and `display-max-modules`, key by key. |
| StatsOptionsProperties.ExcludeFallbackAgrees | bin/webpack.js:381-386 | A falsy `exclude` gets the three default directories; nothing else changes. |
| StatsOptionsProperties.DisplayModulesAgrees | bin/webpack.js:388-392 | A truthy `display-modules` sets `maxModules` to Infinity, `exclude` to an explicit `undefined` and `modules` to true. |
| StatsOptionsProperties.TextBlockAgrees | bin/webpack.js:323-393 | The text-mode block, key by key. |
| StatsOptionsProperties.PreludeAgrees | bin/webpack.js:284-321 | Everything before the JSON test, key by key, in terms of the base record. |
| StatsOptionsProperties.JsonModeAt | bin/webpack.js:323 | JSON mode is the truthiness of `json` after the first stages. |
| StatsOptionsProperties.NormalizedShape | bin/webpack.js:323-400 | The final record is the text block applied (only outside JSON mode) and then `hide-modules`. |
| StatsOptionsProperties.HideAgrees | bin/webpack.js:395-400 | The `hide-modules` stage, key by key. |
| StatsOptionsProperties.NormalizedAgrees | bin/webpack.js:266-400 | The final record, key by key, as one composed expression of the base value. |
| StatsOptionsProperties.VerboseSelectsVerbosePreset | bin/webpack.js:212-214 | With `--verbose`, the base record is the `"verbose"` preset, whatever the configuration and `--display` say. |
| StatsOptionsProperties.RepeatedDisplayLastWins | bin/webpack.js:246-282 | `--display` given twice: the base is the preset named last. |
| StatsOptionsProperties.DisplayReplacesConfiguredStats | bin/webpack.js:280-282 | Once `--display` is given, the configured `stats` is irrelevant: the base is the preset of its last value. |
| OverridePolicy.PreludeAtFrame | bin/webpack.js:284-321 | Keys that no early stage writes keep their base value. |
| OverridePolicy.PreludeAtJson | bin/webpack.js:297-302 | Before the JSON test, `json` and `modules` hold the last truthy `--json`, else the base value. |
| OverridePolicy.PreludeAtAssign | bin/webpack.js:307-321 | Before the JSON test, sort keys and `exclude` hold the last flag occurrence, else the base value. |
| OverridePolicy.PreludeFrame | bin/webpack.js:284-321 | As a record: unwritten keys keep their base value. |
| OverridePolicy.PreludeChildren | bin/webpack.js:285-287 | `children` keeps a truthy base value; otherwise an array configuration gets the list of each configuration's `stats`. |
| OverridePolicy.PreludeContext | bin/webpack.js:288-289 | `context` keeps a defined base value, else takes the first configuration's `context`. |
| OverridePolicy.PreludeEnv | bin/webpack.js:291-295 | `_env` becomes the last `--env` value only if `env` is truthy, else keeps its base value. |
| OverridePolicy.PreludeJson | bin/webpack.js:297-302 | As a record: `--json` sets `json` and `modules` to its last truthy value. |
| OverridePolicy.PreludeColors | bin/webpack.js:304-305 | `colors` keeps a defined base value, else takes colour support. |
| OverridePolicy.PreludeAssign | bin/webpack.js:307-321 | As a record: the last occurrence of a sort flag or `display-exclude` wins. |
| OverridePolicy.ChunkTogglesAtEnable | bin/webpack.js:337-355 | Each entry/reasons/depth/exports toggle enables only its key. |
| OverridePolicy.DetailTogglesAtEnable | bin/webpack.js:361-379 | `errorDetails`, `chunkOrigins`, `cached` and `cachedAssets` are enabled by their flag. |
| OverridePolicy.ChunkTogglesEnable | bin/webpack.js:337-355 | As a record: a toggle gives `true` iff some occurrence is truthy, else the old value. |
| OverridePolicy.DetailTogglesEnable | bin/webpack.js:361-379 | As a record: the same for the detail and cache toggles. |
| OverridePolicy.TextBlockAtFrame | bin/webpack.js:323-393 | Keys the text block does not write pass through it. |
| OverridePolicy.TextBlockAtCached | bin/webpack.js:324-327 | `cached`/`cachedAssets` are true if flagged, else false if undefined, else kept. |
| OverridePolicy.TextBlockAtExclude | bin/webpack.js:381-392 | `display-modules` makes `exclude` undefined. Otherwise a truthy value is kept, and a falsy one becomes the default list. |
| OverridePolicy.TextBlockAtMaxModules | bin/webpack.js:369-392 | `display-modules` gives Infinity; otherwise the last `display-max-modules` value, else kept. |
| OverridePolicy.TextBlockAtModules | bin/webpack.js:329-392 | `display-modules` gives true; otherwise a truthy `display-chunks` gives false; otherwise kept. |
| OverridePolicy.TextBlockAtChunks | bin/webpack.js:329-335 | `chunks`/`chunkModules` become true under a truthy `display-chunks`, else kept. |
| OverridePolicy.TextBlockAtBailout | bin/webpack.js:357-359 | `optimizationBailout` is the last truthy flag value, else kept. |
| OverridePolicy.TextBlockFrame | bin/webpack.js:323-393 | As a record: the text block leaves unwritten keys alone. |
| OverridePolicy.TextBlockCached | bin/webpack.js:324-379 | As a record: the cached rule. |
| OverridePolicy.TextBlockExclude | bin/webpack.js:319-392 | As a record: the exclude rule, in which `display-modules` overrides `display-exclude`. |
| OverridePolicy.TextBlockMaxModules | bin/webpack.js:369-392 | As a record: `display-modules` overrides `display-max-modules`. |
| OverridePolicy.TextBlockModules | bin/webpack.js:329-392 | As a record: the modules rule. |
| OverridePolicy.TextBlockChunks | bin/webpack.js:329-335 | As a record: the chunks rule. |
| OverridePolicy.TextBlockBailout | bin/webpack.js:357-359 | As a record: the bailout rule. |
| OverridePolicy.HideKeeps | bin/webpack.js:395-400 | `hide-modules` changes no key but `modules` and `chunkModules`. |
| OverridePolicy.JsonModeKeeps | bin/webpack.js:323-393 | In JSON mode no text-block default or toggle applies: apart from `modules`/`chunkModules`, the final record is the pre-test record. |
| OverridePolicy.TextModeKeeps | bin/webpack.js:323-393 | Outside JSON mode, apart from `modules`/`chunkModules`, the final record is the text block's result. |
| OverridePolicy.NormalizedKeeps | bin/webpack.js:323-400 | Keys the text block never writes are final once the pre-test stages are done. |
| OverridePolicy.JsonModeIff | bin/webpack.js:297-323 | JSON mode holds iff some `--json` occurrence is truthy or the base `json` is truthy (own or inherited). |
| OverridePolicy.JsonModeIgnoresTextFlags | bin/webpack.js:323-393 | In JSON mode any key outside the early stages (other than `chunkModules`) ends as its base value, whatever `display-*` flags say. |
| OverridePolicy.PassThrough | bin/webpack.js:266-400 | Keys no stage writes, such as any preset-only property, end as in the base record. |
| OverridePolicy.RepeatedSortFlagLastWins | bin/webpack.js:246-309 | `--sort-modules-by` given twice: the later value is the final `modulesSort`. |
| OverridePolicy.ChildrenRule | bin/webpack.js:285-287 | Final `children`: in any mode, the base value, unless the configuration is an array and that value is falsy; then the list of each configuration's `stats`. |
| OverridePolicy.ContextRule | bin/webpack.js:288-289 | Final `context`: in any mode, the base value if defined, else the first configuration's `context`. |
| OverridePolicy.EnvRule | bin/webpack.js:291-295 | Final `_env`: the last `--env` value when the record has a truthy `env`, else the base value. |
| OverridePolicy.ColorsRule | bin/webpack.js:304-305 | Final `colors`: the base value if defined, else colour support. |
| OverridePolicy.JsonRule | bin/webpack.js:297-302 | The final `json` is the last truthy `--json`, else the base value. |
| OverridePolicy.SortRule | bin/webpack.js:307-317 | The final sort keys hold the last flag occurrence, else the base value. |
| OverridePolicy.ExcludeRule | bin/webpack.js:319-392 | Final `exclude`: JSON mode keeps the assigned value. Otherwise `display-modules` gives undefined, and otherwise the default list replaces a falsy value. |
| OverridePolicy.MaxModulesRule | bin/webpack.js:369-392 | Final `maxModules`: JSON mode keeps the base value. Otherwise `display-modules` gives Infinity over any `display-max-modules`. |
| OverridePolicy.CachedRule | bin/webpack.js:323-379 | Final `cached`/`cachedAssets`: JSON mode keeps the base value. Otherwise the flag gives true, and undefined becomes false. |
| OverridePolicy.BailoutRule | bin/webpack.js:357-359 | Final `optimizationBailout`, with the flag ignored in JSON mode. |
| OverridePolicy.ChunksRule | bin/webpack.js:329-335 | Final `chunks`, with the flag ignored in JSON mode. |
| OverridePolicy.ModulesRule | bin/webpack.js:297-400 | Final `modules`: `hide-modules` gives false; JSON mode keeps `--json`'s value; `display-modules` gives true; `display-chunks` gives false. |
| OverridePolicy.ChunkModulesRule | bin/webpack.js:329-400 | Final `chunkModules`: `hide-modules` gives false, even over `display-chunks`. |
| OutputGate.Initial | bin/webpack.js:404 | `lastHash = null`, no exit code set, no exit, nothing printed. |
| OutputGate.ExitStatus | bin/webpack.js:440-452 | The status the process ends with: the `process.exit` argument, else `process.exitCode`. |
| OutputGate.Write | bin/webpack.js:240-244 | A write to the chosen stdout, a no-op under `--silent`. |
| OutputGate.ErrorReport | bin/webpack.js:438-439 | `err.stack \|\| err`, then `err.details` when present, to standard error. |
| OutputGate.Step | bin/webpack.js:431-454 | One call of `compilerCallback`. |
| OutputGate.Run | bin/webpack.js:467-469 | The callback over the completions the compiler delivers, in order. |
| OutputGate.Printed | bin/webpack.js:443-449 | The texts written to standard output, in order. |
| OutputGate.Session.constructor | bin/webpack.js:404 | The gate starts with no hash, exit code 0, not exited and an empty log. |
| OutputGate.Session.Callback | bin/webpack.js:431-454 | The in-place callback performs exactly one `Step` of the gate. |
| OutputGate.RunExtendsLog | bin/webpack.js:431-454 | Output is only ever appended. |
| OutputGate.ExitedIsFinal | bin/webpack.js:440 | Once the process has exited, nothing changes. |
| OutputGate.FailureEndsRun | bin/webpack.js:432-440 | A compiler error purges, clears `lastHash`, reports the stack (or the error) and its details, and exits with 1; later completions change nothing. |
| OutputGate.SilentPrintsNothing | bin/webpack.js:240-244 | Under `--silent` no completion writes to standard output. |
| OutputGate.JsonPrintsEveryBuild | bin/webpack.js:442-445 | In JSON mode every build writes its JSON and a newline, whatever the hash, and `lastHash` is unchanged. |
| OutputGate.RepeatedHashSuppressed | bin/webpack.js:446 | In text mode an unchanged hash writes nothing and keeps `lastHash`. |
| OutputGate.NewHashPrinted | bin/webpack.js:446-450 | In text mode a new hash is recorded, and the text plus a newline is written iff it is non-empty. |
| OutputGate.RepeatedBuildIsIdle | bin/webpack.js:446-453 | In watched text mode, delivering the same build twice is the same as delivering it once. |
| OutputGate.PurgeIff | bin/webpack.js:432-435 | The input file system is purged iff the build is not watched or the compiler failed. |
| OutputGate.RunExitStatus | bin/webpack.js:436-453 | Over any run, the exit status is 1 if some compile failed; else 2 if unwatched and some build had errors; else unchanged. |
| OutputGate.WatchKeepsExitCode | bin/webpack.js:451-453 | A watched run without failures never changes the exit status. |
| OutputGate.WatchScenario | bin/webpack.js:446-450 | Three watched builds (hash a, then a again, then b) print only the first and the third text. |
| RunDecision.ShouldWatch | bin/webpack.js:455 | `firstOptions.watch \|\| options.watch`. |
| RunDecision.WatchOptionsFor | bin/webpack.js:456-460 | The `watchOptions` chain. |
| RunDecision.FirstTruthy | bin/webpack.js:456-460 | The value of a chain of `\|\|`: the first truthy operand, else the last. |
| RunDecision.ListensOnStdin | bin/webpack.js:461 | `watchOptions.stdin` is truthy. |
| RunDecision.GateConfigFor | bin/webpack.js:431-454 | What the callback consults: `outputOptions.json`, `options.watch` and `--silent`. |
| RunDecision.FirstTruthyIsFirst | bin/webpack.js:456-460 | The `\|\|` chain yields the first truthy candidate, with every earlier one falsy, or the default when none is truthy. |
| RunDecision.WatchOptionsIsFirstTruthy | bin/webpack.js:456-460 | `watchOptions` is that chain over the first configuration's `watchOptions` and `watch` and the top-level `watch`, defaulting to `{}`. |
| RunDecision.WatchOptionsOnWatchPath | bin/webpack.js:455-460 | When watching, `watchOptions` is one of the three candidates and truthy, so the `{}` fallback is never reached and reading `stdin` is safe. |
| RunDecision.WatchTrueHasNoStdin | bin/webpack.js:455-461 | `watch: true` without `watchOptions` watches but installs no stdin listener. |
| RunDecision.StartFor | bin/webpack.js:455-469 | The compiler watches iff the first configuration or the top-level options ask for it, and then uses the truthy `watchOptions`, with the stdin listener iff `watchOptions.stdin` is truthy; otherwise it runs once. |
| RunDecision.StdinWatchOptionsListen | bin/webpack.js:455-466 | A watched configuration with `watchOptions: {stdin: true}` installs the stdin listener. |
| RunDecision.SingleWatchAgrees | bin/webpack.js:432-455 | For a single configuration the watch decision and the gate's watch test agree. |
| RunDecision.ArrayOwnWatchIsWatched | bin/webpack.js:432-455 | An array configuration with its own truthy `watch` is watched, and the gate treats its builds as watched: a good build is not purged and the exit code is unchanged. |
| RunDecision.GatePrintsJsonIffJsonMode | bin/webpack.js:442 | The gate writes JSON exactly when the text-mode block was skipped. |
| RunDecision.ArrayWatchGateNotWatching | bin/webpack.js:432-455 | An array configuration without its own `watch`, whose first entry asks for watching, is watched; yet the gate still purges after each build and sets exit code 2 on errors. |
| Dispatch.FindCommand | bin/webpack.js:36-42 | The `find` over the arguments for one of the six subcommands. |
| Dispatch.WithoutServe | bin/webpack.js:38 | `argv.filter(a => a !== "serve")`. |
| Dispatch.ParseBranch | bin/webpack.js:200-210 | The branch on the parser's `err` and `output`. |
| Dispatch.Colorize | bin/webpack.js:226-230 | The bold-red template string when colour is on, the plain message otherwise. |
| Dispatch.ColorRequested | bin/webpack.js:226 | `argv.color`. |
| Dispatch.ConvertFailure | bin/webpack.js:218-234 | The handler for a failure of option conversion. |
| Dispatch.CreationFailure | bin/webpack.js:408-420 | The handler for a failure of compiler creation. |
| Dispatch.FindCommandIsFirst | bin/webpack.js:35-41 | The detected subcommand is the first argument that is one; none is detected iff no argument is one. |
| Dispatch.WithoutServeAppend | bin/webpack.js:38 | The `"serve"` filter distributes over concatenation, so kept arguments keep their order. |
| Dispatch.WithoutServeContents | bin/webpack.js:38 | After the filter no `"serve"` remains, and every other argument occurs as often as before. |
| Dispatch.WithoutServeKeeps | bin/webpack.js:38 | Arguments without `"serve"` are unchanged by the filter. |
| Dispatch.Process.DetectCommand | bin/webpack.js:35-41 | The in-place search returns the first subcommand. `process.argv` loses its `"serve"` arguments iff that subcommand is `serve`, and is otherwise unchanged. |
| Dispatch.ServeAfterInitKept | bin/webpack.js:35-41 | For `init serve`, `init` is detected, so `"serve"` stays in the arguments. |
| Dispatch.ParseBranchCases | bin/webpack.js:200-210 | Without output the build proceeds, even when the parser reported an error. With output, it is printed once, on exactly one stream: standard error iff there is also an error. Exit code 1 is set iff there is an error. |
| Dispatch.ColorizeRoundTrip | bin/webpack.js:226-230 | Colouring wraps the unchanged message in the two codes (removing them restores it), and changes the message iff `--color` is set. |
| Dispatch.ConvertFailureReport | bin/webpack.js:218-234 | Only a `ValidationError` from option conversion is reported. It is reported as message, newline and cleaned stack, coloured iff `--color`, with exit code 1 and no immediate exit. |
| Dispatch.CreationFailureReport | bin/webpack.js:408-420 | Only a `WebpackOptionsValidationError` from compiler creation is reported, coloured iff `--color`, and the process exits at once with 1. |

## Left out

- Local-CLI redirection (`resolve-cwd`), `v8-compile-cache` and the yargs option schema: these are module loading and a static flag table. Only the parsed argument map matters here.
- `convert-argv`, `ErrorHelpers.cleanUpWebpackOptions`, the subcommand package `../lib/index`, the webpack compiler, `ProgressPlugin`, `Stats.toJson`/`toString` and `presetToOptions`: these are foreign calls. They appear as parameters or opaque strings.
- Promise-valued options (the `then` branch of `processOptions`): this is asynchronous plumbing.
- The `process.stdin` `end` listener: it is event plumbing; `StartFor` records only whether it would be installed.
- The "watching" notice after `compiler.watch`: it goes to `console.log`, so `--silent` does not silence it; it is not part of the gate's log.
- Console and stream writes themselves, `JSON.stringify` indentation and `Error.stackTraceLimit`: output is modelled as appended log events, and the JSON text comes from an opaque string.
- The numeric coercion `+value` for `display-max-modules`: the value is stored as given, and `Infinity` is its own constructor.
- Stats options given as a number, or any other non-record non-preset value: a configured `stats` is absent, `null`, a flag, a preset name or a record.
- Properties outside the listed keys: `Values.Key` gives each listed property one key, and `Other(name)` is used only for properties not listed; the model does not check that `Other` names differ from the listed ones.
- An empty array of configurations: the source then reads a property of `undefined` and throws; the model requires a non-empty array.
- Final-record rules for the entry/reasons/depth/exports/error-details/origins toggles: these are stated per stage (`OverridePolicy.ChunkTogglesEnable`, `OverridePolicy.DetailTogglesEnable`) together with `OverridePolicy.TextModeKeeps` and `OverridePolicy.JsonModeIgnoresTextFlags`, not as one composed lemma per key.
- Two behaviours of the code that are easy to miss, both modelled as written:
  - a compiler error calls `process.exit(1)` even in watch mode;
  - the gate's watch test reads `options.watch`, not `firstOptions.watch`. An array whose first entry asks for watching, without a `watch` of its own, is watched. Yet each of its builds is then treated as a one-off (`RunDecision.ArrayWatchGateNotWatching`).
