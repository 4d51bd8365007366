/**
 * The output gate: the callback the compiler calls after every build (once
 * for `run`, after each rebuild for `watch`). It decides what reaches
 * standard output, remembers the last printed hash, and sets the exit
 * status.
 *
 * `Step` states the effect of one call on the gate's state; the class
 * `Session` holds that state in mutable fields, as the closure variable
 * `lastHash` and the process's exit status are held, and its `Callback`
 * method is proved to perform `Step`.
 */
module OutputGate {
  import opened Values

  /** A compiler error: the text of `err.stack` (empty when the stack is
      missing), the error's own string form, and `err.details` (empty when
      absent). */
  datatype CompileError = CompileError(stack: string, text: string, details: string)

  /** A finished build as the callback sees it. `json` is the JSON text of
      `stats.toJson(outputOptions)` and `text` is `stats.toString(outputOptions)`;
      both renderings are opaque. */
  datatype BuildStats = BuildStats(hash: string, hasErrors: bool, json: string, text: string)

  datatype Completion = Failed(err: CompileError) | Built(stats: BuildStats)

  /** What the gate does that the outside world sees, in order. */
  datatype Event = Purge | Stdout(out: string) | Stderr(msg: string)

  /** `json`: the final stats options have a truthy `json`; `watch`: the
      top-level `options.watch` is truthy; `silent`: `--silent` was given. */
  datatype GateConfig = GateConfig(json: bool, watch: bool, silent: bool)

  /** `exited` holds the status passed to `process.exit`, once it has been
      called; `exitCode` is `process.exitCode`. */
  datatype GateState = GateState(lastHash: Option<string>, exitCode: int, exited: Option<int>, log: seq<Event>)

  function Initial(): GateState {
    GateState(None, 0, None, [])
  }

  /** The status the process ends with. */
  function ExitStatus(s: GateState): int {
    if s.exited.Some? then s.exited.value else s.exitCode
  }

  /** A write to the chosen stdout: a no-op under `--silent`. */
  function Write(cfg: GateConfig, out: string): seq<Event> {
    if cfg.silent then [] else [Stdout(out)]
  }

  /** The error report: the stack, or the error itself when it has none,
      then the details when there are any. */
  function ErrorReport(e: CompileError): seq<Event> {
    [Stderr(if e.stack != "" then e.stack else e.text)] + (if e.details != "" then [Stderr(e.details)] else [])
  }

  /** One call of the callback. After `process.exit` the process is gone and
      no further call happens; the state then stays as it is. */
  function Step(cfg: GateConfig, s: GateState, c: Completion): GateState {
    if s.exited.Some? then s
    else
      var log := if !cfg.watch || c.Failed? then s.log + [Purge] else s.log;
      match c
      case Failed(e) => GateState(None, s.exitCode, Some(1), log + ErrorReport(e))
      case Built(st) =>
        var code := if !cfg.watch && st.hasErrors then 2 else s.exitCode;
        if cfg.json then
          GateState(s.lastHash, code, None, log + Write(cfg, st.json + "\n"))
        else if s.lastHash != Some(st.hash) then
          GateState(Some(st.hash), code, None, log + (if st.text != "" then Write(cfg, st.text + "\n") else []))
        else
          GateState(s.lastHash, code, None, log)
  }

  /** The callback over a sequence of completions, in order. */
  function Run(cfg: GateConfig, s: GateState, cs: seq<Completion>): GateState
    decreases |cs|
  {
    if cs == [] then s else Run(cfg, Step(cfg, s, cs[0]), cs[1..])
  }

  /** The texts written to standard output, in order. */
  function Printed(log: seq<Event>): seq<string>
    decreases |log|
  {
    if log == [] then []
    else (if log[0].Stdout? then [log[0].out] else []) + Printed(log[1..])
  }

  // ---------------------------------------------------------------------------
  // The callback, in place

  class Session {
    const cfg: GateConfig
    var lastHash: Option<string>
    var exitCode: int
    var exited: Option<int>
    var log: seq<Event>

    function State(): GateState
      reads this
    {
      GateState(lastHash, exitCode, exited, log)
    }

    constructor (cfg: GateConfig)
      ensures this.cfg == cfg
      ensures State() == Initial()
    {
      this.cfg := cfg;
      lastHash := None;
      exitCode := 0;
      exited := None;
      log := [];
    }

    method Callback(c: Completion)
      modifies this
      ensures State() == Step(cfg, old(State()), c)
    {
      if exited.Some? {
        return;
      }
      if !cfg.watch || c.Failed? {
        log := log + [Purge];
      }
      if c.Failed? {
        lastHash := None;
        var e := c.err;
        log := log + [Stderr(if e.stack != "" then e.stack else e.text)];
        if e.details != "" {
          log := log + [Stderr(e.details)];
        }
        exited := Some(1);
        return;
      }
      var st := c.stats;
      if cfg.json {
        if !cfg.silent {
          log := log + [Stdout(st.json + "\n")];
        }
      } else if lastHash != Some(st.hash) {
        lastHash := Some(st.hash);
        if st.text != "" && !cfg.silent {
          log := log + [Stdout(st.text + "\n")];
        }
      }
      if !cfg.watch && st.hasErrors {
        exitCode := 2;
      }
    }
  }

  // ---------------------------------------------------------------------------
  // What the gate promises

  lemma {:induction false} PrintedAppend(a: seq<Event>, b: seq<Event>)
    ensures Printed(a + b) == Printed(a) + Printed(b)
    decreases |a|
  {
    if a == [] {
      assert a + b == b;
    } else {
      assert (a + b)[0] == a[0];
      assert (a + b)[1..] == a[1..] + b;
      PrintedAppend(a[1..], b);
    }
  }

  lemma PrintedOne(e: Event)
    ensures Printed([e]) == if e.Stdout? then [e.out] else []
  {
    assert [e][1..] == [];
  }

  /** The log only grows: each call appends to it. */
  lemma {:induction false} RunExtendsLog(cfg: GateConfig, s: GateState, cs: seq<Completion>)
    ensures |s.log| <= |Run(cfg, s, cs).log|
    ensures Run(cfg, s, cs).log[..|s.log|] == s.log
    decreases |cs|
  {
    if cs != [] {
      var s1 := Step(cfg, s, cs[0]);
      assert s1.log[..|s.log|] == s.log;
      RunExtendsLog(cfg, s1, cs[1..]);
      assert Run(cfg, s, cs).log[..|s1.log|][..|s.log|] == Run(cfg, s, cs).log[..|s.log|];
    }
  }

  /** Once the process has exited nothing more happens. */
  lemma {:induction false} ExitedIsFinal(cfg: GateConfig, s: GateState, cs: seq<Completion>)
    requires s.exited.Some?
    ensures Run(cfg, s, cs) == s
    decreases |cs|
  {
    if cs != [] {
      ExitedIsFinal(cfg, s, cs[1..]);
    }
  }

  /** A compiler error ends the run with status 1, in watch mode too, and
      forgets the last hash; whatever the compiler would report later is
      never seen. */
  lemma {:induction false} FailureEndsRun(cfg: GateConfig, s: GateState, e: CompileError, cs: seq<Completion>)
    requires s.exited.None?
    ensures var r := Run(cfg, s, [Failed(e)] + cs);
      r == Step(cfg, s, Failed(e)) && ExitStatus(r) == 1 && r.lastHash.None?
      && r.log == s.log + [Purge] + ErrorReport(e)
  {
    assert ([Failed(e)] + cs)[0] == Failed(e);
    assert ([Failed(e)] + cs)[1..] == cs;
    ExitedIsFinal(cfg, Step(cfg, s, Failed(e)), cs);
  }

  /** `--silent` keeps every write off standard output, errors still go to
      standard error. */
  lemma {:induction false} SilentPrintsNothing(cfg: GateConfig, s: GateState, cs: seq<Completion>)
    requires cfg.silent
    ensures Printed(Run(cfg, s, cs).log) == Printed(s.log)
    decreases |cs|
  {
    if cs != [] {
      var s1 := Step(cfg, s, cs[0]);
      assert Printed(s1.log) == Printed(s.log) by {
        if s.exited.None? {
          var log := if !cfg.watch || cs[0].Failed? then s.log + [Purge] else s.log;
          PrintedAppend(s.log, [Purge]);
          PrintedOne(Purge);
          assert Printed(log) == Printed(s.log);
          if cs[0].Failed? {
            var e := cs[0].err;
            var tail := if e.details != "" then [Stderr(e.details)] else [];
            PrintedAppend(log, ErrorReport(e));
            PrintedAppend([Stderr(if e.stack != "" then e.stack else e.text)], tail);
            PrintedOne(Stderr(if e.stack != "" then e.stack else e.text));
            if e.details != "" {
              PrintedOne(Stderr(e.details));
            }
          } else {
            PrintedAppend(log, []);
          }
        }
      }
      SilentPrintsNothing(cfg, s1, cs[1..]);
    }
  }

  /** In JSON mode every build is printed, whatever its hash. */
  lemma {:induction false} JsonPrintsEveryBuild(cfg: GateConfig, s: GateState, st: BuildStats)
    requires cfg.json && !cfg.silent && s.exited.None?
    ensures var r := Step(cfg, s, Built(st));
      Printed(r.log) == Printed(s.log) + [st.json + "\n"] && r.lastHash == s.lastHash
  {
    var log := if !cfg.watch then s.log + [Purge] else s.log;
    PrintedAppend(s.log, [Purge]);
    PrintedOne(Purge);
    PrintedAppend(log, [Stdout(st.json + "\n")]);
    PrintedOne(Stdout(st.json + "\n"));
  }

  /** In text mode a build with the last printed hash prints nothing and
      leaves the remembered hash alone. */
  lemma {:induction false} RepeatedHashSuppressed(cfg: GateConfig, s: GateState, st: BuildStats)
    requires !cfg.json && s.lastHash == Some(st.hash)
    ensures var r := Step(cfg, s, Built(st));
      Printed(r.log) == Printed(s.log) && r.lastHash == s.lastHash
  {
    if s.exited.None? && !cfg.watch {
      PrintedAppend(s.log, [Purge]);
      PrintedOne(Purge);
    }
  }

  /** In text mode a build with a new hash is remembered, and printed unless
      its text is empty. */
  lemma {:induction false} NewHashPrinted(cfg: GateConfig, s: GateState, st: BuildStats)
    requires !cfg.json && !cfg.silent && s.exited.None? && s.lastHash != Some(st.hash)
    ensures var r := Step(cfg, s, Built(st));
      r.lastHash == Some(st.hash)
      && Printed(r.log) == Printed(s.log) + (if st.text != "" then [st.text + "\n"] else [])
  {
    var log := if !cfg.watch then s.log + [Purge] else s.log;
    PrintedAppend(s.log, [Purge]);
    PrintedOne(Purge);
    if st.text != "" {
      PrintedAppend(log, [Stdout(st.text + "\n")]);
      PrintedOne(Stdout(st.text + "\n"));
    } else {
      assert log + [] == log;
    }
  }

  /** In watch mode, text output, the same build reported twice is silent
      the second time: the second call changes nothing. */
  lemma RepeatedBuildIsIdle(cfg: GateConfig, s: GateState, st: BuildStats)
    requires cfg.watch && !cfg.json
    ensures Step(cfg, Step(cfg, s, Built(st)), Built(st)) == Step(cfg, s, Built(st))
  {
  }

  /** `purgeInputFileSystem` runs exactly when the build is not watched or
      the compiler failed (and the process is still there). */
  lemma PurgeIff(cfg: GateConfig, s: GateState, c: Completion)
    requires s.exited.None?
    ensures var r := Step(cfg, s, c);
      |r.log| > |s.log| && r.log[|s.log|] == Purge <==> !cfg.watch || c.Failed?
  {
  }

  predicate AnyFailed(cs: seq<Completion>) {
    exists i :: 0 <= i < |cs| && cs[i].Failed?
  }

  predicate AnyErrors(cs: seq<Completion>) {
    exists i :: 0 <= i < |cs| && cs[i].Built? && cs[i].stats.hasErrors
  }

  /** The exit status of a run: 1 after a compiler error; otherwise 2 when
      not watching and some build before it had errors; otherwise what it
      was. */
  lemma {:induction false} RunExitStatus(cfg: GateConfig, s: GateState, cs: seq<Completion>)
    requires s.exited.None?
    ensures var r := Run(cfg, s, cs);
      ExitStatus(r)
      == if AnyFailed(cs) then 1
         else if !cfg.watch && AnyErrors(cs) then 2
         else s.exitCode
    decreases |cs|
  {
    if cs != [] {
      var s1 := Step(cfg, s, cs[0]);
      if cs[0].Failed? {
        ExitedIsFinal(cfg, s1, cs[1..]);
        assert AnyFailed(cs);
      } else {
        RunExitStatus(cfg, s1, cs[1..]);
        if AnyFailed(cs[1..]) {
          var i :| 0 <= i < |cs[1..]| && cs[1..][i].Failed?;
          assert cs[i + 1].Failed?;
        }
        if AnyFailed(cs) {
          var i :| 0 <= i < |cs| && cs[i].Failed?;
          assert cs[1..][i - 1].Failed?;
        }
        if AnyErrors(cs[1..]) {
          var i :| 0 <= i < |cs[1..]| && cs[1..][i].Built? && cs[1..][i].stats.hasErrors;
          assert cs[i + 1].Built? && cs[i + 1].stats.hasErrors;
        }
        if AnyErrors(cs) && !cs[0].stats.hasErrors {
          var i :| 0 <= i < |cs| && cs[i].Built? && cs[i].stats.hasErrors;
          assert cs[1..][i - 1].Built? && cs[1..][i - 1].stats.hasErrors;
        }
      }
    }
  }

  /** Watching never sets exit code 2. */
  lemma WatchKeepsExitCode(cfg: GateConfig, s: GateState, cs: seq<Completion>)
    requires cfg.watch && s.exited.None? && !AnyFailed(cs)
    ensures ExitStatus(Run(cfg, s, cs)) == s.exitCode
  {
    RunExitStatus(cfg, s, cs);
  }

  /** A watched text-mode session: the first build is printed, a rebuild
      with the same hash is not, a rebuild with a new hash is. */
  lemma WatchScenario(a: string, b: string)
    requires a != b
    ensures var cfg := GateConfig(false, true, false);
      var c1 := Built(BuildStats(a, false, "{}", "first"));
      var c2 := Built(BuildStats(a, false, "{}", "again"));
      var c3 := Built(BuildStats(b, true, "{}", "second"));
      var r := Run(cfg, Initial(), [c1, c2, c3]);
      Printed(r.log) == ["first\n", "second\n"] && r.lastHash == Some(b) && ExitStatus(r) == 0
  {
    var cfg := GateConfig(false, true, false);
    var c1 := Built(BuildStats(a, false, "{}", "first"));
    var c2 := Built(BuildStats(a, false, "{}", "again"));
    var c3 := Built(BuildStats(b, true, "{}", "second"));
    assert "first" + "\n" == "first\n";
    assert "second" + "\n" == "second\n";
    var s1 := GateState(Some(a), 0, None, [Stdout("first\n")]);
    var s3 := GateState(Some(b), 0, None, [Stdout("first\n"), Stdout("second\n")]);
    assert Step(cfg, Initial(), c1) == s1;
    assert Step(cfg, s1, c2) == s1;
    assert Step(cfg, s1, c3) == s3;
    assert [c1, c2, c3][1..] == [c2, c3];
    assert [c2, c3][1..] == [c3];
    assert [c3][1..] == [];
    assert Run(cfg, s1, [c3]) == s3;
    assert Run(cfg, s1, [c2, c3]) == s3;
    assert Run(cfg, Initial(), [c1, c2, c3]) == s3;
    assert s3.log == [Stdout("first\n")] + [Stdout("second\n")];
    PrintedAppend([Stdout("first\n")], [Stdout("second\n")]);
    PrintedOne(Stdout("first\n"));
    PrintedOne(Stdout("second\n"));
  }
}
