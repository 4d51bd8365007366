/**
 * The command line's dispatch rules before a compiler exists: subcommands
 * that are not compilations, the branch on the argument parser's result,
 * and how validation errors are reported.
 */
module Dispatch {
  import opened Values
  import opened CliArgs

  /** Subcommands handed to the command-line package instead of compiling. */
  const NonCompilationArgs: seq<string> :=
    ["init", "migrate", "add", "serve", "generate-loader", "generate-plugin"]

  /** The first element of `args` that names a subcommand. */
  function FindCommand(args: seq<string>): Option<string>
    decreases |args|
  {
    if args == [] then None
    else if args[0] in NonCompilationArgs then Some(args[0])
    else FindCommand(args[1..])
  }

  /** `FindCommand` finds the first subcommand, and nothing exactly when no
      element is one. */
  lemma {:induction false} FindCommandIsFirst(args: seq<string>)
    ensures FindCommand(args).None? <==> forall i :: 0 <= i < |args| ==> args[i] !in NonCompilationArgs
    ensures FindCommand(args).Some? ==>
      exists i :: 0 <= i < |args| && args[i] == FindCommand(args).value
        && args[i] in NonCompilationArgs
        && forall j :: 0 <= j < i ==> args[j] !in NonCompilationArgs
    decreases |args|
  {
    if args != [] {
      FindCommandIsFirst(args[1..]);
      if args[0] !in NonCompilationArgs {
        assert forall i :: 0 < i < |args| ==> args[i] == args[1..][i - 1];
        if FindCommand(args).Some? {
          var k :| 0 <= k < |args[1..]| && args[1..][k] == FindCommand(args).value
            && args[1..][k] in NonCompilationArgs
            && forall j :: 0 <= j < k ==> args[1..][j] !in NonCompilationArgs;
          assert args[k + 1] == FindCommand(args).value;
          assert forall j :: 0 <= j < k + 1 ==> args[j] !in NonCompilationArgs by {
            forall j | 0 <= j < k + 1 ensures args[j] !in NonCompilationArgs {
              if j > 0 {
                assert args[j] == args[1..][j - 1];
              }
            }
          }
        }
      }
    }
  }

  /** `argv.filter(a => a !== "serve")` */
  function WithoutServe(args: seq<string>): seq<string>
    decreases |args|
  {
    if args == [] then []
    else if args[0] == "serve" then WithoutServe(args[1..])
    else [args[0]] + WithoutServe(args[1..])
  }

  /** Filtering distributes over concatenation, so the kept elements stay in
      their original order. */
  lemma {:induction false} WithoutServeAppend(a: seq<string>, b: seq<string>)
    ensures WithoutServe(a + b) == WithoutServe(a) + WithoutServe(b)
    decreases |a|
  {
    if a == [] {
      assert a + b == b;
    } else {
      assert (a + b)[0] == a[0];
      assert (a + b)[1..] == a[1..] + b;
      WithoutServeAppend(a[1..], b);
    }
  }

  /** No `"serve"` is left, and every other string occurs as often as before. */
  lemma {:induction false} WithoutServeContents(args: seq<string>)
    ensures "serve" !in WithoutServe(args)
    ensures forall x :: x != "serve" ==> multiset(WithoutServe(args))[x] == multiset(args)[x]
    decreases |args|
  {
    if args != [] {
      WithoutServeContents(args[1..]);
      assert args == [args[0]] + args[1..];
      assert multiset(args) == multiset([args[0]]) + multiset(args[1..]);
    }
  }

  /** Arguments without `"serve"` pass the filter unchanged. */
  lemma {:induction false} WithoutServeKeeps(args: seq<string>)
    requires "serve" !in args
    ensures WithoutServe(args) == args
    decreases |args|
  {
    if args != [] {
      assert args[0] != "serve";
      assert "serve" !in args[1..] by {
        forall i | 0 <= i < |args[1..]| ensures args[1..][i] != "serve" {
          assert args[1..][i] == args[i + 1];
        }
      }
      WithoutServeKeeps(args[1..]);
      assert args == [args[0]] + args[1..];
    }
  }

  /** The process whose `argv` the detection reassigns. */
  class Process {
    var argv: seq<string>

    constructor(argv0: seq<string>)
      ensures argv == argv0
    {
      argv := argv0;
    }

    /** The `find` over the original argument array: every `"serve"` it
        visits makes the process drop all `"serve"` arguments; it stops at
        the first subcommand. */
    method DetectCommand() returns (cmd: Option<string>)
      modifies this
      ensures cmd == FindCommand(old(argv))
      ensures argv == if cmd == Some("serve") then WithoutServe(old(argv)) else old(argv)
    {
      var original := argv;
      var i := 0;
      while i < |original|
        invariant 0 <= i <= |original|
        invariant FindCommand(original) == FindCommand(original[i..])
        invariant argv == original
      {
        var arg := original[i];
        assert original[i..][0] == arg && original[i..][1..] == original[i + 1..];
        if arg == "serve" {
          argv := WithoutServe(argv);
        }
        if arg in NonCompilationArgs {
          return Some(arg);
        }
        i := i + 1;
      }
      return None;
    }
  }

  /** A `"serve"` after another subcommand is not stripped: only the first
      subcommand is visited. */
  lemma ServeAfterInitKept()
    ensures FindCommand(["node", "webpack", "init", "serve"]) == Some("init")
  {
    var args := ["node", "webpack", "init", "serve"];
    assert args[1..] == ["webpack", "init", "serve"];
    assert args[1..][1..] == ["init", "serve"];
  }

  /** Outcome of the argument parser's callback. */
  datatype ParseOutcome =
    | Stop(stdout: seq<string>, stderr: seq<string>, exitCode: int)
    | Proceed

  /** `err && output` reports a usage error; `output` alone is help or
      version text; otherwise the build goes on, even when `err` is set. */
  function ParseBranch(err: bool, output: string): ParseOutcome {
    if err && output != "" then Stop([], [output], 1)
    else if output != "" then Stop([output], [], 0)
    else Proceed
  }

  /** Without output the build goes on. With output, the output is printed
      once, on exactly one of the two streams: standard error iff the parser
      also reported an error, which alone sets exit code 1. */
  lemma ParseBranchCases(err: bool, output: string)
    ensures output == "" ==> ParseBranch(err, output) == Proceed
    ensures output != "" ==>
      var r := ParseBranch(err, output);
      && r.Stop?
      && r.stdout + r.stderr == [output]
      && (r.stderr == [output] <==> err)
    ensures ParseBranch(err, output).Stop? ==> (ParseBranch(err, output).exitCode == 1 <==> err)
  {
  }

  /** Bold red on, and its reset. */
  const BoldRed: string := "\U{1b}[1m\U{1b}[31m"
  const ResetColor: string := "\U{1b}[39m\U{1b}[22m"

  /** The message as printed, wrapped in colour codes iff `--color`. */
  function Colorize(text: string, color: bool): string {
    if color then BoldRed + text + ResetColor else text
  }

  /** Removes one pair of surrounding colour codes, if present. */
  function Uncolor(s: string): string {
    if |s| >= |BoldRed| + |ResetColor| && s[..|BoldRed|] == BoldRed && s[|s| - |ResetColor|..] == ResetColor
    then s[|BoldRed|..|s| - |ResetColor|]
    else s
  }

  /** Colouring adds exactly the two codes around the unchanged text:
      removing them gives the message back, and the text changes iff the
      colour flag is set. */
  lemma {:induction false} ColorizeRoundTrip(text: string, color: bool)
    ensures color ==> Uncolor(Colorize(text, color)) == text
    ensures Colorize(text, color) == text <==> !color
    ensures color ==> |Colorize(text, color)| == |text| + |BoldRed| + |ResetColor|
  {
    if color {
      var s := BoldRed + text + ResetColor;
      assert s[..|BoldRed|] == BoldRed;
      assert s[|s| - |ResetColor|..] == ResetColor;
      assert s[|BoldRed|..|s| - |ResetColor|] == text;
    }
  }

  /** `argv.color`: the `--color` flag is truthy. */
  predicate ColorRequested(argv: Argv) {
    ArgTruthy(ArgOf(argv, Color))
  }

  /** What an error leads to: thrown on, or reported on standard error with
      exit status 1 (set for later, or by exiting at once). */
  datatype ErrorOutcome = Rethrow | Reported(stderr: string, exitCode: int, exitsNow: bool)

  /** A failure while converting the arguments into options: only a
      `ValidationError` is reported, as its message, a newline and the
      cleaned stack. */
  function ConvertFailure(name: string, message: string, cleanedStack: string, argv: Argv): ErrorOutcome {
    if name != "ValidationError" then Rethrow
    else Reported(Colorize(message + "\n" + cleanedStack, ColorRequested(argv)), 1, false)
  }

  /** A failure while creating the compiler: only a
      `WebpackOptionsValidationError` is reported, and the process exits. */
  function CreationFailure(name: string, message: string, argv: Argv): ErrorOutcome {
    if name == "WebpackOptionsValidationError" then Reported(Colorize(message, ColorRequested(argv)), 1, true)
    else Rethrow
  }

  /** Reported conversion errors carry the message and the stack, coloured
      iff `--color`; every other error is thrown on. */
  lemma ConvertFailureReport(name: string, message: string, cleanedStack: string, argv: Argv)
    ensures ConvertFailure(name, message, cleanedStack, argv).Reported? <==> name == "ValidationError"
    ensures var r := ConvertFailure(name, message, cleanedStack, argv);
      r.Reported? ==>
        && r.exitCode == 1 && !r.exitsNow
        && (ArgTruthy(ArgOf(argv, Color)) ==> Uncolor(r.stderr) == message + "\n" + cleanedStack)
        && (!ArgTruthy(ArgOf(argv, Color)) ==> r.stderr == message + "\n" + cleanedStack)
  {
    ColorizeRoundTrip(message + "\n" + cleanedStack, ColorRequested(argv));
  }

  /** Reported compiler-creation errors carry the message, coloured iff
      `--color`, and end the process at once with status 1. */
  lemma CreationFailureReport(name: string, message: string, argv: Argv)
    ensures CreationFailure(name, message, argv).Reported? <==> name == "WebpackOptionsValidationError"
    ensures var r := CreationFailure(name, message, argv);
      r.Reported? ==>
        && r.exitCode == 1 && r.exitsNow
        && (ArgTruthy(ArgOf(argv, Color)) ==> Uncolor(r.stderr) == message)
        && (!ArgTruthy(ArgOf(argv, Color)) ==> r.stderr == message)
  {
    ColorizeRoundTrip(message, ColorRequested(argv));
  }
}
