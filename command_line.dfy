/**
 * The no-GUI front end's command-line parser: options, options that take a
 * parameter, the `--` terminator, positional arguments joined into the boot
 * filename, and the post-pass that drops boot parameters that name nothing to
 * boot and turns batch mode off without them.
 *
 * The boot parameters are created on first use (AutoBoot). Batch mode is the
 * host's global flag, which starts off. std::atoi is a parameter.
 */
module CommandLine {
  import opened Wrappers

  datatype SourceType = Disc | NoDisc

  /** The VMBootParameters fields the parser sets. */
  datatype BootParameters = BootParameters(
    filename: string,
    elfOverride: string,
    saveState: string,
    stateIndex: Option<int>,
    sourceType: Option<SourceType>,
    fastBoot: Option<bool>,
    fullscreen: Option<bool>)

  /** A default-constructed VMBootParameters. */
  const NEW_BOOT_PARAMETERS := BootParameters("", "", "", None, None, None, None)

  /** The state the parser changes: the shared boot parameters and the batch-mode flag. */
  datatype Parsed = Parsed(autoboot: Option<BootParameters>, batchMode: bool)

  /** AutoBoot: the existing boot parameters, created only if there are none yet. */
  function AutoBoot(autoboot: Option<BootParameters>): (p: BootParameters)
    ensures autoboot.Some? ==> p == autoboot.value
    ensures autoboot.None? ==> p == NEW_BOOT_PARAMETERS
  {
    if autoboot.Some? then autoboot.value else NEW_BOOT_PARAMETERS
  }

  /** Applies an update to the (possibly just created) boot parameters. */
  function Update(s: Parsed, f: BootParameters -> BootParameters): Parsed
  {
    s.(autoboot := Some(f(AutoBoot(s.autoboot))))
  }

  /** `argv[i][0] == '-'`: an empty argument is not an option. */
  predicate LooksLikeOption(arg: string)
  {
    |arg| > 0 && arg[0] == '-'
  }

  /** Appends one positional argument to the filename, with a space unless the filename is empty. */
  function AppendArgument(filename: string, arg: string): string
  {
    if filename != "" then filename + " " + arg else filename + arg
  }

  function AppendPositional(s: Parsed, arg: string): Parsed
  {
    Update(s, (p: BootParameters) => p.(filename := AppendArgument(p.filename, arg)))
  }

  /** The options that take a parameter. */
  predicate TakesParameter(arg: string)
  {
    arg == "-state" || arg == "-statefile" || arg == "-elf" || arg == "-disc"
  }

  /** The options handled without a parameter, other than -help, -version and --. */
  predicate IsFlag(arg: string)
  {
    arg == "-batch" || arg == "-fastboot" || arg == "-slowboot" || arg == "-bios"
    || arg == "-fullscreen" || arg == "-nofullscreen"
  }

  /** The effect of a flag on the parser state. */
  function ApplyFlag(s: Parsed, arg: string): Parsed
    requires IsFlag(arg)
  {
    if arg == "-batch" then s.(batchMode := true)
    else if arg == "-fastboot" then Update(s, (p: BootParameters) => p.(fastBoot := Some(true)))
    else if arg == "-slowboot" then Update(s, (p: BootParameters) => p.(fastBoot := Some(false)))
    else if arg == "-bios" then Update(s, (p: BootParameters) => p.(sourceType := Some(NoDisc)))
    else if arg == "-fullscreen" then Update(s, (p: BootParameters) => p.(fullscreen := Some(true)))
    else Update(s, (p: BootParameters) => p.(fullscreen := Some(false)))
  }

  /** The effect of a parameter option and its parameter on the parser state. */
  function ApplyParameter(s: Parsed, arg: string, param: string, atoi: string -> int): Parsed
    requires TakesParameter(arg)
  {
    if arg == "-state" then Update(s, (p: BootParameters) => p.(stateIndex := Some(atoi(param))))
    else if arg == "-statefile" then Update(s, (p: BootParameters) => p.(saveState := param))
    else if arg == "-elf" then Update(s, (p: BootParameters) => p.(elfOverride := param))
    else Update(s, (p: BootParameters) => p.(sourceType := Some(Disc), filename := param))
  }

  /**
   * The loop of ParseCommandLineOptions from argument `i` on: false when it
   * returns early (-help, -version, an unknown option), true when the
   * arguments run out, with the state reached.
   */
  function ParseFrom(argv: seq<string>, i: nat, noMoreArgs: bool, s: Parsed, atoi: string -> int): (bool, Parsed)
    decreases |argv| - i
  {
    if i >= |argv| then (true, s)
    else
      var arg := argv[i];
      if noMoreArgs then ParseFrom(argv, i + 1, true, AppendPositional(s, arg), atoi)
      else if arg == "-help" || arg == "-version" then (false, s)
      else if IsFlag(arg) then ParseFrom(argv, i + 1, false, ApplyFlag(s, arg), atoi)
      else if TakesParameter(arg) && i + 1 < |argv| then
        ParseFrom(argv, i + 2, false, ApplyParameter(s, arg, argv[i + 1], atoi), atoi)
      else if arg == "--" then ParseFrom(argv, i + 1, true, s, atoi)
      else if LooksLikeOption(arg) then (false, s)
      else ParseFrom(argv, i + 1, false, AppendPositional(s, arg), atoi)
  }

  /** Boot parameters that name no source, no file and no ELF are dropped, then batch mode needs them. */
  function PostPass(s: Parsed): Parsed
  {
    var autoboot :=
      if s.autoboot.Some? && s.autoboot.value.sourceType.None? && s.autoboot.value.filename == ""
         && s.autoboot.value.elfOverride == ""
      then None else s.autoboot;
    Parsed(autoboot, if s.batchMode && autoboot.None? then false else s.batchMode)
  }

  /** ParseCommandLineOptions as a whole, starting without boot parameters and with batch mode off. */
  function ParseCommandLine(argv: seq<string>, atoi: string -> int): (bool, Parsed)
  {
    var (ok, s) := ParseFrom(argv, 1, false, Parsed(None, false), atoi);
    if ok then (true, PostPass(s)) else (false, s)
  }

  /**
   * ParseCommandLineOptions: the argv loop whose index also advances past a
   * consumed parameter, with the `no_more_args` flag, followed by the post-pass.
   */
  method ParseCommandLineOptions(argv: seq<string>, atoi: string -> int)
    returns (ok: bool, autoboot: Option<BootParameters>, batchMode: bool)
    ensures (ok, Parsed(autoboot, batchMode)) == ParseCommandLine(argv, atoi)
  {
    var noMoreArgs := false;
    autoboot, batchMode := None, false;
    var i := 1;
    while i < |argv|
      invariant i >= 1
      invariant ParseFrom(argv, i, noMoreArgs, Parsed(autoboot, batchMode), atoi)
             == ParseFrom(argv, 1, false, Parsed(None, false), atoi)
      decreases |argv| - i
    {
      var arg := argv[i];
      if !noMoreArgs {
        if arg == "-help" || arg == "-version" {
          return false, autoboot, batchMode;
        } else if arg == "-batch" {
          batchMode := true;
          i := i + 1;
          continue;
        } else if arg == "-fastboot" {
          autoboot := Some(AutoBoot(autoboot).(fastBoot := Some(true)));
          i := i + 1;
          continue;
        } else if arg == "-slowboot" {
          autoboot := Some(AutoBoot(autoboot).(fastBoot := Some(false)));
          i := i + 1;
          continue;
        } else if arg == "-state" && i + 1 < |argv| {
          i := i + 1;
          autoboot := Some(AutoBoot(autoboot).(stateIndex := Some(atoi(argv[i]))));
          i := i + 1;
          continue;
        } else if arg == "-statefile" && i + 1 < |argv| {
          i := i + 1;
          autoboot := Some(AutoBoot(autoboot).(saveState := argv[i]));
          i := i + 1;
          continue;
        } else if arg == "-elf" && i + 1 < |argv| {
          i := i + 1;
          autoboot := Some(AutoBoot(autoboot).(elfOverride := argv[i]));
          i := i + 1;
          continue;
        } else if arg == "-disc" && i + 1 < |argv| {
          i := i + 1;
          autoboot := Some(AutoBoot(autoboot).(sourceType := Some(Disc)));
          autoboot := Some(AutoBoot(autoboot).(filename := argv[i]));
          i := i + 1;
          continue;
        } else if arg == "-bios" {
          autoboot := Some(AutoBoot(autoboot).(sourceType := Some(NoDisc)));
          i := i + 1;
          continue;
        } else if arg == "-fullscreen" {
          autoboot := Some(AutoBoot(autoboot).(fullscreen := Some(true)));
          i := i + 1;
          continue;
        } else if arg == "-nofullscreen" {
          autoboot := Some(AutoBoot(autoboot).(fullscreen := Some(false)));
          i := i + 1;
          continue;
        } else if arg == "--" {
          noMoreArgs := true;
          i := i + 1;
          continue;
        } else if |arg| > 0 && arg[0] == '-' {
          return false, autoboot, batchMode;
        }
      }

      var p := AutoBoot(autoboot);
      if p.filename != "" {
        p := p.(filename := p.filename + " ");
      }
      autoboot := Some(p.(filename := p.filename + arg));
      i := i + 1;
    }

    if autoboot.Some? && autoboot.value.sourceType.None? && autoboot.value.filename == ""
       && autoboot.value.elfOverride == "" {
      autoboot := None;
    }
    if batchMode && autoboot.None? {
      batchMode := false;
    }
    return true, autoboot, batchMode;
  }

  // ---------------------------------------------------------------------------
  // Properties
  // ---------------------------------------------------------------------------

  /** The parse from argument i depends only on the arguments from i on. */
  lemma {:induction false} ParseFromReadsSuffix(a: seq<string>, b: seq<string>, i: nat, noMoreArgs: bool,
                                                s: Parsed, atoi: string -> int)
    requires |a| == |b| && forall k :: i <= k < |a| ==> a[k] == b[k]
    ensures ParseFrom(a, i, noMoreArgs, s, atoi) == ParseFrom(b, i, noMoreArgs, s, atoi)
    decreases |a| - i
  {
    if i < |a| {
      var arg := a[i];
      if noMoreArgs {
        ParseFromReadsSuffix(a, b, i + 1, true, AppendPositional(s, arg), atoi);
      } else if arg == "-help" || arg == "-version" {
      } else if IsFlag(arg) {
        ParseFromReadsSuffix(a, b, i + 1, false, ApplyFlag(s, arg), atoi);
      } else if TakesParameter(arg) && i + 1 < |a| {
        ParseFromReadsSuffix(a, b, i + 2, false, ApplyParameter(s, arg, a[i + 1], atoi), atoi);
      } else if arg == "--" {
        ParseFromReadsSuffix(a, b, i + 1, true, s, atoi);
      } else if !LooksLikeOption(arg) {
        ParseFromReadsSuffix(a, b, i + 1, false, AppendPositional(s, arg), atoi);
      }
    }
  }

  /** argv[0], the program name, is never interpreted. */
  lemma ProgramNameIgnored(argv: seq<string>, name: string, atoi: string -> int)
    requires |argv| >= 1
    ensures ParseCommandLine([name] + argv[1..], atoi) == ParseCommandLine(argv, atoi)
  {
    var b := [name] + argv[1..];
    ParseFromReadsSuffix(b, argv, 1, false, Parsed(None, false), atoi);
  }

  /**
   * An argument that stops the loop with a failure when it is met as an
   * option: it starts with '-' but is not a flag, not `--`, and not a
   * parameter option with an argument after it (-help and -version are such
   * arguments, and so is a parameter option given last).
   */
  predicate StopsParser(argv: seq<string>, i: nat)
    requires i < |argv|
  {
    LooksLikeOption(argv[i]) && !IsFlag(argv[i]) && argv[i] != "--"
    && !(TakesParameter(argv[i]) && i + 1 < |argv|)
  }

  /** An unknown option stops the parser with a failure and the state reached so far. */
  lemma UnknownOptionFails(argv: seq<string>, i: nat, s: Parsed, atoi: string -> int)
    requires i < |argv| && StopsParser(argv, i)
    ensures ParseFrom(argv, i, false, s, atoi) == (false, s)
  {
  }

  /**
   * An argument that stops the parser fails the whole parse wherever it
   * stands, provided only ordinary arguments and flags come before it.
   */
  lemma {:induction false} FailsAfterPlainRun(argv: seq<string>, i: nat, j: nat, s: Parsed, atoi: string -> int)
    requires i <= j < |argv| && StopsParser(argv, j)
    requires forall k :: i <= k < j ==> !LooksLikeOption(argv[k]) || IsFlag(argv[k])
    ensures !ParseFrom(argv, i, false, s, atoi).0
    decreases j - i
  {
    if i == j {
      UnknownOptionFails(argv, j, s, atoi);
    } else if IsFlag(argv[i]) {
      FailsAfterPlainRun(argv, i + 1, j, ApplyFlag(s, argv[i]), atoi);
    } else {
      FailsAfterPlainRun(argv, i + 1, j, AppendPositional(s, argv[i]), atoi);
    }
  }

  /**
   * -help or -version fails the command line at any position reached through
   * ordinary arguments and flags; as the first argument, with nothing set.
   */
  lemma HelpOrVersionFails(argv: seq<string>, j: nat, atoi: string -> int)
    requires 1 <= j < |argv| && (argv[j] == "-help" || argv[j] == "-version")
    requires forall k :: 1 <= k < j ==> !LooksLikeOption(argv[k]) || IsFlag(argv[k])
    ensures !ParseCommandLine(argv, atoi).0
    ensures j == 1 ==> ParseCommandLine(argv, atoi) == (false, Parsed(None, false))
  {
    FailsAfterPlainRun(argv, 1, j, Parsed(None, false), atoi);
  }

  /** Appending every argument to a filename in turn. */
  function AppendAll(filename: string, args: seq<string>): string
    decreases |args|
  {
    if args == [] then filename else AppendAll(AppendArgument(filename, args[0]), args[1..])
  }

  /**
   * After `--` the rest of the arguments, whatever they look like, are
   * appended to the filename and parsing succeeds.
   */
  lemma {:induction false} AfterTerminator(argv: seq<string>, i: nat, s: Parsed, atoi: string -> int)
    requires i < |argv|
    ensures ParseFrom(argv, i, true, s, atoi) ==
      (true, s.(autoboot := Some(AutoBoot(s.autoboot).(filename := AppendAll(AutoBoot(s.autoboot).filename, argv[i..])))))
    decreases |argv| - i
  {
    var s' := AppendPositional(s, argv[i]);
    assert argv[i..][1..] == argv[i + 1..];
    if i + 1 < |argv| {
      AfterTerminator(argv, i + 1, s', atoi);
    }
  }

  /** The arguments joined with single spaces. */
  function JoinWithSpaces(args: seq<string>): string
    decreases |args|
  {
    if args == [] then ""
    else if |args| == 1 then args[0]
    else args[0] + " " + JoinWithSpaces(args[1..])
  }

  /** Once the filename is non-empty, every further argument is preceded by one space. */
  lemma {:induction false} AppendAllAfter(filename: string, args: seq<string>)
    requires filename != "" && args != []
    ensures AppendAll(filename, args) == filename + " " + JoinWithSpaces(args)
    decreases |args|
  {
    var f' := filename + " " + args[0];
    assert AppendAll(filename, args) == AppendAll(f', args[1..]);
    if |args| >= 2 {
      AppendAllAfter(f', args[1..]);
      assert f' + " " + JoinWithSpaces(args[1..]) == filename + " " + (args[0] + " " + JoinWithSpaces(args[1..]));
    }
  }

  /**
   * Positional arguments are joined with exactly one space between them and
   * no leading space, provided the first one is not empty.
   */
  lemma AppendAllJoins(args: seq<string>)
    requires args != [] && args[0] != ""
    ensures AppendAll("", args) == JoinWithSpaces(args)
  {
    assert AppendArgument("", args[0]) == "" + args[0] == args[0];
    if |args| >= 2 {
      AppendAllAfter(args[0], args[1..]);
    }
  }

  /** The parser loop over ordinary arguments only, before the post-pass. */
  lemma PositionalParse(name: string, args: seq<string>, atoi: string -> int)
    requires args != [] && args[0] != ""
    requires forall k :: 0 <= k < |args| ==> !LooksLikeOption(args[k])
    ensures ParseFrom([name] + args, 1, false, Parsed(None, false), atoi) ==
      (true, Parsed(Some(NEW_BOOT_PARAMETERS.(filename := JoinWithSpaces(args))), false))
  {
    var argv := [name] + args;
    assert argv[1..] == args;
    assert forall k :: 1 <= k < |argv| ==> argv[k] == args[k - 1];
    PositionalRun(argv, 1, Parsed(None, false), atoi);
    AppendAllJoins(args);
  }

  /** Joining arguments whose first one is not empty gives a non-empty string. */
  lemma JoinNotEmpty(args: seq<string>)
    requires args != [] && args[0] != ""
    ensures JoinWithSpaces(args) != ""
  {
    if |args| >= 2 {
      assert |JoinWithSpaces(args)| >= |args[0]|;
    }
  }

  /**
   * A command line made only of ordinary arguments, the first not empty,
   * boots the file named by those arguments joined with spaces.
   */
  lemma PositionalOnly(name: string, args: seq<string>, atoi: string -> int)
    requires args != [] && args[0] != ""
    requires forall k :: 0 <= k < |args| ==> !LooksLikeOption(args[k])
    ensures ParseCommandLine([name] + args, atoi) ==
      (true, Parsed(Some(NEW_BOOT_PARAMETERS.(filename := JoinWithSpaces(args))), false))
  {
    PositionalParse(name, args, atoi);
    JoinNotEmpty(args);
  }

  /** A run of ordinary arguments is appended to the filename one by one. */
  lemma {:induction false} PositionalRun(argv: seq<string>, i: nat, s: Parsed, atoi: string -> int)
    requires 1 <= i < |argv|
    requires forall k :: i <= k < |argv| ==> !LooksLikeOption(argv[k])
    ensures ParseFrom(argv, i, false, s, atoi) ==
      (true, s.(autoboot := Some(AutoBoot(s.autoboot).(filename := AppendAll(AutoBoot(s.autoboot).filename, argv[i..])))))
    decreases |argv| - i
  {
    var arg := argv[i];
    assert arg != "-help" && arg != "-version" && !IsFlag(arg) && !TakesParameter(arg) && arg != "--";
    assert argv[i..][1..] == argv[i + 1..];
    if i + 1 < |argv| {
      PositionalRun(argv, i + 1, AppendPositional(s, arg), atoi);
    }
  }

  /**
   * A parameter option followed by an argument consumes it as its parameter,
   * whatever it looks like, and parsing resumes after it.
   */
  lemma ParameterConsumed(argv: seq<string>, i: nat, s: Parsed, atoi: string -> int)
    requires i + 1 < |argv| && TakesParameter(argv[i])
    ensures var b := AutoBoot(s.autoboot);
      argv[i] == "-disc" ==>
        ParseFrom(argv, i, false, s, atoi) ==
        ParseFrom(argv, i + 2, false, s.(autoboot := Some(b.(sourceType := Some(Disc), filename := argv[i + 1]))), atoi)
    ensures var b := AutoBoot(s.autoboot);
      argv[i] == "-elf" ==>
        ParseFrom(argv, i, false, s, atoi) ==
        ParseFrom(argv, i + 2, false, s.(autoboot := Some(b.(elfOverride := argv[i + 1]))), atoi)
    ensures var b := AutoBoot(s.autoboot);
      argv[i] == "-statefile" ==>
        ParseFrom(argv, i, false, s, atoi) ==
        ParseFrom(argv, i + 2, false, s.(autoboot := Some(b.(saveState := argv[i + 1]))), atoi)
    ensures var b := AutoBoot(s.autoboot);
      argv[i] == "-state" ==>
        ParseFrom(argv, i, false, s, atoi) ==
        ParseFrom(argv, i + 2, false, s.(autoboot := Some(b.(stateIndex := Some(atoi(argv[i + 1]))))), atoi)
  {
    assert !IsFlag(argv[i]);
  }

  /**
   * A flag consumes only itself: -batch turns batch mode on, -bios selects
   * NoDisc as the source, and the boot and fullscreen flags set their field.
   */
  lemma FlagConsumedAlone(argv: seq<string>, i: nat, s: Parsed, atoi: string -> int)
    requires i < |argv| && IsFlag(argv[i])
    ensures argv[i] == "-batch" ==>
      ParseFrom(argv, i, false, s, atoi) == ParseFrom(argv, i + 1, false, s.(batchMode := true), atoi)
    ensures var b := AutoBoot(s.autoboot);
      argv[i] == "-bios" ==>
        ParseFrom(argv, i, false, s, atoi) ==
        ParseFrom(argv, i + 1, false, s.(autoboot := Some(b.(sourceType := Some(NoDisc)))), atoi)
    ensures var b := AutoBoot(s.autoboot);
      argv[i] in {"-fastboot", "-slowboot"} ==>
        ParseFrom(argv, i, false, s, atoi) ==
        ParseFrom(argv, i + 1, false, s.(autoboot := Some(b.(fastBoot := Some(argv[i] == "-fastboot")))), atoi)
    ensures var b := AutoBoot(s.autoboot);
      argv[i] in {"-fullscreen", "-nofullscreen"} ==>
        ParseFrom(argv, i, false, s, atoi) ==
        ParseFrom(argv, i + 1, false, s.(autoboot := Some(b.(fullscreen := Some(argv[i] == "-fullscreen")))), atoi)
  {
  }

  /** A parameter option with nothing after it is an unknown option: the parser fails. */
  lemma MissingParameterFails(argv: seq<string>, s: Parsed, atoi: string -> int)
    requires |argv| >= 1 && TakesParameter(argv[|argv| - 1])
    ensures ParseFrom(argv, |argv| - 1, false, s, atoi) == (false, s)
  {
    assert !IsFlag(argv[|argv| - 1]);
  }

  /** The two boot-parameter fields that a pair of opposite flags sets. */
  datatype FlagField = BootSpeed | FullscreenMode

  predicate SetsField(arg: string, f: FlagField)
  {
    if f == BootSpeed then arg == "-fastboot" || arg == "-slowboot"
    else arg == "-fullscreen" || arg == "-nofullscreen"
  }

  /** The parser state with the field forgotten, the boot parameters created if absent. */
  function Forget(s: Parsed, f: FlagField): Parsed
  {
    var b := AutoBoot(s.autoboot);
    Parsed(Some(if f == BootSpeed then b.(fastBoot := None) else b.(fullscreen := None)), s.batchMode)
  }

  /**
   * Once the loop meets a flag of a field, whatever earlier flags set in that
   * field no longer matters: two states that differ only there (or in
   * whether the boot parameters exist yet) give the same outcome.
   */
  lemma LaterFlagWins(argv: seq<string>, i: nat, s: Parsed, t: Parsed, f: FlagField, atoi: string -> int)
    requires i < |argv| && SetsField(argv[i], f)
    requires Forget(s, f) == Forget(t, f)
    ensures ParseFrom(argv, i, false, s, atoi) == ParseFrom(argv, i, false, t, atoi)
  {
    assert ApplyFlag(s, argv[i]) == ApplyFlag(t, argv[i]);
  }

  /**
   * A difference in one flag field is carried through the rest of the parse
   * without affecting success or any other field.
   */
  lemma {:induction false} FlagOnlyAffectsItsField(argv: seq<string>, i: nat, noMoreArgs: bool,
                                                   s: Parsed, t: Parsed, f: FlagField, atoi: string -> int)
    requires Forget(s, f) == Forget(t, f)
    ensures ParseFrom(argv, i, noMoreArgs, s, atoi).0 == ParseFrom(argv, i, noMoreArgs, t, atoi).0
    ensures Forget(ParseFrom(argv, i, noMoreArgs, s, atoi).1, f) == Forget(ParseFrom(argv, i, noMoreArgs, t, atoi).1, f)
    decreases |argv| - i
  {
    if i < |argv| {
      var arg := argv[i];
      if noMoreArgs {
        FlagOnlyAffectsItsField(argv, i + 1, true, AppendPositional(s, arg), AppendPositional(t, arg), f, atoi);
      } else if arg == "-help" || arg == "-version" {
      } else if IsFlag(arg) {
        FlagOnlyAffectsItsField(argv, i + 1, false, ApplyFlag(s, arg), ApplyFlag(t, arg), f, atoi);
      } else if TakesParameter(arg) && i + 1 < |argv| {
        FlagOnlyAffectsItsField(argv, i + 2, false, ApplyParameter(s, arg, argv[i + 1], atoi),
                                ApplyParameter(t, arg, argv[i + 1], atoi), f, atoi);
      } else if arg == "--" {
        FlagOnlyAffectsItsField(argv, i + 1, true, s, t, f, atoi);
      } else if !LooksLikeOption(arg) {
        FlagOnlyAffectsItsField(argv, i + 1, false, AppendPositional(s, arg), AppendPositional(t, arg), f, atoi);
      }
    }
  }

  /**
   * When the loop runs out of arguments the parser succeeds; it keeps boot
   * parameters exactly when they name a source, a file or an ELF, and batch
   * mode survives only with boot parameters.
   */
  lemma PostPassOutcome(argv: seq<string>, atoi: string -> int)
    ensures var (ok, s) := ParseFrom(argv, 1, false, Parsed(None, false), atoi);
      ParseCommandLine(argv, atoi).0 == ok
    ensures var (ok, s) := ParseFrom(argv, 1, false, Parsed(None, false), atoi);
      var r := ParseCommandLine(argv, atoi).1;
      ok ==>
        && (r.autoboot.Some? <==>
              (s.autoboot.Some? && (s.autoboot.value.sourceType.Some? || s.autoboot.value.filename != ""
                                    || s.autoboot.value.elfOverride != "")))
        && (r.autoboot.Some? ==> r.autoboot == s.autoboot)
        && r.batchMode == (s.batchMode && r.autoboot.Some?)
  {
  }
}
