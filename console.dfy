/**
 * The console exporter's command line: `<input> <output> --format <format>`
 * checked before anything is loaded, and the exit code main returns when
 * the check fails.  Which files exist is a parameter: the set of paths that
 * name existing files.
 */
module Console {
  import opened JuceText

  /** What parseArguments returns: the two paths, the format, and whether they are usable. */
  datatype CommandLineArgs = CommandLineArgs(inputFile: string, outputFile: string, format: string, valid: bool)

  /** The default-constructed result: empty paths (juce::File()), no format, not valid. */
  const NoArgs := CommandLineArgs("", "", "", false)

  /** The formats the exporter accepts. */
  const Formats: set<string> := {"srt", "vtt", "txt", "json", "csv"}

  predicate AsksHelp(arg: string) {
    arg == "--help" || arg == "-h"
  }

  predicate AsksVersion(arg: string) {
    arg == "--version" || arg == "-v"
  }

  /** Some argument after the program name asks for the usage text or the version. */
  predicate AsksHelpOrVersion(argv: seq<string>) {
    exists i :: 1 <= i < |argv| && (AsksHelp(argv[i]) || AsksVersion(argv[i]))
  }

  /**
   * The format the option loop leaves, scanning from argument `i` with
   * `fmt` so far: a "--format" that has an argument after it takes that
   * argument, lower-cased, and the scan goes on after it.
   */
  function FormatFrom(argv: seq<string>, i: nat, fmt: string): string
    decreases |argv| - i
  {
    if i >= |argv| then fmt
    else if argv[i] == "--format" && i + 1 < |argv| then FormatFrom(argv, i + 2, ToLower(argv[i + 1]))
    else FormatFrom(argv, i + 1, fmt)
  }

  /** Without a "--format" that has an argument after it, the format stays as it was. */
  lemma {:induction false} FormatUnset(argv: seq<string>, i: nat, fmt: string)
    requires forall m :: i <= m < |argv| - 1 ==> argv[m] != "--format"
    ensures FormatFrom(argv, i, fmt) == fmt
    decreases |argv| - i
  {
    if i < |argv| {
      FormatUnset(argv, i + 1, fmt);
    }
  }

  /**
   * The last "--format" the scan reaches wins: once the scan takes the
   * argument after it and no later "--format" has an argument after it,
   * the format is that argument, lower-cased, whatever came before.
   */
  lemma {:induction false} LastFormatWins(argv: seq<string>, k: nat, fmt: string)
    requires k + 1 < |argv| && argv[k] == "--format"
    requires forall m :: k + 2 <= m < |argv| - 1 ==> argv[m] != "--format"
    ensures FormatFrom(argv, k, fmt) == ToLower(argv[k + 1])
  {
    FormatUnset(argv, k + 2, ToLower(argv[k + 1]));
  }

  /**
   * parseArguments on `argv` (argv[0] the program name): nothing with fewer
   * than two arguments, when help or version is asked for anywhere, or with
   * fewer than five; otherwise the input, the output and the format, valid
   * when the input exists and the format is a known one.
   */
  function Parse(argv: seq<string>, existing: set<string>): (r: CommandLineArgs)
    ensures |argv| < 5 || AsksHelpOrVersion(argv) ==> r == NoArgs
    ensures r.valid <==>
              |argv| >= 5 && !AsksHelpOrVersion(argv) && argv[1] in existing && FormatFrom(argv, 3, "") in Formats
    ensures |argv| >= 5 && !AsksHelpOrVersion(argv) ==>
              r.inputFile == argv[1] && r.outputFile == argv[2] && r.format == FormatFrom(argv, 3, "")
  {
    if |argv| < 2 || AsksHelpOrVersion(argv) || |argv| < 5 then NoArgs
    else
      var format := FormatFrom(argv, 3, "");
      CommandLineArgs(argv[1], argv[2], format, argv[1] in existing && format != "" && format in Formats)
  }

  /** A string without upper-case letters is its own lower case. */
  lemma {:induction false} LowerFixed(s: string)
    requires forall i :: 0 <= i < |s| ==> !('A' <= s[i] <= 'Z')
    ensures ToLower(s) == s
  {
    assert forall i :: 0 <= i < |s| ==> ToLower(s)[i] == s[i];
  }

  /** A valid result always names one of the five formats, already in lower case. */
  lemma {:induction false} ValidFormatIsKnown(argv: seq<string>, existing: set<string>)
    ensures var r := Parse(argv, existing);
            r.valid ==> r.format in Formats && ToLower(r.format) == r.format
  {
    var r := Parse(argv, existing);
    if r.valid {
      var f := r.format;
      assert f == "srt" || f == "vtt" || f == "txt" || f == "json" || f == "csv";
      assert forall i :: 0 <= i < |f| ==> 'a' <= f[i] <= 'z';
      LowerFixed(f);
    }
  }

  /** What main does with the parsed arguments: exit with a code, or go on to load and export. */
  datatype Outcome = Exit(code: int) | Proceed(args: CommandLineArgs)

  /** main's choice: an invalid result exits 0 when no format and no input were set, and 1 otherwise. */
  function MainOutcome(args: CommandLineArgs): Outcome {
    if !args.valid then Exit(if args.format == "" && args.inputFile == "" then 0 else 1)
    else Proceed(args)
  }

  /**
   * The exit code of a command line that fails the check is 0 exactly when
   * parsing stopped before it set the input (too few arguments, or help or
   * version asked for), or the input argument was empty and no format was set.
   */
  lemma {:induction false} ExitCodeAsWritten(argv: seq<string>, existing: set<string>)
    ensures var r := Parse(argv, existing);
            !r.valid ==>
              (MainOutcome(r) == Exit(0) <==>
                 |argv| < 5 || AsksHelpOrVersion(argv) || (argv[1] == "" && FormatFrom(argv, 3, "") == ""))
    ensures var r := Parse(argv, existing);
            !r.valid ==> MainOutcome(r) == Exit(0) || MainOutcome(r) == Exit(1)
  {
  }

  /** As written, "Error: Not enough arguments" is reported with exit code 0. */
  lemma NotEnoughArgumentsExitsZero()
    ensures MainOutcome(Parse(["narrate-console", "project.narrate", "out.srt"], {"project.narrate"})) == Exit(0)
  {
    assert !AsksHelpOrVersion(["narrate-console", "project.narrate", "out.srt"]);
  }

  /** The evidently intended choice: exit 0 only after the usage text or version was asked for. */
  function CorrectedOutcome(argv: seq<string>, args: CommandLineArgs): Outcome {
    if !args.valid then Exit(if |argv| >= 2 && AsksHelpOrVersion(argv) then 0 else 1)
    else Proceed(args)
  }

  /**
   * With the corrected choice, a failed check exits 0 exactly when help or
   * version was asked for, and every error (too few arguments, a missing
   * input, an absent or unknown format) exits 1.
   */
  lemma {:induction false} CorrectedExitCode(argv: seq<string>, existing: set<string>)
    ensures var r := Parse(argv, existing);
            !r.valid ==> (CorrectedOutcome(argv, r) == Exit(0) <==> AsksHelpOrVersion(argv))
    ensures var r := Parse(argv, existing);
            r.valid ==> CorrectedOutcome(argv, r) == Proceed(r) && MainOutcome(r) == Proceed(r)
  {
    if AsksHelpOrVersion(argv) {
      var i :| 1 <= i < |argv| && (AsksHelp(argv[i]) || AsksVersion(argv[i]));
    }
  }

  /** parseArguments, with its flag scan, its option loop and its checks in order. */
  method ParseArguments(argv: seq<string>, existing: set<string>) returns (args: CommandLineArgs)
    ensures args == Parse(argv, existing)
  {
    args := NoArgs;
    var argc := |argv|;
    if argc < 2 {
      return;
    }
    var i := 1;
    while i < argc
      invariant 1 <= i <= argc
      invariant forall j :: 1 <= j < i ==> !AsksHelp(argv[j]) && !AsksVersion(argv[j])
    {
      var arg := argv[i];
      if arg == "--help" || arg == "-h" {
        return;
      }
      if arg == "--version" || arg == "-v" {
        return;
      }
      i := i + 1;
    }
    if argc < 5 {
      return;
    }
    args := args.(inputFile := argv[1], outputFile := argv[2]);
    i := 3;
    while i < argc
      invariant 3 <= i <= argc + 1
      invariant FormatFrom(argv, i, args.format) == FormatFrom(argv, 3, "")
      invariant args.inputFile == argv[1] && args.outputFile == argv[2] && !args.valid
      decreases argc - i
    {
      var arg := argv[i];
      if arg == "--format" && i + 1 < argc {
        args := args.(format := ToLower(argv[i + 1]));
        i := i + 1;
      }
      i := i + 1;
    }
    if argv[1] !in existing {
      return;
    }
    if args.format == "" {
      return;
    }
    if args.format != "srt" && args.format != "vtt" && args.format != "txt" &&
       args.format != "json" && args.format != "csv" {
      return;
    }
    args := args.(valid := true);
  }
}
