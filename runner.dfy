/** The process runner every call site shares: it resolves the external
    binary once, prefixes it to every argument vector, and turns what the
    process did into a CLIResult or a CliError. */
module Runners {

  import opened Prelude
  import opened Paths
  import opened Text
  import opened Host

  /** subprocess.CompletedProcess as execute returns it. */
  datatype CompletedProcess = CompletedProcess(args: seq<string>, returncode: int, stdout: string, stderr: string)

  /** CLIResult: where the tool was told to write, and what it printed. */
  datatype CliResult = CliResult(outputPath: Path, success: bool, stdout: string, stderr: string)

  function NotFoundAtMessage(binaryName: string, binaryPath: string): string {
    binaryName + " not found at " + binaryPath
  }

  function NotInPathMessage(binaryName: string): string {
    binaryName + " not found in PATH."
  }

  function SpawnFailureMessage(errorPrefix: string, description: string): string {
    errorPrefix + " failed: " + description
  }

  function NonZeroExitMessage(errorPrefix: string, returncode: int, stderr: string): string {
    errorPrefix + " failed (exit code " + IntToString(returncode) + "):\n" + stderr
  }

  /** How Runner.__init__ settles on a binary. A non-empty explicit path is
      taken as given and must exist; otherwise the PATH lookup decides, and
      whatever it finds is taken without an existence check. */
  function Resolve(binaryName: string, binaryPath: Option<string>, existing: set<Path>,
                   which: string -> Option<string>): (r: Result<Path, Error>)
    ensures Truthy(binaryPath) ==>
      && (r.Success? <==> ParsePath(binaryPath.value) in existing)
      && (r.Success? ==> r.value == ParsePath(binaryPath.value))
      && (r.Failure? ==> r.error == CliError(NotFoundAtMessage(binaryName, binaryPath.value)))
    ensures !Truthy(binaryPath) ==>
      && (r.Success? <==> Truthy(which(binaryName)))
      && (r.Success? ==> r.value == ParsePath(which(binaryName).value))
      && (r.Failure? ==> r.error == CliError(NotInPathMessage(binaryName)))
  {
    if Truthy(binaryPath) then
      var path := ParsePath(binaryPath.value);
      if path in existing then Success(path)
      else Failure(CliError(NotFoundAtMessage(binaryName, binaryPath.value)))
    else
      var found := which(binaryName);
      if Truthy(found) then Success(ParsePath(found.value))
      else Failure(CliError(NotInPathMessage(binaryName)))
  }

  /** A non-empty explicit path never consults the PATH lookup. */
  lemma ExplicitPathIgnoresLookup(binaryName: string, binaryPath: string, existing: set<Path>,
                                  which1: string -> Option<string>, which2: string -> Option<string>)
    requires binaryPath != ""
    ensures Resolve(binaryName, Some(binaryPath), existing, which1)
         == Resolve(binaryName, Some(binaryPath), existing, which2)
  {
  }

  /** Without an explicit path the file system is never consulted. */
  lemma LookupIgnoresFileSystem(binaryName: string, binaryPath: Option<string>,
                                existing1: set<Path>, existing2: set<Path>,
                                which: string -> Option<string>)
    requires !Truthy(binaryPath)
    ensures Resolve(binaryName, binaryPath, existing1, which)
         == Resolve(binaryName, binaryPath, existing2, which)
  {
  }

  /** Both construction failures name the binary; the explicit-path one
      also names the path it tried. */
  lemma ResolveFailureNamesBinary(binaryName: string, binaryPath: Option<string>, existing: set<Path>,
                                  which: string -> Option<string>)
    requires Resolve(binaryName, binaryPath, existing, which).Failure?
    ensures var msg := Resolve(binaryName, binaryPath, existing, which).error.message;
      && StartsWith(msg, binaryName + " not found ")
      && (Truthy(binaryPath) ==> EndsWith(msg, binaryPath.value))
      && (!Truthy(binaryPath) ==> EndsWith(msg, " in PATH."))
  {
    var msg := Resolve(binaryName, binaryPath, existing, which).error.message;
    if Truthy(binaryPath) {
      assert msg == (binaryName + " not found ") + "at " + binaryPath.value;
    } else {
      assert msg == (binaryName + " not found") + " in PATH.";
    }
  }

  /** The argument vector execute spawns: the binary first, then the
      arguments in order. */
  function Argv(binaryPath: Path, args: seq<string>): (argv: seq<string>)
    ensures |argv| == |args| + 1
    ensures argv[0] == Str(binaryPath)
    ensures forall i :: 0 <= i < |args| ==> argv[i + 1] == args[i]
  {
    [Str(binaryPath)] + args
  }

  /** What execute makes of a spawn: an OSError becomes a CliError naming
      the operation; a process that ran is handed back whatever its exit
      code. */
  function ExecuteOutcome(outcome: SpawnOutcome, argv: seq<string>, errorPrefix: string)
    : (r: Result<CompletedProcess, Error>)
    ensures r.Failure? <==> outcome.OsError?
    ensures r.Failure? ==> r.error.CliError? && StartsWith(r.error.message, errorPrefix + " failed: ")
                           && EndsWith(r.error.message, outcome.description)
    ensures r.Success? ==> && r.value.args == argv
                           && r.value.returncode == outcome.returncode
                           && r.value.stdout == outcome.stdout
                           && r.value.stderr == outcome.stderr
  {
    match outcome
    case OsError(description) =>
      var msg := SpawnFailureMessage(errorPrefix, description);
      assert msg == (errorPrefix + " failed: ") + description;
      Failure(CliError(msg))
    case Exited(returncode, stdout, stderr) =>
      Success(CompletedProcess(argv, returncode, stdout, stderr))
  }

  /** What run makes of execute's outcome. A result is only ever produced
      for exit code 0, and then it reports success, echoes the output path
      and carries the captured text; every other outcome is an error. */
  function RunOutcome(executed: Result<CompletedProcess, Error>, outputPath: Path, errorPrefix: string)
    : (r: Result<CliResult, Error>)
    ensures r.Success? <==> executed.Success? && executed.value.returncode == 0
    ensures r.Success? ==> && r.value.success
                           && r.value.outputPath == outputPath
                           && r.value.stdout == executed.value.stdout
                           && r.value.stderr == executed.value.stderr
    ensures executed.Failure? ==> r == Failure(executed.error)
    ensures executed.Success? && executed.value.returncode != 0 ==>
      r == Failure(CliError(NonZeroExitMessage(errorPrefix, executed.value.returncode, executed.value.stderr)))
  {
    match executed
    case Failure(e) => Failure(e)
    case Success(process) =>
      if process.returncode != 0 then
        Failure(CliError(NonZeroExitMessage(errorPrefix, process.returncode, process.stderr)))
      else
        Success(CliResult(outputPath, true, process.stdout, process.stderr))
  }

  /** The nonzero-exit message begins with the operation's name, shows the
      exit code after "(exit code " and ends with the captured stderr. */
  lemma NonZeroExitMessageContents(errorPrefix: string, returncode: int, stderr: string)
    ensures var msg := NonZeroExitMessage(errorPrefix, returncode, stderr);
      && StartsWith(msg, errorPrefix)
      && OccursAt(msg, IntToString(returncode), |errorPrefix| + |" failed (exit code "|)
      && EndsWith(msg, stderr)
  {
    var msg := NonZeroExitMessage(errorPrefix, returncode, stderr);
    var head := errorPrefix + " failed (exit code ";
    var code := IntToString(returncode);
    assert msg == head + code + ("):\n" + stderr);
    assert msg[..|errorPrefix|] == errorPrefix;
    assert msg[|head|..|head| + |code|] == code;
    assert msg[|msg| - |stderr|..] == stderr;
  }

  /** Given the operation and the stderr, the message determines the exit
      code: distinct codes never produce the same message. */
  lemma NonZeroExitMessageDeterminesCode(errorPrefix: string, code1: int, code2: int, stderr: string)
    requires NonZeroExitMessage(errorPrefix, code1, stderr) == NonZeroExitMessage(errorPrefix, code2, stderr)
    ensures code1 == code2
  {
    var head := errorPrefix + " failed (exit code ";
    var tail := "):\n" + stderr;
    var s1, s2 := IntToString(code1), IntToString(code2);
    assert NonZeroExitMessage(errorPrefix, code1, stderr) == head + s1 + tail;
    assert NonZeroExitMessage(errorPrefix, code2, stderr) == head + s2 + tail;
    assert |s1| == |s2|;
    assert s1 == (head + s1 + tail)[|head|..|head| + |s1|];
    assert s2 == (head + s2 + tail)[|head|..|head| + |s2|];
    IntToStringInjective(code1, code2);
  }

  /** What version makes of execute's outcome: a spawn failure stays an
      error; otherwise stdout with surrounding whitespace stripped, whatever
      the exit code. */
  function VersionOutcome(executed: Result<CompletedProcess, Error>): (r: Result<string, Error>)
    ensures r.Failure? <==> executed.Failure?
    ensures r.Failure? ==> r.error == executed.error
    ensures r.Success? ==> && Trimmed(r.value)
                           && exists pre, post :: executed.value.stdout == pre + r.value + post
                                                 && AllSpace(pre) && AllSpace(post)
  {
    match executed
    case Failure(e) => Failure(e)
    case Success(process) => Success(Strip(process.stdout))
  }

  /** version() never looks at the exit code, and stripping its answer
      again changes nothing. */
  lemma VersionIgnoresExitCode(args: seq<string>, code1: int, code2: int, stdout: string, stderr: string)
    ensures VersionOutcome(Success(CompletedProcess(args, code1, stdout, stderr)))
         == VersionOutcome(Success(CompletedProcess(args, code2, stdout, stderr)))
    ensures Strip(VersionOutcome(Success(CompletedProcess(args, code1, stdout, stderr))).value)
         == VersionOutcome(Success(CompletedProcess(args, code1, stdout, stderr))).value
  {
    StripIdempotent(stdout);
  }

  /** The whole of run for a given spawn oracle: execute, then normalise. */
  function RunResult(spawn: seq<string> -> SpawnOutcome, binaryPath: Path, args: seq<string>,
                     outputPath: Path, errorPrefix: string): (r: Result<CliResult, Error>)
    ensures var outcome := spawn(Argv(binaryPath, args));
      && (r.Success? <==> outcome.Exited? && outcome.returncode == 0)
      && (r.Success? ==> r.value == CliResult(outputPath, true, outcome.stdout, outcome.stderr))
      && (outcome.OsError? ==> r == Failure(CliError(SpawnFailureMessage(errorPrefix, outcome.description))))
      && (outcome.Exited? && outcome.returncode != 0 ==>
            r == Failure(CliError(NonZeroExitMessage(errorPrefix, outcome.returncode, outcome.stderr))))
  {
    RunOutcome(ExecuteOutcome(spawn(Argv(binaryPath, args)), Argv(binaryPath, args), errorPrefix),
               outputPath, errorPrefix)
  }

  class Runner {
    const binaryName: string
    const binaryPath: Path

    constructor (binaryName: string, binaryPath: Path)
      ensures this.binaryName == binaryName && this.binaryPath == binaryPath
    {
      this.binaryName := binaryName;
      this.binaryPath := binaryPath;
    }

    /** Runner(binary_name, binary_path): fails exactly as Resolve says, and
        otherwise holds the name and the resolved path. */
    static method New(binaryName: string, binaryPath: Option<string>, os: Os)
      returns (r: Result<Runner, Error>)
      ensures r.Failure? ==> Resolve(binaryName, binaryPath, os.existing, os.which) == Failure(r.error)
      ensures r.Success? ==> && fresh(r.value)
                             && r.value.binaryName == binaryName
                             && Resolve(binaryName, binaryPath, os.existing, os.which) == Success(r.value.binaryPath)
    {
      if binaryPath.Some? && binaryPath.value != "" {
        var path := ParsePath(binaryPath.value);
        if !os.Exists(path) {
          return Failure(CliError(NotFoundAtMessage(binaryName, binaryPath.value)));
        }
        var runner := new Runner(binaryName, path);
        r := Success(runner);
      } else {
        var found := os.Which(binaryName);
        if found.None? || found.value == "" {
          return Failure(CliError(NotInPathMessage(binaryName)));
        }
        var runner := new Runner(binaryName, ParsePath(found.value));
        r := Success(runner);
      }
    }

    /** execute(*args, error_prefix): spawns exactly [binary] + args. */
    method Execute(args: seq<string>, errorPrefix: string, os: Os)
      returns (r: Result<CompletedProcess, Error>)
      modifies os
      ensures os.existing == old(os.existing)
      ensures os.events == old(os.events) + [Spawned(Argv(binaryPath, args))]
      ensures r == ExecuteOutcome(os.spawn(Argv(binaryPath, args)), Argv(binaryPath, args), errorPrefix)
    {
      var cmd := [Str(binaryPath)] + args;
      var outcome := os.Spawn(cmd);
      match outcome
      case OsError(description) =>
        r := Failure(CliError(SpawnFailureMessage(errorPrefix, description)));
      case Exited(returncode, stdout, stderr) =>
        r := Success(CompletedProcess(cmd, returncode, stdout, stderr));
    }

    /** run(*args, output_path, error_prefix) */
    method Run(args: seq<string>, outputPath: Path, errorPrefix: string, os: Os)
      returns (r: Result<CliResult, Error>)
      modifies os
      ensures os.existing == old(os.existing)
      ensures os.events == old(os.events) + [Spawned(Argv(binaryPath, args))]
      ensures r == RunResult(os.spawn, binaryPath, args, outputPath, errorPrefix)
    {
      var executed := Execute(args, errorPrefix, os);
      if executed.Failure? {
        return Failure(executed.error);
      }
      var process := executed.value;
      if process.returncode != 0 {
        return Failure(CliError(NonZeroExitMessage(errorPrefix, process.returncode, process.stderr)));
      }
      r := Success(CliResult(outputPath, true, process.stdout, process.stderr));
    }

    /** version(): spawns [binary, "--version"] and strips its stdout. */
    method Version(os: Os) returns (r: Result<string, Error>)
      modifies os
      ensures os.existing == old(os.existing)
      ensures os.events == old(os.events) + [Spawned(Argv(binaryPath, ["--version"]))]
      ensures r == VersionOutcome(ExecuteOutcome(os.spawn(Argv(binaryPath, ["--version"])),
                                                 Argv(binaryPath, ["--version"]), "Version check"))
    {
      var executed := Execute(["--version"], "Version check", os);
      if executed.Failure? {
        return Failure(executed.error);
      }
      r := Success(Strip(executed.value.stdout));
    }
  }
}
