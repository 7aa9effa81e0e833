/** The DCP call site: packaging a DCP-o-matic project with dcpomatic2_cli,
    optionally into a given output directory and optionally encrypted. */
module Dcp {

  import opened Prelude
  import opened Paths
  import opened Host
  import opened Runners

  const DcpBinaryName := "dcpomatic2_cli"

  /** The arguments of create: -o and the output directory when one is
      given, then -e when encrypting, then the project last. */
  function CreateCommand(project: Path, output: Option<Path>, encrypt: bool): (cmd: seq<string>)
    ensures |cmd| == 1 + (if output.Some? then 2 else 0) + (if encrypt then 1 else 0)
    ensures output.Some? ==> cmd[0] == "-o" && cmd[1] == Str(output.value)
    ensures encrypt ==> cmd[|cmd| - 2] == "-e"
    ensures cmd[|cmd| - 1] == Str(project)
  {
    (if output.Some? then ["-o", Str(output.value)] else [])
      + (if encrypt then ["-e"] else [])
      + [Str(project)]
  }

  /** What a create command line says, read back. */
  datatype CreateRequest = CreateRequest(project: Path, output: Option<Path>, encrypt: bool)

  /** Reads a create command line back; its length tells which of the
      optional flags are present. */
  function ReadCreateCommand(cmd: seq<string>): Option<CreateRequest>
  {
    if |cmd| == 1 then Some(CreateRequest(ParsePath(cmd[0]), None, false))
    else if |cmd| == 2 && cmd[0] == "-e" then Some(CreateRequest(ParsePath(cmd[1]), None, true))
    else if |cmd| == 3 && cmd[0] == "-o" then Some(CreateRequest(ParsePath(cmd[2]), Some(ParsePath(cmd[1])), false))
    else if |cmd| == 4 && cmd[0] == "-o" && cmd[2] == "-e" then
      Some(CreateRequest(ParsePath(cmd[3]), Some(ParsePath(cmd[1])), true))
    else None
  }

  /** create's argument vector is unambiguous: the project, the output
      directory and the encryption choice are all recovered from it, even
      when a path looks like a flag. */
  lemma CreateCommandReadsBack(project: Path, output: Option<Path>, encrypt: bool)
    requires WellFormed(project) && (output.Some? ==> WellFormed(output.value))
    ensures ReadCreateCommand(CreateCommand(project, output, encrypt)) == Some(CreateRequest(project, output, encrypt))
  {
    ParseStr(project);
    if output.Some? {
      ParseStr(output.value);
    }
  }

  /** `output or project`: the path a result reports. A pathlib path is
      always truthy, so only an absent output falls back to the project. */
  function ReportedPath(project: Path, output: Option<Path>): (r: Path)
    ensures output.Some? ==> r == output.value
    ensures output.None? ==> r == project
  {
    output.GetOr(project)
  }

  /** The result of create, when it runs the tool, reports the output
      directory if one was given and the project otherwise, and never
      reports failure through its success flag. */
  lemma CreateReportsPath(spawn: seq<string> -> SpawnOutcome, binaryPath: Path, project: Path,
                          output: Option<Path>, encrypt: bool)
    ensures var r := RunResult(spawn, binaryPath, CreateCommand(project, output, encrypt),
                               ReportedPath(project, output), "DCP creation");
      r.Success? ==> && r.value.success
                     && r.value.outputPath == (if output.Some? then output.value else project)
  {
  }

  /** DCPCreator: a runner for dcpomatic2_cli. */
  class DcpCreator {
    const runner: Runner

    constructor (runner: Runner)
      ensures this.runner == runner
    {
      this.runner := runner;
    }

    /** DCPCreator(dcpomatic_path): resolves dcpomatic2_cli and fails as
        the runner's construction does. */
    static method New(dcpomaticPath: Option<string>, os: Os) returns (r: Result<DcpCreator, Error>)
      ensures r.Failure? ==> Resolve(DcpBinaryName, dcpomaticPath, os.existing, os.which) == Failure(r.error)
      ensures r.Success? ==> && fresh(r.value) && fresh(r.value.runner)
                             && r.value.runner.binaryName == DcpBinaryName
                             && Resolve(DcpBinaryName, dcpomaticPath, os.existing, os.which)
                                == Success(r.value.runner.binaryPath)
    {
      var runner := Runner.New(DcpBinaryName, dcpomaticPath, os);
      if runner.Failure? {
        return Failure(runner.error);
      }
      var creator := new DcpCreator(runner.value);
      r := Success(creator);
    }

    /** create: a missing project is reported before anything happens;
        otherwise the output directory, when given, is created, the tool
        runs with error prefix "DCP creation", and a result reports the
        output directory or else the project. The progress callback plays
        no part. */
    method Create(project: Path, output: Option<Path>, encrypt: bool,
                  progressCallback: Option<real -> ()>, os: Os) returns (r: Result<CliResult, Error>)
      modifies os
      ensures project !in old(os.existing) ==>
        && r == Failure(DcpCreationError("Project not found: " + Str(project)))
        && os.existing == old(os.existing) && os.events == old(os.events)
      ensures project in old(os.existing) ==>
        && os.existing == old(os.existing) + (if output.Some? then Lineage(output.value) else {})
        && os.events == old(os.events)
             + (if output.Some? then [DirsMade(output.value)] else [])
             + [Spawned(Argv(runner.binaryPath, CreateCommand(project, output, encrypt)))]
        && r == RunResult(os.spawn, runner.binaryPath, CreateCommand(project, output, encrypt),
                          ReportedPath(project, output), "DCP creation")
    {
      if !os.Exists(project) {
        return Failure(DcpCreationError("Project not found: " + Str(project)));
      }
      ghost var before := os.events;
      var cmd: seq<string> := [];
      if output.Some? {
        os.MakeDirs(output.value);
        cmd := cmd + ["-o", Str(output.value)];
      }
      if encrypt {
        cmd := cmd + ["-e"];
      }
      cmd := cmd + [Str(project)];
      assert cmd == CreateCommand(project, output, encrypt);
      assert os.events == before + (if output.Some? then [DirsMade(output.value)] else []);
      r := runner.Run(cmd, ReportedPath(project, output), "DCP creation", os);
    }

    /** version(): exactly the runner's version(). */
    method Version(os: Os) returns (r: Result<string, Error>)
      modifies os
      ensures os.existing == old(os.existing)
      ensures os.events == old(os.events) + [Spawned(Argv(runner.binaryPath, ["--version"]))]
      ensures r == VersionOutcome(ExecuteOutcome(os.spawn(Argv(runner.binaryPath, ["--version"])),
                                                 Argv(runner.binaryPath, ["--version"]), "Version check"))
    {
      r := runner.Version(os);
    }
  }
}
