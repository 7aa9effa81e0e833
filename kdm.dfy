/** The KDM call site: three ways of asking dcpomatic2_kdm_cli for a Key
    Delivery Message, each a fixed-order argument vector, with the local
    existence checks and the creation of the output's directory that come
    before the run. */
module Kdm {

  import opened Prelude
  import opened Paths
  import opened Timestamps
  import opened Host
  import opened Runners

  const KdmBinaryName := "dcpomatic2_kdm_cli"

  /** KDMType: the output format of the message. */
  datatype KdmType = ModifiedTransitional1 | DciAny | DciSpecific

  /** KDMType.value, the token passed after -K or -F. */
  function Token(kdmType: KdmType): (token: string)
    ensures token != "" && token[0] != '-'
  {
    match kdmType
    case ModifiedTransitional1 => "modified-transitional-1"
    case DciAny => "dci-any"
    case DciSpecific => "dci-specific"
  }

  /** KDMType(token): the variant whose value is `token`, if any. */
  function FromToken(token: string): (r: Option<KdmType>)
  {
    if token == "modified-transitional-1" then Some(ModifiedTransitional1)
    else if token == "dci-any" then Some(DciAny)
    else if token == "dci-specific" then Some(DciSpecific)
    else None
  }

  /** Every variant is found again from its token, and every token that is
      recognised is the token of what it is recognised as: the mapping is a
      bijection onto the three tokens. */
  lemma TokenRoundTrip(kdmType: KdmType, token: string)
    ensures FromToken(Token(kdmType)) == Some(kdmType)
    ensures FromToken(token).Some? ==> Token(FromToken(token).value) == token
  {
  }

  lemma TokenInjective(a: KdmType, b: KdmType)
    ensures Token(a) == Token(b) <==> a == b
  {
    TokenRoundTrip(a, Token(a));
    TokenRoundTrip(b, Token(b));
  }

  /** The ten arguments the three commands share, in their fixed order:
      output, format, certificate, validity start, validity end. */
  function WindowArgs(output: Path, typeFlag: string, kdmType: KdmType, certFlag: string,
                      certificate: Path, validFrom: DateTime, validTo: DateTime): (args: seq<string>)
    requires Valid(validFrom) && Valid(validTo)
    ensures |args| == 10
    ensures args[0] == "-o" && args[1] == Str(output)
    ensures args[2] == typeFlag && args[3] == Token(kdmType)
    ensures args[4] == certFlag && args[5] == Str(certificate)
    ensures args[6] == "-f" && args[7] == Format(validFrom) && WellShaped(args[7])
    ensures args[8] == "-t" && args[9] == Format(validTo) && WellShaped(args[9])
  {
    ["-o", Str(output), typeFlag, Token(kdmType), certFlag, Str(certificate),
     "-f", Format(validFrom), "-t", Format(validTo)]
  }

  /** A flag and its value when the value is truthy, nothing otherwise. */
  function OptionalArg(flag: string, value: Option<string>): (r: seq<string>)
    ensures |r| == if Truthy(value) then 2 else 0
    ensures r != [] ==> r[0] == flag && r[1] == value.value && r[1] != ""
  {
    if Truthy(value) then [flag, value.value] else []
  }

  /** The arguments of generate: the shared ten with -K and -S, then
      -c cinema and -s screen when they are given and not empty (in that
      order), then the project last. */
  function GenerateCommand(project: Path, certificate: Path, output: Path, validFrom: DateTime,
                           validTo: DateTime, kdmType: KdmType, cinemaName: Option<string>,
                           screenName: Option<string>): (cmd: seq<string>)
    requires Valid(validFrom) && Valid(validTo)
    ensures |cmd| == 11 + (if Truthy(cinemaName) then 2 else 0) + (if Truthy(screenName) then 2 else 0)
    ensures cmd[..10] == WindowArgs(output, "-K", kdmType, "-S", certificate, validFrom, validTo)
    ensures Truthy(cinemaName) ==> cmd[10] == "-c" && cmd[11] == cinemaName.value
    ensures Truthy(screenName) ==> cmd[|cmd| - 3] == "-s" && cmd[|cmd| - 2] == screenName.value
    ensures !Truthy(cinemaName) && !Truthy(screenName) ==> |cmd| == 11
    ensures cmd[|cmd| - 1] == Str(project)
  {
    WindowArgs(output, "-K", kdmType, "-S", certificate, validFrom, validTo)
      + OptionalArg("-c", cinemaName) + OptionalArg("-s", screenName) + [Str(project)]
  }

  /** The arguments of generate_from_dkdm: the shared ten with -K and -S,
      then -D and the DKDM; twelve in all. */
  function FromDkdmCommand(dkdm: Path, certificate: Path, output: Path, validFrom: DateTime,
                           validTo: DateTime, kdmType: KdmType): (cmd: seq<string>)
    requires Valid(validFrom) && Valid(validTo)
    ensures |cmd| == 12
    ensures cmd[..10] == WindowArgs(output, "-K", kdmType, "-S", certificate, validFrom, validTo)
    ensures cmd[10] == "-D" && cmd[11] == Str(dkdm)
  {
    WindowArgs(output, "-K", kdmType, "-S", certificate, validFrom, validTo) + ["-D", Str(dkdm)]
  }

  /** The arguments of create_dkdm: the shared ten with -F and -C in place
      of -K and -S, then the project last; eleven in all. */
  function CreateDkdmCommand(project: Path, certificate: Path, output: Path, validFrom: DateTime,
                             validTo: DateTime, kdmType: KdmType): (cmd: seq<string>)
    requires Valid(validFrom) && Valid(validTo)
    ensures |cmd| == 11
    ensures cmd[..10] == WindowArgs(output, "-F", kdmType, "-C", certificate, validFrom, validTo)
    ensures cmd[10] == Str(project)
  {
    WindowArgs(output, "-F", kdmType, "-C", certificate, validFrom, validTo) + [Str(project)]
  }

  /** What the shared ten arguments say, read back. */
  datatype Window = Window(output: Path, kdmType: KdmType, certificate: Path,
                           validFrom: DateTime, validTo: DateTime)

  /** Reads the shared ten by position, given the two flags in use. */
  function ReadWindow(args: seq<string>, typeFlag: string, certFlag: string): Option<Window>
  {
    if |args| != 10 || args[0] != "-o" || args[2] != typeFlag || args[4] != certFlag
       || args[6] != "-f" || args[8] != "-t" then None
    else
      var kdmType := FromToken(args[3]);
      var validFrom := Parse(args[7]);
      var validTo := Parse(args[9]);
      if kdmType.None? || validFrom.None? || validTo.None? then None
      else Some(Window(ParsePath(args[1]), kdmType.value, ParsePath(args[5]), validFrom.value, validTo.value))
  }

  /** The shared ten lose nothing but seconds and microseconds. */
  lemma WindowReadsBack(output: Path, typeFlag: string, kdmType: KdmType, certFlag: string,
                        certificate: Path, validFrom: DateTime, validTo: DateTime)
    requires WellFormed(output) && WellFormed(certificate)
    requires Valid(validFrom) && Valid(validTo)
    ensures ReadWindow(WindowArgs(output, typeFlag, kdmType, certFlag, certificate, validFrom, validTo),
                       typeFlag, certFlag)
         == Some(Window(output, kdmType, certificate, TruncateToMinute(validFrom), TruncateToMinute(validTo)))
  {
    ParseStr(output);
    ParseStr(certificate);
    FormatRoundTrip(validFrom);
    FormatRoundTrip(validTo);
    TokenRoundTrip(kdmType, Token(kdmType));
  }

  /** An optional name as generate treats it: the empty string is no name. */
  function Given(name: Option<string>): Option<string> {
    if Truthy(name) then name else None
  }

  /** Reads the optional -c and -s pairs by their flags. */
  function ReadNames(extra: seq<string>): Option<(Option<string>, Option<string>)>
  {
    if extra == [] then Some((None, None))
    else if |extra| == 2 && extra[0] == "-c" then Some((Some(extra[1]), None))
    else if |extra| == 2 && extra[0] == "-s" then Some((None, Some(extra[1])))
    else if |extra| == 4 && extra[0] == "-c" && extra[2] == "-s" then Some((Some(extra[1]), Some(extra[3])))
    else None
  }

  /** A cinema name is never read back as a screen name, nor the other way
      round, whatever the names are. */
  lemma NamesReadBack(cinemaName: Option<string>, screenName: Option<string>)
    ensures ReadNames(OptionalArg("-c", cinemaName) + OptionalArg("-s", screenName))
         == Some((Given(cinemaName), Given(screenName)))
  {
  }

  /** What a generate command line says, read back field by field. */
  datatype GenerateRequest = GenerateRequest(
    window: Window, cinemaName: Option<string>, screenName: Option<string>, project: Path)

  function ReadGenerateCommand(cmd: seq<string>): Option<GenerateRequest>
  {
    if |cmd| < 11 then None
    else
      var window := ReadWindow(cmd[..10], "-K", "-S");
      var names := ReadNames(cmd[10..|cmd| - 1]);
      if window.None? || names.None? then None
      else Some(GenerateRequest(window.value, names.value.0, names.value.1, ParsePath(cmd[|cmd| - 1])))
  }

  /** generate's argument vector is unambiguous: reading it back recovers
      every field, up to the minute for the timestamps, with an empty name
      read as no name. */
  lemma GenerateCommandReadsBack(project: Path, certificate: Path, output: Path, validFrom: DateTime,
                                 validTo: DateTime, kdmType: KdmType, cinemaName: Option<string>,
                                 screenName: Option<string>)
    requires WellFormed(project) && WellFormed(certificate) && WellFormed(output)
    requires Valid(validFrom) && Valid(validTo)
    ensures ReadGenerateCommand(GenerateCommand(project, certificate, output, validFrom, validTo,
                                                kdmType, cinemaName, screenName))
         == Some(GenerateRequest(
              Window(output, kdmType, certificate, TruncateToMinute(validFrom), TruncateToMinute(validTo)),
              Given(cinemaName), Given(screenName), project))
  {
    var cmd := GenerateCommand(project, certificate, output, validFrom, validTo, kdmType, cinemaName, screenName);
    var names := OptionalArg("-c", cinemaName) + OptionalArg("-s", screenName);
    assert cmd[10..|cmd| - 1] == names;
    WindowReadsBack(output, "-K", kdmType, "-S", certificate, validFrom, validTo);
    NamesReadBack(cinemaName, screenName);
    ParseStr(project);
  }

  /** What a generate_from_dkdm command line says, read back. */
  datatype FromDkdmRequest = FromDkdmRequest(window: Window, dkdm: Path)

  function ReadFromDkdmCommand(cmd: seq<string>): Option<FromDkdmRequest>
  {
    if |cmd| != 12 || cmd[10] != "-D" then None
    else
      var window := ReadWindow(cmd[..10], "-K", "-S");
      if window.None? then None else Some(FromDkdmRequest(window.value, ParsePath(cmd[11])))
  }

  /** generate_from_dkdm's argument vector is unambiguous. */
  lemma FromDkdmCommandReadsBack(dkdm: Path, certificate: Path, output: Path, validFrom: DateTime,
                                 validTo: DateTime, kdmType: KdmType)
    requires WellFormed(dkdm) && WellFormed(certificate) && WellFormed(output)
    requires Valid(validFrom) && Valid(validTo)
    ensures ReadFromDkdmCommand(FromDkdmCommand(dkdm, certificate, output, validFrom, validTo, kdmType))
         == Some(FromDkdmRequest(
              Window(output, kdmType, certificate, TruncateToMinute(validFrom), TruncateToMinute(validTo)),
              dkdm))
  {
    WindowReadsBack(output, "-K", kdmType, "-S", certificate, validFrom, validTo);
    ParseStr(dkdm);
  }

  /** What a create_dkdm command line says, read back. */
  datatype CreateDkdmRequest = CreateDkdmRequest(window: Window, project: Path)

  function ReadCreateDkdmCommand(cmd: seq<string>): Option<CreateDkdmRequest>
  {
    if |cmd| != 11 then None
    else
      var window := ReadWindow(cmd[..10], "-F", "-C");
      if window.None? then None else Some(CreateDkdmRequest(window.value, ParsePath(cmd[10])))
  }

  /** create_dkdm's argument vector is unambiguous. */
  lemma CreateDkdmCommandReadsBack(project: Path, certificate: Path, output: Path, validFrom: DateTime,
                                   validTo: DateTime, kdmType: KdmType)
    requires WellFormed(project) && WellFormed(certificate) && WellFormed(output)
    requires Valid(validFrom) && Valid(validTo)
    ensures ReadCreateDkdmCommand(CreateDkdmCommand(project, certificate, output, validFrom, validTo, kdmType))
         == Some(CreateDkdmRequest(
              Window(output, kdmType, certificate, TruncateToMinute(validFrom), TruncateToMinute(validTo)),
              project))
  {
    WindowReadsBack(output, "-F", kdmType, "-C", certificate, validFrom, validTo);
    ParseStr(project);
  }

  /** generate's list, grown as the source grows it: the fixed ten, then
      each optional pair, then the project. */
  method BuildGenerateCommand(project: Path, certificate: Path, output: Path, validFrom: DateTime,
                              validTo: DateTime, kdmType: KdmType, cinemaName: Option<string>,
                              screenName: Option<string>) returns (cmd: seq<string>)
    requires Valid(validFrom) && Valid(validTo)
    ensures cmd == GenerateCommand(project, certificate, output, validFrom, validTo, kdmType,
                                   cinemaName, screenName)
  {
    cmd := WindowArgs(output, "-K", kdmType, "-S", certificate, validFrom, validTo);
    if cinemaName.Some? && cinemaName.value != "" {
      cmd := cmd + ["-c", cinemaName.value];
    }
    if screenName.Some? && screenName.value != "" {
      cmd := cmd + ["-s", screenName.value];
    }
    cmd := cmd + [Str(project)];
  }

  /** KDMGenerator: a runner for dcpomatic2_kdm_cli. */
  class KdmGenerator {
    const runner: Runner

    constructor (runner: Runner)
      ensures this.runner == runner
    {
      this.runner := runner;
    }

    /** KDMGenerator(dcpomatic_kdm_path): resolves dcpomatic2_kdm_cli and
        fails as the runner's construction does. */
    static method New(kdmPath: Option<string>, os: Os) returns (r: Result<KdmGenerator, Error>)
      ensures r.Failure? ==> Resolve(KdmBinaryName, kdmPath, os.existing, os.which) == Failure(r.error)
      ensures r.Success? ==> && fresh(r.value) && fresh(r.value.runner)
                             && r.value.runner.binaryName == KdmBinaryName
                             && Resolve(KdmBinaryName, kdmPath, os.existing, os.which)
                                == Success(r.value.runner.binaryPath)
    {
      var runner := Runner.New(KdmBinaryName, kdmPath, os);
      if runner.Failure? {
        return Failure(runner.error);
      }
      var generator := new KdmGenerator(runner.value);
      r := Success(generator);
    }

    /** generate: no existence check at all; the output's parent directory
        is created, then the tool runs with the generate arguments and the
        default error prefix, and a result names `output`. */
    method Generate(project: Path, certificate: Path, output: Path, validFrom: DateTime,
                    validTo: DateTime, kdmType: KdmType, cinemaName: Option<string>,
                    screenName: Option<string>, os: Os) returns (r: Result<CliResult, Error>)
      requires Valid(validFrom) && Valid(validTo)
      modifies os
      ensures os.existing == old(os.existing) + Lineage(Parent(output))
      ensures os.events == old(os.events) + [
        DirsMade(Parent(output)),
        Spawned(Argv(runner.binaryPath, GenerateCommand(project, certificate, output, validFrom, validTo,
                                                        kdmType, cinemaName, screenName)))]
      ensures r == RunResult(os.spawn, runner.binaryPath,
                             GenerateCommand(project, certificate, output, validFrom, validTo,
                                             kdmType, cinemaName, screenName),
                             output, "Command")
    {
      os.MakeDirs(Parent(output));
      var cmd := BuildGenerateCommand(project, certificate, output, validFrom, validTo, kdmType,
                                      cinemaName, screenName);
      r := runner.Run(cmd, output, "Command", os);
    }

    /** generate_from_dkdm: a missing DKDM is reported first, then a missing
        certificate, and either leaves the host untouched; otherwise the
        output's parent directory is created and the tool runs. */
    method GenerateFromDkdm(dkdm: Path, certificate: Path, output: Path, validFrom: DateTime,
                            validTo: DateTime, kdmType: KdmType, os: Os) returns (r: Result<CliResult, Error>)
      requires Valid(validFrom) && Valid(validTo)
      modifies os
      ensures dkdm !in old(os.existing) ==>
        && r == Failure(KdmGenerationError("DKDM not found: " + Str(dkdm)))
        && os.existing == old(os.existing) && os.events == old(os.events)
      ensures dkdm in old(os.existing) && certificate !in old(os.existing) ==>
        && r == Failure(KdmGenerationError("Certificate not found: " + Str(certificate)))
        && os.existing == old(os.existing) && os.events == old(os.events)
      ensures dkdm in old(os.existing) && certificate in old(os.existing) ==>
        && os.existing == old(os.existing) + Lineage(Parent(output))
        && os.events == old(os.events) + [
             DirsMade(Parent(output)),
             Spawned(Argv(runner.binaryPath, FromDkdmCommand(dkdm, certificate, output, validFrom, validTo, kdmType)))]
        && r == RunResult(os.spawn, runner.binaryPath,
                          FromDkdmCommand(dkdm, certificate, output, validFrom, validTo, kdmType),
                          output, "Command")
    {
      if !os.Exists(dkdm) {
        return Failure(KdmGenerationError("DKDM not found: " + Str(dkdm)));
      }
      if !os.Exists(certificate) {
        return Failure(KdmGenerationError("Certificate not found: " + Str(certificate)));
      }
      os.MakeDirs(Parent(output));
      var cmd := WindowArgs(output, "-K", kdmType, "-S", certificate, validFrom, validTo) + ["-D", Str(dkdm)];
      r := runner.Run(cmd, output, "Command", os);
    }

    /** create_dkdm: a missing project is reported first, then a missing
        certificate, and either leaves the host untouched; otherwise the
        output's parent directory is created and the tool runs with error
        prefix "DKDM creation". */
    method CreateDkdm(project: Path, certificate: Path, output: Path, validFrom: DateTime,
                      validTo: DateTime, kdmType: KdmType, os: Os) returns (r: Result<CliResult, Error>)
      requires Valid(validFrom) && Valid(validTo)
      modifies os
      ensures project !in old(os.existing) ==>
        && r == Failure(KdmGenerationError("Project not found: " + Str(project)))
        && os.existing == old(os.existing) && os.events == old(os.events)
      ensures project in old(os.existing) && certificate !in old(os.existing) ==>
        && r == Failure(KdmGenerationError("Certificate not found: " + Str(certificate)))
        && os.existing == old(os.existing) && os.events == old(os.events)
      ensures project in old(os.existing) && certificate in old(os.existing) ==>
        && os.existing == old(os.existing) + Lineage(Parent(output))
        && os.events == old(os.events) + [
             DirsMade(Parent(output)),
             Spawned(Argv(runner.binaryPath, CreateDkdmCommand(project, certificate, output, validFrom, validTo, kdmType)))]
        && r == RunResult(os.spawn, runner.binaryPath,
                          CreateDkdmCommand(project, certificate, output, validFrom, validTo, kdmType),
                          output, "DKDM creation")
    {
      if !os.Exists(project) {
        return Failure(KdmGenerationError("Project not found: " + Str(project)));
      }
      if !os.Exists(certificate) {
        return Failure(KdmGenerationError("Certificate not found: " + Str(certificate)));
      }
      os.MakeDirs(Parent(output));
      var cmd := WindowArgs(output, "-F", kdmType, "-C", certificate, validFrom, validTo) + [Str(project)];
      r := runner.Run(cmd, output, "DKDM creation", os);
    }
  }
}
