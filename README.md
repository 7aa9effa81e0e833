# pyKDM in Dafny

A model of the core of pyKDM, a thin Python wrapper around two DCP-o-matic
command-line tools: `dcpomatic2_cli`, which packages a project into a Digital
Cinema Package (DCP), and `dcpomatic2_kdm_cli`, which issues Key Delivery
Messages (KDMs) and Distribution KDMs (DKDMs) for an encrypted DCP.

The model covers three parts:

- The process runner (`src/pykdm/runner.py`). It resolves the binary, from an
  explicit path that must exist or from a PATH lookup. It spawns
  `[binary] + args`. It turns the outcome into a `CLIResult` or a `CliError`.
  `version()` returns the tool's stripped stdout.
- The KDM call site (`src/pykdm/kdm.py`). It covers the `KDMType` tokens, the
  three argument-vector builders, their existence checks, and the creation of
  the output's parent directory before the run.
- The DCP call site (`src/pykdm/dcp.py`). It covers the project check, the
  optional creation of the output directory, the `-o`/`-e` flags, and the
  path the result reports.

The operating system is a class, `Host.Os`. It holds the set of paths that
exist and two oracles fixed at construction: `which` stands for
`shutil.which` and `spawn` for `subprocess.run`. It also keeps a log of
events, each a directory creation or a spawned argument vector. Every
state-changing method states its new log and file system exactly. So the
order "mkdir, then spawn" and "nothing happens on a failed check" are part
of the contracts.

Module by module:

- `Prelude`: `Option`, `Result`, and the error type. The error type has one
  variant per exception class the code raises: `CliError`,
  `DcpCreationError` and `KdmGenerationError`.
- `Paths`: a model of pathlib's POSIX paths. It covers parsing with
  normalisation, `str()`, `.parent`, and the directories
  `mkdir(parents=True)` leaves in place.
- `Text`: `str.strip()` and the decimal form of an int.
- `Timestamps`: `datetime` and `strftime("%Y-%m-%d %H:%M")`.
- `Host`: the operating-system oracle described above.
- `Runners`, `Kdm` and `Dcp`: the three source files.

The main proved properties:

- Each argument vector has a fixed shape.
- Each argument vector can be read back without ambiguity. The
  `...ReadsBack` lemmas recover every field: paths exactly, timestamps to
  the minute, and the cinema and screen names without confusing them.
- The timestamp format is a bijection between datetimes truncated to the
  minute and the strings the timestamp reader accepts. Those are the
  16-character strings of shape `YYYY-MM-DD HH:MM` that denote a valid date
  and time.
- `KDMType` and its tokens form a bijection.
- `strip()` is characterised uniquely, and it is idempotent.
- A nonzero-exit message determines the exit code.
- `run` only returns results with `success` true.

Points where the source's own text disagrees with its code, and which the
model takes from the code:

- `generate` takes the DCP-o-matic project folder as its source
  (src/pykdm/kdm.py:56-58). Its docstring (src/pykdm/kdm.py:53) speaks of
  "an encrypted DCP", and the commented-out call in main.py:34 passes
  `dcp=`.
- The docstrings' `Raises:` lines name error classes the code does not
  raise as stated. `generate` lists `KDMGenerationError`
  (src/pykdm/kdm.py:70-71), but it can only raise the runner's `CLIError`.
  `generate_from_dkdm` lists `CLIError` (src/pykdm/kdm.py:122-123), but its
  own checks at src/pykdm/kdm.py:125-129 raise `KDMGenerationError`.
  `create_dkdm` (src/pykdm/kdm.py:179-180) and `create`
  (src/pykdm/dcp.py:51-52) name only their local error class, but runner
  failures come out of both as `CLIError`. The model follows the code.
  Runner failures are `CliError`, the local precondition failures are
  `KdmGenerationError` and `DcpCreationError`, and all three are kept apart
  in `Prelude.Error`.

`generate` performs no existence check at all (src/pykdm/kdm.py:74). Only
`generate_from_dkdm` and `create_dkdm` check their inputs.

## Model

| member | source | states |
|---|---|---|
| Runners.Resolve | src/pykdm/runner.py:18-28 | A truthy explicit path is resolved exactly when its parsed Path exists, and is then stored as that Path; otherwise the error is CliError "<name> not found at <path>". With None or "" the lookup decides: success exactly when it is truthy, storing Path(found), else CliError "<name> not found in PATH." |
| Runners.ResolveFailureNamesBinary | src/pykdm/runner.py:22-27 | Every construction failure message starts with "<binary_name> not found ". The explicit-path message ends with the path given, the lookup message with " in PATH." |
| Runners.ExplicitPathIgnoresLookup | src/pykdm/runner.py:20-23 | With a non-empty explicit path the PATH lookup has no influence on the outcome |
| Runners.LookupIgnoresFileSystem | src/pykdm/runner.py:24-28 | Without an explicit path the file system has no influence: the lookup's answer is taken unchecked |
| Runners.Runner.New | src/pykdm/runner.py:18-28 | Construction fails exactly with Resolve's error; otherwise the fresh runner holds the binary name and the resolved path |
| Runners.Argv | src/pykdm/runner.py:31 | The spawned vector has length len(args)+1, holds str(binary_path) first and the arguments in order after it |
| Runners.ExecuteOutcome | src/pykdm/runner.py:32-35 | A spawn OSError, and only that, becomes a CliError whose message starts with "<error_prefix> failed: " and ends with the OS description; a process that ran is returned with its argv, exit code, stdout and stderr whatever the exit code |
| Runners.Runner.Execute | src/pykdm/runner.py:30-35 | Spawns exactly Argv(binary_path, args) once, changes nothing else, and returns ExecuteOutcome of the spawn oracle's answer |
| Runners.RunOutcome | src/pykdm/runner.py:37-51 | A result exists exactly for a spawned process with exit code 0; it has success true, the caller's output_path unchanged and the captured stdout/stderr. A spawn error passes through unchanged; a nonzero exit becomes CliError "<prefix> failed (exit code <n>):\n<stderr>" |
| Runners.Runner.Run | src/pykdm/runner.py:37-51 | Spawns exactly Argv(binary_path, args) and returns RunOutcome of what execute gives |
| Runners.NonZeroExitMessageContents | src/pykdm/runner.py:41-44 | The nonzero-exit message starts with the error prefix, holds the decimal exit code right after "<prefix> failed (exit code ", and ends with the captured stderr |
| Runners.NonZeroExitMessageDeterminesCode | src/pykdm/runner.py:41-44 | For a fixed prefix and stderr, distinct exit codes give distinct messages |
| Runners.VersionOutcome | src/pykdm/runner.py:53-56 | A spawn error stays the same error; otherwise the answer is stdout with only whitespace removed around it and none left at either end |
| Runners.VersionIgnoresExitCode | src/pykdm/runner.py:53-56 | version's answer does not depend on the exit code, and stripping it again changes nothing |
| Runners.Runner.Version | src/pykdm/runner.py:53-56 | Spawns exactly [binary, "--version"] with error prefix "Version check" and returns VersionOutcome of the outcome |
| Text.Strip | src/pykdm/runner.py:56 | strip() returns a piece of its input with only whitespace before and after it, and the piece neither begins nor ends with whitespace |
| Text.StripUnique | src/pykdm/runner.py:56 | Any split of a string into whitespace, a piece with non-whitespace ends, and whitespace has strip() equal to that piece |
| Text.StripIdempotent | src/pykdm/runner.py:56 | strip(strip(s)) == strip(s) |
| Text.NatToString | src/pykdm/runner.py:43 | The rendering of a natural number is a non-empty digit string without a superfluous leading zero, and its digits denote the number |
| Text.DecimalRoundTrip | src/pykdm/runner.py:43 | The exit code rendered in the message reads back as the same int, negative codes included |
| Text.ParseDecimalCanonical | src/pykdm/runner.py:43 | Every string the decimal reader accepts is the rendering of the int it returns |
| Text.IntToStringInjective | src/pykdm/runner.py:43 | Distinct exit codes render differently |
| Kdm.TokenRoundTrip | src/pykdm/kdm.py:10-15 | Each KDMType is found again from its value, and each accepted token is the value of what it is accepted as |
| Kdm.TokenInjective | src/pykdm/kdm.py:10-15 | The three KDMType values are pairwise distinct |
| Kdm.Token | src/pykdm/kdm.py:10-15 | Every KDMType value is non-empty and cannot be mistaken for a flag |
| Timestamps.Format | src/pykdm/kdm.py:84-86 | strftime("%Y-%m-%d %H:%M") of a datetime with a four-digit year is 16 characters: '-' at 4 and 7, ' ' at 10, ':' at 13 and decimal digits elsewhere |
| Timestamps.FormatRoundTrip | src/pykdm/kdm.py:84-86 | Reading a formatted timestamp back gives the datetime with seconds and microseconds dropped |
| Timestamps.ParseFormat | src/pykdm/kdm.py:84-86 | Every string the reader accepts is the formatting of the datetime it returns |
| Timestamps.FormatInjective | src/pykdm/kdm.py:84-86 | Two datetimes format alike exactly when they agree to the minute |
| Timestamps.Pad2 | src/pykdm/kdm.py:84 | A two-digit field is two decimal digits denoting the value, zero-padded |
| Timestamps.Pad4 | src/pykdm/kdm.py:84 | The year field is four decimal digits denoting the year |
| Timestamps.Parse | src/pykdm/kdm.py:84-86 | Whatever the reader accepts is a valid datetime with no seconds or microseconds |
| Kdm.WindowArgs | src/pykdm/kdm.py:76-87 | The shared ten arguments are -o output, type flag and KDMType value, certificate flag and certificate, -f and the formatted start, -t and the formatted end, both timestamps well shaped |
| Kdm.WindowReadsBack | src/pykdm/kdm.py:76-87 | The shared ten read back to the output, type, certificate and both timestamps truncated to the minute |
| Kdm.GenerateCommand | src/pykdm/kdm.py:76-95 | generate's vector has length 11 + 2·[cinema non-empty] + 2·[screen non-empty]; the shared ten with -K/-S come first, "-c cinema" at 10-11 when given, "-s screen" just before the project when given, and the project is last |
| Kdm.BuildGenerateCommand | src/pykdm/kdm.py:76-95 | Growing the list as the source does (fixed ten, conditional extends, final append) yields GenerateCommand |
| Kdm.NamesReadBack | src/pykdm/kdm.py:89-93 | The optional -c/-s pairs read back to the cinema and screen names given, an empty name as none, never one for the other |
| Kdm.GenerateCommandReadsBack | src/pykdm/kdm.py:76-95 | generate's vector determines every input: output, type, certificate, timestamps to the minute, the truthy names and the project |
| Kdm.KdmGenerator.New | src/pykdm/kdm.py:31-39 | The generator resolves "dcpomatic2_kdm_cli" and fails exactly as the runner's construction does |
| Kdm.KdmGenerator.Generate | src/pykdm/kdm.py:74-97 | With no existence check, generate first creates output.parent with its ancestors, then spawns the runner's binary with GenerateCommand, with error prefix "Command"; the result is RunResult, whose output_path is output |
| Kdm.FromDkdmCommand | src/pykdm/kdm.py:133-146 | generate_from_dkdm's vector is exactly twelve arguments: the shared ten with -K/-S, then -D and the DKDM |
| Kdm.FromDkdmCommandReadsBack | src/pykdm/kdm.py:133-146 | generate_from_dkdm's vector determines the output, type, certificate, timestamps to the minute and the DKDM |
| Kdm.KdmGenerator.GenerateFromDkdm | src/pykdm/kdm.py:125-148 | A missing DKDM gives "DKDM not found: <dkdm>"; otherwise a missing certificate gives "Certificate not found: <certificate>"; both leave files and events untouched. Otherwise output.parent is created, then the tool runs with FromDkdmCommand |
| Kdm.CreateDkdmCommand | src/pykdm/kdm.py:190-202 | create_dkdm's vector is eleven arguments: the shared ten with -F/-C in place of -K/-S, then the project |
| Kdm.CreateDkdmCommandReadsBack | src/pykdm/kdm.py:190-202 | create_dkdm's vector determines the output, type, certificate, timestamps to the minute and the project |
| Kdm.KdmGenerator.CreateDkdm | src/pykdm/kdm.py:182-204 | A missing project, then a missing certificate, fails with KdmGenerationError before any mkdir or spawn; otherwise output.parent is created and the tool runs with CreateDkdmCommand and error prefix "DKDM creation" |
| Dcp.CreateCommand | src/pykdm/dcp.py:57-66 | create's vector has length 1 + 2·[output given] + [encrypt]: "-o output" first when given, "-e" just before the project when encrypting, the project last |
| Dcp.CreateCommandReadsBack | src/pykdm/dcp.py:57-66 | create's vector determines the project, the output directory and the encryption choice, even for paths that look like flags |
| Dcp.CreateReportsPath | src/pykdm/dcp.py:68-70 | A result of create has success true and reports the output directory when one is given, else the project |
| Dcp.DcpCreator.New | src/pykdm/dcp.py:22-30 | The creator resolves "dcpomatic2_cli" and fails exactly as the runner's construction does |
| Dcp.DcpCreator.Create | src/pykdm/dcp.py:32-70 | A missing project gives DcpCreationError "Project not found: <project>" with files and events untouched. Otherwise the output directory, only when given, is created before the single spawn of CreateCommand with prefix "DCP creation"; the progress callback plays no part |
| Dcp.DcpCreator.Version | src/pykdm/dcp.py:72-74 | Exactly the runner's version(): same spawn, same answer |
| Paths.ParsePath | src/pykdm/runner.py:21 | Path(s) is absolute exactly when s starts with '/', and its components are never empty, "." or contain '/' |
| Paths.ParseStr | src/pykdm/runner.py:31 | str() of a path parses back to the same path |
| Paths.ParseIdempotent | src/pykdm/runner.py:21 | Building a Path from the str() of a Path gives it back: normalisation happens once |
| Paths.StrInjective | src/pykdm/runner.py:31 | Distinct paths render as distinct strings |
| Paths.Parent | src/pykdm/kdm.py:74 | .parent keeps the anchor and drops exactly the last component; the root and "." are their own parents |
| Paths.Lineage | src/pykdm/kdm.py:74 | The directories mkdir(parents=True) leaves in place are exactly the path and every path with the same anchor whose components are a prefix of it |
| Host.Os.MakeDirs | src/pykdm/kdm.py:74 | mkdir(parents=True, exist_ok=True) adds the path's lineage to the file system and logs one directory creation |
| Host.Os.Spawn | src/pykdm/runner.py:33 | subprocess.run returns the oracle's outcome for the argv, logs one spawn and leaves the file system alone |
| Host.Os.Exists | src/pykdm/runner.py:22 | Path.exists() answers from the file system's current contents |
| Dcp.ReportedPath | src/pykdm/dcp.py:69 | `output or project`: the output directory when one is given, otherwise the project, because a pathlib path is always truthy |
| Runners.RunResult | src/pykdm/runner.py:30-51 | execute then run: a result exactly when the process ran and exited with 0, carrying success true, the output path and the captured text. A spawn error becomes "<prefix> failed: <desc>" and a nonzero exit the "(exit code <n>)" message |
| Kdm.OptionalArg | src/pykdm/kdm.py:89-93 | A flag pair is added exactly when the name is truthy, i.e. neither None nor empty; it is the flag followed by the non-empty name |
| Paths.Str | src/pykdm/runner.py:31 | str(path) of a well-formed path is non-empty and starts with '/' exactly when the path is absolute |
| Text.IntToString | src/pykdm/runner.py:43 | The rendering of `{result.returncode}` is non-empty and starts with '-' exactly when the code is negative |
| Host.Os.Which | src/pykdm/runner.py:25 | shutil.which answers with the lookup oracle |

## Left out

- Real process spawning, `shutil.which`, `Path.exists` and `mkdir` are I/O. They are modelled by the `Host.Os` oracle, not implemented.
- Host.Os.Spawn: the outcome is a function of the argument vector. A real tool may answer differently from one call to the next. In the model two identical `version()` calls always agree.
- Host.Os.Spawn: a spawned tool does not change the file system in the model. The files the tools write are not modelled.
- Host.Os.MakeDirs: `mkdir` never fails in the model. A permission error or a file in the way would raise in Python.
- The text of an OS error (`str(e)`) is an opaque string.
- Text.Strip: whitespace is the ASCII set Python's `str.isspace` accepts (tab to carriage return, 0x1C-0x1F, space). Non-ASCII whitespace such as U+00A0 or U+2028 is not stripped.
- Timestamps.Format: years below 1000 are excluded, because `strftime("%Y")` output for them depends on the platform. Kdm.KdmGenerator.Generate, Kdm.KdmGenerator.GenerateFromDkdm and Kdm.KdmGenerator.CreateDkdm inherit this `requires` on their timestamps. Time zones are not modelled; the format does not print them.
- Paths.ParsePath: pathlib keeps exactly two leading slashes as a distinct root. This is not modelled; such a path is read as an absolute path with one slash. Windows paths are not modelled either.
- `src/pykdm/cli.py` is click option and echo glue, and it does not match the library. It calls `generate` with a keyword `dcp` that `generate` does not take (src/pykdm/cli.py:124-125 against src/pykdm/kdm.py:43), and `generate_for_dkdm`, which does not exist. Its datetime parsing depends on `strptime`.
- `main.py` (a demo), `src/pykdm/__init__.py` (re-exports), `src/pykdm/exceptions.py` (empty classes) and `tests/conftest.py` (mock fixtures) hold no logic to model.
- `KDMResult` and `DCPResult` are declared but never built. All four operations that run a tool (`generate`, `generate_from_dkdm`, `create_dkdm` and `create`) return `CLIResult`.
- The exception class hierarchy is replaced by one `Error` datatype. `runner.py` imports `CLIError`, which `exceptions.py` does not define, so importing the module as written fails. The model assumes the runner's error class exists.
- Python's keyword arguments and `*args` become ordinary parameters, and every default is passed explicitly by the caller: `error_prefix="Command"` in `run`; `kdm_type=KDMType.MODIFIED_TRANSITIONAL_1` in the three KDM operations; `cinema_name=None` and `screen_name=None` in `generate`; `output=None`, `encrypt=False` and `progress_callback=None` in `create`; and `binary_path=None`, `dcpomatic_kdm_path=None` and `dcpomatic_path=None` in the three constructors.
- Host.Os.Spawn: only `OSError` is modelled as a spawn failure. `subprocess.run` can also raise exceptions that src/pykdm/runner.py:34 does not catch and that therefore escape without becoming a `CLIError`. One is `ValueError` for an argument with an embedded NUL character, such as a cinema name. Another is `UnicodeDecodeError` when, with `text=True`, the tool's output does not decode in the locale's encoding.
- Host.Os.Exists: paths are compared as written, with no working directory, ".." or symbolic-link resolution. So a relative path and its absolute form are two members of the file system, as are a link and its target, and `MakeDirs` of "a/../b" does not make "b" exist. Python's `exists()` sees one directory in each of these cases.
- Host.Os.Exists: `Path.exists()` answers true or false in the model. In Python it re-raises stat errors other than "not found" kinds, for example `PermissionError`, and these escape uncaught from src/pykdm/runner.py:22, src/pykdm/kdm.py:125, 128, 182, 185 and src/pykdm/dcp.py:54.
- Runners.Argv: element 0 is `str(binary_path)`. When that string has no '/', `subprocess.run` searches PATH for it. So an explicit "./x", whose existence src/pykdm/runner.py:22 checks, is handed over as "x", and the program PATH finds under that name runs. The model records the argument vector only, not which program the system then starts.
