/** The operating system as the wrapper sees it. The file system is the set
    of paths that exist; `which` stands for shutil.which and `spawn` for
    subprocess.run, each an oracle fixed when the host is built. Every
    directory creation and every spawned process is appended to `events`,
    so the order of side effects can be stated. */
module Host {

  import opened Prelude
  import opened Paths

  /** What subprocess.run gives back: the OSError raised when the process
      could not be started, or the exit code and the captured output. */
  datatype SpawnOutcome =
    | OsError(description: string)
    | Exited(returncode: int, stdout: string, stderr: string)

  datatype Event =
    | DirsMade(path: Path)
    | Spawned(argv: seq<string>)

  class Os {
    var existing: set<Path>
    var events: seq<Event>
    const which: string -> Option<string>
    const spawn: seq<string> -> SpawnOutcome

    constructor (existing: set<Path>, which: string -> Option<string>, spawn: seq<string> -> SpawnOutcome)
      ensures this.existing == existing && this.events == []
      ensures this.which == which && this.spawn == spawn
    {
      this.existing := existing;
      this.events := [];
      this.which := which;
      this.spawn := spawn;
    }

    /** Path.exists() */
    predicate Exists(p: Path)
      reads this
      ensures Exists(p) <==> p in existing
    {
      p in existing
    }

    /** shutil.which(name) */
    method Which(name: string) returns (found: Option<string>)
      ensures found == which(name)
    {
      found := which(name);
    }

    /** path.mkdir(parents=True, exist_ok=True): afterwards the path and
        every directory above it exist, and nothing else has changed. */
    method MakeDirs(path: Path)
      modifies this
      ensures existing == old(existing) + Lineage(path)
      ensures events == old(events) + [DirsMade(path)]
    {
      existing := existing + Lineage(path);
      events := events + [DirsMade(path)];
    }

    /** subprocess.run(argv, capture_output=True, text=True) */
    method Spawn(argv: seq<string>) returns (outcome: SpawnOutcome)
      modifies this
      ensures outcome == spawn(argv)
      ensures existing == old(existing)
      ensures events == old(events) + [Spawned(argv)]
    {
      outcome := spawn(argv);
      events := events + [Spawned(argv)];
    }
  }
}
