/** Shared vocabulary: optional values, results, the wrapper's error kinds and
    a few predicates over strings used to state what error messages contain. */
module Prelude {

  datatype Option<+T> = None | Some(value: T) {
    function GetOr(default: T): T {
      match this
      case Some(v) => v
      case None => default
    }
  }

  datatype Result<+R, +E> = Success(value: R) | Failure(error: E)

  /** The three exception classes the wrapper raises, each with its message.
      CliError comes from the runner (binary resolution, spawn failure,
      nonzero exit); the other two from the local precondition checks of
      the DCP and KDM call sites. */
  datatype Error =
    | CliError(message: string)
    | DcpCreationError(message: string)
    | KdmGenerationError(message: string)

  /** Python truthiness of a `str | None`: neither None nor the empty string. */
  predicate Truthy(s: Option<string>) {
    s.Some? && s.value != ""
  }

  predicate StartsWith(s: string, prefix: string) {
    |prefix| <= |s| && s[..|prefix|] == prefix
  }

  predicate EndsWith(s: string, suffix: string) {
    |suffix| <= |s| && s[|s| - |suffix|..] == suffix
  }

  /** `part` occurs in `s` at offset `at`. */
  predicate OccursAt(s: string, part: string, at: nat) {
    at + |part| <= |s| && s[at..at + |part|] == part
  }
}
