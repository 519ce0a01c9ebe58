/** Values shared by the merge-tool and diff-editor models: optional values and
    results, bytes and paths, the command-line arguments handed to an external
    program, how that program exited, and the errors raised around it. */
module Common {

  datatype Option<+T> = None | Some(value: T) {
    /** `unwrap_or` / `unwrap_or_default`: the carried value, or `default`. */
    function GetOr(default: T): T {
      match this
      case Some(v) => v
      case None => default
    }
  }

  datatype Result<+T, +E> = Ok(value: T) | Err(error: E)

  newtype byte = x: int | 0 <= x < 256

  type Bytes = seq<byte>

  /** A file-system path, as text. */
  type Path = string

  /** `PathBuf::join`: `name` placed directly under `dir`. */
  function JoinPath(dir: Path, name: string): Path {
    dir + "/" + name
  }

  /** An operating-system error, kept only by its kind. */
  datatype IoError = IoError(kind: string)

  /** The errors of the settings library that the model distinguishes. */
  datatype ConfigError =
    | NotFound(key: string)
    | WrongType(key: string)
    | Message(text: string)

  /** How an external process ended; `code` is absent when it was ended by a
      signal. */
  datatype ExitStatus = ExitStatus(code: Option<int>) {
    predicate Success() {
      code == Some(0)
    }
  }

  /** One argument of an external command: literal text from the settings, or
      a path the program is pointed at. */
  datatype Arg = Literal(text: string) | PathArg(path: Path)

  /** Everything that can go wrong around launching an external tool. */
  datatype ExternalToolError =
    | InvalidConfig(cause: ConfigError)
    | MergeArgsNotConfigured(toolName: string)
    | SetUpDirError(setUpCause: IoError)
    | FailedToExecute(toolBinary: string, source: IoError)
    | ToolAborted(exitStatus: ExitStatus)
    | IoFailure(ioCause: IoError)

  /** `Vec::pop`: removes and returns the last element, if there is one. */
  method Pop<T>(s: seq<T>) returns (top: Option<T>, rest: seq<T>)
    ensures top.None? <==> s == []
    ensures top.None? ==> rest == s
    ensures top.Some? ==> rest + [top.value] == s
  {
    if s == [] {
      top, rest := None, s;
    } else {
      top, rest := Some(s[|s| - 1]), s[..|s| - 1];
    }
  }
}
