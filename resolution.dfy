/**
  The records the context pipeline passes around: the supplied filesystem and
  `realpath`, the size ceilings from the configuration, the error messages and
  the `(context, error, info)` triple that both resolvers return.
 */
module Resolution {
  import opened Wrappers
  import opened Strings

  type byte = x: int | 0 <= x < 256

  /** What an operation on the filesystem gives back: a value, or the text of
      the exception it raised. */
  datatype Access<T> = Done(value: T) | Raises(reason: string)

  /** One filesystem object, as `isfile`, `isdir`, `getsize`, `open().read()`
      and `listdir` see it. */
  datatype Node =
    | File(size: nat, content: Access<string>)
    | Dir(names: Access<seq<string>>)
    | Other

  /** The configured root (`""` when it is unset), the filesystem keyed by
      canonical path, and `os.path.realpath`. */
  datatype Env = Env(root: string, fs: map<string, Node>, realpath: string -> string)

  /** The object a path denotes once symbolic links are followed. */
  function Stat(env: Env, p: string): Option<Node> {
    var canonical := env.realpath(p);
    if canonical in env.fs then Some(env.fs[canonical]) else None
  }

  predicate IsDirAt(env: Env, p: string) {
    Stat(env, p).Some? && Stat(env, p).value.Dir?
  }

  /** The ceilings the configuration fixes. */
  datatype Limits = Limits(maxFileBytes: nat, maxUrlBytes: nat, maxListing: nat, maxSuggestions: nat)

  /** `MAX_FILE_READ_BYTES`, `MAX_URL_CONTENT_BYTES`, the folder-listing
      ceiling and the suggestion ceiling. */
  const DefaultLimits := Limits(10 * 1024 * 1024, 2 * 1024 * 1024, 50, 20)

  const ALLOWED_DIR_NAME := "allowed_context"
  const MAX_FILE_SIZE_MB := 10
  const REQUEST_TIMEOUT := 10

  /** Every error and warning the two resolvers produce. */
  datatype Msg =
    | NotConfigured
    | Forbidden(path: string)
    | RootMissing(root: string)
    | OutsideRoot(path: string)
    | NotFound(clean: string, target: string)
    | TooLarge(display: string, size: nat)
    | ReadError(display: string, reason: string)
    | DirError(display: string, reason: string)
    | NotFileOrDir(display: string)
    | NoReadableContext
    | UrlTruncated(limit: nat)
    | Unsupported(contentType: string, url: string)
    | UrlTimeout(url: string)
    | UrlFetchError(url: string, detail: string)

  /** The text of each message; sizes are written as byte counts. */
  function MsgText(m: Msg): string {
    match m
    case NotConfigured => "Error: The allowed context directory is not configured or accessible."
    case Forbidden(p) =>
      "Error: Only relative paths within '" + ALLOWED_DIR_NAME
      + "' are allowed. Path traversal ('..') or absolute paths are forbidden: '" + p + "'"
    case RootMissing(r) => "Error: Allowed context directory '" + r + "' does not exist."
    case OutsideRoot(p) =>
      "Error: Access denied. Path '" + p + "' resolves outside the allowed directory '" + ALLOWED_DIR_NAME + "'."
    case NotFound(c, t) =>
      "Error: Path not found within '" + ALLOWED_DIR_NAME + "': '" + c + "' (resolved to '" + t + "')"
    case TooLarge(d, n) =>
      "Error: File '" + d + "' is too large (" + NatToString(n) + " bytes > "
      + NatToString(MAX_FILE_SIZE_MB) + " MB limit). Skipping."
    case ReadError(d, e) => "Error reading file '" + d + "': " + e
    case DirError(d, e) => "Error processing directory '" + d + "': " + e
    case NotFileOrDir(d) => "Error: Path '" + d + "' exists but is not a file or directory."
    case NoReadableContext =>
      "Path found but contained no readable context (e.g., empty file/directory, skipped large file)."
    case UrlTruncated(n) => "Error: URL content exceeds limit (" + NatToString(n) + " bytes). Truncated."
    case Unsupported(ct, u) =>
      "Error: Unsupported content type '" + ct + "' for URL: " + u + ". Only HTML/Text supported."
    case UrlTimeout(u) => "Error: Timeout fetching URL: " + u + " (>" + NatToString(REQUEST_TIMEOUT) + "s)"
    case UrlFetchError(u, e) => "Error fetching URL " + u + ": " + e
  }

  datatype Status = Ok | Error

  /** The `processed_*_info` record; `resolved` is always `None` for a URL. */
  datatype Info = Info(original: string, resolved: Option<string>, status: Status,
                       message: Option<Msg>, contextAdded: bool)

  /** The `(context_str, error_msg, processed_info)` triple. */
  datatype Outcome = Outcome(context: string, error: Option<Msg>, info: Info)

  /** An outcome that reports `m` and adds no context. */
  function Fail(original: string, resolved: Option<string>, m: Msg): (o: Outcome)
    ensures o.context == "" && o.error == Some(m) && o.info.status == Error
    ensures o.info.message == Some(m) && !o.info.contextAdded
  {
    Outcome("", Some(m), Info(original, resolved, Error, Some(m), false))
  }

  /** `s[:n]` */
  function Take<T>(s: seq<T>, n: nat): (r: seq<T>)
    ensures |r| <= n && |r| <= |s| && r == s[..|r|]
    ensures |s| <= n ==> r == s
    ensures n < |s| ==> |r| == n
  {
    if |s| <= n then s else s[..n]
  }
}
