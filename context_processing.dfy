/**
  The two resolvers behind an `@` reference or a context item:
  `process_context_path`, which reads a file or lists a folder inside the
  allowed directory, and `fetch_and_process_url`, which downloads an HTML or
  text page under a byte ceiling. Each is a specification function
  (`Resolve`, `Fetch`) and a method that follows the source step by step and
  is proved to compute it.
 */
module ContextProcessing {
  import opened Wrappers
  import opened Strings
  import opened Sorting
  import opened PathLex
  import opened Resolution

  // ---------------------------------------------------------------------
  // Context blocks
  // ---------------------------------------------------------------------

  function FileHeader(display: string): string {
    "--- START CONTEXT FROM FILE: " + display + " ---\n"
  }

  function FileFooter(display: string): string {
    "\n--- END CONTEXT FROM FILE: " + display + " ---\n\n"
  }

  function FolderHeader(display: string): string {
    "--- START CONTEXT FROM FOLDER CONTENTS: " + display + "/ ---\n"
  }

  function FolderFooter(display: string): string {
    "--- END CONTEXT FROM FOLDER CONTENTS: " + display + "/ ---\n\n"
  }

  const EMPTY_FOLDER := "(Folder is empty)\n"

  /** A target passes the containment check when it is the real root or lies
      below it. */
  predicate Inside(target: string, rootReal: string) {
    StartsWith(target, rootReal + "/") || target == rootReal
  }

  // ---------------------------------------------------------------------
  // Folder listing
  // ---------------------------------------------------------------------

  /** One line of a folder listing. */
  datatype ListLine =
    | Truncated(limit: nat)
    | Vanished(rel: string)
    | OutsideDir(rel: string)
    | FileTooLarge(rel: string, size: nat)
    | FileEntry(rel: string, size: nat)
    | DirEntry(rel: string)
  {
    /** The lines that count toward the listing ceiling. */
    predicate Counts() {
      FileEntry? || DirEntry?
    }
  }

  function RenderLine(l: ListLine): string {
    match l
    case Truncated(n) => "... (truncated listing at " + NatToString(n) + " items)\n"
    case Vanished(r) => "--- SKIPPING ITEM (not found): " + r + " ---\n"
    case OutsideDir(r) => "--- SKIPPING ITEM (outside allowed dir): " + r + " ---\n"
    case FileTooLarge(r, n) => "- " + r + " [File] (SKIPPED - Too large: " + NatToString(n) + " bytes)\n"
    case FileEntry(r, n) => "- " + r + " [File] (" + NatToString(n) + " bytes)\n"
    case DirEntry(r) => "- " + r + "/ [DIR]\n"
  }

  function RenderLines(ls: seq<ListLine>): string
    decreases |ls|
  {
    if ls == [] then "" else RenderLine(ls[0]) + RenderLines(ls[1..])
  }

  /** The folder being listed: the environment, the ceilings, the real root,
      the real folder and its root-relative display path. */
  datatype Scan = Scan(env: Env, lim: Limits, rootReal: string, target: string, display: string)

  /** The line one directory entry contributes, if any. */
  function EntryLine(sc: Scan, item: string): Option<ListLine> {
    var full := PathJoin(sc.target, item);
    var rel := PathJoin(sc.display, item);
    match Stat(sc.env, full)
    case None => Some(Vanished(rel))
    case Some(node) =>
      if !StartsWith(sc.env.realpath(full), sc.rootReal + "/") then Some(OutsideDir(rel))
      else match node
        case File(size, _) =>
          if size > sc.lim.maxFileBytes then Some(FileTooLarge(rel, size)) else Some(FileEntry(rel, size))
        case Dir(_) => Some(DirEntry(rel))
        case Other => None
  }

  function Lines(line: Option<ListLine>): seq<ListLine> {
    if line.Some? then [line.value] else []
  }

  function Bump(count: nat, line: Option<ListLine>): nat {
    if line.Some? && line.value.Counts() then count + 1 else count
  }

  /** The listing of `items`, `count` entries having been counted already. */
  function Listing(sc: Scan, items: seq<string>, count: nat): seq<ListLine>
    decreases |items|
  {
    if items == [] then []
    else if count >= sc.lim.maxListing then [Truncated(sc.lim.maxListing)]
    else
      var line := EntryLine(sc, items[0]);
      Lines(line) + Listing(sc, items[1..], Bump(count, line))
  }

  /** The number of lines that count toward the ceiling. */
  function Counted(ls: seq<ListLine>): nat
    decreases |ls|
  {
    if ls == [] then 0 else (if ls[0].Counts() then 1 else 0) + Counted(ls[1..])
  }

  lemma {:induction false} CountedAppend(a: seq<ListLine>, b: seq<ListLine>)
    ensures Counted(a + b) == Counted(a) + Counted(b)
    decreases |a|
  {
    if a == [] {
      assert a + b == b;
    } else {
      assert (a + b)[1..] == a[1..] + b;
      CountedAppend(a[1..], b);
    }
  }

  /** The listing never counts more entries than the ceiling, and it reaches
      the ceiling whenever it ends in the truncation line. */
  lemma {:induction false} ListingWithinCeiling(sc: Scan, items: seq<string>, count: nat)
    requires count <= sc.lim.maxListing
    ensures count + Counted(Listing(sc, items, count)) <= sc.lim.maxListing
    ensures var ls := Listing(sc, items, count);
      ls != [] && ls[|ls| - 1].Truncated? ==> count + Counted(ls) == sc.lim.maxListing
    decreases |items|
  {
    if items != [] && count < sc.lim.maxListing {
      var line := EntryLine(sc, items[0]);
      ListingWithinCeiling(sc, items[1..], Bump(count, line));
      CountedAppend(Lines(line), Listing(sc, items[1..], Bump(count, line)));
      var rest := Listing(sc, items[1..], Bump(count, line));
      var ls := Lines(line) + rest;
      if rest == [] {
        assert ls == Lines(line);
      } else {
        assert ls[|ls| - 1] == rest[|rest| - 1];
      }
    }
  }

  /** The truncation line appears at most once, as the last line, and only
      once the ceiling is reached with an entry still to visit. */
  lemma {:induction false} TruncationIsLast(sc: Scan, items: seq<string>, count: nat, k: nat)
    requires k < |Listing(sc, items, count)| && Listing(sc, items, count)[k].Truncated?
    ensures k == |Listing(sc, items, count)| - 1
    ensures Listing(sc, items, count)[k] == Truncated(sc.lim.maxListing)
    decreases |items|
  {
    if items != [] && count < sc.lim.maxListing {
      var line := EntryLine(sc, items[0]);
      var rest := Listing(sc, items[1..], Bump(count, line));
      var ls := Lines(line) + rest;
      if line.Some? {
        assert ls[0] == line.value && !line.value.Truncated?;
        assert k >= 1 && ls[k] == rest[k - 1];
        TruncationIsLast(sc, items[1..], Bump(count, line), k - 1);
      } else {
        assert ls == rest;
        TruncationIsLast(sc, items[1..], Bump(count, line), k);
      }
    }
  }

  /** Skipped, vanished and outside-root entries do not count: only listed
      files within the ceiling and folders advance the count. */
  lemma SkippedEntriesDoNotCount(sc: Scan, item: string, count: nat)
    ensures var line := EntryLine(sc, item);
      line.Some? && (line.value.Vanished? || line.value.OutsideDir? || line.value.FileTooLarge?)
      ==> Bump(count, line) == count
    ensures var line := EntryLine(sc, item);
      Bump(count, line) == count + 1 <==> line.Some? && (line.value.FileEntry? || line.value.DirEntry?)
  {
  }

  /** The body of a folder block. */
  function FolderBody(sc: Scan, names: seq<string>): string {
    if names == [] then EMPTY_FOLDER else RenderLines(Listing(sc, Sort(names), 0))
  }

  /** The loop over the sorted directory entries. */
  method ListFolderContents(sc: Scan, items: seq<string>) returns (body: string)
    ensures body == RenderLines(Listing(sc, items, 0))
  {
    body := "";
    var count: nat := 0;
    var i := 0;
    while i < |items|
      invariant 0 <= i <= |items|
      invariant body + RenderLines(Listing(sc, items[i..], count)) == RenderLines(Listing(sc, items, 0))
    {
      assert items[i..][0] == items[i] && items[i..][1..] == items[i + 1..];
      if count >= sc.lim.maxListing {
        body := body + RenderLine(Truncated(sc.lim.maxListing));
        break;
      }
      var line := EntryLine(sc, items[i]);
      if line.Some? {
        assert RenderLines([line.value] + Listing(sc, items[i + 1..], Bump(count, line)))
          == RenderLine(line.value) + RenderLines(Listing(sc, items[i + 1..], Bump(count, line)));
        body := body + RenderLine(line.value);
      } else {
        assert Lines(line) + Listing(sc, items[i + 1..], Bump(count, line)) == Listing(sc, items[i + 1..], Bump(count, line));
      }
      count := Bump(count, line);
      i := i + 1;
    }
  }

  // ---------------------------------------------------------------------
  // process_context_path
  // ---------------------------------------------------------------------

  /** The block an accepted file contributes. */
  function FileBlock(display: string, text: string, lim: Limits): string {
    FileHeader(display) + Take(text, lim.maxFileBytes) + FileFooter(display)
  }

  function FolderBlock(sc: Scan, names: seq<string>): string {
    FolderHeader(sc.display) + FolderBody(sc, names) + FolderFooter(sc.display)
  }

  /** `path.strip().strip("'\"")` */
  function Clean(path: string): string {
    StripQuotes(Strip(path))
  }

  /** Security check 1: an absolute path or a ".." component after `normpath`. */
  predicate LexicallyRejected(normalized: string) {
    IsAbs(normalized) || HasParentRef(normalized)
  }

  /** The real path the resolver checks for `path`. */
  function Target(env: Env, path: string): string {
    env.realpath(PathJoin(env.root, Normpath(Clean(path))))
  }

  /** The file, folder or other object found at the target (everything after
      the existence check). */
  function ReadNode(sc: Scan, path: string, node: Node): (o: Outcome)
    ensures o.info.original == path && o.info.resolved == Some(sc.target)
    ensures o.info.status == Error ==> o.context == "" && !o.info.contextAdded
    ensures o.error.None? <==> o.info.status == Ok
    ensures o.info.status == Ok ==> o.info.contextAdded && o.context != "" && o.info.message.None?
    ensures o.error.Some? ==> (o.info.message == o.error
      && (o.error.value.TooLarge? || o.error.value.ReadError? || o.error.value.DirError? || o.error.value.NotFileOrDir?))
  {
    var t := Some(sc.target);
    match node
    case File(size, content) =>
      if size > sc.lim.maxFileBytes then Fail(path, t, TooLarge(sc.display, size))
      else
        (match content
         case Raises(e) => Fail(path, t, ReadError(sc.display, e))
         case Done(text) => Outcome(FileBlock(sc.display, text, sc.lim), None, Info(path, t, Ok, None, true)))
    case Dir(names) =>
      (match names
       case Raises(e) => Fail(path, t, DirError(sc.display, e))
       case Done(ns) => Outcome(FolderBlock(sc, ns), None, Info(path, t, Ok, None, true)))
    case Other => Fail(path, t, NotFileOrDir(sc.display))
  }

  /** The result of `process_context_path(path)`. */
  function Resolve(env: Env, lim: Limits, path: string): (o: Outcome)
    ensures o.info.original == path
    ensures o.info.status == Error ==> o.context == "" && !o.info.contextAdded
    ensures o.error.None? <==> o.info.status == Ok
    ensures o.info.status == Ok ==> o.info.contextAdded && o.context != "" && o.info.message.None?
    ensures o.info.status == Ok ==> (o.info.resolved == Some(Target(env, path))
      && Inside(Target(env, path), env.realpath(env.root)))
    ensures o.error.Some? ==> o.info.message == o.error
    ensures o.error == Some(NotConfigured) <==> env.root == ""
    ensures o.error == Some(Forbidden(path)) <==> env.root != "" && LexicallyRejected(Normpath(Clean(path)))
    ensures o.error == Some(OutsideRoot(path)) ==> !Inside(Target(env, path), env.realpath(env.root))
  {
    if env.root == "" then Fail(path, None, NotConfigured)
    else if LexicallyRejected(Normpath(Clean(path))) then Fail(path, None, Forbidden(path))
    else Locate(env, lim, path)
  }

  /** The checks after the lexical one: the root exists, the target stays
      inside its real path and exists; then the target is read. */
  function Locate(env: Env, lim: Limits, path: string): (o: Outcome)
    ensures o.info.original == path
    ensures o.info.status == Error ==> o.context == "" && !o.info.contextAdded
    ensures o.error.None? <==> o.info.status == Ok
    ensures o.info.status == Ok ==> o.info.contextAdded && o.context != "" && o.info.message.None?
    ensures o.info.status == Ok ==> (o.info.resolved == Some(Target(env, path))
      && Inside(Target(env, path), env.realpath(env.root)))
    ensures o.error.Some? ==> o.info.message == o.error
    ensures o.error != Some(NotConfigured) && o.error != Some(Forbidden(path))
    ensures o.error == Some(OutsideRoot(path)) ==> !Inside(Target(env, path), env.realpath(env.root))
  {
    if !IsDirAt(env, env.root) then Fail(path, None, RootMissing(env.root))
    else if !Inside(Target(env, path), env.realpath(env.root)) then
      Fail(path, Some(Target(env, path)), OutsideRoot(path))
    else ReadTarget(env, lim, path, Target(env, path), env.realpath(env.root))
  }

  /** A target inside the root: missing, or read as the object it is. */
  function ReadTarget(env: Env, lim: Limits, path: string, target: string, rootReal: string): (o: Outcome)
    ensures o.info.original == path && o.info.resolved == Some(target)
    ensures o.info.status == Error ==> o.context == "" && !o.info.contextAdded
    ensures o.error.None? <==> o.info.status == Ok
    ensures o.info.status == Ok ==> o.info.contextAdded && o.context != "" && o.info.message.None?
    ensures o.error.Some? ==> (o.info.message == o.error && !o.error.value.OutsideRoot?
      && !o.error.value.NotConfigured? && !o.error.value.Forbidden?)
  {
    match Stat(env, target)
    case None => Fail(path, Some(target), NotFound(Clean(path), target))
    case Some(node) => ReadNode(Scan(env, lim, rootReal, target, RelPath(target, rootReal)), path, node)
  }

  /** The folder branch of `process_context_path`. */
  method ReadFolder(sc: Scan, path: string, names: Access<seq<string>>)
    returns (context: string, error: Option<Msg>, info: Info)
    ensures Outcome(context, error, info) == ReadNode(sc, path, Dir(names))
  {
    context := "";
    error := None;
    info := Info(path, Some(sc.target), Error, None, false);
    context := context + FolderHeader(sc.display);
    assert context == FolderHeader(sc.display);
    match names {
      case Raises(e) =>
        error := Some(DirError(sc.display, e));
        info := info.(message := error);
        return "", error, info;
      case Done(items) =>
        var body;
        if items == [] {
          body := EMPTY_FOLDER;
        } else {
          body := ListFolderContents(sc, Sort(items));
        }
        assert body == FolderBody(sc, items);
        context := context + body;
    }
    context := context + FolderFooter(sc.display);
    info := info.(status := Ok, contextAdded := true);
    assert context == FolderBlock(sc, names.value);

  }

  /** The part of `process_context_path` after the existence check: reads
      the file or lists the folder found at `sc.target`. */
  method ReadResolved(sc: Scan, path: string, node: Node)
    returns (context: string, error: Option<Msg>, info: Info)
    ensures Outcome(context, error, info) == ReadNode(sc, path, node)
  {
    context := "";
    error := None;
    info := Info(path, Some(sc.target), Error, None, false);
    match node {
      case File(size, content) =>
        if size > sc.lim.maxFileBytes {
          error := Some(TooLarge(sc.display, size));
          info := info.(message := error);
          return "", error, info;
        }
        context := context + FileHeader(sc.display);
        assert context == FileHeader(sc.display);
        match content {
          case Raises(e) =>
            error := Some(ReadError(sc.display, e));
            info := info.(message := error);
            return "", error, info;
          case Done(text) =>
            context := context + Take(text, sc.lim.maxFileBytes);
        }
        context := context + FileFooter(sc.display);
        info := info.(status := Ok, contextAdded := true);
        assert context == FileBlock(sc.display, content.value, sc.lim);
      case Dir(names) =>
        context, error, info := ReadFolder(sc, path, names);
      case Other =>
        error := Some(NotFileOrDir(sc.display));
        info := info.(message := error);
    }
  }

  /** `process_context_path`, step by step. */
  method ProcessContextPath(env: Env, lim: Limits, path: string)
    returns (context: string, error: Option<Msg>, info: Info)
    ensures Outcome(context, error, info) == Resolve(env, lim, path)
  {
    context := "";
    error := None;
    info := Info(path, None, Error, None, false);
    if env.root == "" {
      error := Some(NotConfigured);
      info := info.(message := error);
      return;
    }
    var clean := StripQuotes(Strip(path));
    var normalized := Normpath(clean);
    if IsAbs(normalized) || HasParentRef(normalized) {
      error := Some(Forbidden(path));
      info := info.(message := error);
      return;
    }
    if !IsDirAt(env, env.root) {
      error := Some(RootMissing(env.root));
      info := info.(message := error);
      return;
    }
    var target := env.realpath(PathJoin(env.root, normalized));
    info := info.(resolved := Some(target));
    var rootReal := env.realpath(env.root);
    if !StartsWith(target, rootReal + "/") && target != rootReal {
      error := Some(OutsideRoot(path));
      info := info.(message := error);
      return;
    }
    var node := Stat(env, target);
    if node.None? {
      error := Some(NotFound(clean, target));
      info := info.(message := error);
      return;
    }
    var display := RelPath(target, rootReal);
    context, error, info := ReadResolved(Scan(env, lim, rootReal, target, display), path, node.value);
    if error.None? && context == "" && info.status != Ok {
      info := info.(status := Ok, contextAdded := false, message := Some(info.message.GetOr(NoReadableContext)));
    }
    if error.Some? && info.status == Error {
      context := "";
      info := info.(contextAdded := false);
    }
  }

  // ---------------------------------------------------------------------
  // Properties of process_context_path
  // ---------------------------------------------------------------------

  /** The path got past the configuration, lexical, root and containment
      checks. */
  predicate PassesChecks(env: Env, path: string) {
    env.root != "" && !LexicallyRejected(Normpath(Clean(path))) && IsDirAt(env, env.root)
    && Inside(Target(env, path), env.realpath(env.root))
  }

  /** The folder scan `process_context_path` sets up for `path`. */
  function ScanOf(env: Env, lim: Limits, path: string): Scan {
    var rootReal := env.realpath(env.root);
    Scan(env, lim, rootReal, Target(env, path), RelPath(Target(env, path), rootReal))
  }

  /** The lexical check rejects a path before the filesystem is consulted:
      the outcome depends only on the path, whatever the files and links. */
  lemma LexicalRejection(env: Env, lim: Limits, path: string)
    requires env.root != "" && LexicallyRejected(Normpath(Clean(path)))
    ensures Resolve(env, lim, path) == Fail(path, None, Forbidden(path))
  {
  }

  /** The checks run in a fixed order, each giving its own error. */
  lemma CheckOrder(env: Env, lim: Limits, path: string)
    ensures env.root == "" ==> Resolve(env, lim, path).error == Some(NotConfigured)
    ensures env.root != "" && !LexicallyRejected(Normpath(Clean(path))) && !IsDirAt(env, env.root)
      ==> Resolve(env, lim, path).error == Some(RootMissing(env.root))
    ensures env.root != "" && !LexicallyRejected(Normpath(Clean(path))) && IsDirAt(env, env.root)
      && !Inside(Target(env, path), env.realpath(env.root))
      ==> Resolve(env, lim, path) == Fail(path, Some(Target(env, path)), OutsideRoot(path))
    ensures PassesChecks(env, path) && Stat(env, Target(env, path)).None?
      ==> Resolve(env, lim, path) == Fail(path, Some(Target(env, path)), NotFound(Clean(path), Target(env, path)))
    ensures PassesChecks(env, path) && Stat(env, Target(env, path)).Some?
      ==> Resolve(env, lim, path) == ReadNode(ScanOf(env, lim, path), path, Stat(env, Target(env, path)).value)
  {
  }

  /** "a/../b" normalises to "b", which the lexical check accepts. */
  lemma CleanCollapsed()
    ensures Clean("a/../b") == "a/../b"
  {
    var p := "a/../b";
    assert !IsSpace(p[0]) && !IsQuote(p[0]) && !IsSpace(p[|p| - 1]) && !IsQuote(p[|p| - 1]);
    assert TrimLeft(p, IsSpace) == p;
    assert TrimRight(p, IsSpace) == p;
    assert TrimLeft(p, IsQuote) == p;
    assert TrimRight(p, IsQuote) == p;
  }

  lemma ParentCollapsedIsAccepted(env: Env, lim: Limits)
    requires env.root != ""
    ensures Clean("a/../b") == "a/../b"
    ensures Normpath(Clean("a/../b")) == "b" && !LexicallyRejected("b")
    ensures Resolve(env, lim, "a/../b").error != Some(Forbidden("a/../b"))
  {
    CleanCollapsed();
    NormpathCollapsesParent();
    assert SplitOn("b", '/') == ["b"];
  }

  /** Without symbolic links (`realpath` is `normpath`), a path that passes the
      lexical check never fails the containment check. */
  lemma NoLinksStayInside(env: Env, lim: Limits, path: string)
    requires IsAbs(env.root) && !StartsWith(env.root, "//") && env.root[|env.root| - 1] != '/'
    requires Normpath(env.root) != "/"
    requires forall p :: env.realpath(p) == Normpath(p)
    ensures Resolve(env, lim, path).error != Some(OutsideRoot(path))
  {
    var n := Normpath(Clean(path));
    if !LexicallyRejected(n) {
      JoinedStaysInside(env.root, n);
      assert Target(env, path) == Normpath(PathJoin(env.root, n));
    }
  }

  /** The file branch: a file over the ceiling is refused with no context;
      otherwise its text, cut at the ceiling, is framed by the header and
      footer with status ok, or a read failure is reported with no context. */
  lemma FileBranch(env: Env, lim: Limits, path: string, size: nat, content: Access<string>)
    requires PassesChecks(env, path) && Stat(env, Target(env, path)) == Some(File(size, content))
    ensures var display := ScanOf(env, lim, path).display;
      var o := Resolve(env, lim, path);
      (size > lim.maxFileBytes ==> o.error == Some(TooLarge(display, size)) && o.context == "")
      && (size <= lim.maxFileBytes && content.Done? ==>
            o.context == FileBlock(display, content.value, lim) && o.info.status == Ok
            && o.info.contextAdded && o.error.None?)
      && (size <= lim.maxFileBytes && content.Raises? ==>
            o.error == Some(ReadError(display, content.reason)) && o.context == "")
  {
    CheckOrder(env, lim, path);
  }

  /** An empty folder gives the "(Folder is empty)" block with status ok. */
  lemma EmptyFolder(env: Env, lim: Limits, path: string)
    requires PassesChecks(env, path) && Stat(env, Target(env, path)) == Some(Dir(Done([])))
    ensures var display := ScanOf(env, lim, path).display;
      var o := Resolve(env, lim, path);
      o.context == FolderHeader(display) + EMPTY_FOLDER + FolderFooter(display)
      && o.info.status == Ok && o.info.contextAdded && o.error.None?
  {
    CheckOrder(env, lim, path);
  }

  /** A non-empty folder lists its entries in sorted order. */
  lemma FolderListsSorted(env: Env, lim: Limits, path: string, names: seq<string>)
    requires PassesChecks(env, path) && Stat(env, Target(env, path)) == Some(Dir(Done(names))) && names != []
    ensures var sc := ScanOf(env, lim, path);
      var o := Resolve(env, lim, path);
      o.context == FolderHeader(sc.display) + RenderLines(Listing(sc, Sort(names), 0)) + FolderFooter(sc.display)
      && Sorted(Sort(names)) && multiset(Sort(names)) == multiset(names)
      && o.info.status == Ok && o.info.contextAdded && o.error.None?
  {
    CheckOrder(env, lim, path);
  }

  // ---------------------------------------------------------------------
  // fetch_and_process_url
  // ---------------------------------------------------------------------

  /** What `requests.get(url, stream=True)` gives: a timeout, another request
      failure, or a response whose body arrives in chunks and whose stream may
      fail after the chunks shown. */
  datatype HttpResult =
    | Timeout
    | RequestFailed(reason: string)
    | Response(status: nat, reason: string, contentType: Option<string>,
               chunks: seq<seq<byte>>, streamFailure: Option<string>)

  /** The text conversions the source borrows from outside code: whether the
      bytes are valid UTF-8, their UTF-8 decoding, and BeautifulSoup's text
      of an HTML page with scripts and styles removed. */
  datatype Decoders = Decoders(utf8Valid: seq<byte> -> bool, utf8Decode: seq<byte> -> string,
                               htmlText: string -> string)

  /** The bytes kept and whether the ceiling was crossed. */
  datatype Collected = Collected(content: seq<byte>, truncated: bool)

  function Flatten(chunks: seq<seq<byte>>): seq<byte>
    decreases |chunks|
  {
    if chunks == [] then [] else chunks[0] + Flatten(chunks[1..])
  }

  /** The chunk loop: chunks are appended until the running total, starting
      at `read`, exceeds `max`; the chunk that crosses is kept whole. */
  function Collect(chunks: seq<seq<byte>>, max: nat, read: nat): Collected
    decreases |chunks|
  {
    if chunks == [] then Collected([], false)
    else if read + |chunks[0]| > max then Collected(chunks[0], true)
    else
      var r := Collect(chunks[1..], max, read + |chunks[0]|);
      Collected(chunks[0] + r.content, r.truncated)
  }

  lemma {:induction false} FlattenLength(chunks: seq<seq<byte>>, k: nat)
    requires k < |chunks|
    ensures Flatten(chunks[..k + 1]) == Flatten(chunks[..k]) + chunks[k]
    decreases k
  {
    if k > 0 {
      assert chunks[..k + 1][1..] == chunks[1..][..k];
      assert chunks[..k][1..] == chunks[1..][..k - 1];
      FlattenLength(chunks[1..], k - 1);
    } else {
      assert chunks[..1][1..] == [];
    }
  }

  lemma FlattenCons(chunks: seq<seq<byte>>, n: nat)
    requires 0 < n <= |chunks|
    ensures Flatten(chunks[..n]) == chunks[0] + Flatten(chunks[1..][..n - 1])
  {
    assert chunks[..n][1..] == chunks[1..][..n - 1];
  }

  /** Without truncation every byte is kept, and truncation happens exactly
      when the bytes would push the total past the ceiling. */
  lemma {:induction false} CollectWhole(chunks: seq<seq<byte>>, max: nat, read: nat)
    requires read <= max
    ensures var c := Collect(chunks, max, read);
      !c.truncated <==> read + |Flatten(chunks)| <= max
    ensures var c := Collect(chunks, max, read); !c.truncated ==> c.content == Flatten(chunks)
    decreases |chunks|
  {
    if chunks != [] {
      if read + |chunks[0]| > max {
        assert |Flatten(chunks)| >= |chunks[0]|;
      } else {
        CollectWhole(chunks[1..], max, read + |chunks[0]|);
      }
    }
  }

  /** The index of the chunk that pushes the running total past `max`. */
  function Crossing(chunks: seq<seq<byte>>, max: nat, read: nat): nat
    decreases |chunks|
  {
    if chunks == [] || read + |chunks[0]| > max then 0
    else 1 + Crossing(chunks[1..], max, read + |chunks[0]|)
  }

  /** With truncation the kept bytes are a whole number of leading chunks, the
      last of which is the first to push the total over. */
  lemma {:induction false} CollectCrossing(chunks: seq<seq<byte>>, max: nat, read: nat)
    requires read <= max
    ensures var c := Collect(chunks, max, read); var k := Crossing(chunks, max, read);
      c.truncated ==> (k < |chunks| && c.content == Flatten(chunks[..k + 1])
                       && read + |Flatten(chunks[..k])| <= max < read + |c.content|)
    decreases |chunks|
  {
    if chunks != [] {
      if read + |chunks[0]| > max {
        assert chunks[..1][1..] == [];
        assert Flatten(chunks[..1]) == chunks[0];
        assert chunks[..0] == [];
      } else {
        CollectCrossing(chunks[1..], max, read + |chunks[0]|);
        var k := Crossing(chunks[1..], max, read + |chunks[0]|);
        if Collect(chunks[1..], max, read + |chunks[0]|).truncated {
          FlattenCons(chunks, k + 2);
          FlattenCons(chunks, k + 1);
        }
      }
    }
  }

  /** `bytes.decode('utf-8')`, falling back to ISO-8859-1, which accepts every
      byte sequence. */
  function Decode(dec: Decoders, content: seq<byte>): string {
    if dec.utf8Valid(content) then dec.utf8Decode(content)
    else seq(|content|, k requires 0 <= k < |content| => content[k] as char)
  }

  /** The page text: BeautifulSoup's for HTML, the stripped text otherwise. */
  function PageText(dec: Decoders, contentType: string, content: seq<byte>): string {
    if Contains(contentType, "html") then dec.htmlText(Decode(dec, content))
    else Strip(Decode(dec, content))
  }

  /** The text `requests` gives the `HTTPError` of `raise_for_status`. */
  function HttpErrorText(status: nat, reason: string, url: string): string {
    NatToString(status) + (if status < 500 then " Client Error: " else " Server Error: ")
    + reason + " for url: " + url
  }

  function UrlHeader(url: string): string {
    "--- START CONTEXT FROM URL: " + url + " ---\n"
  }

  function UrlFooter(url: string): string {
    "\n--- END CONTEXT FROM URL: " + url + " ---\n\n"
  }

  const TRUNCATED_MARK := "\n... (Content Truncated)"

  /** The content types the fetcher accepts. */
  predicate Accepted(contentType: string) {
    Contains(contentType, "html") || Contains(contentType, "text")
  }

  /** The URL block of accepted content. */
  function UrlBlock(dec: Decoders, lim: Limits, url: string, contentType: string, c: Collected): string {
    UrlHeader(url) + Take(PageText(dec, contentType, c.content), lim.maxUrlBytes)
    + (if c.truncated then TRUNCATED_MARK else "") + UrlFooter(url)
  }

  /** The result of `fetch_and_process_url(url)` for the response `http`. */
  function Fetch(dec: Decoders, lim: Limits, url: string, http: HttpResult): (o: Outcome)
    ensures o.info.original == url && o.info.resolved.None?
    ensures o.info.status == Error ==> o.context == "" && !o.info.contextAdded && o.error.Some?
    ensures o.info.status == Ok ==> o.info.contextAdded && StartsWith(o.context, UrlHeader(url))
    ensures o.info.status == Ok ==> o.error == o.info.message && (o.error.None? || o.error == Some(UrlTruncated(lim.maxUrlBytes)))
  {
    match http
    case Timeout => Fail(url, None, UrlTimeout(url))
    case RequestFailed(e) => Fail(url, None, UrlFetchError(url, e))
    case Response(status, reason, ct, chunks, failure) =>
      if 400 <= status < 600 then Fail(url, None, UrlFetchError(url, HttpErrorText(status, reason, url)))
      else
        var contentType := Lower(ct.GetOr(""));
        if !Accepted(contentType) then Fail(url, None, Unsupported(contentType, url))
        else Received(dec, lim, url, contentType, chunks, failure)
  }

  /** The body of an accepted response: read under the ceiling, decoded and
      framed, or the stream failure reported. */
  function Received(dec: Decoders, lim: Limits, url: string, contentType: string,
                    chunks: seq<seq<byte>>, failure: Option<string>): (o: Outcome)
    ensures o.info.original == url && o.info.resolved.None?
    ensures o.info.status == Error <==> !Collect(chunks, lim.maxUrlBytes, 0).truncated && failure.Some?
    ensures o.info.status == Error ==> (o.context == "" && !o.info.contextAdded
      && o.error == Some(UrlFetchError(url, failure.value)))
    ensures o.info.status == Ok ==> o.info.contextAdded && StartsWith(o.context, UrlHeader(url))
    ensures o.info.status == Ok ==> o.error == o.info.message && (o.error.None? || o.error == Some(UrlTruncated(lim.maxUrlBytes)))
  {
    var c := Collect(chunks, lim.maxUrlBytes, 0);
    if !c.truncated && failure.Some? then Fail(url, None, UrlFetchError(url, failure.value))
    else
      var m := if c.truncated then Some(UrlTruncated(lim.maxUrlBytes)) else None;
      assert StartsWith(UrlBlock(dec, lim, url, contentType, c), UrlHeader(url));
      Outcome(UrlBlock(dec, lim, url, contentType, c), m, Info(url, None, Ok, m, true))
  }

  /** The chunk loop of `fetch_and_process_url`. */
  method ReadChunks(chunks: seq<seq<byte>>, max: nat) returns (content: seq<byte>, truncated: bool)
    ensures Collected(content, truncated) == Collect(chunks, max, 0)
  {
    content := [];
    truncated := false;
    var bytesRead := 0;
    var i := 0;
    while i < |chunks|
      invariant 0 <= i <= |chunks| && bytesRead == |content|
      invariant var r := Collect(chunks[i..], max, bytesRead);
        Collect(chunks, max, 0) == Collected(content + r.content, r.truncated)
    {
      assert chunks[i..][0] == chunks[i] && chunks[i..][1..] == chunks[i + 1..];
      var r := Collect(chunks[i + 1..], max, bytesRead + |chunks[i]|);
      assert content + (chunks[i] + r.content) == content + chunks[i] + r.content;
      content := content + chunks[i];
      bytesRead := bytesRead + |chunks[i]|;
      if bytesRead > max {
        truncated := true;
        break;
      }
      i := i + 1;
    }
  }

  /** The accepted-content part of `fetch_and_process_url`: the chunk loop,
      decoding and framing. */
  method ReadBody(dec: Decoders, lim: Limits, url: string, contentType: string,
                  chunks: seq<seq<byte>>, failure: Option<string>)
    returns (context: string, error: Option<Msg>, info: Info)
    ensures Outcome(context, error, info) == Received(dec, lim, url, contentType, chunks, failure)
  {
    context := "";
    error := None;
    info := Info(url, None, Error, None, false);
    var content, truncated := ReadChunks(chunks, lim.maxUrlBytes);
    if truncated {
      error := Some(UrlTruncated(lim.maxUrlBytes));
      info := info.(message := error);
    }
    if !truncated && failure.Some? {
      error := Some(UrlFetchError(url, failure.value));
      info := info.(message := error);
    } else {
      var text := PageText(dec, contentType, content);
      context := context + UrlHeader(url);
      assert context == UrlHeader(url);
      context := context + Take(text, lim.maxUrlBytes);
      if error.Some? {
        context := context + TRUNCATED_MARK;
      }
      context := context + UrlFooter(url);
      info := info.(status := Ok, contextAdded := true);
      if error.Some? {
        info := info.(message := error);
      }
      assert context == UrlBlock(dec, lim, url, contentType, Collected(content, truncated));
    }
  }

  /** `fetch_and_process_url`, step by step. */
  method FetchAndProcessUrl(dec: Decoders, lim: Limits, url: string, http: HttpResult)
    returns (context: string, error: Option<Msg>, info: Info)
    ensures Outcome(context, error, info) == Fetch(dec, lim, url, http)
  {
    context := "";
    error := None;
    info := Info(url, None, Error, None, false);
    match http {
      case Timeout =>
        error := Some(UrlTimeout(url));
        info := info.(message := error);
      case RequestFailed(e) =>
        error := Some(UrlFetchError(url, e));
        info := info.(message := error);
      case Response(status, reason, ct, chunks, failure) =>
        if 400 <= status < 600 {
          error := Some(UrlFetchError(url, HttpErrorText(status, reason, url)));
          info := info.(message := error);
        } else {
          var contentType := Lower(ct.GetOr(""));
          if Contains(contentType, "html") || Contains(contentType, "text") {
            context, error, info := ReadBody(dec, lim, url, contentType, chunks, failure);
          } else {
            error := Some(Unsupported(contentType, url));
            info := info.(message := error);
          }
        }
    }
    if error.Some? && info.status == Error {
      context := "";
      info := info.(contextAdded := false);
    }
  }

  // ---------------------------------------------------------------------
  // Properties of fetch_and_process_url
  // ---------------------------------------------------------------------

  /** Only HTML or text content is accepted; anything else is refused with
      no context. */
  lemma ContentTypeGate(dec: Decoders, lim: Limits, url: string, status: nat, reason: string,
                        ct: Option<string>, chunks: seq<seq<byte>>, failure: Option<string>)
    requires !(400 <= status < 600)
    ensures var o := Fetch(dec, lim, url, Response(status, reason, ct, chunks, failure));
      var contentType := Lower(ct.GetOr(""));
      (!Accepted(contentType) <==> o.error == Some(Unsupported(contentType, url)))
      && (!Accepted(contentType) ==> o.context == "" && o.info.status == Error)
  {
  }

  /** A timeout has its own message, distinct from every other failure. */
  lemma TimeoutIsDistinct(dec: Decoders, lim: Limits, url: string, http: HttpResult)
    ensures Fetch(dec, lim, url, http).error.Some? && Fetch(dec, lim, url, http).error.value.UrlTimeout?
      <==> http.Timeout?
  {
  }

  /** A crossed ceiling keeps status ok and the context, marks the context
      truncated and reports the truncation as the error; otherwise there is
      no mark. */
  lemma Truncation(dec: Decoders, lim: Limits, url: string, status: nat, reason: string,
                   ct: Option<string>, chunks: seq<seq<byte>>, failure: Option<string>)
    requires !(400 <= status < 600) && Accepted(Lower(ct.GetOr("")))
    ensures var o := Fetch(dec, lim, url, Response(status, reason, ct, chunks, failure));
      var c := Collect(chunks, lim.maxUrlBytes, 0);
      (c.truncated <==> |Flatten(chunks)| > lim.maxUrlBytes)
      && (c.truncated ==>
            o.info.status == Ok && o.info.contextAdded && o.error == Some(UrlTruncated(lim.maxUrlBytes))
            && o.context == UrlHeader(url) + Take(PageText(dec, Lower(ct.GetOr("")), c.content), lim.maxUrlBytes)
                            + TRUNCATED_MARK + UrlFooter(url))
      && (!c.truncated && failure.None? ==>
            o.error.None? && o.info.status == Ok
            && o.context == UrlHeader(url) + Take(PageText(dec, Lower(ct.GetOr("")), Flatten(chunks)), lim.maxUrlBytes)
                            + UrlFooter(url))
  {
    CollectWhole(chunks, lim.maxUrlBytes, 0);
    CollectCrossing(chunks, lim.maxUrlBytes, 0);
  }

  /** Chunks of 3, 2 and 5 bytes under a ceiling of 5: the first two fill the
      ceiling without crossing it, and the third crosses it and is kept whole. */
  lemma CrossingChunkKeptWhole()
    ensures Collect([[49, 50, 51], [52, 53], [54, 55, 56, 57, 48]], 5, 0)
      == Collected([49, 50, 51, 52, 53, 54, 55, 56, 57, 48], true)
  {
  }
}
