/**
  The context endpoints: the recursive file and folder listings, the path
  suggestions as the user types, and the summary of a list of context items.
 */
module ContextRoutes {
  import opened Wrappers
  import opened Strings
  import opened Sorting
  import opened PathLex
  import opened Resolution
  import ContextProcessing
  import opened GeminiUtils
  import MainRoutes

  /** `not ALLOWED_CONTEXT_DIR or not os.path.exists(ALLOWED_CONTEXT_DIR)` fails. */
  predicate RootExists(env: Env) {
    env.root != "" && Stat(env, env.root).Some?
  }

  // ---------------------------------------------------------------------
  // list_files and list_folders
  // ---------------------------------------------------------------------

  /** The directory tree under the real root as `os.walk` sees it: the file
      names and the sub-directories of each directory. A sub-directory that
      is a symbolic link is listed but not descended into. */
  datatype Tree = Tree(files: seq<string>, subdirs: seq<Subdir>)
  datatype Subdir = Subdir(name: string, link: bool, content: Tree)

  /** One `(root, dirs, files)` triple, with `root` relative to the real
      root ("." for the root itself). */
  datatype Step = Step(rel: string, dirs: seq<string>, files: seq<string>)

  /** `os.path.relpath(os.path.join(root, name), allowed_dir_real)` */
  function Child(rel: string, name: string): string {
    if rel == "." then name else rel + "/" + name
  }

  function Names(subs: seq<Subdir>): (r: seq<string>)
    ensures |r| == |subs| && forall k :: 0 <= k < |subs| ==> r[k] == subs[k].name
  {
    seq(|subs|, k requires 0 <= k < |subs| => subs[k].name)
  }

  /** The triples of a top-down walk of `t`, whose root is at `rel`. */
  function Walk(t: Tree, rel: string): seq<Step>
    decreases t, 1
  {
    [Step(rel, Names(t.subdirs), t.files)] + WalkSubdirs(t, t.subdirs, rel)
  }

  function WalkSubdirs(t: Tree, subs: seq<Subdir>, rel: string): seq<Step>
    requires forall k :: 0 <= k < |subs| ==> subs[k] in t.subdirs
    decreases t, 0, |subs|
  {
    if subs == [] then []
    else
      var first := subs[0];
      (if first.link then [] else Walk(first.content, Child(rel, first.name)))
      + WalkSubdirs(t, subs[1..], rel)
  }

  /** The entries the file listing adds for one triple. */
  function StepFiles(st: Step): (r: seq<string>)
    ensures |r| == |st.files| && forall k :: 0 <= k < |r| ==> r[k] == Child(st.rel, st.files[k])
  {
    seq(|st.files|, k requires 0 <= k < |st.files| => Child(st.rel, st.files[k]))
  }

  /** The entries the folder listing adds for one triple. */
  function StepFolders(st: Step): (r: seq<string>)
    ensures |r| == |st.dirs| && forall k :: 0 <= k < |r| ==> r[k] == Child(st.rel, st.dirs[k]) + "/"
  {
    seq(|st.dirs|, k requires 0 <= k < |st.dirs| => Child(st.rel, st.dirs[k]) + "/")
  }

  function AllFiles(steps: seq<Step>): seq<string>
    decreases |steps|
  {
    if steps == [] then [] else AllFiles(steps[..|steps| - 1]) + StepFiles(steps[|steps| - 1])
  }

  function AllFolders(steps: seq<Step>): seq<string>
    decreases |steps|
  {
    if steps == [] then [] else AllFolders(steps[..|steps| - 1]) + StepFolders(steps[|steps| - 1])
  }

  /** The body of `list_files_endpoint`. */
  function FileListing(env: Env, t: Tree): (r: seq<string>)
    ensures !RootExists(env) ==> r == []
    ensures RootExists(env) ==> Sorted(r) && multiset(r) == multiset(AllFiles(Walk(t, ".")))
  {
    if !RootExists(env) then [] else Sort(AllFiles(Walk(t, ".")))
  }

  /** The body of `list_folders_endpoint`. */
  function FolderListing(env: Env, t: Tree): (r: seq<string>)
    ensures !RootExists(env) ==> r == []
    ensures RootExists(env) ==> Sorted(r) && multiset(r) == multiset(AllFolders(Walk(t, ".")) + ["./"])
  {
    if !RootExists(env) then [] else Sort(AllFolders(Walk(t, ".")) + ["./"])
  }

  method ListFiles(env: Env, t: Tree) returns (files: seq<string>)
    ensures files == FileListing(env, t)
  {
    if !RootExists(env) {
      return [];
    }
    var steps := Walk(t, ".");
    var all: seq<string> := [];
    for i := 0 to |steps|
      invariant all == AllFiles(steps[..i])
    {
      assert steps[..i + 1][..i] == steps[..i];
      var st := steps[i];
      ghost var before := all;
      for j := 0 to |st.files|
        invariant all == before + StepFiles(st)[..j]
      {
        assert StepFiles(st)[..j + 1] == StepFiles(st)[..j] + [Child(st.rel, st.files[j])];
        all := all + [Child(st.rel, st.files[j])];
      }
      assert StepFiles(st)[..|st.files|] == StepFiles(st);
    }
    assert steps[..|steps|] == steps;
    files := Sort(all);
  }

  method ListFolders(env: Env, t: Tree) returns (folders: seq<string>)
    ensures folders == FolderListing(env, t)
  {
    if !RootExists(env) {
      return [];
    }
    var steps := Walk(t, ".");
    var all: seq<string> := [];
    for i := 0 to |steps|
      invariant all == AllFolders(steps[..i])
    {
      assert steps[..i + 1][..i] == steps[..i];
      var st := steps[i];
      ghost var before := all;
      for j := 0 to |st.dirs|
        invariant all == before + StepFolders(st)[..j]
      {
        assert StepFolders(st)[..j + 1] == StepFolders(st)[..j] + [Child(st.rel, st.dirs[j]) + "/"];
        all := all + [Child(st.rel, st.dirs[j]) + "/"];
      }
      assert StepFolders(st)[..|st.dirs|] == StepFolders(st);
    }
    assert steps[..|steps|] == steps;
    all := all + ["./"];
    folders := Sort(all);
  }

  lemma {:induction false} AllFilesAppend(a: seq<Step>, b: seq<Step>)
    ensures AllFiles(a + b) == AllFiles(a) + AllFiles(b)
    decreases |b|
  {
    if b == [] {
      assert a + b == a;
    } else {
      assert (a + b)[..|a + b| - 1] == a + b[..|b| - 1];
      AllFilesAppend(a, b[..|b| - 1]);
    }
  }

  lemma {:induction false} AllFoldersAppend(a: seq<Step>, b: seq<Step>)
    ensures AllFolders(a + b) == AllFolders(a) + AllFolders(b)
    decreases |b|
  {
    if b == [] {
      assert a + b == a;
    } else {
      assert (a + b)[..|a + b| - 1] == a + b[..|b| - 1];
      AllFoldersAppend(a, b[..|b| - 1]);
    }
  }

  /** A file listed by the walk of a sub-directory that is not a link is
      listed by the walk of the sub-directories. */
  lemma {:induction false} WalkSubdirsFile(t: Tree, subs: seq<Subdir>, rel: string, i: nat, x: string)
    requires forall k :: 0 <= k < |subs| ==> subs[k] in t.subdirs
    requires i < |subs| && !subs[i].link
    requires x in AllFiles(Walk(subs[i].content, Child(rel, subs[i].name)))
    ensures x in AllFiles(WalkSubdirs(t, subs, rel))
    decreases i
  {
    var first := if subs[0].link then [] else Walk(subs[0].content, Child(rel, subs[0].name));
    var rest := WalkSubdirs(t, subs[1..], rel);
    assert WalkSubdirs(t, subs, rel) == first + rest;
    AllFilesAppend(first, rest);
    if i > 0 {
      WalkSubdirsFile(t, subs[1..], rel, i - 1, x);
    }
  }

  /** The listing is recursive: every file of a sub-directory that is not a
      link appears as `name/file`. */
  lemma SubdirFileListed(env: Env, t: Tree, i: nat, j: nat)
    requires RootExists(env)
    requires i < |t.subdirs| && !t.subdirs[i].link && j < |t.subdirs[i].content.files|
    requires t.subdirs[i].name != "."
    ensures t.subdirs[i].name + "/" + t.subdirs[i].content.files[j] in FileListing(env, t)
  {
    var s := t.subdirs[i];
    var x := s.name + "/" + s.content.files[j];
    WalkOwnFile(s.content, s.name, j);
    WalkSubdirsFile(t, t.subdirs, ".", i, x);
    var top := [Step(".", Names(t.subdirs), t.files)];
    AllFilesAppend(top, WalkSubdirs(t, t.subdirs, "."));
    assert x in AllFiles(Walk(t, "."));
    assert x in multiset(FileListing(env, t));
  }

  /** The files of a walk's first directory are in its listing. */
  lemma WalkOwnFile(t: Tree, rel: string, j: nat)
    requires j < |t.files|
    ensures Child(rel, t.files[j]) in AllFiles(Walk(t, rel))
  {
    var w := Walk(t, rel);
    var first := [Step(rel, Names(t.subdirs), t.files)];
    assert w == first + WalkSubdirs(t, t.subdirs, rel);
    AllFilesAppend(first, WalkSubdirs(t, t.subdirs, rel));
    assert AllFiles(first) == StepFiles(first[0]) by {
      assert first[..0] == [];
    }
    assert StepFiles(first[0])[j] == Child(rel, t.files[j]);
  }

  /** Every entry of the folder listing ends with "/" and the root, "./", is
      always there. */
  lemma FolderEntriesShape(env: Env, t: Tree)
    requires RootExists(env)
    ensures "./" in FolderListing(env, t)
    ensures forall x :: x in FolderListing(env, t) ==> x != "" && x[|x| - 1] == '/'
  {
    var all := AllFolders(Walk(t, ".")) + ["./"];
    assert "./" in multiset(all);
    AllFoldersEndWithSlash(Walk(t, "."));
    forall x | x in FolderListing(env, t)
      ensures x != "" && x[|x| - 1] == '/'
    {
      assert x in multiset(FolderListing(env, t));
      assert x in all;
    }
  }

  lemma {:induction false} AllFoldersEndWithSlash(steps: seq<Step>)
    ensures forall x :: x in AllFolders(steps) ==> x != "" && x[|x| - 1] == '/'
    decreases |steps|
  {
    if steps != [] {
      AllFoldersEndWithSlash(steps[..|steps| - 1]);
    }
  }

  // ---------------------------------------------------------------------
  // suggest_path
  // ---------------------------------------------------------------------

  /** The directory to search, relative to the root, and the prefix typed. */
  datatype Query = Query(dir: string, prefix: string)

  /** The partial path, cleaned and normalised, turned into a query; `None`
      for an absolute path or one that goes up with "..". */
  function ParseQuery(partial: string): (q: Option<Query>)
    ensures var n := Normpath(ContextProcessing.Clean(partial));
      && (q.None? <==> IsAbs(n) || HasParentRef(n))
      && (q.Some? && '/' !in n ==>
            q.value.dir == "" && (q.value.prefix == "" <==> n == ".") && (n != "." ==> q.value.prefix == n))
      && (q.Some? && '/' in n ==>
            '/' !in q.value.prefix && n == q.value.dir + "/" + q.value.prefix)
  {
    var n := Normpath(ContextProcessing.Clean(partial));
    if ContextProcessing.LexicallyRejected(n) then None
    else if '/' in n then
      NormpathRelativeSplit(ContextProcessing.Clean(partial));
      Some(Query(PathSplit(n).0, PathSplit(n).1))
    else Some(Query("", if n == "." then "" else n))
  }

  /** `item.lower().startswith(search_prefix.lower())` */
  predicate Matches(prefix: string, name: string) {
    StartsWith(Lower(name), Lower(prefix))
  }

  /** The names, in order, that the prefix matches. */
  function Matching(names: seq<string>, prefix: string): seq<string>
    decreases |names|
  {
    if names == [] then []
    else Matching(names[..|names| - 1], prefix)
         + (if Matches(prefix, names[|names| - 1]) then [names[|names| - 1]] else [])
  }

  /** The loop stops once it holds `max_suggestions` entries; it checks after
      adding, so a ceiling of 0 still lets one through. */
  function Cap(max: nat): nat {
    if max == 0 then 1 else max
  }

  /** The entries picked from a directory's names. */
  function Picked(names: seq<string>, prefix: string, max: nat): seq<string> {
    Take(Matching(Sort(names), prefix), Cap(max))
  }

  /** One suggestion: the entry relative to the real root, with "/" for a
      directory. */
  function Suggestion(env: Env, searchAbs: string, rootReal: string, item: string): string {
    var full := PathJoin(searchAbs, item);
    var rel := RelPath(full, rootReal);
    if IsDirAt(env, full) then rel + "/" else rel
  }

  function Suggestions(env: Env, searchAbs: string, rootReal: string, items: seq<string>): (r: seq<string>)
    ensures |r| == |items|
    ensures forall k :: 0 <= k < |items| ==> r[k] == Suggestion(env, searchAbs, rootReal, items[k])
  {
    seq(|items|, k requires 0 <= k < |items| => Suggestion(env, searchAbs, rootReal, items[k]))
  }

  /** `search_dir_absolute.startswith(allowed_dir_real)`, as written, or the
      resolver's containment test. */
  predicate Contained(searchAbs: string, rootReal: string, strict: bool) {
    if strict then ContextProcessing.Inside(searchAbs, rootReal) else StartsWith(searchAbs, rootReal)
  }

  /** The suggestions from the search directory, once the query is known. */
  function Listed(env: Env, lim: Limits, rootReal: string, searchAbs: string, prefix: string,
                  strict: bool): (r: seq<string>)
    ensures |r| <= Cap(lim.maxSuggestions)
    ensures !Contained(searchAbs, rootReal, strict) || !IsDirAt(env, searchAbs) ==> r == []
  {
    if !Contained(searchAbs, rootReal, strict) || !IsDirAt(env, searchAbs) then []
    else match Stat(env, searchAbs).value.names
      case Raises(_) => []
      case Done(names) => Suggestions(env, searchAbs, rootReal, Picked(names, prefix, lim.maxSuggestions))
  }

  /** What `suggest_path_endpoint` answers for `partial`; `strict` picks the
      containment test. */
  function SuggestedWith(env: Env, lim: Limits, partial: string, strict: bool): (r: seq<string>)
    ensures !RootExists(env) ==> r == []
    ensures ParseQuery(partial).None? ==> r == []
    ensures |r| <= Cap(lim.maxSuggestions)
  {
    if !RootExists(env) then []
    else match ParseQuery(partial)
      case None => []
      case Some(q) =>
        var rootReal := env.realpath(env.root);
        Listed(env, lim, rootReal, env.realpath(PathJoin(rootReal, q.dir)), q.prefix, strict)
  }

  function Suggested(env: Env, lim: Limits, partial: string): seq<string> {
    SuggestedWith(env, lim, partial, true)
  }

  lemma {:induction false} MatchingAppend(a: seq<string>, b: seq<string>, prefix: string)
    ensures Matching(a + b, prefix) == Matching(a, prefix) + Matching(b, prefix)
    decreases |b|
  {
    if b == [] {
      assert a + b == a;
    } else {
      assert (a + b)[..|a + b| - 1] == a + b[..|b| - 1];
      MatchingAppend(a, b[..|b| - 1], prefix);
    }
  }

  lemma {:induction false} MatchingMembers(names: seq<string>, prefix: string)
    ensures forall x :: x in Matching(names, prefix) <==> x in names && Matches(prefix, x)
    decreases |names|
  {
    if names != [] {
      var init := names[..|names| - 1];
      MatchingMembers(init, prefix);
      assert names == init + [names[|names| - 1]];
    }
  }

  /** A filter of a sorted list is sorted. */
  lemma {:induction false} MatchingSorted(names: seq<string>, prefix: string)
    requires Sorted(names)
    ensures Sorted(Matching(names, prefix))
    decreases |names|
  {
    if names != [] {
      var init, last := names[..|names| - 1], names[|names| - 1];
      assert Sorted(init);
      MatchingSorted(init, prefix);
      MatchingMembers(init, prefix);
      var m := Matching(init, prefix);
      if Matches(prefix, last) {
        forall i | 0 <= i < |m|
          ensures LexLe(m[i], last)
        {
          assert m[i] in init;
          var k :| 0 <= k < |init| && init[k] == m[i];
          assert names[k] == m[i];
        }
        SortedSnoc(m, last);
      }
    }
  }

  lemma SortedSnoc(m: seq<string>, x: string)
    requires Sorted(m) && forall i :: 0 <= i < |m| ==> LexLe(m[i], x)
    ensures Sorted(m + [x])
  {
    var r := m + [x];
    forall i, j | 0 <= i < j < |r|
      ensures LexLe(r[i], r[j])
    {
      if j == |m| {
        assert r[i] == m[i];
      } else {
        assert r[i] == m[i] && r[j] == m[j];
      }
    }
  }

  /** The picked entries are the first matches in sorted order: sorted, all
      matching, at most the ceiling, and every match when fewer. */
  lemma PickedMeaning(names: seq<string>, prefix: string, max: nat)
    ensures var r := Picked(names, prefix, max);
      && Sorted(r)
      && |r| <= Cap(max)
      && (forall x :: x in r ==> x in names && Matches(prefix, x))
      && (|r| < Cap(max) ==> forall x :: x in names && Matches(prefix, x) ==> x in r)
  {
    var s := Sort(names);
    var m := Matching(s, prefix);
    MatchingSorted(s, prefix);
    MatchingMembers(s, prefix);
    var r := Take(m, Cap(max));
    forall i, j | 0 <= i < j < |r|
      ensures LexLe(r[i], r[j])
    {
      assert r[i] == m[i] && r[j] == m[j];
    }
    forall x | x in r
      ensures x in names && Matches(prefix, x)
    {
      assert x in m;
      assert x in multiset(s);
    }
    if |r| < Cap(max) {
      assert r == m;
      forall x | x in names && Matches(prefix, x)
        ensures x in r
      {
        assert x in multiset(names);
        assert x in s;
      }
    }
  }

  /** `suggest_path_endpoint`, with the resolver's containment test. */
  method SuggestPath(env: Env, lim: Limits, partial: string) returns (suggestions: seq<string>)
    ensures suggestions == Suggested(env, lim, partial)
  {
    suggestions := [];
    if !RootExists(env) {
      return;
    }
    var query := ParseQuery(partial);
    if query.None? {
      return;
    }
    var rootReal := env.realpath(env.root);
    var searchAbs := env.realpath(PathJoin(rootReal, query.value.dir));
    suggestions := ListEntries(env, lim, rootReal, searchAbs, query.value.prefix);
  }

  /** The part of `suggest_path_endpoint` that lists the search directory. */
  method ListEntries(env: Env, lim: Limits, rootReal: string, searchAbs: string, prefix: string)
    returns (suggestions: seq<string>)
    ensures suggestions == Listed(env, lim, rootReal, searchAbs, prefix, true)
  {
    suggestions := [];
    if !ContextProcessing.Inside(searchAbs, rootReal) {
      return;
    }
    if !IsDirAt(env, searchAbs) {
      return;
    }
    match Stat(env, searchAbs).value.names {
      case Raises(_) =>
        return;
      case Done(names) =>
        var picked := PickEntries(Sort(names), prefix, lim.maxSuggestions);
        suggestions := Suggestions(env, searchAbs, rootReal, picked);
    }
  }

  lemma MatchingSnoc(names: seq<string>, i: nat, prefix: string)
    requires i < |names|
    ensures Matching(names[..i + 1], prefix)
            == Matching(names[..i], prefix) + (if Matches(prefix, names[i]) then [names[i]] else [])
  {
    assert names[..i + 1][..i] == names[..i];
  }

  /** The loop over the sorted entries, with its count and its `break`; it
      keeps the entries whose suggestion it appends. */
  method PickEntries(sorted: seq<string>, prefix: string, max: nat) returns (picked: seq<string>)
    ensures picked == Take(Matching(sorted, prefix), Cap(max))
  {
    picked := [];
    var count := 0;
    for i := 0 to |sorted|
      invariant picked == Matching(sorted[..i], prefix)
      invariant count == |picked| < Cap(max)
    {
      var item := sorted[i];
      MatchingSnoc(sorted, i, prefix);
      if StartsWith(Lower(item), Lower(prefix)) {
        picked := picked + [item];
        count := count + 1;
        if count >= max {
          MatchingAppend(sorted[..i + 1], sorted[i + 1..], prefix);
          assert sorted[..i + 1] + sorted[i + 1..] == sorted;
          return;
        }
      }
    }
    assert sorted[..|sorted|] == sorted;
  }

  // ---------------------------------------------------------------------
  // summarize_context
  // ---------------------------------------------------------------------

  /** `context_items` in the JSON body: absent, not a list, or a list. */
  datatype ItemsField = Missing | NotAList | Given(items: seq<string>)

  /** The body of the request; `hasData` is false when it is empty or null. */
  datatype SummaryRequest = SummaryRequest(hasData: bool, items: ItemsField, modelName: string)

  /** What `generate_summary` returns, or the text of what it raised. */
  datatype SummaryResult = Summary(text: string) | SummaryRaised(detail: string)

  datatype SummaryError =
    | NoItems
    | InvalidItems
    | InvalidModel(name: string, available: seq<string>)
    | NoContent
    | ProcessingFailed(details: seq<string>)
    | GenerationFailed(name: string, detail: string)

  datatype SummaryReply =
    | Rejected(status: nat, error: SummaryError)
    | Summarized(summary: string, processed: seq<MainRoutes.LogInfo>, warnings: Option<seq<string>>)

  /** The fixed text around the count and the context. */
  const PROMPT_HEAD := "Please provide a concise summary of the following context obtained from "
  const PROMPT_TAIL := "\n\nFocus on the main topics, key information, structure, and any potential issues or highlights.\nKeep the summary clear and well-organized."
  /** The prompt sent for a summary of `n` items. */
  function SummaryPrompt(n: nat, context: string): string {
    PROMPT_HEAD + NatToString(n) + " source(s):\n\n" + context + PROMPT_TAIL
  }

  /** The prompt names the count and holds all the gathered context. */
  lemma PromptHoldsContext(n: nat, context: string)
    ensures Contains(SummaryPrompt(n, context), context)
    ensures Contains(SummaryPrompt(n, context), NatToString(n))
  {
    var count := NatToString(n);
    var mid := PROMPT_HEAD + count + " source(s):\n\n";
    var p := SummaryPrompt(n, context);
    assert p == mid + context + PROMPT_TAIL;
    assert p[|mid|..|mid| + |context|] == context;
    ContainsAt(p, context, |mid|);
    assert p[|PROMPT_HEAD|..|PROMPT_HEAD| + |count|] == count;
    ContainsAt(p, count, |PROMPT_HEAD|);
  }

  /** The reply once the request is valid: the items gathered, then the
      summary of what they gave. */
  function Assemble(name: string, items: seq<string>, b: MainRoutes.Backends,
                    generate: string -> SummaryResult): (r: SummaryReply)
    ensures var g := MainRoutes.Gather(b, items, true);
      && (r.Rejected? ==> r.error.NoContent? || r.error.ProcessingFailed? || r.error.GenerationFailed?)
      && (r.Rejected? && r.error.GenerationFailed? <==> g.context != "" && r.Rejected?)
      && (r == Rejected(400, NoContent) <==> g.context == "" && g.errors == [])
      && (r == Rejected(400, ProcessingFailed(g.errors)) <==> g.context == "" && g.errors != [])
      && (g.context != "" && generate(SummaryPrompt(|items|, g.context)).Summary? ==>
            r.Summarized? && r.summary == generate(SummaryPrompt(|items|, g.context)).text)
      && (g.context != "" && generate(SummaryPrompt(|items|, g.context)).SummaryRaised? ==>
            r == Rejected(500, GenerationFailed(name, generate(SummaryPrompt(|items|, g.context)).detail)))
      && (r.Summarized? ==>
            && g.context != ""
            && generate(SummaryPrompt(|items|, g.context)) == Summary(r.summary)
            && r.processed == g.infos
            && (r.warnings.Some? <==> g.errors != [])
            && (r.warnings.Some? ==> r.warnings.value == g.errors))
  {
    var g := MainRoutes.Gather(b, items, true);
    if g.context == "" && g.errors == [] then Rejected(400, NoContent)
    else if g.context == "" then Rejected(400, ProcessingFailed(g.errors))
    else match generate(SummaryPrompt(|items|, g.context))
      case SummaryRaised(e) => Rejected(500, GenerationFailed(name, e))
      case Summary(s) => Summarized(s, g.infos, if g.errors != [] then Some(g.errors) else None)
  }

  /** The reply of `summarize_context_endpoint`; `listing` answers the cached
      model list if it fetches, `generate` is the model's answer to a prompt. */
  function Summarize(cache: seq<string>, apiKeySet: bool, req: SummaryRequest, listing: MainRoutes.Listing,
                     b: MainRoutes.Backends, generate: string -> SummaryResult): (r: SummaryReply)
    ensures r == Rejected(400, NoItems) <==> !req.hasData || req.items.Missing?
    ensures r == Rejected(400, InvalidItems) <==> req.hasData && (req.items.NotAList? || req.items == Given([]))
    ensures r.Rejected? && r.error.InvalidModel? <==>
      req.hasData && req.items.Given? && req.items.items != []
      && req.modelName !in MainRoutes.Cached(cache, apiKeySet, listing)
    ensures r.Rejected? && r.error.InvalidModel? ==>
      r == Rejected(400, InvalidModel(req.modelName, MainRoutes.Cached(cache, apiKeySet, listing)))
    ensures !r.Rejected? || !r.error.InvalidModel? ==>
      r == Rejected(400, NoItems) || r == Rejected(400, InvalidItems)
      || r == Assemble(req.modelName, req.items.items, b, generate)
  {
    if !req.hasData || req.items.Missing? then Rejected(400, NoItems)
    else if req.items.NotAList? || req.items.items == [] then Rejected(400, InvalidItems)
    else
      var available := MainRoutes.Cached(cache, apiKeySet, listing);
      if req.modelName !in available then Rejected(400, InvalidModel(req.modelName, available))
      else Assemble(req.modelName, req.items.items, b, generate)
  }

  /** A summary keeps one record per item, in order. */
  lemma SummaryRecordsItems(cache: seq<string>, apiKeySet: bool, req: SummaryRequest,
                            listing: MainRoutes.Listing, b: MainRoutes.Backends,
                            generate: string -> SummaryResult)
    requires Summarize(cache, apiKeySet, req, listing, b, generate).Summarized?
    ensures req.items.Given?
    ensures var r := Summarize(cache, apiKeySet, req, listing, b, generate);
      |r.processed| == |req.items.items|
      && forall k :: 0 <= k < |req.items.items| ==> MainRoutes.Original(r.processed[k]) == req.items.items[k]
  {
    MainRoutes.GatherKeepsItems(b, req.items.items, true);
  }

  /** `summarize_context_endpoint` on the model cache: the cached list is
      consulted once, for a request with items, and never force-refreshed. */
  method SummarizeEndpoint(models: ModelCache, apiKeySet: bool, req: SummaryRequest, listing: MainRoutes.Listing,
                           b: MainRoutes.Backends, generate: string -> SummaryResult)
    returns (reply: SummaryReply)
    requires models.Valid()
    modifies models
    ensures models.Valid()
    ensures reply == Summarize(old(models.cache), apiKeySet, req, listing, b, generate)
    ensures var valid := req.hasData && req.items.Given? && req.items.items != [];
      && (valid ==> models.cache == MainRoutes.Cached(old(models.cache), apiKeySet, listing)
                    && models.refreshes == old(models.refreshes) + (if old(models.cache) == [] then 1 else 0))
      && (!valid ==> models.cache == old(models.cache) && models.refreshes == old(models.refreshes))
  {
    if !req.hasData || req.items.Missing? {
      return Rejected(400, NoItems);
    }
    if req.items.NotAList? || req.items.items == [] {
      return Rejected(400, InvalidItems);
    }
    var available := models.GetAvailableModels(false, apiKeySet, listing.sdk, listing.api);
    if req.modelName !in available {
      return Rejected(400, InvalidModel(req.modelName, available));
    }
    var items := req.items.items;
    var g := MainRoutes.GatherItems(b, items, true);
    if g.context == "" && g.errors == [] {
      return Rejected(400, NoContent);
    } else if g.context == "" {
      return Rejected(400, ProcessingFailed(g.errors));
    }
    var prompt := SummaryPrompt(|items|, g.context);
    match generate(prompt) {
      case SummaryRaised(e) =>
        reply := Rejected(500, GenerationFailed(req.modelName, e));
      case Summary(s) =>
        reply := Summarized(s, g.infos, if g.errors != [] then Some(g.errors) else None);
    }
  }

  // ---------------------------------------------------------------------
  // The containment test of suggest_path
  // ---------------------------------------------------------------------

  /** A single entry is picked when it is the prefix typed. */
  lemma PickedOne(x: string, max: nat)
    ensures Picked([x], x, max) == [x]
  {
    SortSingle(x);
    assert Matches(x, x);
    assert [x][..0] == [];
    assert Matching([x], x) == [x];
  }

  /** A sibling whose name extends the root's passes `startswith` but is
      not inside the root. */
  lemma SiblingNotInside(rootReal: string)
    ensures Contained(rootReal + "X", rootReal, false)
    ensures !Contained(rootReal + "X", rootReal, true)
  {
    var sibling := rootReal + "X";
    assert sibling[..|rootReal|] == rootReal;
    assert sibling[|rootReal|] == 'X';
    assert (rootReal + "/")[|rootReal|] == '/';
  }

  lemma SiblingListed(env: Env, lim: Limits, rootReal: string, prefix: string)
    requires IsDirAt(env, rootReal + "X") && Stat(env, rootReal + "X").value.names == Done([prefix])
    ensures |Listed(env, lim, rootReal, rootReal + "X", prefix, false)| == 1
    ensures Listed(env, lim, rootReal, rootReal + "X", prefix, true) == []
  {
    SiblingNotInside(rootReal);
    PickedOne(prefix, lim.maxSuggestions);
  }

  /** A directory next to the root whose name extends the root's passes the
      test as written: when a partial path leads, through a link, to
      `rootReal + "X"`, the entry of that sibling is suggested, while the
      resolver's test refuses it. */
  lemma SiblingPassesAsWritten(env: Env, lim: Limits, partial: string)
    requires RootExists(env) && ParseQuery(partial).Some?
    requires var rootReal := env.realpath(env.root);
      env.realpath(PathJoin(rootReal, ParseQuery(partial).value.dir)) == rootReal + "X"
    requires IsDirAt(env, env.realpath(env.root) + "X")
    requires Stat(env, env.realpath(env.root) + "X").value.names == Done([ParseQuery(partial).value.prefix])
    ensures |SuggestedWith(env, lim, partial, false)| == 1
    ensures Suggested(env, lim, partial) == []
  {
    SiblingListed(env, lim, env.realpath(env.root), ParseQuery(partial).value.prefix);
  }
}
