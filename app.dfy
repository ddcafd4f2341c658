/**
  The legacy single-file application: `parse_input_for_context`, which finds
  `@"path"`, `@'path'` and `@path` references in a chat message, resolves them
  and removes them from the message, and the lexical screen of its own
  `process_context_path`.
 */
module LegacyApp {
  import opened Wrappers
  import opened Strings
  import opened PathLex
  import opened Resolution
  import ContextProcessing

  // ---------------------------------------------------------------------
  // The pattern @\s*(?:"([^"]+)"|'([^']+)'|(\S+))
  // ---------------------------------------------------------------------

  predicate NotSpace(c: char) { !IsSpace(c) }
  predicate IsDouble(c: char) { c == '"' }
  predicate IsSingle(c: char) { c == '\'' }

  /** The first index at or after `k` whose character satisfies `stop`, or
      `|s|` when there is none. */
  function FirstFrom(s: string, k: nat, stop: char -> bool): (j: nat)
    requires k <= |s|
    ensures k <= j <= |s|
    ensures forall x :: k <= x < j ==> !stop(s[x])
    ensures j == |s| || stop(s[j])
    decreases |s| - k
  {
    if k == |s| || stop(s[k]) then k else FirstFrom(s, k + 1, stop)
  }

  /** `FirstFrom` is determined by its contract. */
  lemma {:induction false} FirstFromIs(s: string, k: nat, stop: char -> bool, j: nat)
    requires k <= j <= |s|
    requires forall x :: k <= x < j ==> !stop(s[x])
    requires j == |s| || stop(s[j])
    ensures FirstFrom(s, k, stop) == j
    decreases |s| - k
  {
    if k < j {
      FirstFromIs(s, k + 1, stop, j);
    }
  }

  /** One match: its span `[start, end)` and the group that matched. */
  datatype RefMatch = RefMatch(start: nat, end: nat, path: string)

  /** The quote at `k` has a closing partner with at least one character
      between them, so the quoted alternative matches. */
  predicate Closes(s: string, k: nat)
    requires k < |s|
  {
    (s[k] == '"' && k + 1 < FirstFrom(s, k + 1, IsDouble) < |s|)
    || (s[k] == '\'' && k + 1 < FirstFrom(s, k + 1, IsSingle) < |s|)
  }

  /** What a match of the pattern at `m.start` looks like: '@', optional
      whitespace, then the alternative that applies at the first other
      character. */
  predicate WellFormed(s: string, m: RefMatch) {
    m.start < |s| && s[m.start] == '@' && Shaped(s, FirstFrom(s, m.start + 1, NotSpace), m)
  }

  /** A non-empty quoted body with its quotes removed when the quote at `k`
      closes, or else the longest run of non-whitespace from `k`. */
  predicate Shaped(s: string, k: nat, m: RefMatch) {
    m.start < k < |s| && m.end <= |s| && |m.path| > 0
    && if Closes(s, k) then QuotedAt(s, k, m) else BareAt(s, k, m)
  }

  /** The quoted body that opens at `k`, without its quotes, which it does
      not contain. */
  predicate QuotedAt(s: string, k: nat, m: RefMatch)
    requires k < |s|
  {
    m.end == k + |m.path| + 2 <= |s| && s[m.end - 1] == s[k] && m.path == s[k + 1..m.end - 1]
    && s[k] !in m.path
  }

  /** The longest run of non-whitespace from `k`. */
  predicate BareAt(s: string, k: nat, m: RefMatch) {
    k <= m.end <= |s| && m.path == s[k..m.end] && (forall x :: k <= x < m.end ==> !IsSpace(s[x]))
    && (m.end == |s| || IsSpace(s[m.end]))
  }

  /** The match of the pattern that starts at `i`, if any. */
  function MatchAt(s: string, i: nat): (r: Option<RefMatch>)
    requires i < |s|
    ensures r.None? <==> s[i] != '@' || FirstFrom(s, i + 1, NotSpace) == |s|
    ensures r.Some? ==> r.value.start == i && WellFormed(s, r.value)
  {
    if s[i] != '@' then None
    else
      var k := FirstFrom(s, i + 1, NotSpace);
      if k == |s| then None else Some(Alternative(s, i, k))
  }

  /** The alternatives in the order the pattern tries them, once the '@' at
      `i` and the whitespace after it are consumed. */
  function Alternative(s: string, i: nat, k: nat): (m: RefMatch)
    requires i < k < |s| && !IsSpace(s[k])
    ensures m.start == i && Shaped(s, k, m)
  {
    if s[k] == '"' && k + 1 < FirstFrom(s, k + 1, IsDouble) < |s| then
      var q := FirstFrom(s, k + 1, IsDouble);
      QuotedBody(s, k, RefMatch(i, q + 1, s[k + 1..q]));
      RefMatch(i, q + 1, s[k + 1..q])
    else if s[k] == '\'' && k + 1 < FirstFrom(s, k + 1, IsSingle) < |s| then
      var q := FirstFrom(s, k + 1, IsSingle);
      QuotedBody(s, k, RefMatch(i, q + 1, s[k + 1..q]));
      RefMatch(i, q + 1, s[k + 1..q])
    else
      var e := FirstFrom(s, k, IsSpace);
      RefMatch(i, e, s[k..e])
  }

  lemma QuotedBody(s: string, k: nat, m: RefMatch)
    requires k < |s| && Closes(s, k)
    requires s[k] == '"' ==> m.end == FirstFrom(s, k + 1, IsDouble) + 1
    requires s[k] == '\'' ==> m.end == FirstFrom(s, k + 1, IsSingle) + 1
    requires m.path == s[k + 1..m.end - 1]
    ensures QuotedAt(s, k, m)
  {
    var q := m.end - 1;
    assert forall x :: k + 1 <= x < q ==> s[x] != s[k];
    assert forall x :: 0 <= x < |m.path| ==> m.path[x] == s[k + 1 + x];
  }

  /** The indices from `a` up to but excluding `b`. */
  function Between(a: nat, b: nat): (r: set<nat>)
    ensures forall x :: x in r <==> a <= x < b
    decreases b - a
  {
    if b <= a then {} else {a} + Between(a + 1, b)
  }

  function Span(m: RefMatch): set<nat> {
    Between(m.start, m.end)
  }

  /** The indices the matches cover. */
  function Covered(ms: seq<RefMatch>): set<nat>
    decreases |ms|
  {
    if ms == [] then {} else Span(ms[0]) + Covered(ms[1..])
  }

  /** `re.finditer` from position `i`: the leftmost match, then the search
      resumes where it ended. The matches are well formed, in order and
      disjoint, and every position where a match could start is covered. */
  function MatchesFrom(s: string, i: nat): (ms: seq<RefMatch>)
    requires i <= |s|
    ensures forall a :: 0 <= a < |ms| ==> i <= ms[a].start && WellFormed(s, ms[a])
    ensures forall a, b :: 0 <= a < b < |ms| ==> ms[a].end <= ms[b].start
    ensures forall p :: i <= p < |s| && MatchAt(s, p).Some? ==> p in Covered(ms)
    decreases |s| - i
  {
    if i == |s| then []
    else match MatchAt(s, i)
      case None => MatchesFrom(s, i + 1)
      case Some(m) =>
        var rest := MatchesFrom(s, m.end);
        var ms := [m] + rest;
        assert ms[1..] == rest;
        assert forall a :: 0 < a < |ms| ==> ms[a] == rest[a - 1];
        ms
  }

  function Matches(s: string): seq<RefMatch> {
    MatchesFrom(s, 0)
  }

  lemma {:induction false} CoveredAtLeast(ms: seq<RefMatch>, lo: nat)
    requires forall a :: 0 <= a < |ms| ==> lo <= ms[a].start
    ensures forall x :: x in Covered(ms) ==> lo <= x
    decreases |ms|
  {
    if ms != [] {
      CoveredAtLeast(ms[1..], lo);
    }
  }

  lemma {:induction false} CoveredBelow(ms: seq<RefMatch>, hi: nat)
    requires forall a :: 0 <= a < |ms| ==> ms[a].end <= hi
    ensures forall x :: x in Covered(ms) ==> x < hi
    decreases |ms|
  {
    if ms != [] {
      CoveredBelow(ms[1..], hi);
    }
  }


  // ---------------------------------------------------------------------
  // parse_input_for_context
  // ---------------------------------------------------------------------

  /** `(full_context, cleaned_message, errors, processed_paths_details)` */
  datatype Parsed = Parsed(context: string, message: string, errors: seq<Msg>, details: seq<Info>)

  /** The context a match contributes: only a result without error. */
  function Part(o: Outcome): string {
    if o.error.None? && o.context != "" then o.context else ""
  }

  /** The contexts of the successful matches, in the order of the text. */
  function ContextOf(ms: seq<RefMatch>, resolve: string -> Outcome): string
    decreases |ms|
  {
    if ms == [] then "" else Part(resolve(ms[0].path)) + ContextOf(ms[1..], resolve)
  }

  /** The errors, last match first. */
  function ErrorsOf(ms: seq<RefMatch>, resolve: string -> Outcome): (r: seq<Msg>)
    ensures |r| <= |ms|
    decreases |ms|
  {
    if ms == [] then []
    else
      var o := resolve(ms[0].path);
      ErrorsOf(ms[1..], resolve) + (if o.error.Some? then [o.error.value] else [])
  }

  /** One info record per match, last match first. */
  function DetailsOf(ms: seq<RefMatch>, resolve: string -> Outcome): (r: seq<Info>)
    ensures |r| == |ms|
    decreases |ms|
  {
    if ms == [] then [] else DetailsOf(ms[1..], resolve) + [resolve(ms[0].path).info]
  }

  /** `[c for i, c in enumerate(s) if i not in marked]`, from index `i`. */
  function Unmarked(s: string, marked: set<nat>, i: nat): string
    requires i <= |s|
    decreases |s| - i
  {
    if i == |s| then "" else (if i in marked then "" else [s[i]]) + Unmarked(s, marked, i + 1)
  }

  /** With nothing marked from `i` on, the rest of the text is kept whole. */
  lemma {:induction false} UnmarkedNone(s: string, marked: set<nat>, i: nat)
    requires i <= |s|
    requires forall x :: i <= x < |s| ==> x !in marked
    ensures Unmarked(s, marked, i) == s[i..]
    decreases |s| - i
  {
    if i < |s| {
      UnmarkedNone(s, marked, i + 1);
      assert s[i..] == [s[i]] + s[i + 1..];
    }
  }

  /** Marked indices contribute nothing. */
  lemma {:induction false} UnmarkedSkip(s: string, marked: set<nat>, i: nat, b: nat)
    requires i <= b <= |s|
    requires forall x :: i <= x < b ==> x in marked
    ensures Unmarked(s, marked, i) == Unmarked(s, marked, b)
    decreases b - i
  {
    if i < b {
      UnmarkedSkip(s, marked, i + 1, b);
    }
  }

  /** Removing the indices of one span leaves the text on either side of it. */
  lemma {:induction false} UnmarkedSpan(s: string, a: nat, b: nat, i: nat)
    requires i <= a <= b <= |s|
    ensures Unmarked(s, Between(a, b), i) == s[i..a] + s[b..]
    decreases |s| - i
  {
    var marked := Between(a, b);
    if i < a {
      UnmarkedSpan(s, a, b, i + 1);
      assert s[i..a] == [s[i]] + s[i + 1..a];
    } else {
      UnmarkedSkip(s, marked, i, b);
      UnmarkedNone(s, marked, b);
    }
  }

  /** The placeholder given to a message that is empty once the references
      are removed. */
  function Placeholder(cleaned: string, context: string, errors: seq<Msg>): (r: string)
    ensures r != ""
    ensures cleaned != "" ==> r == cleaned
    ensures cleaned == "" && context != "" ==> r == "(Referring to provided context)"
    ensures cleaned == "" && context == "" && errors != [] ==> r == "(Error processing context, no message provided)"
    ensures cleaned == "" && context == "" && errors == [] ==> r == "(Empty message)"
  {
    if cleaned == "" && context != "" then "(Referring to provided context)"
    else if cleaned == "" && context == "" && errors != [] then "(Error processing context, no message provided)"
    else if cleaned == "" && context == "" then "(Empty message)"
    else cleaned
  }

  /** What `parse_input_for_context` evidently means to return, with each
      reference resolved by `resolve`. */
  function ParseSpec(input: string, resolve: string -> Outcome): (r: Parsed)
    ensures Matches(input) == [] ==> r == Parsed("", input, [], [])
    ensures |r.details| == |Matches(input)| && |r.errors| <= |Matches(input)|
  {
    var ms := Matches(input);
    if ms == [] then Parsed("", input, [], [])
    else
      var context := ContextOf(ms, resolve);
      var errors := ErrorsOf(ms, resolve);
      var cleaned := Strip(Unmarked(input, Covered(ms), 0));
      Parsed(context, Placeholder(cleaned, context, errors), errors, DetailsOf(ms, resolve))
  }

  /** How the four accumulations extend when one more match is taken from
      the back. */
  lemma Unfold(ms: seq<RefMatch>, j: nat, resolve: string -> Outcome)
    requires j < |ms|
    ensures var o := resolve(ms[j].path);
      && ContextOf(ms[j..], resolve) == Part(o) + ContextOf(ms[j + 1..], resolve)
      && ErrorsOf(ms[j..], resolve) == ErrorsOf(ms[j + 1..], resolve) + (if o.error.Some? then [o.error.value] else [])
      && DetailsOf(ms[j..], resolve) == DetailsOf(ms[j + 1..], resolve) + [o.info]
      && Covered(ms[j..]) == Covered(ms[j + 1..]) + Span(ms[j])
  {
    assert ms[j..][0] == ms[j] && ms[j..][1..] == ms[j + 1..];
  }

  /** `parse_input_for_context`, with its last line returning the details list
      it built. */
  method ParseInputForContext(input: string, resolve: string -> Outcome) returns (r: Parsed)
    ensures r == ParseSpec(input, resolve)
  {
    var matches := Matches(input);
    if matches == [] {
      return Parsed("", input, [], []);
    }
    var fullContext := "";
    var errors: seq<Msg> := [];
    var details: seq<Info> := [];
    var processed: set<nat> := {};
    var j := |matches|;
    while j > 0
      invariant 0 <= j <= |matches|
      invariant fullContext == ContextOf(matches[j..], resolve)
      invariant errors == ErrorsOf(matches[j..], resolve)
      invariant details == DetailsOf(matches[j..], resolve)
      invariant processed == Covered(matches[j..])
    {
      j := j - 1;
      var m := matches[j];
      Unfold(matches, j, resolve);
      CoveredAtLeast(matches[j + 1..], m.end);
      var overlaps := exists x :: m.start <= x < m.end && x in processed;
      assert !overlaps;
      var path := m.path;
      var o := resolve(path);
      details := details + [o.info];
      if o.error.Some? {
        errors := errors + [o.error.value];
      } else if o.context != "" {
        fullContext := o.context + fullContext;
      }
      processed := processed + Span(m);
    }
    assert matches[0..] == matches;
    var cleaned := Strip(Unmarked(input, processed, 0));
    r := Parsed(fullContext, Placeholder(cleaned, fullContext, errors), errors, details);
  }

  /** Once a reference was found, the returned message is never empty. */
  lemma MessageNeverEmpty(input: string, resolve: string -> Outcome)
    requires Matches(input) != []
    ensures ParseSpec(input, resolve).message != ""
    ensures |ParseSpec(input, resolve).details| == |Matches(input)|
  {
  }

  /** A message with one reference loses exactly the span of that reference
      before it is stripped. */
  lemma OneReferenceRemoved(input: string)
    requires |Matches(input)| == 1
    ensures var m := Matches(input)[0];
      Unmarked(input, Covered(Matches(input)), 0) == input[..m.start] + input[m.end..]
  {
    var ms := Matches(input);
    var m := ms[0];
    assert ms[1..] == [];
    assert Covered(ms) == Between(m.start, m.end);
    UnmarkedSpan(input, m.start, m.end, 0);
  }

  /** "@file.txt" is one unquoted reference to "file.txt". */
  lemma UnquotedReference()
    ensures Matches("@file.txt") == [RefMatch(0, 9, "file.txt")]
  {
    var s := "@file.txt";
    FirstFromIs(s, 1, NotSpace, 1);
    FirstFromIs(s, 1, IsSpace, 9);
    assert s[1..9] == "file.txt";
    assert MatchAt(s, 0) == Some(RefMatch(0, 9, "file.txt"));
  }

  /** `@"my file"` is one quoted reference whose quotes are dropped. */
  lemma QuotedReference()
    ensures Matches("@\"my file\"") == [RefMatch(0, 10, "my file")]
  {
    var t := "@\"my file\"";
    FirstFromIs(t, 1, NotSpace, 1);
    FirstFromIs(t, 2, IsDouble, 9);
    assert t[2..9] == "my file";
    assert MatchAt(t, 0) == Some(RefMatch(0, 10, "my file"));
  }

  // ---------------------------------------------------------------------
  // The line that returns an undefined name
  // ---------------------------------------------------------------------

  /** What a call of the function as written yields: a value, or the
      exception its last line raises. */
  datatype AsWritten = Returned(value: Parsed) | Raised(exception: string)

  /** `parse_input_for_context` as written: its last line names
      `processed_paths_info`, which is never defined, so every input with a
      reference raises `NameError`. */
  function ParseAsWritten(input: string, resolve: string -> Outcome): (r: AsWritten)
    ensures r.Raised? <==> ParseSpec(input, resolve).details != []
    ensures r.Returned? ==> r.value == ParseSpec(input, resolve)
  {
    if Matches(input) == [] then Returned(Parsed("", input, [], []))
    else Raised("NameError: name 'processed_paths_info' is not defined")
  }

  /** "@file.txt" shows it: as written the call raises, while the corrected
      function returns the one info record. */
  lemma UndefinedNameRaises(resolve: string -> Outcome)
    ensures ParseAsWritten("@file.txt", resolve).Raised?
    ensures |ParseSpec("@file.txt", resolve).details| == 1
  {
    UnquotedReference();
  }

  // ---------------------------------------------------------------------
  // The legacy lexical screen
  // ---------------------------------------------------------------------

  /** The first checks of the legacy `process_context_path`: no `normpath`
      before the ".." test, and containment measured against the configured
      root as given rather than its real path. `Some(target)` is a path let
      through to the existence check. */
  function LegacyScreen(env: Env, path: string): (r: Outcome)
    ensures r.info.status == Error && r.context == ""
    ensures r.error.None? ==> (r.info.resolved.Some?
      && ContextProcessing.Inside(r.info.resolved.value, env.root))
    ensures r.error == Some(Forbidden(path)) <==>
      env.root != "" && (IsAbs(ContextProcessing.Clean(path)) || HasParentRef(ContextProcessing.Clean(path)))
  {
    var clean := ContextProcessing.Clean(path);
    if env.root == "" then Fail(path, None, NotConfigured)
    else if IsAbs(clean) || HasParentRef(clean) then Fail(path, None, Forbidden(path))
    else
      var target := env.realpath(PathJoin(env.root, clean));
      if !ContextProcessing.Inside(target, env.root) then Fail(path, Some(target), OutsideRoot(path))
      else Outcome("", None, Info(path, Some(target), Error, None, false))
  }

  /** The legacy screen is at least as strict as the current one: whatever
      the current lexical check refuses, the legacy one refuses too. */
  lemma LegacyAtLeastAsStrict(env: Env, lim: Limits, path: string)
    requires Resolve(env, lim, path).error == Some(Forbidden(path))
    ensures LegacyScreen(env, path).error == Some(Forbidden(path))
  {
    var clean := ContextProcessing.Clean(path);
    NormpathKeepsAbsolute(clean);
    if HasParentRef(Normpath(clean)) {
      NormpathParentFromInput(clean);
    }
  }

  function Resolve(env: Env, lim: Limits, path: string): Outcome {
    ContextProcessing.Resolve(env, lim, path)
  }

  /** ... and strictly so: "a/../b" is refused by the legacy screen and
      accepted by the current one. */
  lemma LegacyRefusesCollapsedParent(env: Env, lim: Limits)
    requires env.root != ""
    ensures LegacyScreen(env, "a/../b").error == Some(Forbidden("a/../b"))
    ensures Resolve(env, lim, "a/../b").error != Some(Forbidden("a/../b"))
  {
    ContextProcessing.ParentCollapsedIsAccepted(env, lim);
    SplitCollapsed();
  }
}
