/**
  The lexical path operations of Python's `posixpath` that the sandbox uses:
  `str.split('/')`, `normpath`, `isabs`, `join`, `relpath` and `split`, all on
  '/'-separated strings.
 */
module PathLex {
  import opened Strings

  /** `s.split(sep)` for a one-character separator, one character at a time. */
  function SplitOn(s: string, sep: char): (parts: seq<string>)
    ensures |parts| >= 1
    ensures forall k :: 0 <= k < |parts| ==> sep !in parts[k]
    ensures Join(parts, [sep]) == s
    decreases |s|
  {
    if s == [] then [""]
    else
      var rest := SplitOn(s[1..], sep);
      if s[0] == sep then
        assert ([""] + rest)[1..] == rest;
        [""] + rest
      else
        var parts := [[s[0]] + rest[0]] + rest[1..];
        assert |rest| > 1 ==> parts[1..] == rest[1..] && Join(rest, [sep]) == rest[0] + [sep] + Join(rest[1..], [sep]);
        assert s == [s[0]] + s[1..];
        parts
  }

  /** Splitting at a separator splits both sides independently. */
  lemma {:induction false} SplitConcat(a: string, b: string, sep: char)
    ensures SplitOn(a + [sep] + b, sep) == SplitOn(a, sep) + SplitOn(b, sep)
    decreases |a|
  {
    var s := a + [sep] + b;
    if a == [] {
      assert s == [sep] + b && s[1..] == b;
    } else {
      assert s[0] == a[0] && s[1..] == a[1..] + [sep] + b;
      SplitConcat(a[1..], b, sep);
    }
  }

  /** Splitting undoes joining parts that hold no separator. */
  lemma {:induction false} SplitJoin(parts: seq<string>, sep: char)
    requires |parts| >= 1
    requires forall k :: 0 <= k < |parts| ==> sep !in parts[k]
    ensures SplitOn(Join(parts, [sep]), sep) == parts
    decreases |parts|
  {
    if |parts| > 1 {
      SplitJoin(parts[1..], sep);
      SplitConcat(parts[0], Join(parts[1..], [sep]), sep);
      assert parts == [parts[0]] + parts[1..];
    }
  }

  lemma {:induction false} JoinAppend(a: seq<string>, b: seq<string>, sep: string)
    requires a != [] && b != []
    ensures Join(a + b, sep) == Join(a, sep) + sep + Join(b, sep)
    decreases |a|
  {
    if |a| > 1 {
      assert (a + b)[1..] == a[1..] + b;
      JoinAppend(a[1..], b, sep);
    } else {
      assert (a + b)[1..] == b;
    }
  }

  /** `os.path.isabs`: a POSIX path is absolute when it starts with '/'. */
  predicate IsAbs(p: string) {
    StartsWith(p, "/")
  }

  /** `".." in p.split('/')` */
  predicate HasParentRef(p: string) {
    ".." in SplitOn(p, '/')
  }

  /** One step of `normpath`'s loop over the components. */
  function NormStep(acc: seq<string>, c: string, absolute: bool): seq<string> {
    if c == "" || c == "." then acc
    else if c != ".." || (!absolute && acc == []) || (acc != [] && acc[|acc| - 1] == "..") then acc + [c]
    else if acc != [] then acc[..|acc| - 1]
    else acc
  }

  /** `normpath`'s loop over the components, continuing from `acc`. */
  function NormComps(comps: seq<string>, absolute: bool, acc: seq<string>): seq<string>
    decreases |comps|
  {
    if comps == [] then acc else NormComps(comps[1..], absolute, NormStep(acc, comps[0], absolute))
  }

  /** Python keeps two leading slashes, and folds one or three or more into one. */
  function LeadingSlashes(p: string): nat {
    if !StartsWith(p, "/") then 0
    else if StartsWith(p, "//") && !StartsWith(p, "///") then 2
    else 1
  }

  /** `os.path.normpath` on POSIX. */
  function Normpath(p: string): string {
    if p == "" then "."
    else
      var slashes := LeadingSlashes(p);
      var body := Join(NormComps(SplitOn(p, '/'), slashes > 0, []), "/");
      var r := (if slashes == 0 then "" else if slashes == 1 then "/" else "//") + body;
      if r == "" then "." else r
  }

  /** `os.path.join(a, b)` */
  function PathJoin(a: string, b: string): (r: string)
    ensures IsAbs(b) ==> r == b
    ensures !IsAbs(b) ==> |r| >= |a| + |b| && r[..|a|] == a && r[|r| - |b|..] == b
    ensures !IsAbs(b) && a != "" && a[|a| - 1] != '/' ==> r == a + "/" + b
  {
    if IsAbs(b) then b
    else if a == "" || a[|a| - 1] == '/' then a + b
    else a + "/" + b
  }

  /** The components `normpath` keeps when there is no ".." to resolve. */
  function Kept(comps: seq<string>): seq<string>
    decreases |comps|
  {
    if comps == [] then []
    else if comps[0] == "" || comps[0] == "." then Kept(comps[1..])
    else [comps[0]] + Kept(comps[1..])
  }

  lemma {:induction false} NormCompsAppend(a: seq<string>, b: seq<string>, absolute: bool, acc: seq<string>)
    ensures NormComps(a + b, absolute, acc) == NormComps(b, absolute, NormComps(a, absolute, acc))
    decreases |a|
  {
    if a == [] {
      assert a + b == b;
    } else {
      assert (a + b)[0] == a[0] && (a + b)[1..] == a[1..] + b;
      NormCompsAppend(a[1..], b, absolute, NormStep(acc, a[0], absolute));
    }
  }

  /** Without "..", `normpath` only drops empty and "." components. */
  lemma {:induction false} NormCompsNoParent(comps: seq<string>, absolute: bool, acc: seq<string>)
    requires ".." !in comps
    ensures NormComps(comps, absolute, acc) == acc + Kept(comps)
    decreases |comps|
  {
    if comps != [] {
      assert comps[0] != ".." && ".." !in comps[1..];
      NormCompsNoParent(comps[1..], absolute, NormStep(acc, comps[0], absolute));
      assert acc + [comps[0]] + Kept(comps[1..]) == acc + ([comps[0]] + Kept(comps[1..]));
    }
  }

  /** Every component `normpath` keeps was in the accumulator or the input. */
  lemma {:induction false} NormCompsFrom(comps: seq<string>, absolute: bool, acc: seq<string>, x: string)
    requires x in NormComps(comps, absolute, acc)
    ensures x in acc || x in comps
    decreases |comps|
  {
    if comps != [] {
      var next := NormStep(acc, comps[0], absolute);
      NormCompsFrom(comps[1..], absolute, next, x);
      if x in next && x !in acc {
        assert x == comps[0];
      }
    }
  }

  /** `normpath` never keeps an empty component. */
  lemma {:induction false} NormCompsNonEmpty(comps: seq<string>, absolute: bool, acc: seq<string>)
    requires forall k :: 0 <= k < |acc| ==> acc[k] != ""
    ensures forall k :: 0 <= k < |NormComps(comps, absolute, acc)| ==> NormComps(comps, absolute, acc)[k] != ""
    decreases |comps|
  {
    if comps != [] {
      NormCompsNonEmpty(comps[1..], absolute, NormStep(acc, comps[0], absolute));
    }
  }

  lemma {:induction false} NormCompsNoSlash(comps: seq<string>, absolute: bool, acc: seq<string>)
    requires forall k :: 0 <= k < |acc| ==> '/' !in acc[k]
    requires forall k :: 0 <= k < |comps| ==> '/' !in comps[k]
    ensures forall k :: 0 <= k < |NormComps(comps, absolute, acc)| ==> '/' !in NormComps(comps, absolute, acc)[k]
    decreases |comps|
  {
    if comps != [] {
      NormCompsNoSlash(comps[1..], absolute, NormStep(acc, comps[0], absolute));
    }
  }

  lemma {:induction false} JoinStartsWithFirst(parts: seq<string>, sep: string)
    requires parts != []
    ensures StartsWith(Join(parts, sep), parts[0])
    decreases |parts|
  {
  }

  /** `normpath` leaves a path absolute exactly when it was absolute. */
  lemma NormpathKeepsAbsolute(p: string)
    ensures IsAbs(Normpath(p)) <==> IsAbs(p)
  {
    if p != "" && LeadingSlashes(p) == 0 {
      var comps := NormComps(SplitOn(p, '/'), false, []);
      NormCompsNonEmpty(SplitOn(p, '/'), false, []);
      NormCompsNoSlash(SplitOn(p, '/'), false, []);
      var body := Join(comps, "/");
      assert Normpath(p) == body || Normpath(p) == ".";
      if comps != [] {
        JoinStartsWithFirst(comps, "/");
        assert body[..|comps[0]|] == comps[0];
        assert body[0] == comps[0][0];
        assert comps[0][0] in comps[0];
      }
    } else if p != "" {
      var body := Join(NormComps(SplitOn(p, '/'), true, []), "/");
      var prefix := if LeadingSlashes(p) == 1 then "/" else "//";
      assert Normpath(p) == prefix + body;
      assert (prefix + body)[..1] == "/";
    } else {
      assert Normpath(p)[..1] == ".";
    }
  }

  /** A ".." that survives `normpath` was already a component of the input. */
  lemma NormpathParentFromInput(p: string)
    requires HasParentRef(Normpath(p))
    ensures ".." in SplitOn(p, '/')
  {
    if p != "" {
      var slashes := LeadingSlashes(p);
      var comps := NormComps(SplitOn(p, '/'), slashes > 0, []);
      NormCompsNoSlash(SplitOn(p, '/'), slashes > 0, []);
      var body := Join(comps, "/");
      var prefix := if slashes == 0 then "" else if slashes == 1 then "/" else "//";
      var r := prefix + body;
      if r != "" && comps != [] {
        SplitJoin(comps, '/');
        var parts := SplitOn(r, '/');
        if slashes == 0 {
          assert r == body;
        } else if slashes == 1 {
          assert r == "" + "/" + body;
          SplitConcat("", body, '/');
        } else {
          assert r == "" + "/" + ("" + "/" + body);
          SplitConcat("", "" + "/" + body, '/');
          SplitConcat("", body, '/');
        }
        assert ".." in comps;
        NormCompsFrom(SplitOn(p, '/'), slashes > 0, [], "..");
      } else if r != "" {
        assert body == "";
        assert slashes == 1 ==> r == "" + "/" + "";
        assert slashes == 2 ==> r == "" + "/" + ("" + "/" + "");
        if slashes == 1 {
          SplitConcat("", "", '/');
        } else if slashes == 2 {
          SplitConcat("", "" + "/" + "", '/');
          SplitConcat("", "", '/');
        }
      }
    }
  }

  /** The shape of `normpath` on a path with exactly one leading slash. */
  lemma NormpathOneSlash(p: string)
    requires LeadingSlashes(p) == 1
    ensures Normpath(p) == "/" + Join(NormComps(SplitOn(p, '/'), true, []), "/")
  {
  }

  lemma JoinedPathOneSlash(root: string, n: string)
    requires IsAbs(root) && !StartsWith(root, "//") && root[|root| - 1] != '/'
    ensures LeadingSlashes(root) == 1 && LeadingSlashes(root + "/" + n) == 1
  {
    var j := root + "/" + n;
    assert root[..1] == "/";
    assert |root| >= 2;
    assert root[..2] != "//";
    assert j[..1] == root[..1] && j[..2] == root[..2];
  }

  lemma JoinedComps(root: string, n: string)
    requires !HasParentRef(n)
    ensures NormComps(SplitOn(root + "/" + n, '/'), true, [])
      == NormComps(SplitOn(root, '/'), true, []) + Kept(SplitOn(n, '/'))
  {
    SplitConcat(root, n, '/');
    var rc := NormComps(SplitOn(root, '/'), true, []);
    NormCompsAppend(SplitOn(root, '/'), SplitOn(n, '/'), true, []);
    NormCompsNoParent(SplitOn(n, '/'), true, rc);
  }

  /** The lexical half of the sandbox: a relative path with no ".." component,
      joined onto an absolute directory, normalises to that directory or to a
      path below it. */
  lemma JoinedStaysInside(root: string, n: string)
    requires IsAbs(root) && !StartsWith(root, "//") && root[|root| - 1] != '/'
    requires Normpath(root) != "/"
    requires !IsAbs(n) && !HasParentRef(n)
    ensures var j := Normpath(PathJoin(root, n));
      j == Normpath(root) || StartsWith(j, Normpath(root) + "/")
  {
    assert PathJoin(root, n) == root + "/" + n;
    JoinedBelowRoot(root, n);
  }

  /** The same, for the joined string itself. */
  lemma JoinedBelowRoot(root: string, n: string)
    requires IsAbs(root) && !StartsWith(root, "//") && root[|root| - 1] != '/'
    requires Normpath(root) != "/"
    requires !IsAbs(n) && !HasParentRef(n)
    ensures var j := Normpath(root + "/" + n);
      j == Normpath(root) || StartsWith(j, Normpath(root) + "/")
  {
    var j := root + "/" + n;
    JoinedPathOneSlash(root, n);
    NormpathOneSlash(root);
    NormpathOneSlash(j);
    var rc := NormComps(SplitOn(root, '/'), true, []);
    var kept := Kept(SplitOn(n, '/'));
    JoinedComps(root, n);
    assert rc != [];
    JoinPrefixed(rc, kept);
  }

  /** Joining more components onto a non-empty list extends its path by a
      separator and the rest, or leaves it as it is. */
  lemma JoinPrefixed(rc: seq<string>, kept: seq<string>)
    requires rc != []
    ensures var j := "/" + Join(rc + kept, "/");
      j == "/" + Join(rc, "/") || StartsWith(j, "/" + Join(rc, "/") + "/")
  {
    if kept == [] {
      assert rc + kept == rc;
    } else {
      JoinAppend(rc, kept, "/");
      assert "/" + Join(rc + kept, "/") == ("/" + Join(rc, "/") + "/") + Join(kept, "/");
    }
  }

  /** "a/../b" has the three components "a", ".." and "b". */
  lemma SplitCollapsed()
    ensures SplitOn("a/../b", '/') == ["a", "..", "b"]
  {
    assert "a/../b" == "a" + ['/'] + ("..") + ['/'] + "b";
    SplitConcat("a", ".." + ['/'] + "b", '/');
    SplitConcat("..", "b", '/');
  }

  /** The path `normpath` makes of "a/../b" is "b". */
  lemma NormpathCollapsesParent()
    ensures Normpath("a/../b") == "b"
  {
    var p := "a/../b";
    SplitCollapsed();
    assert p[..1] != "/";
    NormpathRelative(p);
    CollapsedComps();
    assert Join(["b"], "/") == "b";
  }

  lemma CollapsedComps()
    ensures NormComps(["a", "..", "b"], false, []) == ["b"]
  {
    assert NormStep([], "a", false) == ["a"];
    assert NormStep(["a"], "..", false) == [];
    assert NormStep([], "b", false) == ["b"];
  }

  /** `normpath` of a non-empty relative path is the join of its
      normalised components, or "." when there are none. */
  lemma NormpathRelative(p: string)
    requires p != "" && !StartsWith(p, "/")
    ensures var body := Join(NormComps(SplitOn(p, '/'), false, []), "/");
      Normpath(p) == if body == "" then "." else body
  {
  }

  /** The components of an absolute path without the empty ones, as
      `relpath` computes them from `abspath`. */
  function Components(p: string): seq<string> {
    NonEmpty(SplitOn(Normpath(p), '/'))
  }

  function NonEmpty(parts: seq<string>): seq<string>
    decreases |parts|
  {
    if parts == [] then []
    else if parts[0] == "" then NonEmpty(parts[1..])
    else [parts[0]] + NonEmpty(parts[1..])
  }

  /** The length of the longest common prefix of two component lists. */
  function CommonPrefix(a: seq<string>, b: seq<string>): (n: nat)
    ensures n <= |a| && n <= |b| && a[..n] == b[..n]
    ensures n < |a| && n < |b| ==> a[n] != b[n]
    decreases |a|
  {
    if a == [] || b == [] || a[0] != b[0] then 0
    else
      var n := 1 + CommonPrefix(a[1..], b[1..]);
      assert a[..n] == [a[0]] + a[1..][..n - 1];
      assert b[..n] == [b[0]] + b[1..][..n - 1];
      n
  }

  function Parents(n: nat): seq<string>
    decreases n
  {
    if n == 0 then [] else [".."] + Parents(n - 1)
  }

  /** `os.path.relpath(path, start)` for absolute `path` and `start`
      (`abspath` of an absolute path is its `normpath`). */
  function RelPath(path: string, start: string): string {
    var s := Components(start);
    var p := Components(path);
    var i := CommonPrefix(s, p);
    var rel := Parents(|s| - i) + p[i..];
    if rel == [] then "." else Join(rel, "/")
  }

  /** `relpath` of a path below `start` is its components after those of
      `start`, joined by '/'. */
  lemma RelPathBelow(path: string, start: string)
    requires var s := Components(start); var p := Components(path);
      |s| < |p| && p[..|s|] == s
    ensures RelPath(path, start) == Join(Components(path)[|Components(start)|..], "/")
  {
    var s := Components(start);
    var p := Components(path);
    var i := CommonPrefix(s, p);
    assert forall k :: 0 <= k < |s| ==> s[k] == p[k];
    assert i == |s|;
    assert Parents(|s| - i) + p[i..] == p[|s|..];
    assert p[|s|..] != [];
  }

  /** `relpath` of a path to itself, or to any path with the same
      components, is ".". */
  lemma RelPathSame(path: string, start: string)
    requires Components(path) == Components(start)
    ensures RelPath(path, start) == "."
  {
    var s := Components(start);
    assert CommonPrefix(s, s) == |s|;
    assert Parents(0) == [];
  }

  /** The last index of `c` in `s`, or -1. */
  function LastIndexOf(s: string, c: char): (i: int)
    ensures -1 <= i < |s|
    ensures i >= 0 ==> s[i] == c
    ensures forall k :: i < k < |s| ==> s[k] != c
    decreases |s|
  {
    if s == [] then -1
    else if s[|s| - 1] == c then |s| - 1
    else LastIndexOf(s[..|s| - 1], c)
  }

  /** `os.path.split(p)`: the head (without trailing slashes unless it is all
      slashes) and the last component. */
  predicate IsSlash(c: char) {
    c == '/'
  }

  function PathSplit(p: string): (r: (string, string))
    ensures '/' !in r.1 && |r.1| <= |p| && p[|p| - |r.1|..] == r.1
    ensures |r.0| <= |p| && p[..|r.0|] == r.0
  {
    var i := LastIndexOf(p, '/') + 1;
    var head := p[..i];
    var tail := p[i..];
    var allSlashes := forall k :: 0 <= k < |head| ==> head[k] == '/';
    var trimmed := TrimRight(head, IsSlash);
    assert p[..|trimmed|] == trimmed;
    (if head != "" && !allSlashes then trimmed else head, tail)
  }

  lemma {:induction false} JoinEndsWithLast(parts: seq<string>, sep: string)
    requires parts != []
    ensures var j := Join(parts, sep); var l := parts[|parts| - 1];
      |l| <= |j| && j[|j| - |l|..] == l
    decreases |parts|
  {
    if |parts| > 1 {
      JoinEndsWithLast(parts[1..], sep);
      assert parts[1..][|parts| - 2] == parts[|parts| - 1];
    }
  }

  /** The last '/' of `h + "/" + last`, when `last` has none, is the one
      between them. */
  lemma {:induction false} LastSlash(h: string, last: string)
    requires '/' !in last
    ensures LastIndexOf(h + "/" + last, '/') == |h|
    decreases |last|
  {
    var n := h + "/" + last;
    if last != [] {
      var shorter := last[..|last| - 1];
      assert n[|n| - 1] == last[|last| - 1];
      assert n[..|n| - 1] == h + "/" + shorter;
      LastSlash(h, shorter);
    }
  }

  /** Stripping the trailing '/' of `h + "/"` gives `h` back when `h` does not
      end in '/'. */
  lemma TrimOneSlash(h: string)
    requires h != "" && h[|h| - 1] != '/'
    ensures TrimRight(h + "/", IsSlash) == h
  {
    var head := h + "/";
    var r := TrimRight(head, IsSlash);
    assert head[|h| - 1] == h[|h| - 1];
    assert head[|head| - 1] == '/';
    assert |r| == |h|;
    assert r == head[..|h|];
  }

  /** `os.path.split(h + "/" + last)` is `(h, last)` when `h` is non-empty and
      does not end in '/' and `last` holds no '/'. */
  lemma PathSplitAt(h: string, last: string)
    requires h != "" && h[|h| - 1] != '/' && '/' !in last
    ensures PathSplit(h + "/" + last) == (h, last)
  {
    var n := h + "/" + last;
    LastSlash(h, last);
    assert n[..|h| + 1] == h + "/";
    assert n[|h| + 1..] == last;
    TrimOneSlash(h);
    assert (h + "/")[|h| - 1] != '/';
  }

  /** Components joined by '/' are the join of all but the last, a '/', and
      the last, and the first part does not end in '/'. */
  lemma JoinedLast(comps: seq<string>)
    requires |comps| >= 2
    requires forall k :: 0 <= k < |comps| ==> comps[k] != "" && '/' !in comps[k]
    ensures var h := Join(comps[..|comps| - 1], "/");
      && Join(comps, "/") == h + "/" + comps[|comps| - 1]
      && h != "" && h[|h| - 1] != '/'
  {
    var init := comps[..|comps| - 1];
    var last := comps[|comps| - 1];
    assert comps == init + [last];
    JoinAppend(init, [last], "/");
    assert Join([last], "/") == last;
    assert init[|init| - 1] == comps[|comps| - 2];
    JoinLastChar(init);
  }

  /** `os.path.split` of non-empty, '/'-free components joined by '/' gives
      back the last one and the join of the others. */
  lemma PathSplitJoined(comps: seq<string>)
    requires |comps| >= 2
    requires forall k :: 0 <= k < |comps| ==> comps[k] != "" && '/' !in comps[k]
    ensures PathSplit(Join(comps, "/")) == (Join(comps[..|comps| - 1], "/"), comps[|comps| - 1])
  {
    JoinedLast(comps);
    PathSplitAt(Join(comps[..|comps| - 1], "/"), comps[|comps| - 1]);
  }

  lemma JoinLastChar(parts: seq<string>)
    requires parts != [] && parts[|parts| - 1] != "" && '/' !in parts[|parts| - 1]
    ensures var h := Join(parts, "/"); h != "" && h[|h| - 1] != '/'
  {
    JoinEndsWithLast(parts, "/");
    var h := Join(parts, "/");
    var l := parts[|parts| - 1];
    assert h[|h| - 1] == l[|l| - 1];
    assert l[|l| - 1] in l;
  }

  /** A normalised relative path with a '/' is its `os.path.split` head, a
      '/', and its tail. */
  lemma NormpathRelativeSplit(p: string)
    requires !IsAbs(Normpath(p)) && '/' in Normpath(p)
    ensures Normpath(p) == PathSplit(Normpath(p)).0 + "/" + PathSplit(Normpath(p)).1
  {
    NormpathKeepsAbsolute(p);
    var comps := NormComps(SplitOn(p, '/'), false, []);
    NormCompsNonEmpty(SplitOn(p, '/'), false, []);
    NormCompsNoSlash(SplitOn(p, '/'), false, []);
    RelativeNormpath(p);
    JoinedLast(comps);
    PathSplitJoined(comps);
  }

  lemma RelativeNormpath(p: string)
    requires !IsAbs(p) && '/' in Normpath(p)
    ensures Normpath(p) == Join(NormComps(SplitOn(p, '/'), false, []), "/")
    ensures |NormComps(SplitOn(p, '/'), false, [])| >= 2
  {
    var comps := NormComps(SplitOn(p, '/'), false, []);
    assert LeadingSlashes(p) == 0;
    assert p != "";
    NormCompsNoSlash(SplitOn(p, '/'), false, []);
    if |comps| == 1 {
      assert Join(comps, "/") == comps[0];
    }
  }
}
