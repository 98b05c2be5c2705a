/**
  Resolving a user-supplied location to an absolute path (src/getPathname.mjs).

  The input is trimmed of white space and classified by its first character:
  `~` (below the home directory), `/` (absolute, below the root of the
  current directory), or anything else (relative to the current directory,
  after an optional leading `./`). The rest is split on `/` with empty
  segments dropped, and the segments are joined onto the base with
  `path.join`. The home directory and the current directory are parameters;
  `path.join` and `path.parse(...).root` are modelled after Node's POSIX
  implementation, at the level of path segments.
*/
module Pathname {

  import opened Wrappers

  // ---------------------------------------------------------------------------
  // String.prototype.trim

  /** The characters `String.prototype.trim` removes: ECMAScript white space and line terminators. */
  predicate IsJsSpace(c: char)
  {
    || c == ' ' || c == '\t' || c == '\n' || c == '\r'
    || c == '\U{000B}' || c == '\U{000C}' || c == '\U{00A0}' || c == '\U{1680}'
    || ('\U{2000}' <= c <= '\U{200A}')
    || c == '\U{2028}' || c == '\U{2029}' || c == '\U{202F}' || c == '\U{205F}'
    || c == '\U{3000}' || c == '\U{FEFF}'
  }

  function TrimStart(s: string): (r: string)
    ensures |r| <= |s| && r == s[|s| - |r|..]
    ensures r == [] || !IsJsSpace(r[0])
    ensures forall i :: 0 <= i < |s| - |r| ==> IsJsSpace(s[i])
  {
    if s == [] || !IsJsSpace(s[0]) then s else TrimStart(s[1..])
  }

  function TrimEnd(s: string): (r: string)
    ensures |r| <= |s| && r == s[..|r|]
    ensures r == [] || !IsJsSpace(r[|r| - 1])
    ensures forall i :: |r| <= i < |s| ==> IsJsSpace(s[i])
  {
    if s == [] || !IsJsSpace(s[|s| - 1]) then s else TrimEnd(s[..|s| - 1])
  }

  /** `String.prototype.trim`. */
  function JsTrim(s: string): string
  {
    TrimEnd(TrimStart(s))
  }

  /** A string that neither starts nor ends with white space is its own trim. */
  lemma JsTrimKeeps(s: string)
    requires s != [] && !IsJsSpace(s[0]) && !IsJsSpace(s[|s| - 1])
    ensures JsTrim(s) == s
  {
  }

  /** A string of white space only trims to the empty string. */
  lemma JsTrimAllSpace(s: string)
    requires forall i :: 0 <= i < |s| ==> IsJsSpace(s[i])
    ensures JsTrim(s) == ""
  {
  }

  // ---------------------------------------------------------------------------
  // trim, split('/') and generateNameList

  /** The module's `trim` (line 5): removes one trailing `/`. */
  function DropTrailingSlash(s: string): (r: string)
    ensures r <= s && |s| - |r| <= 1
    ensures |r| < |s| <==> (s != [] && s[|s| - 1] == '/')
  {
    if s != [] && s[|s| - 1] == '/' then s[..|s| - 1] else s
  }

  /** `s.split('/')`: the pieces between the slashes, empty ones included; never empty. */
  function Split(s: string): (r: seq<string>)
    ensures |r| >= 1
    ensures forall i :: 0 <= i < |r| ==> '/' !in r[i]
  {
    if s == [] then [""]
    else
      var rest := Split(s[1..]);
      if s[0] == '/' then [""] + rest else [[s[0]] + rest[0]] + rest[1..]
  }

  /** `.filter((s) => s !== '')`. */
  function NonEmpty(segs: seq<string>): (r: seq<string>)
    ensures forall i :: 0 <= i < |r| ==> r[i] != "" && r[i] in segs
  {
    if segs == [] then []
    else if segs[0] == "" then NonEmpty(segs[1..])
    else [segs[0]] + NonEmpty(segs[1..])
  }

  /** `generateNameList` (line 7): the non-empty pieces between slashes, in order. */
  function NameList(s: string): (r: seq<string>)
    ensures forall i :: 0 <= i < |r| ==> r[i] != "" && '/' !in r[i]
  {
    NonEmpty(Split(s))
  }

  /** `segs.join('/')`. */
  function JoinSlash(segs: seq<string>): string
  {
    if segs == [] then ""
    else if |segs| == 1 then segs[0]
    else segs[0] + "/" + JoinSlash(segs[1..])
  }

  /** Splitting at a slash: the pieces of `a` followed by the pieces of `b`. */
  lemma {:induction false} SplitAtSlash(a: string, b: string)
    ensures Split(a + "/" + b) == Split(a) + Split(b)
    decreases |a|
  {
    if a == [] {
      assert a + "/" + b == "/" + b;
      assert ("/" + b)[1..] == b;
    } else {
      assert (a + "/" + b)[0] == a[0];
      assert (a + "/" + b)[1..] == a[1..] + "/" + b;
      SplitAtSlash(a[1..], b);
    }
  }

  /** A string without slashes is one piece. */
  lemma {:induction false} SplitNoSlash(a: string)
    requires '/' !in a
    ensures Split(a) == [a]
    decreases |a|
  {
    if a != [] {
      assert '/' !in a[1..] by {
        forall i | 0 <= i < |a[1..]| ensures a[1..][i] != '/' {
          assert a[1..][i] == a[i + 1];
        }
      }
      SplitNoSlash(a[1..]);
      assert a[0] != '/' by { assert a[0] in a; }
      assert [a[0]] + a[1..] == a;
    }
  }

  lemma {:induction false} NonEmptyAppend(x: seq<string>, y: seq<string>)
    ensures NonEmpty(x + y) == NonEmpty(x) + NonEmpty(y)
    decreases |x|
  {
    if x != [] {
      assert (x + y)[0] == x[0] && (x + y)[1..] == x[1..] + y;
      NonEmptyAppend(x[1..], y);
    } else {
      assert x + y == y;
    }
  }

  /** Segments that are all non-empty pass the filter unchanged. */
  lemma {:induction false} NonEmptyKeeps(segs: seq<string>)
    requires forall i :: 0 <= i < |segs| ==> segs[i] != ""
    ensures NonEmpty(segs) == segs
    decreases |segs|
  {
    if segs != [] {
      NonEmptyKeeps(segs[1..]);
    }
  }

  /** A slash at the end does not change the name list. */
  lemma NameListTrailingSlash(s: string)
    ensures NameList(s + "/") == NameList(s)
  {
    assert s + "/" == s + "/" + "";
    SplitAtSlash(s, "");
    NonEmptyAppend(Split(s), [""]);
  }

  /** So the module's `trim` never changes the name list: the filter already drops the empty last piece. */
  lemma NameListIgnoresTrailingSlash(s: string)
    ensures NameList(DropTrailingSlash(s)) == NameList(s)
  {
    if s != [] && s[|s| - 1] == '/' {
      assert s == s[..|s| - 1] + "/";
      NameListTrailingSlash(s[..|s| - 1]);
    }
  }

  /** A repeated slash counts as one. */
  lemma NameListRepeatedSlash(a: string, b: string)
    ensures NameList(a + "//" + b) == NameList(a + "/" + b)
  {
    assert a + "//" + b == a + "/" + ("/" + b);
    SplitAtSlash(a, "/" + b);
    SplitAtSlash(a, b);
    assert "/" + b == "" + "/" + b;
    SplitAtSlash("", b);
    NonEmptyAppend(Split(a), Split("/" + b));
    NonEmptyAppend(Split(a), Split(b));
    NonEmptyAppend([""], Split(b));
  }

  /** A leading slash does not change the name list. */
  lemma NameListLeadingSlash(b: string)
    ensures NameList("/" + b) == NameList(b)
  {
    assert "/" + b == "" + "/" + b;
    SplitAtSlash("", b);
    NonEmptyAppend([""], Split(b));
  }

  /** A name, as it can occur between slashes. */
  predicate IsName(n: string)
  {
    n != "" && '/' !in n
  }

  predicate AllNames(names: seq<string>)
  {
    forall i :: 0 <= i < |names| ==> IsName(names[i])
  }

  lemma {:induction false} JoinSlashAppend(x: seq<string>, y: seq<string>)
    requires x != [] && y != []
    ensures JoinSlash(x + y) == JoinSlash(x) + "/" + JoinSlash(y)
    decreases |x|
  {
    if |x| == 1 {
      assert (x + y)[1..] == y;
    } else {
      assert (x + y)[1..] == x[1..] + y;
      JoinSlashAppend(x[1..], y);
    }
  }

  /** Splitting names joined with `/` gives the names back. */
  lemma {:induction false} SplitOfJoin(names: seq<string>)
    requires names != []
    requires AllNames(names)
    ensures Split(JoinSlash(names)) == names
    decreases |names|
  {
    SplitNoSlash(names[0]);
    if |names| > 1 {
      var rest := names[1..];
      SplitOfJoin(rest);
      assert JoinSlash(names) == names[0] + "/" + JoinSlash(rest);
      SplitAtSlash(names[0], JoinSlash(rest));
      assert [names[0]] + rest == names;
    }
  }

  /** Round trip: joining names with `/` and taking the name list gives the names back. */
  lemma NameListOfJoin(names: seq<string>)
    requires AllNames(names)
    ensures NameList(JoinSlash(names)) == names
  {
    if names != [] {
      SplitOfJoin(names);
      NonEmptyKeeps(names);
    }
  }

  // ---------------------------------------------------------------------------
  // path.join and path.parse(...).root, after Node's POSIX implementation

  /**
    `normalizeString`: walks the segments with a stack of kept names; empty
    segments and `.` are skipped, `..` removes the last kept name unless
    there is none or it is itself `..`, in which case it is kept only for a
    relative path (`allowAboveRoot`).
  */
  function Resolve(stack: seq<string>, segs: seq<string>, allowAboveRoot: bool): (r: seq<string>)
    decreases |segs|
  {
    if segs == [] then stack
    else
      var seg := segs[0];
      if seg == "" || seg == "." then Resolve(stack, segs[1..], allowAboveRoot)
      else if seg == ".." then
        if stack != [] && stack[|stack| - 1] != ".." then Resolve(stack[..|stack| - 1], segs[1..], allowAboveRoot)
        else if allowAboveRoot then Resolve(stack + [".."], segs[1..], allowAboveRoot)
        else Resolve(stack, segs[1..], allowAboveRoot)
      else Resolve(stack + [seg], segs[1..], allowAboveRoot)
  }

  /** `path.normalize`: never empty, absolute exactly when its input is. */
  function Normalize(p: string): (r: string)
    ensures r != ""
    ensures (r[0] == '/') <==> (p != "" && p[0] == '/')
  {
    if p == "" then "."
    else
      var isAbsolute := p[0] == '/';
      var trailingSeparator := p[|p| - 1] == '/';
      var body := JoinSlash(Resolve([], Split(p), !isAbsolute));
      if body == "" then
        (if isAbsolute then "/" else if trailingSeparator then "./" else ".")
      else
        assert body[0] != '/' by { ResolvedBodyIsRelative(Split(p), !isAbsolute); }
        (if isAbsolute then "/" else "") + body + (if trailingSeparator then "/" else "")
  }

  lemma ResolvedBodyIsRelative(segs: seq<string>, allowAboveRoot: bool)
    requires forall i :: 0 <= i < |segs| ==> '/' !in segs[i]
    ensures var body := JoinSlash(Resolve([], segs, allowAboveRoot)); body == "" || body[0] != '/'
  {
    var names := Resolve([], segs, allowAboveRoot);
    ResolveKeepsNames([], segs, allowAboveRoot);
    if names != [] {
      assert IsName(names[0]);
      JoinSlashStart(names);
    }
  }

  lemma {:induction false} ResolveKeepsNames(stack: seq<string>, segs: seq<string>, allowAboveRoot: bool)
    requires AllNames(stack)
    requires forall i :: 0 <= i < |segs| ==> '/' !in segs[i]
    ensures AllNames(Resolve(stack, segs, allowAboveRoot))
    decreases |segs|
  {
    if segs != [] {
      var seg := segs[0];
      assert forall i :: 0 <= i < |segs[1..]| ==> segs[1..][i] == segs[i + 1];
      if seg == "" || seg == "." {
        ResolveKeepsNames(stack, segs[1..], allowAboveRoot);
      } else if seg == ".." {
        if stack != [] && stack[|stack| - 1] != ".." {
          ResolveKeepsNames(stack[..|stack| - 1], segs[1..], allowAboveRoot);
        } else if allowAboveRoot {
          ResolveKeepsNames(stack + [".."], segs[1..], allowAboveRoot);
        } else {
          ResolveKeepsNames(stack, segs[1..], allowAboveRoot);
        }
      } else {
        ResolveKeepsNames(stack + [seg], segs[1..], allowAboveRoot);
      }
    }
  }

  /** Names joined with `/` start with the first name. */
  lemma JoinSlashStart(names: seq<string>)
    requires names != [] && names[0] != ""
    ensures JoinSlash(names) != "" && JoinSlash(names)[0] == names[0][0]
  {
  }

  /** `path.join(base, ...names)`: the non-empty arguments joined with `/`, then normalised; `.` if there are none. */
  function Join(base: string, names: seq<string>): (r: string)
    ensures r != ""
  {
    var joined := JoinSlash(NonEmpty([base] + names));
    if joined == "" then "." else Normalize(joined)
  }

  /** `path.parse(p).root` on POSIX: `/` for an absolute path, empty otherwise. */
  function Root(p: string): (r: string)
    ensures r == "/" || r == ""
    ensures r == "/" <==> (p != "" && p[0] == '/')
  {
    if p != "" && p[0] == '/' then "/" else ""
  }

  // ---------------------------------------------------------------------------
  // getPathname

  /**
    The module's default export (lines 9-39). `url` is `None` when the
    argument is not a string; `home` and `cwd` stand for `os.homedir()` and
    `process.cwd()`. The result is null exactly for a non-string and for the
    empty string; every other string is trimmed and located.
  */
  function GetPathname(url: Option<string>, home: string, cwd: string): (r: Option<string>)
    ensures r.None? <==> (url.None? || url.value == "")
  {
    match url
    case None => None
    case Some(u) => if u == "" then None else Some(Locate(JsTrim(u), home, cwd))
  }

  /** An absolute path: one that starts with `/`. */
  predicate IsAbsolute(p: string)
  {
    p != "" && p[0] == '/'
  }

  /** `path.join` onto an absolute base is absolute. */
  lemma JoinAbsolute(base: string, names: seq<string>)
    ensures IsAbsolute(base) ==> IsAbsolute(Join(base, names))
  {
    if !IsAbsolute(base) { return; }
    NonEmptyAppend([base], names);
    var segs := NonEmpty([base] + names);
    assert segs[0] == base;
    JoinSlashStart(segs);
  }

  /** Lines 14-38: a trimmed string, by its first character. */
  function Locate(str: string, home: string, cwd: string): string
  {
    if str != "" && str[0] == '~' then BelowHome(str[1..], home)
    else if str == "" || str[0] != '/' then BelowCwd(str, cwd)
    else BelowRoot(str, cwd)
  }

  /** Lines 15-20: the names after `~`, joined onto the home directory; the home directory itself if there are none. */
  function BelowHome(rest: string, home: string): (r: string)
    ensures NameList(rest) == [] ==> r == home
  {
    var names := NameList(DropTrailingSlash(rest));
    NameListIgnoresTrailingSlash(rest);
    if names == [] then home else Join(home, names)
  }

  /** Lines 21-32: the names of a relative path, after a leading `./`, joined onto the current directory. */
  function BelowCwd(str: string, cwd: string): string
  {
    var names :=
      if |str| >= 2 && str[..2] == "./" then NameList(DropTrailingSlash(str[2..]))
      else NameList(DropTrailingSlash(str));
    if names == [] then cwd else Join(cwd, names)
  }

  /** Lines 33-38: `/` is the root of the current directory; other absolute paths are joined onto that root. */
  function BelowRoot(str: string, cwd: string): string
    requires str != ""
  {
    if str == "/" then Root(cwd)
    else Join(Root(cwd), NameList(DropTrailingSlash(str[1..])))
  }

  /** With an absolute home and current directory, every branch yields an absolute path. */
  lemma LocateAbsolute(str: string, home: string, cwd: string)
    requires IsAbsolute(home) && IsAbsolute(cwd)
    ensures IsAbsolute(Locate(str, home, cwd))
  {
    if str != "" && str[0] == '~' {
      JoinAbsolute(home, NameList(DropTrailingSlash(str[1..])));
    } else if str == "" || str[0] != '/' {
      JoinAbsolute(cwd, NameList(DropTrailingSlash(str)));
      if |str| >= 2 && str[..2] == "./" {
        JoinAbsolute(cwd, NameList(DropTrailingSlash(str[2..])));
      }
    } else if str != "/" {
      JoinAbsolute(Root(cwd), NameList(DropTrailingSlash(str[1..])));
    }
  }

  // ---------------------------------------------------------------------------
  // Properties of path.join

  /** A name that `normalize` keeps as it is: not empty, no slash, neither `.` nor `..`. */
  predicate IsPlainName(n: string)
  {
    IsName(n) && n != "." && n != ".."
  }

  predicate AllPlain(names: seq<string>)
  {
    forall i :: 0 <= i < |names| ==> IsPlainName(names[i])
  }

  /** The normalised absolute path of `names`: `/` followed by the names joined with `/`. */
  function Render(names: seq<string>): string
  {
    "/" + JoinSlash(names)
  }

  lemma {:induction false} JoinSlashEnd(names: seq<string>)
    requires names != [] && AllNames(names)
    ensures var j := JoinSlash(names); var last := names[|names| - 1];
      j != "" && j[|j| - 1] == last[|last| - 1]
    decreases |names|
  {
    assert IsName(names[0]);
    if |names| > 1 {
      var rest := names[1..];
      assert AllNames(rest) by {
        forall i | 0 <= i < |rest| ensures IsName(rest[i]) {
          assert rest[i] == names[i + 1];
        }
      }
      JoinSlashEnd(rest);
      var j, tail := JoinSlash(names), JoinSlash(rest);
      assert j == names[0] + "/" + tail;
      assert j[|j| - 1] == tail[|tail| - 1];
      assert rest[|rest| - 1] == names[|names| - 1];
    }
  }

  /** Segments read one after the other: the stack after `xs` is where `ys` starts. */
  lemma {:induction false} ResolveAppend(stack: seq<string>, xs: seq<string>, ys: seq<string>, allowAboveRoot: bool)
    ensures Resolve(stack, xs + ys, allowAboveRoot) == Resolve(Resolve(stack, xs, allowAboveRoot), ys, allowAboveRoot)
    decreases |xs|
  {
    if xs == [] {
      assert xs + ys == ys;
    } else {
      assert (xs + ys)[0] == xs[0] && (xs + ys)[1..] == xs[1..] + ys;
      var seg := xs[0];
      if seg == "" || seg == "." {
        ResolveAppend(stack, xs[1..], ys, allowAboveRoot);
      } else if seg == ".." {
        if stack != [] && stack[|stack| - 1] != ".." {
          ResolveAppend(stack[..|stack| - 1], xs[1..], ys, allowAboveRoot);
        } else if allowAboveRoot {
          ResolveAppend(stack + [".."], xs[1..], ys, allowAboveRoot);
        } else {
          ResolveAppend(stack, xs[1..], ys, allowAboveRoot);
        }
      } else {
        ResolveAppend(stack + [seg], xs[1..], ys, allowAboveRoot);
      }
    }
  }

  /** Without `.` and `..`, normalising only drops the empty segments. */
  lemma {:induction false} ResolvePlain(stack: seq<string>, segs: seq<string>, allowAboveRoot: bool)
    requires forall i :: 0 <= i < |segs| ==> segs[i] == "" || IsPlainName(segs[i])
    ensures Resolve(stack, segs, allowAboveRoot) == stack + NonEmpty(segs)
    decreases |segs|
  {
    if segs != [] {
      assert forall i :: 0 <= i < |segs[1..]| ==> segs[1..][i] == segs[i + 1];
      if segs[0] == "" {
        ResolvePlain(stack, segs[1..], allowAboveRoot);
      } else {
        ResolvePlain(stack + [segs[0]], segs[1..], allowAboveRoot);
        assert stack + [segs[0]] + NonEmpty(segs[1..]) == stack + ([segs[0]] + NonEmpty(segs[1..]));
      }
    }
  }

  /** `normalize` of an absolute path that does not end with a slash: `/` and the resolved names. */
  lemma NormalizeAbsolute(q: string)
    requires q == "" || q[|q| - 1] != '/'
    ensures Normalize("/" + q) == "/" + JoinSlash(Resolve([], Split(q), false))
  {
    var p := "/" + q;
    assert p == "" + "/" + q;
    SplitAtSlash("", q);
    assert Split(p) == [""] + Split(q);
    assert ([""] + Split(q))[1..] == Split(q);
    assert Resolve([], Split(p), false) == Resolve([], Split(q), false);
    if q == "" {
      assert Resolve([], Split(q), false) == [];
    } else {
      assert p[|p| - 1] == q[|q| - 1];
    }
  }

  /** The pieces between the slashes of an absolute path's names, after the leading empty one. */
  lemma SplitOfRender(bs: seq<string>, tail: seq<string>)
    requires AllNames(bs) && AllNames(tail) && tail != []
    ensures Split(JoinSlash(bs) + "/" + JoinSlash(tail)) == (if bs == [] then [""] else bs) + tail
  {
    SplitAtSlash(JoinSlash(bs), JoinSlash(tail));
    SplitOfJoin(tail);
    if bs != [] {
      SplitOfJoin(bs);
    }
  }

  /** The string `path.join` hands to `normalize` for an absolute base and names. */
  lemma JoinedString(bs: seq<string>, tail: seq<string>)
    requires AllNames(tail) && tail != []
    ensures JoinSlash(NonEmpty([Render(bs)] + tail)) == "/" + (JoinSlash(bs) + "/" + JoinSlash(tail))
  {
    NonEmptyKeeps([Render(bs)] + tail);
    JoinSlashAppend([Render(bs)], tail);
  }

  /** Resolving the pieces of that string starts from the base's own names. */
  lemma ResolveJoined(bs: seq<string>, tail: seq<string>)
    requires AllPlain(bs) && AllNames(tail) && tail != []
    ensures Resolve([], Split(JoinSlash(bs) + "/" + JoinSlash(tail)), false) == Resolve(bs, tail, false)
  {
    assert AllNames(bs);
    var q := JoinSlash(bs) + "/" + JoinSlash(tail);
    SplitOfRender(bs, tail);
    if bs == [] {
      assert Split(q) == [""] + tail;
      assert ([""] + tail)[1..] == tail;
    } else {
      assert Split(q) == bs + tail;
      ResolveAppend([], bs, tail, false);
      ResolvePlainNames(bs);
    }
  }

  lemma ResolvePlainNames(bs: seq<string>)
    requires AllPlain(bs)
    ensures Resolve([], bs, false) == bs
  {
    ResolvePlain([], bs, false);
    NonEmptyKeeps(bs);
    assert [] + bs == bs;
  }

  /** `path.join(base, ...tail)` for a normalised absolute base: `/` followed by `tail` resolved onto the base's names. */
  lemma JoinOntoRender(bs: seq<string>, tail: seq<string>)
    requires AllPlain(bs) && AllNames(tail) && tail != []
    ensures Join(Render(bs), tail) == "/" + JoinSlash(Resolve(bs, tail, false))
  {
    var q := JoinSlash(bs) + "/" + JoinSlash(tail);
    JoinedString(bs, tail);
    JoinSlashEnd(tail);
    assert q[|q| - 1] == JoinSlash(tail)[|JoinSlash(tail)| - 1];
    NormalizeAbsolute(q);
    ResolveJoined(bs, tail);
  }

  /** Plain names joined onto a normalised absolute path are appended to it. */
  lemma JoinPlain(bs: seq<string>, names: seq<string>)
    requires AllPlain(bs) && AllPlain(names) && names != []
    ensures Join(Render(bs), names) == Render(bs + names)
  {
    JoinOntoRender(bs, names);
    ResolvePlain(bs, names, false);
    NonEmptyKeeps(names);
  }

  /** Joining `.` onto a normalised absolute path gives the path back. */
  lemma JoinDot(bs: seq<string>)
    requires AllPlain(bs)
    ensures Join(Render(bs), ["."]) == Render(bs)
  {
    JoinOntoRender(bs, ["."]);
  }

  /** Joining `..` onto a normalised absolute path drops its last name; at the root it stays at the root. */
  lemma JoinParent(bs: seq<string>)
    requires AllPlain(bs)
    ensures Join(Render(bs), [".."]) == Render(if bs == [] then [] else bs[..|bs| - 1])
  {
    JoinOntoRender(bs, [".."]);
    if bs != [] {
      assert IsPlainName(bs[|bs| - 1]);
    }
  }

  /** A plain name followed by `..` cancels out. */
  lemma JoinNameThenParent(bs: seq<string>, n: string)
    requires AllPlain(bs) && IsPlainName(n)
    ensures Join(Render(bs), [n, ".."]) == Render(bs)
  {
    JoinOntoRender(bs, [n, ".."]);
    assert Resolve(bs, [n, ".."], false) == Resolve(bs + [n], [".."], false);
    assert (bs + [n])[..|bs + [n]| - 1] == bs;
  }

  // ---------------------------------------------------------------------------
  // Properties of getPathname

  /** A non-empty string that `trim` leaves alone neither starts nor ends with white space. */
  lemma TrimmedEnds(s: string)
    requires s != "" && JsTrim(s) == s
    ensures !IsJsSpace(s[0]) && !IsJsSpace(s[|s| - 1])
  {
    assert TrimStart(s) == s;
  }

  lemma {:induction false} NameListOfSlashes(t: string)
    requires forall i :: 0 <= i < |t| ==> t[i] == '/'
    ensures NameList(t) == []
    decreases |t|
  {
    if t != [] {
      assert t == "" + "/" + t[1..];
      SplitAtSlash("", t[1..]);
      NameListOfSlashes(t[1..]);
      NonEmptyAppend([""], Split(t[1..]));
    }
  }

  /** Joined names start with neither `/` nor `./` when the first name is plain. */
  lemma JoinedNamesStart(names: seq<string>)
    requires names != [] && AllPlain(names)
    ensures var j := JoinSlash(names); j[0] != '/' && !(|j| >= 2 && j[..2] == "./")
  {
    var j := JoinSlash(names);
    assert IsPlainName(names[0]);
    assert names[0][0] in names[0];
    if |names| > 1 {
      assert j == names[0] + "/" + JoinSlash(names[1..]);
    }
    if |names[0]| >= 2 {
      assert names[0][1] in names[0];
      assert j[1] == names[0][1];
    } else {
      assert names[0] == [names[0][0]];
    }
  }

  /** A string that `trim` leaves alone is located as it is. */
  lemma GetTrimmed(u: string, home: string, cwd: string)
    requires u != "" && JsTrim(u) == u
    ensures GetPathname(Some(u), home, cwd) == Some(Locate(u, home, cwd))
  {
  }

  lemma LocateRelative(str: string, home: string, cwd: string)
    requires str == "" || (str[0] != '~' && str[0] != '/')
    ensures Locate(str, home, cwd) == BelowCwd(str, cwd)
  {
  }

  /** Input that is white space only stands for the current directory, as given. */
  lemma WhitespaceOnly(u: string, home: string, cwd: string)
    requires u != "" && forall i :: 0 <= i < |u| ==> IsJsSpace(u[i])
    ensures GetPathname(Some(u), home, cwd) == Some(cwd)
  {
    JsTrimAllSpace(u);
    LocateRelative("", home, cwd);
  }

  /** `~`, `~/`, `~//` and so on stand for the home directory, as given. */
  lemma HomeDirectory(t: string, home: string, cwd: string)
    requires forall i :: 0 <= i < |t| ==> t[i] == '/'
    ensures GetPathname(Some("~" + t), home, cwd) == Some(home)
  {
    var u := "~" + t;
    JsTrimKeeps(u);
    GetTrimmed(u, home, cwd);
    assert u[0] == '~' && u[1..] == t;
    NameListOfSlashes(t);
    assert BelowHome(t, home) == home;
  }

  /** `./`, `.//` and so on stand for the current directory, as given. */
  lemma CurrentDirectoryAsGiven(t: string, home: string, cwd: string)
    requires forall i :: 0 <= i < |t| ==> t[i] == '/'
    ensures GetPathname(Some("./" + t), home, cwd) == Some(cwd)
  {
    var u := "./" + t;
    assert u[0] == '.' && u[|u| - 1] == '/';
    JsTrimKeeps(u);
    GetRelative(u, home, cwd);
    assert u[..2] == "./" && u[2..] == t;
    NameListOfSlashes(t);
    NameListIgnoresTrailingSlash(t);
  }

  /** `/`, with or without white space around it, is the root of the current directory. */
  lemma RootDirectory(u: string, home: string, cwd: string)
    requires JsTrim(u) == "/"
    ensures GetPathname(Some(u), home, cwd) == Some(Root(cwd))
  {
    assert u != "";
  }

  /** `~/a/b` is `a/b` below a normalised home directory. */
  lemma UnderHome(hs: seq<string>, names: seq<string>, cwd: string)
    requires AllPlain(hs) && AllPlain(names) && names != []
    requires JsTrim("~/" + JoinSlash(names)) == "~/" + JoinSlash(names)
    ensures GetPathname(Some("~/" + JoinSlash(names)), Render(hs), cwd) == Some(Render(hs + names))
  {
    var j := JoinSlash(names);
    TildeSlash(j);
    GetHome("~/" + j, Render(hs), cwd);
    HomeNames(hs, names);
  }

  lemma TildeSlash(j: string)
    ensures ("~/" + j) != "" && ("~/" + j)[0] == '~' && ("~/" + j)[1..] == "/" + j
  {
  }

  /** With an absolute home and current directory, every path found is absolute. */
  lemma AbsoluteResult(url: Option<string>, home: string, cwd: string)
    requires IsAbsolute(home) && IsAbsolute(cwd)
    ensures GetPathname(url, home, cwd).Some? ==> IsAbsolute(GetPathname(url, home, cwd).value)
  {
    if url.Some? && url.value != "" {
      LocateAbsolute(JsTrim(url.value), home, cwd);
    }
  }

  /** A trimmed string that starts with `~` takes the home branch. */
  lemma GetHome(u: string, home: string, cwd: string)
    requires u != "" && u[0] == '~' && JsTrim(u) == u
    ensures GetPathname(Some(u), home, cwd) == Some(BelowHome(u[1..], home))
  {
    GetTrimmed(u, home, cwd);
  }

  /** The names after `~`, joined onto a normalised home directory. */
  lemma HomeNames(hs: seq<string>, names: seq<string>)
    requires AllPlain(hs) && AllPlain(names) && names != []
    ensures BelowHome("/" + JoinSlash(names), Render(hs)) == Render(hs + names)
  {
    var j := JoinSlash(names);
    assert AllNames(names);
    JoinSlashEnd(names);
    assert DropTrailingSlash("/" + j) == "/" + j;
    NameListLeadingSlash(j);
    NameListOfJoin(names);
    JoinPlain(hs, names);
  }

  /** `a/b` is `a/b` below a normalised current directory. */
  lemma UnderCwd(cs: seq<string>, names: seq<string>, home: string)
    requires AllPlain(cs) && AllPlain(names) && names != [] && names[0][0] != '~'
    requires JsTrim(JoinSlash(names)) == JoinSlash(names)
    ensures GetPathname(Some(JoinSlash(names)), home, Render(cs)) == Some(Render(cs + names))
  {
    var j := JoinSlash(names);
    assert AllNames(names);
    JoinSlashStart(names);
    GetTrimmed(j, home, Render(cs));
    JoinedNamesStart(names);
    LocateRelative(j, home, Render(cs));
    assert BelowCwd(j, Render(cs)) == Render(cs + names) by {
      JoinSlashEnd(names);
      assert DropTrailingSlash(j) == j;
      NameListOfJoin(names);
      JoinPlain(cs, names);
    }
  }

  /** `/a/b` is `/a/b` when the current directory is absolute: the root is `/`. */
  lemma AbsolutePath(names: seq<string>, home: string, cwd: string)
    requires AllPlain(names) && names != [] && cwd != "" && cwd[0] == '/'
    requires JsTrim("/" + JoinSlash(names)) == "/" + JoinSlash(names)
    ensures GetPathname(Some("/" + JoinSlash(names)), home, cwd) == Some(Render(names))
  {
    var j := JoinSlash(names);
    var u := "/" + j;
    GetTrimmed(u, home, cwd);
    assert Locate(u, home, cwd) == BelowRoot(u, cwd);
    assert BelowRoot(u, cwd) == Render(names) by {
      assert AllNames(names);
      JoinSlashEnd(names);
      assert u != "/";
      assert u[1..] == j;
      assert DropTrailingSlash(j) == j;
      NameListOfJoin(names);
      assert Root(cwd) == Render([]);
      JoinPlain([], names);
      assert [] + names == names;
    }
  }

  /** A trimmed string that starts with neither `~` nor `/` is located below the current directory. */
  lemma GetRelative(u: string, home: string, cwd: string)
    requires u != "" && JsTrim(u) == u && u[0] != '~' && u[0] != '/'
    ensures GetPathname(Some(u), home, cwd) == Some(BelowCwd(u, cwd))
  {
    GetTrimmed(u, home, cwd);
    LocateRelative(u, home, cwd);
  }

  lemma BelowCwdDot(cs: seq<string>)
    requires AllPlain(cs)
    ensures BelowCwd(".", Render(cs)) == Render(cs)
  {
    SplitNoSlash(".");
    assert NameList(".") == ["."];
    JoinDot(cs);
  }

  lemma BelowCwdParent(cs: seq<string>)
    requires AllPlain(cs)
    ensures BelowCwd("..", Render(cs)) == Render(if cs == [] then [] else cs[..|cs| - 1])
  {
    assert ".."[1] == '.';
    SplitNoSlash("..");
    assert NameList("..") == [".."];
    JoinParent(cs);
  }

  lemma DotsAreTrimmed(s: string)
    requires s == "." || s == ".."
    ensures JsTrim(s) == s
  {
    assert s[0] == '.' && s[|s| - 1] == '.';
    JsTrimKeeps(s);
  }

  /** `.` is the normalised current directory. */
  lemma CurrentDirectory(cs: seq<string>, home: string)
    requires AllPlain(cs)
    ensures GetPathname(Some("."), home, Render(cs)) == Some(Render(cs))
  {
    DotsAreTrimmed(".");
    GetRelative(".", home, Render(cs));
    BelowCwdDot(cs);
  }

  /** `..` is the parent of the normalised current directory (the root is its own parent). */
  lemma ParentDirectory(cs: seq<string>, home: string)
    requires AllPlain(cs)
    ensures GetPathname(Some(".."), home, Render(cs)) == Some(Render(if cs == [] then [] else cs[..|cs| - 1]))
  {
    DotsAreTrimmed("..");
    GetRelative("..", home, Render(cs));
    BelowCwdParent(cs);
  }

  /** `n/..` for a plain name `n` is the normalised current directory. */
  lemma NameThenParent(cs: seq<string>, n: string, home: string)
    requires AllPlain(cs) && IsPlainName(n) && n[0] != '~'
    requires JsTrim(n) == n
    ensures GetPathname(Some(n + "/.."), home, Render(cs)) == Some(Render(cs))
  {
    var u := n + "/..";
    TrimmedEnds(n);
    JsTrimKeeps(u);
    GetTrimmed(u, home, Render(cs));
    assert JoinSlash([n, ".."]) == u;
    JoinedNamesStart([n]);
    assert u[0] == n[0] && (|n| >= 2 ==> u[..2] == n[..2]);
    assert !(|u| >= 2 && u[..2] == "./") by {
      assert n[0] in n;
      if |n| == 1 { assert n == [n[0]]; assert u[1] == '/'; } else { assert u[..2] == n[..2]; }
    }
    LocateRelative(u, home, Render(cs));
    assert BelowCwd(u, Render(cs)) == Render(cs) by {
      assert DropTrailingSlash(u) == u;
      SplitOfJoin([n, ".."]);
      NonEmptyKeeps([n, ".."]);
      JoinNameThenParent(cs, n);
    }
  }

  lemma NamesOfTrailingSlash(x: string)
    ensures NameList(DropTrailingSlash(x + "/")) == NameList(DropTrailingSlash(x))
  {
    assert DropTrailingSlash(x + "/") == x;
    NameListIgnoresTrailingSlash(x);
  }

  /** `//` is the root, like `/`, when the current directory is absolute. */
  lemma RootTwice(cwd: string)
    requires cwd != "" && cwd[0] == '/'
    ensures BelowRoot("//", cwd) == BelowRoot("/", cwd)
  {
    assert "//"[1..] == "/";
    assert DropTrailingSlash("/") == "";
    assert NameList("") == [];
    assert NonEmpty(["/"]) == ["/"];
    NormalizeAbsolute("");
    assert Resolve([], Split(""), false) == [];
  }

  lemma LocateTrailingSlash(s: string, home: string, cs: seq<string>)
    requires s != "" && AllPlain(cs)
    ensures Locate(s + "/", home, Render(cs)) == Locate(s, home, Render(cs))
  {
    var u := s + "/";
    var cwd := Render(cs);
    assert u[0] == s[0];
    if s[0] == '~' {
      assert u[1..] == s[1..] + "/";
      NamesOfTrailingSlash(s[1..]);
    } else if s[0] == '/' {
      if s == "/" {
        RootTwice(cwd);
      } else {
        assert u[1..] == s[1..] + "/";
        NamesOfTrailingSlash(s[1..]);
      }
    } else if |s| == 1 {
      if s[0] == '.' {
        assert s == "." && u == "./";
        assert u[2..] == "";
        assert NameList(DropTrailingSlash("")) == [];
        BelowCwdDot(cs);
      } else {
        assert !(u[..2] == "./");
        NamesOfTrailingSlash(s);
      }
    } else {
      assert u[..2] == s[..2];
      if s[..2] == "./" {
        assert u[2..] == s[2..] + "/";
        NamesOfTrailingSlash(s[2..]);
      } else {
        NamesOfTrailingSlash(s);
      }
    }
  }

  /**
    A trailing slash is insignificant: `~/a/` is `~/a`, `a/b/` is `a/b`,
    `/a/` is `/a`, `./` is `.` and `//` is `/`, whenever the current
    directory is a normalised absolute path.
  */
  lemma TrailingSlash(s: string, home: string, cs: seq<string>)
    requires s != "" && JsTrim(s) == s && AllPlain(cs)
    ensures GetPathname(Some(s + "/"), home, Render(cs)) == GetPathname(Some(s), home, Render(cs))
  {
    var u := s + "/";
    TrimmedEnds(s);
    assert u[0] == s[0] && u[|u| - 1] == '/';
    JsTrimKeeps(u);
    GetTrimmed(s, home, Render(cs));
    GetTrimmed(u, home, Render(cs));
    LocateTrailingSlash(s, home, cs);
  }
}
