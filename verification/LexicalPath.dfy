/** Path normalisation of internal/checker/validate.go, against an independent reading of a path as a
    walk from the worktree root. */
module LexicalPath {
  import opened Text

  predicate Plain(seg: string) {
    seg != "" && seg != "." && seg != ".." && '/' !in seg
  }

  predicate AllPlain(segs: seq<string>) {
    forall i :: 0 <= i < |segs| ==> Plain(segs[i])
  }

  // ---- the code ----

  /** The component loop of Go's path.Clean for a path that is not rooted. */
  function CleanSegments(segs: seq<string>, out: seq<string>): seq<string> {
    if segs == [] then out
    else if segs[0] == "" || segs[0] == "." then CleanSegments(segs[1..], out)
    else if segs[0] == ".." then
      if out != [] && out[|out| - 1] != ".." then CleanSegments(segs[1..], out[..|out| - 1])
      else CleanSegments(segs[1..], out + [".."])
    else CleanSegments(segs[1..], out + [segs[0]])
  }

  function Clean(p: string): string {
    var out := CleanSegments(Split(p, '/'), []);
    if out == [] then "." else Join(out, "/")
  }

  function NormalizePath(path: string): Option<string> {
    var p := TrimSpace(path);
    if p == "" || p[0] == '/' || '\0' in p then None
    else
      var c := Clean(p);
      if c == "." || c == ".." || (|c| >= 3 && c[..3] == "../") then None else Some(c)
  }

  // ---- the walk ----

  /** Follows the components from a location given by its names below the root; None once the walk
      steps above the root. */
  function Walk(segs: seq<string>, at: seq<string>): Option<seq<string>> {
    if segs == [] then Some(at)
    else if segs[0] == "" || segs[0] == "." then Walk(segs[1..], at)
    else if segs[0] == ".." then if at == [] then None else Walk(segs[1..], at[..|at| - 1])
    else Walk(segs[1..], at + [segs[0]])
  }

  /** What each component does, and that components are followed one after the other: these laws determine
      the walk. */
  lemma {:induction false} WalkLaws(a: seq<string>, b: seq<string>, at: seq<string>, name: string)
    ensures Walk([], at) == Some(at) && Walk([""], at) == Some(at) && Walk(["."], at) == Some(at)
    ensures Walk([".."], []) == None && Walk([".."], at + [name]) == Some(at)
    ensures Plain(name) ==> Walk([name], at) == Some(at + [name])
    ensures Walk(a + b, at) == if Walk(a, at).Some? then Walk(b, Walk(a, at).value) else None
  {
    assert (at + [name])[..|at|] == at;
    assert [""][1..] == ["."][1..] == [".."][1..] == [name][1..] == [];
    if a == [] {
      assert a + b == b;
    } else {
      assert (a + b)[1..] == a[1..] + b && (a + b)[0] == a[0];
      if a[0] == ".." {
        if at != [] {
          WalkLaws(a[1..], b, at[..|at| - 1], name);
        }
      } else {
        WalkLaws(a[1..], b, if a[0] == "" || a[0] == "." then at else at + [a[0]], name);
      }
    }
  }

  /** The path names a location strictly below the root without ever leaving the worktree. */
  ghost predicate Locates(path: string, at: seq<string>) {
    var p := TrimSpace(path);
    p != "" && p[0] != '/' && '\0' !in p && at != [] && Walk(Split(p, '/'), []) == Some(at)
  }

  // ---- exactness ----

  lemma {:induction false} CleanKeepsEscape(segs: seq<string>, out: seq<string>)
    requires out != [] && out[0] == ".."
    ensures var r := CleanSegments(segs, out); r != [] && r[0] == ".."
  {
    if segs == [] {
    } else if segs[0] == "" || segs[0] == "." {
      CleanKeepsEscape(segs[1..], out);
    } else if segs[0] == ".." && out[|out| - 1] != ".." {
      CleanKeepsEscape(segs[1..], out[..|out| - 1]);
    } else {
      CleanKeepsEscape(segs[1..], out + [segs[0]]);
    }
  }

  lemma {:induction false} CleanFollowsWalk(segs: seq<string>, at: seq<string>)
    requires AllPlain(at) && forall i :: 0 <= i < |segs| ==> '/' !in segs[i]
    ensures match Walk(segs, at)
            case Some(end) => CleanSegments(segs, at) == end && AllPlain(end)
            case None => var r := CleanSegments(segs, at); r != [] && r[0] == ".."
  {
    if segs == [] {
    } else if segs[0] == "" || segs[0] == "." {
      CleanFollowsWalk(segs[1..], at);
    } else if segs[0] == ".." {
      if at == [] {
        CleanKeepsEscape(segs[1..], at + [".."]);
      } else {
        CleanFollowsWalk(segs[1..], at[..|at| - 1]);
      }
    } else {
      CleanFollowsWalk(segs[1..], at + [segs[0]]);
    }
  }

  /** Cleaned components never hold a slash. */
  lemma {:induction false} CleanHasNoSlash(segs: seq<string>, out: seq<string>)
    requires forall i :: 0 <= i < |segs| ==> '/' !in segs[i]
    requires forall i :: 0 <= i < |out| ==> '/' !in out[i]
    ensures forall i :: 0 <= i < |CleanSegments(segs, out)| ==> '/' !in CleanSegments(segs, out)[i]
  {
    if segs == [] {
    } else if segs[0] == "" || segs[0] == "." {
      CleanHasNoSlash(segs[1..], out);
    } else if segs[0] == ".." && out != [] && out[|out| - 1] != ".." {
      CleanHasNoSlash(segs[1..], out[..|out| - 1]);
    } else {
      CleanHasNoSlash(segs[1..], out + [segs[0]]);
    }
  }

  /** The three textual tests after Clean read off the first cleaned component. */
  lemma EscapeTest(out: seq<string>)
    requires out != [] && forall i :: 0 <= i < |out| ==> '/' !in out[i]
    ensures var c := Join(out, "/");
            (c == ".." || (|c| >= 3 && c[..3] == "../")) <==> out[0] == ".."
  {
    var c := Join(out, "/");
    SplitJoin(out, '/');
    if c == ".." {
      SplitWhole(c, '/');
    } else if |c| >= 3 && c[..3] == "../" {
      assert c == ".." + ['/'] + c[3..];
      SplitAppend("..", c[3..], '/');
      SplitWhole("..", '/');
    }
    if out[0] == ".." && |out| > 1 {
      assert c == ".." + "/" + Join(out[1..], "/");
    }
  }

  /** normalizePath accepts exactly the paths whose walk stays in the worktree and ends strictly
      below its root, and returns the plain components of the location reached. */
  lemma NormalizeExact(path: string)
    ensures forall at :: Locates(path, at) <==> AllPlain(at) && at != [] && NormalizePath(path) == Some(Join(at, "/"))
    ensures NormalizePath(path).Some? ==> exists at :: Locates(path, at)
  {
    var p := TrimSpace(path);
    if p != "" && p[0] != '/' && '\0' !in p {
      var segs := Split(p, '/');
      var out := CleanSegments(segs, []);
      CleanFollowsWalk(segs, []);
      CleanHasNoSlash(segs, []);
      match Walk(segs, [])
      case None =>
        EscapeTest(out);
        assert NormalizePath(path) == None;
      case Some(end) =>
        if end != [] {
          EscapeTest(out);
          JoinPlain(end);
          assert NormalizePath(path) == Some(Join(end, "/"));
          assert Locates(path, end);
          forall at | AllPlain(at) && at != [] && Join(at, "/") == Join(end, "/") ensures at == end {
            SplitJoin(at, '/');
            SplitJoin(end, '/');
          }
        }
    }
  }

  lemma JoinPlain(at: seq<string>)
    requires AllPlain(at) && at != []
    ensures Split(Join(at, "/"), '/') == at
    ensures Join(at, "/") != "" && Join(at, "/") != "." && Join(at, "/")[0] != '/'
  {
    SplitJoin(at, '/');
    var c := Join(at, "/");
    if c == "." {
      SplitWhole(c, '/');
    }
    assert c[0] == at[0][0];
    assert at[0][0] in at[0];
  }

  lemma {:induction false} WalkPlain(segs: seq<string>, at: seq<string>)
    requires AllPlain(segs)
    ensures Walk(segs, at) == Some(at + segs)
  {
    if segs == [] {
      assert at + segs == at;
    } else {
      WalkPlain(segs[1..], at + [segs[0]]);
      assert at + [segs[0]] + segs[1..] == at + segs;
    }
  }

  lemma {:induction false} JoinChars(segs: seq<string>, c: char)
    requires c != '/' && forall i :: 0 <= i < |segs| ==> c !in segs[i]
    ensures c !in Join(segs, "/")
  {
    if |segs| <= 1 {
    } else {
      JoinChars(segs[1..], c);
    }
  }

  /** The walk only ever names components of the path. */
  lemma {:induction false} WalkNames(segs: seq<string>, at: seq<string>, c: char)
    requires forall i :: 0 <= i < |segs| ==> c !in segs[i]
    requires forall i :: 0 <= i < |at| ==> c !in at[i]
    requires Walk(segs, at).Some?
    ensures forall i :: 0 <= i < |Walk(segs, at).value| ==> c !in Walk(segs, at).value[i]
  {
    if segs == [] {
    } else if segs[0] == "" || segs[0] == "." {
      WalkNames(segs[1..], at, c);
    } else if segs[0] == ".." {
      WalkNames(segs[1..], at[..|at| - 1], c);
    } else {
      WalkNames(segs[1..], at + [segs[0]], c);
    }
  }

  lemma {:induction false} SplitChars(s: string, c: char)
    requires c !in s
    ensures forall i :: 0 <= i < |Split(s, '/')| ==> c !in Split(s, '/')[i]
  {
    if s == "" {
    } else {
      assert forall x :: x in s[1..] ==> x in s;
      SplitChars(s[1..], c);
    }
  }

  /** A result is a fixpoint exactly when it has no edge whitespace; it names the same place. */
  lemma NormalizeFixpoint(path: string)
    requires NormalizePath(path).Some?
    ensures var o := NormalizePath(path).value;
            NormalizePath(o) == Some(o) <==> NoEdgeSpace(o)
  {
    var o := NormalizePath(path).value;
    NormalizeExact(path);
    var at :| Locates(path, at);
    var p := TrimSpace(path);
    TrimSpaceFixed(o);
    SplitChars(p, '\0');
    WalkNames(Split(p, '/'), [], '\0');
    JoinChars(at, '\0');
    JoinPlain(at);
    if NoEdgeSpace(o) {
      WalkPlain(at, []);
      assert [] + at == at;
      assert Locates(o, at);
      NormalizeExact(o);
    } else if NormalizePath(o) == Some(o) {
      NormalizeExact(o);
      var b :| Locates(o, b);
      SplitJoin(at, '/');
      SplitJoin(b, '/');
      CleanNotLonger(TrimSpace(o));
    }
  }

  lemma {:induction false} JoinLonger(a: seq<string>, x: string)
    ensures |Join(a + [x], "/")| == |Join(a, "/")| + |x| + (if a == [] then 0 else 1)
  {
    if a != [] {
      JoinAppend(a, [x], "/");
    } else {
      assert a + [x] == [x];
    }
  }

  /** Length budget: what is already out, a separator, and what is still to come. */
  lemma {:induction false} CleanSegmentsNotLonger(segs: seq<string>, out: seq<string>)
    ensures |Join(CleanSegments(segs, out), "/")| <=
            |Join(out, "/")| + (if out == [] || segs == [] then 0 else 1) + |Join(segs, "/")|
  {
    if segs == [] {
    } else {
      var rest := segs[1..];
      assert |Join(segs, "/")| == |segs[0]| + (if rest == [] then 0 else 1 + |Join(rest, "/")|);
      if segs[0] == "" || segs[0] == "." {
        CleanSegmentsNotLonger(rest, out);
      } else if segs[0] == ".." && out != [] && out[|out| - 1] != ".." {
        var shorter := out[..|out| - 1];
        assert out == shorter + [out[|out| - 1]];
        JoinLonger(shorter, out[|out| - 1]);
        CleanSegmentsNotLonger(rest, shorter);
      } else {
        JoinLonger(out, segs[0]);
        CleanSegmentsNotLonger(rest, out + [segs[0]]);
      }
    }
  }

  lemma CleanNotLonger(p: string)
    ensures |Clean(p)| <= |p| || p == ""
  {
    if p != "" {
      CleanSegmentsNotLonger(Split(p, '/'), []);
      JoinSplit(p, '/');
    }
  }

  lemma OneName(path: string, name: string)
    requires Plain(name)
    requires var p := TrimSpace(path); p != "" && p[0] != '/' && '\0' !in p
    requires var s := Split(TrimSpace(path), '/'); s == [name] || s == [".", name]
    ensures NormalizePath(path) == Some(name)
  {
    var segs := Split(TrimSpace(path), '/');
    WalkPlain([name], []);
    assert [] + [name] == [name];
    assert [".", name][1..] == [name];
    assert Locates(path, [name]);
    NormalizeExact(path);
  }

  lemma SplitDot(name: string)
    requires '/' !in name
    ensures Split("." + ['/'] + name, '/') == [".", name]
  {
    SplitAppend(".", name, '/');
    SplitWhole(".", '/');
    SplitWhole(name, '/');
  }

  lemma DotSlashSpace()
    ensures NormalizePath("./ a") == Some(" a")
  {
    var p := "./ a";
    assert p == "." + ['/'] + " a";
    SplitDot(" a");
    assert NoEdgeSpace(p) by { assert p[0] == '.' && p[|p| - 1] == 'a'; }
    TrimSpaceFixed(p);
    OneName(p, " a");
  }

  /** Normalisation is not idempotent in general: trimming happens before cleaning. */
  lemma NotIdempotent()
    ensures NormalizePath("./ a") == Some(" a") && NormalizePath(" a") == Some("a")
  {
    DotSlashSpace();
    assert " a"[1..] == "a";
    SplitWhole("a", '/');
    OneName(" a", "a");
  }
}
