/** The path components the store accepts (internal/store/validate.go) and the paths and keys built
    from them (internal/store/store.go, internal/daemon/daemon.go). */
module Paths {
  import opened Text
  import opened LexicalPath

  const MAX_SEGMENT_LEN := 128

  predicate SegmentChar(c: char) {
    'a' <= c <= 'z' || 'A' <= c <= 'Z' || '0' <= c <= '9' || c == '-' || c == '_' || c == '.'
  }

  /** Two adjacent dots, as strings.Contains(s, "..") finds them. */
  predicate HasDotDot(s: string) {
    exists i :: 0 <= i < |s| - 1 && s[i] == '.' && s[i + 1] == '.'
  }

  predicate ValidSegment(s: string) {
    && s != ""
    && |s| <= MAX_SEGMENT_LEN
    && s != "." && s != ".."
    && '/' !in s && '\\' !in s
    && !HasDotDot(s)
    && forall i :: 0 <= i < |s| ==> SegmentChar(s[i])
  }

  /** runs/<repo>/<sha> under the store root. */
  function RunDir(repoID: string, sha: string): string {
    "runs/" + repoID + "/" + sha
  }

  function RunPath(repoID: string, sha: string): string {
    RunDir(repoID, sha) + "/run.json"
  }

  function FeedbackPath(repoID: string, sha: string): string {
    RunDir(repoID, sha) + "/feedback.md"
  }

  /** The key of the waiter table. It is built before the segments are validated. */
  function RunKey(repoID: string, sha: string): string {
    repoID + "/" + sha
  }

  /** What the checks of validSegment come to: one to 128 letters, digits, '-', '_' and '.', other than "."
      alone and without two dots in a row. The tests for separators and for ".." are implied. */
  lemma ValidSegmentExactly(s: string)
    ensures ValidSegment(s) <==>
              && 1 <= |s| <= 128 && s != "."
              && (forall i :: 0 <= i < |s| ==>
                    || 'a' <= s[i] <= 'z' || 'A' <= s[i] <= 'Z' || '0' <= s[i] <= '9'
                    || s[i] == '-' || s[i] == '_' || s[i] == '.')
              && forall i :: 0 <= i < |s| - 1 ==> s[i] != '.' || s[i + 1] != '.'
  {
    if s == ".." {
      assert s[0] == '.' && s[1] == '.';
    }
  }

  /** A commit's hash, of 40 or 64 hexadecimal digits, is accepted. */
  lemma AcceptsHash(s: string)
    requires |s| == 40 || |s| == 64
    requires forall i :: 0 <= i < |s| ==> '0' <= s[i] <= '9' || 'a' <= s[i] <= 'f'
    ensures ValidSegment(s)
  {
    ValidSegmentExactly(s);
  }

  /** And so is a repository's ULID, 26 upper-case letters and digits. */
  lemma AcceptsULID(s: string)
    requires |s| == 26 && forall i :: 0 <= i < |s| ==> '0' <= s[i] <= '9' || 'A' <= s[i] <= 'Z'
    ensures ValidSegment(s)
  {
    ValidSegmentExactly(s);
  }

  /** A validated segment is one component, and following it leads from any place to the entry of that
      name just below. */
  lemma SegmentIsOneComponent(s: string, at: seq<string>)
    requires ValidSegment(s)
    ensures Split(s, '/') == [s] && Walk(Split(s, '/'), at) == Some(at + [s])
  {
    SplitWhole(s, '/');
    WalkPlain([s], at);
  }

  /** So the directory of a validated run lies under the store's root, at runs/<repo>/<sha> and nowhere
      else. */
  lemma RunDirStaysInside(repoID: string, sha: string, root: seq<string>)
    requires ValidSegment(repoID) && ValidSegment(sha)
    ensures Walk(Split(RunDir(repoID, sha), '/'), root) == Some(root + ["runs", repoID, sha])
  {
    SplitRunDir(repoID, sha);
    WalkPlain(["runs", repoID, sha], root);
  }

  lemma SplitRunDir(repoID: string, sha: string)
    requires '/' !in repoID && '/' !in sha
    ensures Split(RunDir(repoID, sha), '/') == ["runs", repoID, sha]
  {
    var tail := repoID + "/" + sha;
    assert RunDir(repoID, sha) == "runs" + ['/'] + tail;
    SplitAppend("runs", tail, '/');
    SplitAppend(repoID, sha, '/');
    SplitWhole("runs", '/');
    SplitWhole(repoID, '/');
    SplitWhole(sha, '/');
  }

  /** And the two files of the run lie in it, under these names. */
  lemma RunFilesStayInside(repoID: string, sha: string, root: seq<string>)
    requires ValidSegment(repoID) && ValidSegment(sha)
    ensures Walk(Split(RunPath(repoID, sha), '/'), root) == Some(root + ["runs", repoID, sha, "run.json"])
    ensures Walk(Split(FeedbackPath(repoID, sha), '/'), root) == Some(root + ["runs", repoID, sha, "feedback.md"])
  {
    var dir := RunDir(repoID, sha);
    FileIn(repoID, sha, "run.json", root);
    FileIn(repoID, sha, "feedback.md", root);
    assert RunPath(repoID, sha) == dir + "/" + "run.json" && FeedbackPath(repoID, sha) == dir + "/" + "feedback.md";
  }

  lemma FileIn(repoID: string, sha: string, name: string, root: seq<string>)
    requires ValidSegment(repoID) && ValidSegment(sha) && Plain(name)
    ensures Walk(Split(RunDir(repoID, sha) + "/" + name, '/'), root) == Some(root + ["runs", repoID, sha, name])
  {
    SplitRunDir(repoID, sha);
    SplitAppend(RunDir(repoID, sha), name, '/');
    SplitWhole(name, '/');
    assert RunDir(repoID, sha) + "/" + name == RunDir(repoID, sha) + ['/'] + name;
    assert ["runs", repoID, sha] + [name] == ["runs", repoID, sha, name];
    WalkPlain(["runs", repoID, sha, name], root);
  }

  /** The comment on validSegment promises "no leading dot"; the code accepts one. */
  lemma LeadingDotAccepted()
    ensures ValidSegment(".git")
  {
    assert forall i :: 0 <= i < 4 ==> SegmentChar(".git"[i]);
  }

  /** Keys are injective as soon as the repository IDs hold no slash; the SHAs are free. */
  lemma KeyInjective(r1: string, s1: string, r2: string, s2: string)
    requires '/' !in r1 && '/' !in r2
    requires RunKey(r1, s1) == RunKey(r2, s2)
    ensures r1 == r2 && s1 == s2
  {
    SplitWhole(r1, '/');
    SplitWhole(r2, '/');
    SplitAppend(r1, s1, '/');
    SplitAppend(r2, s2, '/');
    assert ([r1] + Split(s1, '/'))[0] == ([r2] + Split(s2, '/'))[0];
    var k := RunKey(r1, s1);
    assert s1 == k[|r1| + 1..] == s2;
  }

  lemma {:induction false} OnePart(s: string, c: char)
    requires |Split(s, c)| == 1
    ensures c !in s
  {
    if s == "" {
    } else {
      OnePart(s[1..], c);
      assert s == [s[0]] + s[1..];
    }
  }

  lemma NoSlashIsOnly(r1: string, s1: string, r2: string, s2: string)
    requires '/' !in r1 && '/' !in s1
    requires RunKey(r1, s1) == RunKey(r2, s2)
    ensures r1 == r2 && s1 == s2
  {
    SplitWhole(r1, '/');
    SplitWhole(s1, '/');
    SplitAppend(r1, s1, '/');
    SplitAppend(r2, s2, '/');
    assert |Split(r2, '/')| == 1 && |Split(s2, '/')| == 1;
    OnePart(r2, '/');
    KeyInjective(r1, s1, r2, s2);
  }

  /** The key of a pair is its own exactly when neither part holds a slash. */
  lemma KeyIsOnlyIff(r: string, s: string)
    ensures (forall r2, s2 :: RunKey(r2, s2) == RunKey(r, s) ==> r2 == r && s2 == s) <==> '/' !in r && '/' !in s
  {
    if '/' in r {
      var i :| 0 <= i < |r| && r[i] == '/';
      assert RunKey(r[..i], r[i + 1..] + "/" + s) == RunKey(r, s);
    } else if '/' in s {
      var i :| 0 <= i < |s| && s[i] == '/';
      assert RunKey(r + "/" + s[..i], s[i + 1..]) == RunKey(r, s);
    } else {
      forall r2, s2 | RunKey(r2, s2) == RunKey(r, s) ensures r2 == r && s2 == s {
        NoSlashIsOnly(r, s, r2, s2);
      }
    }
  }

  /** The key of a run that passed validation is the key of no other pair, validated or not: a wait on
      an unvalidated pair never shares an entry with one on a run. */
  lemma ValidKeyIsOnly(r1: string, s1: string, r2: string, s2: string)
    requires ValidSegment(r1) && ValidSegment(s1)
    requires RunKey(r1, s1) == RunKey(r2, s2)
    ensures r1 == r2 && s1 == s2
  {
    KeyIsOnlyIff(r1, s1);
  }

  /** Unvalidated keys collide, which is why a waiter must not act on a key before GetRun validates. */
  lemma UnvalidatedKeysCollide()
    ensures RunKey("a/b", "c") == RunKey("a", "b/c")
  {
    assert "a/b" + "/" + "c" == "a" + "/" + "b/c";
  }

  lemma RunDirInjective(r1: string, s1: string, r2: string, s2: string)
    requires '/' !in r1 && '/' !in r2
    requires RunDir(r1, s1) == RunDir(r2, s2)
    ensures r1 == r2 && s1 == s2
  {
    assert RunDir(r1, s1) == "runs/" + RunKey(r1, s1);
    assert RunDir(r2, s2) == "runs/" + RunKey(r2, s2);
    assert RunKey(r1, s1) == RunDir(r1, s1)[5..] == RunDir(r2, s2)[5..] == RunKey(r2, s2);
    KeyInjective(r1, s1, r2, s2);
  }

  lemma SuffixCancel(a: string, b: string, suffix: string)
    requires a + suffix == b + suffix
    ensures a == b
  {
    assert |a| == |b|;
    assert a == (a + suffix)[..|a|] && b == (b + suffix)[..|b|];
  }

  /** Two runs share a record file exactly when they share repository and SHA; a record file is never
      a feedback file, and feedback files are injective too. */
  lemma RunPathInjective(r1: string, s1: string, r2: string, s2: string)
    requires '/' !in r1 && '/' !in r2
    ensures RunPath(r1, s1) == RunPath(r2, s2) <==> r1 == r2 && s1 == s2
    ensures FeedbackPath(r1, s1) == FeedbackPath(r2, s2) <==> r1 == r2 && s1 == s2
    ensures RunPath(r1, s1) != FeedbackPath(r2, s2)
  {
    if RunPath(r1, s1) == RunPath(r2, s2) {
      SuffixCancel(RunDir(r1, s1), RunDir(r2, s2), "/run.json");
      RunDirInjective(r1, s1, r2, s2);
    }
    if FeedbackPath(r1, s1) == FeedbackPath(r2, s2) {
      SuffixCancel(RunDir(r1, s1), RunDir(r2, s2), "/feedback.md");
      RunDirInjective(r1, s1, r2, s2);
    }
    var p, q := RunPath(r1, s1), FeedbackPath(r2, s2);
    assert p[|p| - 1] == 'n' && q[|q| - 1] == 'd';
  }
}
