/** The string operations of Go's `strings` package that the repository uses,
    on sequences of Unicode scalar values, with the algebra the proofs need. */
module Text {

  datatype Option<+T> = None | Some(value: T)

  datatype Result<+T, +E> = Ok(value: T) | Err(error: E)

  /** unicode.IsSpace. */
  predicate IsSpace(c: char) {
    || '\t' <= c <= '\r' || c == ' ' || c == '\U{0085}' || c == '\U{00A0}' || c == '\U{1680}'
    || '\U{2000}' <= c <= '\U{200A}' || c == '\U{2028}' || c == '\U{2029}' || c == '\U{202F}'
    || c == '\U{205F}' || c == '\U{3000}'
  }

  /** The cutset of the checker's TrimRight. */
  predicate IsTrailing(c: char) {
    c == ' ' || c == '\t' || c == '\U{000B}' || c == '\U{000C}' || c == '\r'
  }

  predicate IsNewline(c: char) { c == '\n' }

  /** The characters dropped, by their code points. */
  lemma DroppedCharacters(c: char)
    ensures IsSpace(c) <==>
              || c as int in {9, 10, 11, 12, 13, 32, 0x85, 0xA0, 0x1680, 0x2028, 0x2029, 0x202F, 0x205F, 0x3000}
              || 0x2000 <= c as int <= 0x200A
    ensures IsTrailing(c) <==> c as int in {9, 11, 12, 13, 32}
    ensures IsNewline(c) <==> c as int == 10
  {
  }

  function TrimLeft(s: string, drop: char -> bool): (r: string)
    ensures |r| <= |s|
  {
    if s != "" && drop(s[0]) then TrimLeft(s[1..], drop) else s
  }

  function TrimRight(s: string, drop: char -> bool): (r: string)
    ensures |r| <= |s|
  {
    if s != "" && drop(s[|s| - 1]) then TrimRight(s[..|s| - 1], drop) else s
  }

  lemma TrimLeftMeaning(s: string, drop: char -> bool)
    ensures var r := TrimLeft(s, drop);
            && r == s[|s| - |r|..]
            && (forall i :: 0 <= i < |s| - |r| ==> drop(s[i]))
            && (r != "" ==> !drop(r[0]))
  {
  }

  lemma TrimRightMeaning(s: string, drop: char -> bool)
    ensures var r := TrimRight(s, drop);
            && r == s[..|r|]
            && (forall i :: |r| <= i < |s| ==> drop(s[i]))
            && (r != "" ==> !drop(r[|r| - 1]))
  {
  }

  function TrimSpace(s: string): string {
    TrimRight(TrimLeft(s, IsSpace), IsSpace)
  }

  predicate NoEdgeSpace(s: string) {
    s == "" || (!IsSpace(s[0]) && !IsSpace(s[|s| - 1]))
  }

  lemma TrimSpaceFixed(s: string)
    ensures NoEdgeSpace(s) <==> TrimSpace(s) == s
    ensures |TrimSpace(s)| <= |s|
    ensures NoEdgeSpace(TrimSpace(s))
  {
    var l := TrimLeft(s, IsSpace);
    var r := TrimRight(l, IsSpace);
    TrimLeftMeaning(s, IsSpace);
    TrimRightMeaning(l, IsSpace);
    if r != "" {
      assert r[0] == l[0];
    }
  }

  /** The decomposition that determines a right trim. */
  lemma TrimRightOf(a: string, b: string, drop: char -> bool)
    requires forall i :: 0 <= i < |b| ==> drop(b[i])
    ensures TrimRight(a + b, drop) == TrimRight(a, drop)
  {
    if b == "" {
      assert a + b == a;
    } else {
      var c := b[..|b| - 1];
      assert (a + b)[..|a + b| - 1] == a + c;
      assert (a + b)[|a + b| - 1] == b[|b| - 1];
      TrimRightOf(a, c, drop);
    }
  }

  lemma TrimRightSet(a: string, drop: char -> bool)
    requires a == "" || !drop(a[|a| - 1])
    ensures TrimRight(a, drop) == a
  {
  }

  predicate Blank(s: string) {
    forall i :: 0 <= i < |s| ==> IsSpace(s[i])
  }

  lemma TrimSpaceBlank(s: string)
    ensures Blank(s) <==> TrimSpace(s) == ""
  {
    var l := TrimLeft(s, IsSpace);
    TrimLeftMeaning(s, IsSpace);
    TrimRightMeaning(l, IsSpace);
    if l != "" {
      assert l[0] == s[|s| - |l|];
    }
  }

  /** What a trim drops is space. */
  lemma TrimSpaceParts(s: string) returns (a: string, b: string)
    ensures s == a + TrimSpace(s) + b && Blank(a) && Blank(b)
  {
    var l := TrimLeft(s, IsSpace);
    TrimLeftMeaning(s, IsSpace);
    TrimRightMeaning(l, IsSpace);
    a, b := s[..|s| - |l|], l[|TrimRight(l, IsSpace)|..];
    assert l == TrimSpace(s) + b;
  }

  /** And it drops all of it. */
  lemma TrimSpaceOf(a: string, t: string, b: string)
    requires Blank(a) && Blank(b) && NoEdgeSpace(t)
    ensures TrimSpace(a + t + b) == t
  {
    TrimLeftOf(a, t + b, IsSpace);
    assert a + t + b == a + (t + b);
    if t == "" {
      assert t + b == b;
      TrimSpaceBlank(a + t + b);
    } else {
      assert TrimLeft(t + b, IsSpace) == t + b;
      TrimRightOf(t, b, IsSpace);
      TrimRightSet(t, IsSpace);
    }
  }

  lemma TrimLeftOf(a: string, b: string, drop: char -> bool)
    requires forall i :: 0 <= i < |a| ==> drop(a[i])
    ensures TrimLeft(a + b, drop) == TrimLeft(b, drop)
  {
    if a == "" {
      assert a + b == b;
    } else {
      assert (a + b)[1..] == a[1..] + b && (a + b)[0] == a[0];
      TrimLeftOf(a[1..], b, drop);
    }
  }

  // ---- splitting and joining ----

  lemma Regroup<T>(a: seq<T>, b: seq<T>, c: seq<T>)
    ensures a + (b + c) == (a + b) + c
  {
  }

  function Split(s: string, c: char): (r: seq<string>)
    ensures |r| >= 1
    ensures forall i :: 0 <= i < |r| ==> c !in r[i]
  {
    if s == "" then [""]
    else
      var rest := Split(s[1..], c);
      if s[0] == c then [""] + rest
      else [[s[0]] + rest[0]] + rest[1..]
  }

  function Join(parts: seq<string>, sep: string): string {
    if |parts| == 0 then ""
    else if |parts| == 1 then parts[0]
    else parts[0] + sep + Join(parts[1..], sep)
  }

  lemma SplitWhole(s: string, c: char)
    requires c !in s
    ensures Split(s, c) == [s]
  {
    if s == "" {
    } else {
      assert forall x :: x in s[1..] ==> x in s;
      SplitWhole(s[1..], c);
      assert [s[0]] + s[1..] == s;
    }
  }

  lemma {:induction false} SplitAppend(a: string, b: string, c: char)
    ensures Split(a + [c] + b, c) == Split(a, c) + Split(b, c)
  {
    var s := a + [c] + b;
    if a == "" {
      assert s == [c] + b;
      assert s[1..] == b;
    } else {
      assert s[1..] == a[1..] + [c] + b;
      SplitAppend(a[1..], b, c);
      assert s[0] == a[0];
    }
  }

  lemma {:induction false} JoinSplit(s: string, c: char)
    ensures Join(Split(s, c), [c]) == s
  {
    if s == "" {
    } else {
      JoinSplit(s[1..], c);
      var rest := Split(s[1..], c);
      if s[0] == c {
        assert ([""] + rest)[1..] == rest;
        assert [c] + s[1..] == s;
      } else {
        var p := [[s[0]] + rest[0]] + rest[1..];
        assert p[1..] == rest[1..];
        assert [s[0]] + s[1..] == s;
      }
    }
  }

  lemma {:induction false} SplitJoin(parts: seq<string>, c: char)
    requires |parts| >= 1
    requires forall i :: 0 <= i < |parts| ==> c !in parts[i]
    ensures Split(Join(parts, [c]), c) == parts
  {
    SplitWhole(parts[0], c);
    if |parts| <= 1 {
    } else {
      SplitJoin(parts[1..], c);
      SplitAppend(parts[0], Join(parts[1..], [c]), c);
      assert parts == [parts[0]] + parts[1..];
    }
  }

  lemma {:induction false} JoinAppend(a: seq<string>, b: seq<string>, sep: string)
    requires |a| >= 1 && |b| >= 1
    ensures Join(a + b, sep) == Join(a, sep) + sep + Join(b, sep)
  {
    if |a| == 1 {
      assert (a + b)[1..] == b;
    } else {
      assert (a + b)[1..] == a[1..] + b;
      JoinAppend(a[1..], b, sep);
    }
  }
}
