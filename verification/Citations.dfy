/** The deterministic citation filter (internal/checker/validate.go). */
module Citations {
  import opened Text

  datatype RawFinding = RawFinding(file: string, line: int, snippet: string, explanation: string)

  const SNIPPET_WINDOW := 3

  // ---- lines ----

  function ReplaceCRLF(s: string): string {
    if |s| >= 2 && s[0] == '\r' && s[1] == '\n' then "\n" + ReplaceCRLF(s[2..])
    else if s == "" then ""
    else [s[0]] + ReplaceCRLF(s[1..])
  }

  function TrimLines(lines: seq<string>): (r: seq<string>)
    ensures |r| == |lines|
  {
    seq(|lines|, i requires 0 <= i < |lines| => TrimRight(lines[i], IsTrailing))
  }

  function TrimmedLines(s: string): seq<string> {
    TrimLines(Split(ReplaceCRLF(s), '\n'))
  }

  /** The in-place loop over the split lines. */
  method SplitTrimmedLines(s: string) returns (r: seq<string>)
    ensures r == TrimmedLines(s)
  {
    var parts := Split(ReplaceCRLF(s), '\n');
    var lines := new string[|parts|](i requires 0 <= i < |parts| => parts[i]);
    for i := 0 to lines.Length
      invariant forall j :: 0 <= j < lines.Length ==>
                  lines[j] == if j < i then TrimRight(parts[j], IsTrailing) else parts[j]
    {
      lines[i] := TrimRight(lines[i], IsTrailing);
    }
    r := lines[..];
  }

  lemma {:induction false} TrimCons(c: char, f: string)
    ensures var t := TrimRight(f, IsTrailing);
            TrimRight([c] + f, IsTrailing) == if t == "" && IsTrailing(c) then "" else [c] + t
  {
    if f == "" {
      assert [c] + f == [c];
      assert [c][..0] == "";
    } else if IsTrailing(f[|f| - 1]) {
      TrimCons(c, f[..|f| - 1]);
      assert ([c] + f)[..|f|] == [c] + f[..|f| - 1];
    }
  }

  /** The CRLF replacement is redundant: the trim drops the carriage return anyway. */
  lemma {:induction false} CRLFRedundant(s: string)
    ensures TrimmedLines(s) == TrimLines(Split(s, '\n'))
  {
    if |s| >= 2 && s[0] == '\r' && s[1] == '\n' {
      CRLFRedundant(s[2..]);
      var rest := ReplaceCRLF(s[2..]);
      assert ("\n" + rest)[1..] == rest;
      assert s == "\r" + ['\n'] + s[2..];
      SplitAppend("\r", s[2..], '\n');
      SplitWhole("\r", '\n');
      TrimCons('\r', "");
      TrimHead("\r", Split(s[2..], '\n'));
      TrimHead("", Split(rest, '\n'));
    } else if s == "" {
    } else {
      CRLFRedundant(s[1..]);
      var rest := ReplaceCRLF(s[1..]);
      assert ([s[0]] + rest)[1..] == rest;
      TrimSplitCons(s[0], rest);
      TrimSplitCons(s[0], s[1..]);
      assert [s[0]] + s[1..] == s;
    }
  }

  lemma TrimHead(l: string, rest: seq<string>)
    ensures TrimLines([l] + rest) == [TrimRight(l, IsTrailing)] + TrimLines(rest)
  {
  }

  /** The trimmed lines of c followed by s depend only on the trimmed lines of s. */
  lemma TrimSplitCons(c: char, s: string)
    ensures var p := TrimLines(Split(s, '\n'));
            TrimLines(Split([c] + s, '\n')) ==
            if c == '\n' then [""] + p
            else [if p[0] == "" && IsTrailing(c) then "" else [c] + p[0]] + p[1..]
  {
    var p := Split(s, '\n');
    assert ([c] + s)[1..] == s;
    if c == '\n' {
      TrimHead("", p);
    } else {
      TrimCons(c, p[0]);
      TrimHead([c] + p[0], p[1..]);
      assert TrimLines(p)[1..] == TrimLines(p[1..]);
    }
  }

  // ---- blank edges ----

  function DropBlankHead(lines: seq<string>): (r: seq<string>)
    ensures |r| <= |lines| && r == lines[|lines| - |r|..]
    ensures forall i :: 0 <= i < |lines| - |r| ==> Blank(lines[i])
    ensures r != [] ==> !Blank(r[0])
  {
    if lines != [] && Blank(lines[0]) then DropBlankHead(lines[1..]) else lines
  }

  function DropBlankTail(lines: seq<string>): (r: seq<string>)
    ensures |r| <= |lines| && r == lines[..|r|]
    ensures forall i :: |r| <= i < |lines| ==> Blank(lines[i])
    ensures r != [] ==> !Blank(r[|r| - 1])
  {
    if lines != [] && Blank(lines[|lines| - 1]) then DropBlankTail(lines[..|lines| - 1]) else lines
  }

  function BlankEdgesDropped(lines: seq<string>): seq<string> {
    DropBlankTail(DropBlankHead(lines))
  }

  method TrimBlankEdges(lines: seq<string>) returns (r: seq<string>)
    ensures r == BlankEdgesDropped(lines)
  {
    var i := SkipHead(lines);
    var j := SkipTail(lines, i);
    r := lines[i..j];
  }

  method SkipHead(lines: seq<string>) returns (i: nat)
    ensures i <= |lines| && lines[i..] == DropBlankHead(lines)
  {
    i := 0;
    while i < |lines| && TrimSpace(lines[i]) == ""
      invariant 0 <= i <= |lines|
      invariant DropBlankHead(lines) == DropBlankHead(lines[i..])
    {
      TrimSpaceBlank(lines[i]);
      assert lines[i..][1..] == lines[i + 1..];
      i := i + 1;
    }
    if i < |lines| {
      TrimSpaceBlank(lines[i]);
    }
  }

  method SkipTail(lines: seq<string>, i: nat) returns (j: nat)
    requires i <= |lines|
    ensures i <= j <= |lines| && lines[i..j] == DropBlankTail(lines[i..])
  {
    ghost var tail := lines[i..];
    j := |lines|;
    assert tail == lines[i..j];
    while j > i && TrimSpace(lines[j - 1]) == ""
      invariant i <= j <= |lines|
      invariant DropBlankTail(tail) == DropBlankTail(lines[i..j])
    {
      TrimSpaceBlank(lines[j - 1]);
      assert lines[i..j][..j - i - 1] == lines[i..j - 1];
      j := j - 1;
    }
    if j > i {
      TrimSpaceBlank(lines[j - 1]);
    }
  }

  /** What a snippet is compared by. */
  function SnippetLines(snippet: string): seq<string> {
    BlankEdgesDropped(TrimmedLines(snippet))
  }

  // ---- the nearest match ----

  predicate Matches<T(==)>(lines: seq<T>, snip: seq<T>, start: int) {
    1 <= start && start - 1 + |snip| <= |lines| && lines[start - 1..start - 1 + |snip|] == snip
  }

  /** Looks outwards from the line, the earlier of two equally distant starts first. */
  function Outward<T(==)>(lines: seq<T>, snip: seq<T>, line: int, distance: nat): Option<int>
    decreases SNIPPET_WINDOW + 1 - distance
  {
    if distance > SNIPPET_WINDOW then None
    else if Matches(lines, snip, line - distance) then Some(line - distance)
    else if Matches(lines, snip, line + distance) then Some(line + distance)
    else Outward(lines, snip, line, distance + 1)
  }

  function SnippetAt(lines: seq<string>, line: int, snippet: string): Option<int> {
    var snip := SnippetLines(snippet);
    if line < 1 || snip == [] then None else Outward(lines, snip, line, 0)
  }

  function Abs(n: int): (r: int)
    ensures r >= 0 && (r == n || r == -n)
  {
    if n < 0 then -n else n
  }

  predicate InWindow(line: int, start: int) {
    Abs(start - line) <= SNIPPET_WINDOW
  }

  /** Closer to the line, or as close and no later. */
  predicate Nearer(a: int, b: int, line: int) {
    Abs(a - line) < Abs(b - line) || (Abs(a - line) == Abs(b - line) && a <= b)
  }

  ghost predicate IsNearest<T(!new)>(lines: seq<T>, snip: seq<T>, line: int, at: int) {
    && Matches(lines, snip, at) && InWindow(line, at)
    && forall b :: Matches(lines, snip, b) && InWindow(line, b) ==> Nearer(at, b, line)
  }

  lemma {:induction false} OutwardNearest<T(!new)>(lines: seq<T>, snip: seq<T>, line: int, distance: nat)
    requires forall b :: Matches(lines, snip, b) && InWindow(line, b) ==> Abs(b - line) >= distance
    ensures match Outward(lines, snip, line, distance)
            case Some(at) => IsNearest(lines, snip, line, at)
            case None => forall b :: Matches(lines, snip, b) ==> !InWindow(line, b)
    decreases SNIPPET_WINDOW + 1 - distance
  {
    if distance > SNIPPET_WINDOW || Matches(lines, snip, line - distance) || Matches(lines, snip, line + distance) {
    } else {
      OutwardNearest(lines, snip, line, distance + 1);
    }
  }

  lemma NearestUnique<T(!new)>(lines: seq<T>, snip: seq<T>, line: int, a: int, b: int)
    requires IsNearest(lines, snip, line, a) && IsNearest(lines, snip, line, b)
    ensures a == b
  {
    assert Nearer(a, b, line) && Nearer(b, a, line);
  }

  /** The search succeeds exactly when some consecutive match starts within the window of a reported
      line of at least 1, and returns the start minimising (distance, start). */
  lemma SnippetAtNearest(lines: seq<string>, line: int, snippet: string)
    ensures var snip := SnippetLines(snippet); var r := SnippetAt(lines, line, snippet);
            && (r.Some? <==> line >= 1 && snip != [] && exists b :: Matches(lines, snip, b) && InWindow(line, b))
            && (r.Some? ==> IsNearest(lines, snip, line, r.value))
  {
    OutwardNearest(lines, SnippetLines(snippet), line, 0);
  }

  /** The window in numbers. */
  lemma WithinThree(line: int, a: int, b: int)
    ensures InWindow(line, b) <==> line - 3 <= b <= line + 3
    ensures Nearer(a, b, line) <==>
              (if a < line then line - a else a - line) < (if b < line then line - b else b - line)
              || a == b || (a < line && a - line == line - b)
  {
  }

  method LinesEqual<T(==)>(a: seq<T>, b: seq<T>) returns (equal: bool)
    ensures equal <==> a == b
  {
    if |a| != |b| {
      return false;
    }
    for i := 0 to |a|
      invariant forall j :: 0 <= j < i ==> a[j] == b[j]
    {
      if a[i] != b[i] {
        return false;
      }
    }
    return true;
  }

  /** The nearest of a non-empty set of starts. */
  ghost predicate NearestOf(starts: set<int>, line: int, at: int) {
    at in starts && forall b :: b in starts ==> Nearer(at, b, line)
  }

  lemma NearestOfWindow<T(!new)>(lines: seq<T>, snip: seq<T>, line: int, starts: set<int>, best: Option<int>)
    requires forall b :: b in starts <==> Matches(lines, snip, b) && InWindow(line, b)
    requires match best case Some(at) => NearestOf(starts, line, at) case None => starts == {}
    ensures Outward(lines, snip, line, 0) == best
  {
    OutwardNearest(lines, snip, line, 0);
    if best.Some? {
      assert best.value in starts;
      var at := Outward(lines, snip, line, 0).value;
      assert at in starts;
      assert Nearer(at, best.value, line) && Nearer(best.value, at, line);
    }
  }

  lemma WindowClamp(line: int, lo: int, hi: int, last: int)
    requires line >= 1
    requires lo == if line - SNIPPET_WINDOW < 1 then 1 else line - SNIPPET_WINDOW
    requires hi == if line + SNIPPET_WINDOW > last then last else line + SNIPPET_WINDOW
    ensures forall b :: 1 <= b <= last ==> (InWindow(line, b) <==> lo <= b <= hi)
  {
  }

  lemma KeepFirst(best: int, start: int, b: int, line: int)
    requires best < start && Nearer(best, b, line)
    ensures var now := if Abs(start - line) < Abs(best - line) then start else best;
            Nearer(now, b, line) && Nearer(now, start, line)
  {
  }

  /** The scan of the clamped window. It stops early on the reported line itself and otherwise keeps
      the first of the closest matches. */
  method ScanWindow<T(==, !new)>(lines: seq<T>, snip: seq<T>, line: int) returns (r: Option<int>)
    requires line >= 1 && snip != [] && |snip| <= |lines|
    ensures r == Outward(lines, snip, line, 0)
  {
    var lo := if line - SNIPPET_WINDOW < 1 then 1 else line - SNIPPET_WINDOW;
    var hi := line + SNIPPET_WINDOW;
    var maxStart := |lines| - |snip| + 1;
    if hi > maxStart {
      hi := maxStart;
    }
    ghost var starts := set b | lo <= b <= hi && Matches(lines, snip, b);
    WindowClamp(line, lo, hi, maxStart);
    var best: Option<int> := None;
    var start := lo;
    while start <= hi
      invariant lo <= start
      invariant forall b :: b in starts && b < start ==> b != line && best.Some? && Nearer(best.value, b, line)
      invariant best.Some? ==> best.value in starts && best.value < start
      decreases hi - start
    {
      var equal := LinesEqual(lines[start - 1..start - 1 + |snip|], snip);
      assert equal == (start in starts);
      assert forall b :: b in starts && b < start + 1 ==> b == start || b < start;
      if equal {
        if start == line {
          NearestOfWindow(lines, snip, line, starts, Some(start));
          return Some(start);
        }
        ghost var was := best;
        if best == None || Abs(start - line) < Abs(best.value - line) {
          best := Some(start);
        }
        if was.Some? {
          forall b | Nearer(was.value, b, line) ensures Nearer(best.value, b, line) {
            KeepFirst(was.value, start, b, line);
          }
        }
      }
      start := start + 1;
    }
    NearestOfWindow(lines, snip, line, starts, best);
    return best;
  }

  method FindSnippet(fileLines: seq<string>, line: int, snippet: string) returns (r: Option<int>)
    ensures r == SnippetAt(fileLines, line, snippet)
  {
    if line < 1 {
      return None;
    }
    var trimmed := SplitTrimmedLines(snippet);
    var snip := TrimBlankEdges(trimmed);
    if |snip| == 0 {
      return None;
    }
    if |snip| > |fileLines| {
      OutwardNearest(fileLines, snip, line, 0);
      return None;
    }
    r := ScanWindow(fileLines, snip, line);
  }

  // ---- what the search ignores in a snippet ----

  ghost predicate AllBlank(lines: seq<string>) {
    forall i :: 0 <= i < |lines| ==> Blank(lines[i])
  }

  lemma {:induction false} DropBlankPrefix(b: seq<string>, x: seq<string>)
    requires AllBlank(b)
    ensures DropBlankHead(b + x) == DropBlankHead(x)
  {
    if b == [] {
      assert b + x == x;
    } else {
      assert (b + x)[1..] == b[1..] + x;
      DropBlankPrefix(b[1..], x);
    }
  }

  lemma {:induction false} DropBlankSuffix(x: seq<string>, a: seq<string>)
    requires AllBlank(a)
    ensures DropBlankTail(x + a) == DropBlankTail(x)
  {
    if a == [] {
      assert x + a == x;
    } else {
      assert (x + a)[..|x + a| - 1] == x + a[..|a| - 1];
      DropBlankSuffix(x, a[..|a| - 1]);
    }
  }

  lemma {:induction false} DropHeadBeforeTail(x: seq<string>, a: seq<string>)
    requires AllBlank(a)
    ensures DropBlankTail(DropBlankHead(x + a)) == DropBlankTail(DropBlankHead(x))
  {
    if x == [] {
      assert x + a == a;
      assert a + [] == a;
      DropBlankPrefix(a, []);
    } else if Blank(x[0]) {
      assert (x + a)[1..] == x[1..] + a;
      DropHeadBeforeTail(x[1..], a);
    } else {
      assert (x + a)[0] == x[0];
      DropBlankSuffix(x, a);
    }
  }

  function Zip(lines: seq<string>, tails: seq<string>): (r: seq<string>)
    requires |lines| == |tails|
    ensures |r| == |lines|
  {
    seq(|lines|, i requires 0 <= i < |lines| && |lines| == |tails| => lines[i] + tails[i])
  }

  ghost predicate Lines(lines: seq<string>) {
    forall i :: 0 <= i < |lines| ==> '\n' !in lines[i]
  }

  ghost predicate Trailing(tails: seq<string>) {
    forall i, j :: 0 <= i < |tails| && 0 <= j < |tails[i]| ==> IsTrailing(tails[i][j])
  }

  lemma TrimZip(lines: seq<string>, tails: seq<string>)
    requires |lines| == |tails| && Trailing(tails)
    ensures TrimLines(Zip(lines, tails)) == TrimLines(lines)
  {
    forall i | 0 <= i < |lines|
      ensures TrimLines(Zip(lines, tails))[i] == TrimLines(lines)[i]
    {
      TrimRightOf(lines[i], tails[i], IsTrailing);
    }
  }

  lemma TrimAppend(a: seq<string>, b: seq<string>)
    ensures TrimLines(a + b) == TrimLines(a) + TrimLines(b)
  {
  }

  lemma TrimAllBlank(b: seq<string>)
    requires AllBlank(b)
    ensures AllBlank(TrimLines(b))
  {
    forall i | 0 <= i < |b| ensures Blank(TrimLines(b)[i]) {
      assert Blank(b[i]);
      TrimRightMeaning(b[i], IsTrailing);
    }
  }

  ghost function Noisy(before: seq<string>, lines: seq<string>, tails: seq<string>, after: seq<string>): seq<string>
    requires |lines| == |tails|
  {
    before + (Zip(lines, tails) + after)
  }

  lemma NoisyLines(before: seq<string>, lines: seq<string>, tails: seq<string>, after: seq<string>)
    requires |lines| == |tails| && Trailing(tails)
    requires Lines(before) && Lines(lines) && Lines(after)
    ensures Lines(Noisy(before, lines, tails, after))
    ensures TrimLines(Noisy(before, lines, tails, after)) == TrimLines(before) + (TrimLines(lines) + TrimLines(after))
  {
    forall k | 0 <= k < |lines| ensures '\n' !in Zip(lines, tails)[k] {
      assert '\n' !in tails[k];
    }
    TrimAppend(before, Zip(lines, tails) + after);
    TrimAppend(Zip(lines, tails), after);
    TrimZip(lines, tails);
  }

  lemma EdgesIgnored(b: seq<string>, x: seq<string>, a: seq<string>)
    requires AllBlank(b) && AllBlank(a)
    ensures BlankEdgesDropped(b + (x + a)) == BlankEdgesDropped(x)
  {
    DropBlankPrefix(b, x + a);
    DropHeadBeforeTail(x, a);
  }

  lemma LinesOfText(lines: seq<string>)
    requires lines != [] && Lines(lines)
    ensures TrimmedLines(Join(lines, "\n")) == TrimLines(lines)
  {
    CRLFRedundant(Join(lines, "\n"));
    SplitJoin(lines, '\n');
  }

  /** Trailing whitespace on any line (a CR included, so CRLF text too) and blank lines at either edge
      change neither what a snippet is compared by nor, hence, where it is found. */
  lemma SnippetInvariant(before: seq<string>, lines: seq<string>, tails: seq<string>, after: seq<string>)
    requires lines != [] && |lines| == |tails| && Trailing(tails)
    requires AllBlank(before) && AllBlank(after)
    requires Lines(before) && Lines(lines) && Lines(after)
    ensures var noisy := Join(Noisy(before, lines, tails, after), "\n"); var plain := Join(lines, "\n");
            SnippetLines(noisy) == SnippetLines(plain)
            && forall file, line :: SnippetAt(file, line, noisy) == SnippetAt(file, line, plain)
  {
    NoisyLines(before, lines, tails, after);
    LinesOfText(Noisy(before, lines, tails, after));
    LinesOfText(lines);
    TrimAllBlank(before);
    TrimAllBlank(after);
    EdgesIgnored(TrimLines(before), TrimLines(lines), TrimLines(after));
  }

  // ---- the final newline of a file ----

  /** Neither edge of a trimmed snippet is blank. */
  lemma SnippetEdges(snippet: string)
    ensures var snip := SnippetLines(snippet); snip != [] ==> !Blank(snip[0]) && !Blank(snip[|snip| - 1])
  {
    var head := DropBlankHead(TrimmedLines(snippet));
    assert SnippetLines(snippet) == head[..|DropBlankTail(head)|];
  }

  lemma {:induction false} OutwardSame<T(!new)>(a: seq<T>, b: seq<T>, snip: seq<T>, line: int, distance: nat)
    requires forall start :: Matches(a, snip, start) <==> Matches(b, snip, start)
    ensures Outward(a, snip, line, distance) == Outward(b, snip, line, distance)
    decreases SNIPPET_WINDOW + 1 - distance
  {
    if distance > SNIPPET_WINDOW {
    } else {
      OutwardSame(a, b, snip, line, distance + 1);
    }
  }

  /** No match reaches into an empty line appended to the file. */
  lemma NoMatchAtTheEnd(lines: seq<string>, snip: seq<string>, start: int)
    requires snip != [] && !Blank(snip[|snip| - 1])
    ensures Matches(lines + [""], snip, start) <==> Matches(lines, snip, start)
  {
    var longer := lines + [""];
    if 1 <= start && start - 1 + |snip| == |longer| {
      assert longer[start - 1..start - 1 + |snip|][|snip| - 1] == "";
    } else if 1 <= start && start - 1 + |snip| <= |lines| {
      assert longer[start - 1..start - 1 + |snip|] == lines[start - 1..start - 1 + |snip|];
    }
  }

  /** A newline at the end of a file adds one empty line, and that line changes no search result. */
  lemma FinalNewline(text: string, line: int, snippet: string)
    ensures TrimmedLines(text + "\n") == TrimmedLines(text) + [""]
    ensures SnippetAt(TrimmedLines(text + "\n"), line, snippet) == SnippetAt(TrimmedLines(text), line, snippet)
  {
    CRLFRedundant(text + "\n");
    CRLFRedundant(text);
    assert text + "\n" == text + ['\n'] + "";
    SplitAppend(text, "", '\n');
    TrimAppend(Split(text, '\n'), [""]);
    assert TrimLines([""]) == [""];
    var snip := SnippetLines(snippet);
    if snip != [] {
      SnippetEdges(snippet);
      var lines := TrimmedLines(text);
      forall start ensures Matches(lines + [""], snip, start) <==> Matches(lines, snip, start) {
        NoMatchAtTheEnd(lines, snip, start);
      }
      OutwardSame(lines + [""], lines, snip, line, 0);
    }
  }
}
