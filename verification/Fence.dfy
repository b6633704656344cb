/** The fenced blocks of feedback.md (codeFence, renderError, renderFinding and renderScriptFailure of
    internal/feedback/feedback.go) against the reader of CommonMark 0.31, sections 2.1 (lines) and 4.5
    (fenced code blocks). */
module Fence {
  import opened Text

  const NL := '\n'

  // ---- the writer ----

  /** k backticks in a row from index i on. */
  predicate Ticks(s: string, i: nat, k: nat) {
    i + k <= |s| && forall j :: i <= j < i + k ==> s[j] == '`'
  }

  ghost predicate HasRun(s: string, k: nat) {
    exists i: nat :: Ticks(s, i, k)
  }

  /** The fence for a content: backticks only, at least three, longer than every run in the content, and
      no longer than that takes. */
  ghost predicate FenceFor(fence: string, content: string) {
    && |fence| >= 3 && Ticks(fence, 0, |fence|)
    && !HasRun(content, |fence|)
    && (|fence| > 3 ==> HasRun(content, |fence| - 1))
  }

  predicate LiesAt(s: string, from: nat, line: string) {
    from + |line| <= |s| && s[from..from + |line|] == line
  }

  ghost predicate Inside(part: string, s: string) {
    exists i: nat :: LiesAt(s, i, part)
  }

  lemma RunIsInside(run: string, s: string)
    requires forall c :: c in run ==> c == '`'
    ensures HasRun(s, |run|) <==> Inside(run, s)
  {
    forall i: nat ensures Ticks(s, i, |run|) <==> LiesAt(s, i, run) {
      if i + |run| <= |s| {
        assert forall j :: i <= j < i + |run| ==> s[j] == s[i..i + |run|][j - i];
        assert forall j :: 0 <= j < |run| ==> run[j] in run;
      }
    }
  }

  /** The shortest run of three or more backticks that is not in the content. */
  lemma FenceMeaning(fence: string, content: string)
    ensures FenceFor(fence, content) <==>
              && |fence| >= 3 && (forall c :: c in fence ==> c == '`') && !Inside(fence, content)
              && (fence == "```" || Inside(fence[1..], content))
  {
    if |fence| >= 3 && forall c :: c in fence ==> c == '`' {
      assert forall i :: 0 <= i < |fence| ==> fence[i] in fence;
      assert Ticks(fence, 0, |fence|) && forall c :: c in fence[1..] ==> c in fence;
      RunIsInside(fence, content);
      RunIsInside(fence[1..], content);
      assert |fence| == 3 ==> fence == [fence[0], fence[1], fence[2]];
    }
    assert Ticks(fence, 0, |fence|) ==> forall c :: c in fence ==> c == '`';
  }

  /** The runs of the first i + 1 characters that end at the last one. */
  lemma RunsEndingAt(content: string, i: nat, run: nat, k: nat, j: nat)
    requires i < |content| && run <= i && Ticks(content, i - run, run) && (run < i ==> content[i - run - 1] != '`')
    requires Ticks(content, j, k) && j + k == i + 1
    ensures k > 0 ==> content[i] == '`' && k <= run + 1
  {
    if k > 0 {
      assert content[j + k - 1] == '`';
    }
  }

  method CodeFence(content: string) returns (fence: string)
    ensures FenceFor(fence, content)
  {
    var longest, run := 0, 0;
    assert Ticks(content, 0, 0);
    for i := 0 to |content|
      invariant 0 <= run <= longest && run <= i
      invariant Ticks(content, i - run, run) && (run < i ==> content[i - run - 1] != '`')
      invariant HasRun(content, longest)
      invariant forall k: nat, j: nat :: Ticks(content, j, k) && j + k <= i ==> k <= longest
    {
      ghost var before := run;
      if content[i] == '`' {
        run := run + 1;
        if run > longest {
          longest := run;
        }
      } else {
        run := 0;
      }
      assert Ticks(content, i + 1 - run, run);
      forall k: nat, j: nat | Ticks(content, j, k) && j + k <= i + 1 ensures k <= longest {
        if j + k == i + 1 {
          RunsEndingAt(content, i, before, k, j);
        }
      }
    }
    var n := longest + 1;
    if n < 3 {
      n := 3;
    }
    fence := seq(n, _ => '`');
  }

  /** The block the renderers emit: opening line, content, closing fence. */
  function Fenced(fence: string, lang: string, content: string): string {
    fence + lang + [NL] + content + [NL] + fence
  }

  // ---- the reader ----

  predicate IsEnding(c: char) { c == '\n' || c == '\r' }

  /** The index of the first line ending, or the length. */
  function LineEnd(s: string): (k: nat)
    ensures k <= |s|
  {
    if s == "" || IsEnding(s[0]) then 0 else 1 + LineEnd(s[1..])
  }

  lemma LineEndMeaning(s: string)
    ensures var k := LineEnd(s); (k < |s| ==> IsEnding(s[k])) && forall i :: 0 <= i < k ==> !IsEnding(s[i])
  {
  }

  /** A newline, a carriage return, or both in that order are one line ending. */
  function AfterLine(s: string, k: nat): (n: nat)
    requires k <= |s|
    ensures k <= n <= |s| && (k < |s| ==> k < n)
  {
    if k == |s| then k else if s[k] == '\r' && k + 1 < |s| && s[k + 1] == '\n' then k + 2 else k + 1
  }

  function Lines(s: string): seq<string> {
    if s == "" then []
    else var k := LineEnd(s); [s[..k]] + Lines(s[AfterLine(s, k)..])
  }

  lemma {:induction false} LineStarts(a: string, s: string)
    requires (forall c :: c in a ==> !IsEnding(c)) && (s == "" || IsEnding(s[0]))
    ensures a + s != "" ==> Lines(a + s) == [a] + Lines(s[AfterLine(s, 0)..])
  {
    var t := a + s;
    assert forall i :: 0 <= i < |a| ==> t[i] == a[i] && a[i] in a;
    assert s != "" ==> t[|a|] == s[0];
    assert |s| > 1 ==> t[|a| + 1] == s[1];
    LineEndOf(t, |a|);
    if t != "" {
      LinesFrom(t, |a|);
      assert t[..|a|] == a && t[AfterLine(t, |a|)..] == s[AfterLine(s, 0)..];
    }
  }

  lemma {:induction false} EndingLength(ending: string, b: string)
    requires ending in {"\n", "\r\n"} || (ending == "\r" && (b == "" || b[0] != '\n'))
    ensures IsEnding((ending + b)[0]) && AfterLine(ending + b, 0) == |ending|
  {
  }

  /** A newline, both, and a carriage return before no newline end one line. */
  lemma {:induction false} LinesMeaning(a: string, ending: string, b: string)
    requires forall c :: c in a ==> c != '\n' && c != '\r'
    requires ending in {"\n", "\r\n"} || (ending == "\r" && (b == "" || b[0] != '\n'))
    ensures Lines(a + ending + b) == [a] + Lines(b)
  {
    EndingLength(ending, b);
    LineStarts(a, ending + b);
    assert a + (ending + b) == a + ending + b;
    assert (ending + b)[|ending|..] == b;
  }

  function Leading(s: string, c: char): (n: nat)
    ensures n <= |s| && (forall i :: 0 <= i < n ==> s[i] == c) && (n < |s| ==> s[n] != c)
  {
    if s != "" && s[0] == c then 1 + Leading(s[1..], c) else 0
  }

  /** Up to three spaces, at least three backticks, and an info string without backticks. */
  function Opens(line: string): Option<(nat, string)> {
    var indent := Leading(line, ' ');
    var ticks := Leading(line[indent..], '`');
    var info := line[indent + ticks..];
    if indent <= 3 && ticks >= 3 && '`' !in info then Some((ticks, info)) else None
  }

  /** Up to three spaces, at least n backticks, then only spaces and tabs. */
  predicate Closes(line: string, n: nat) {
    var indent := Leading(line, ' ');
    var ticks := Leading(line[indent..], '`');
    && indent <= 3 && ticks >= n
    && forall i :: indent + ticks <= i < |line| ==> line[i] == ' ' || line[i] == '\t'
  }

  function Times(n: nat, c: char): string {
    seq(n, i => c)
  }

  lemma LeadingOf(n: nat, c: char, rest: string)
    requires rest == "" || rest[0] != c
    ensures Leading(Times(n, c) + rest, c) == n && (Times(n, c) + rest)[n..] == rest
  {
    var s := Times(n, c) + rest;
    assert forall i :: 0 <= i < n ==> s[i] == c;
    assert rest != "" ==> s[n] == rest[0];
  }

  lemma LeadingCut(s: string, c: char)
    ensures s == Times(Leading(s, c), c) + s[Leading(s, c)..]
  {
  }

  lemma IndentOf(indent: nat, ticks: nat, rest: string)
    requires ticks > 0 && (rest == "" || rest[0] != '`')
    ensures var line := Times(indent, ' ') + (Times(ticks, '`') + rest);
            Leading(line, ' ') == indent && Leading(line[indent..], '`') == ticks && line[indent + ticks..] == rest
  {
    var tail := Times(ticks, '`') + rest;
    assert tail[0] == '`';
    LeadingOf(indent, ' ', tail);
    LeadingOf(ticks, '`', rest);
    assert (Times(indent, ' ') + tail)[indent + ticks..] == tail[ticks..];
  }

  lemma {:induction false} OpensOf(indent: nat, ticks: nat, info: string)
    requires indent <= 3 && ticks >= 3 && '`' !in info
    ensures Opens(Times(indent, ' ') + (Times(ticks, '`') + info)) == Some((ticks, info))
  {
    IndentOf(indent, ticks, info);
  }

  lemma {:induction false} OpensOnly(line: string) returns (indent: nat)
    requires Opens(line).Some?
    ensures var (ticks, info) := Opens(line).value;
            && indent <= 3 && ticks >= 3 && '`' !in info
            && line == Times(indent, ' ') + (Times(ticks, '`') + info)
  {
    indent := Leading(line, ' ');
    LeadingCut(line, ' ');
    LeadingCut(line[indent..], '`');
    assert line[indent..][Opens(line).value.0..] == Opens(line).value.1;
  }

  predicate Blanks(s: string) {
    forall i :: 0 <= i < |s| ==> s[i] == ' ' || s[i] == '\t'
  }

  lemma {:induction false} ClosesOf(indent: nat, ticks: nat, rest: string, n: nat)
    requires indent <= 3 && ticks >= n > 0 && Blanks(rest)
    ensures Closes(Times(indent, ' ') + (Times(ticks, '`') + rest), n)
  {
    IndentOf(indent, ticks, rest);
    var line := Times(indent, ' ') + (Times(ticks, '`') + rest);
    assert forall i :: indent + ticks <= i < |line| ==> line[i] == rest[i - (indent + ticks)];
  }

  lemma {:induction false} ClosesOnly(line: string, n: nat) returns (indent: nat, ticks: nat, rest: string)
    requires Closes(line, n)
    ensures indent <= 3 && ticks >= n && Blanks(rest)
    ensures line == Times(indent, ' ') + (Times(ticks, '`') + rest)
  {
    indent := Leading(line, ' ');
    ticks := Leading(line[indent..], '`');
    rest := line[indent + ticks..];
    LeadingCut(line, ' ');
    LeadingCut(line[indent..], '`');
    assert line[indent..][ticks..] == rest;
    assert forall i :: 0 <= i < |rest| ==> rest[i] == line[indent + ticks + i];
  }

  function FirstClosing(lines: seq<string>, n: nat): (k: nat)
    ensures k <= |lines|
    ensures forall i :: 0 <= i < k ==> !Closes(lines[i], n)
    ensures k < |lines| ==> Closes(lines[k], n)
  {
    if lines == [] || Closes(lines[0], n) then 0 else 1 + FirstClosing(lines[1..], n)
  }

  /** A fenced block read off the lines: its info string, its content, whether it was closed, and what
      follows it. */
  datatype Block = Block(info: string, content: seq<string>, closed: bool, rest: seq<string>)

  function ReadBlock(lines: seq<string>): Option<Block> {
    if lines == [] then None
    else match Opens(lines[0])
      case None => None
      case Some((n, info)) =>
        var k := FirstClosing(lines[1..], n);
        var body := lines[1..];
        Some(Block(info, body[..k], k < |body|, if k < |body| then body[k + 1..] else []))
  }

  // ---- reading back what was written ----

  lemma LineEndOf(s: string, k: nat)
    requires k <= |s| && (forall i :: 0 <= i < k ==> !IsEnding(s[i])) && (k < |s| ==> IsEnding(s[k]))
    ensures LineEnd(s) == k
  {
    LineEndMeaning(s);
  }

  /** The first line of a text that is cut by a newline after a. */
  lemma FirstLineCut(a: string, b: string)
    ensures var s, t := a + [NL] + b, a + [NL]; var k := LineEnd(t); var n := AfterLine(t, k);
            && LineEnd(s) == k && k <= |a| && s[..k] == t[..k] && AfterLine(s, k) == n
            && (if n == |t| then s[n..] == b else n <= |a| && s[n..] == a[n..] + [NL] + b && t[n..] == a[n..] + [NL])
  {
    var s, t := a + [NL] + b, a + [NL];
    var k := LineEnd(t);
    assert t[|a|] == NL;
    assert forall i :: 0 <= i <= |a| ==> s[i] == t[i];
    LineEndMeaning(t);
    LineEndOf(s, k);
  }

  /** A newline cuts the text for the reader, even after a carriage return. */
  lemma {:induction false} LinesCut(a: string, b: string)
    ensures Lines(a + [NL] + b) == Lines(a + [NL]) + Lines(b)
    decreases |a|
  {
    var s, t := a + [NL] + b, a + [NL];
    var k := LineEnd(t);
    var n := AfterLine(t, k);
    FirstLineCut(a, b);
    LinesFrom(s, k);
    LinesFrom(t, k);
    if n == |t| {
      LinesNone(t[n..]);
    } else {
      LinesCut(a[n..], b);
      Regroup([t[..k]], Lines(t[n..]), Lines(b));
    }
  }

  lemma LinesFrom(s: string, k: nat)
    requires s != [] && k == LineEnd(s)
    ensures Lines(s) == [s[..k]] + Lines(s[AfterLine(s, k)..])
  {
  }

  lemma LinesNone(s: string)
    requires |s| == 0
    ensures Lines(s) == []
  {
  }

  lemma OneLine(line: string, rest: string)
    requires forall c :: c in line ==> !IsEnding(c)
    ensures Lines(line + [NL] + rest) == [line] + Lines(rest)
  {
    var s := line + [NL];
    LinesCut(line, rest);
    LineEndOf(s, |line|);
    LinesFrom(s, |line|);
    assert s[..|line|] == line;
    LinesNone(s[|line| + 1..]);
  }

  lemma {:induction false} LineOf(s: string, i: nat)
    requires i < |Lines(s)|
    ensures s != [] && var n := AfterLine(s, LineEnd(s));
            if i == 0 then Lines(s)[i] == s[..LineEnd(s)]
            else i - 1 < |Lines(s[n..])| && Lines(s)[i] == Lines(s[n..])[i - 1]
  {
    assert s != [];
    LinesFrom(s, LineEnd(s));
  }

  /** What the reader sees of any line of a text is a stretch of that text. */
  lemma {:induction false} LineInside(s: string, i: nat) returns (from: nat)
    requires i < |Lines(s)|
    ensures LiesAt(s, from, Lines(s)[i])
    decreases |s|
  {
    var k := LineEnd(s);
    var n := AfterLine(s, k);
    LineOf(s, i);
    if i == 0 {
      from := 0;
    } else {
      var deep := LineInside(s[n..], i - 1);
      LiesDeeper(s, n, deep, Lines(s[n..])[i - 1]);
      from := n + deep;
    }
  }

  lemma LiesDeeper(s: string, n: nat, from: nat, line: string)
    requires n <= |s| && LiesAt(s[n..], from, line)
    ensures LiesAt(s, n + from, line)
  {
    assert s[n + from..n + from + |line|] == s[n..][from..from + |line|];
  }

  /** A line that closes an n-fence holds n backticks in a row. */
  lemma ClosingTicks(line: string, n: nat) returns (at: nat)
    requires Closes(line, n)
    ensures Ticks(line, at, n)
  {
    at := Leading(line, ' ');
    forall j | at <= j < at + n ensures line[j] == '`' {
      assert line[j] == line[at..][j - at];
    }
  }

  /** A run inside a line of the content is a run of the content. */
  lemma RunInside(content: string, line: string, from: nat, at: nat, n: nat)
    requires n >= 1 && LiesAt(content + [NL], from, line) && Ticks(line, at, n)
    ensures Ticks(content, from + at, n)
  {
    var s := content + [NL];
    forall j | from + at <= j < from + at + n ensures s[j] == '`' {
      assert s[from..from + |line|][j - from] == line[j - from];
    }
    assert s[|content|] == NL && from + at + n <= |s|;
    assert from + at + n <= |content|;
    forall j | from + at <= j < from + at + n ensures content[j] == '`' {
      assert s[j] == content[j];
    }
  }

  lemma ClosingHasRun(content: string, i: nat, n: nat)
    requires n >= 1 && i < |Lines(content + [NL])| && Closes(Lines(content + [NL])[i], n)
    ensures HasRun(content, n)
  {
    var line := Lines(content + [NL])[i];
    var from := LineInside(content + [NL], i);
    var at := ClosingTicks(line, n);
    RunInside(content, line, from, at, n);
  }

  lemma OpensFence(fence: string, lang: string)
    requires |fence| >= 3 && Ticks(fence, 0, |fence|) && '`' !in lang
    ensures Opens(fence + lang) == Some((|fence|, lang))
  {
    var line := fence + lang;
    assert line[0] == '`' && line[0..] == line;
    assert forall i :: 0 <= i < |fence| ==> line[i] == fence[i];
    assert lang != [] ==> line[|fence|] == lang[0] && lang[0] in lang;
    assert line[|fence|..] == lang;
  }

  lemma ClosesFence(fence: string)
    requires |fence| >= 3 && Ticks(fence, 0, |fence|)
    ensures Closes(fence, |fence|)
  {
    assert fence[0] == '`' && fence[0..] == fence;
  }

  lemma FirstClosingIs(lines: seq<string>, k: nat, n: nat)
    requires k < |lines| && Closes(lines[k], n) && forall i :: 0 <= i < k ==> !Closes(lines[i], n)
    ensures FirstClosing(lines, n) == k
  {
  }

  lemma LinesOfBlock(open: string, fence: string, content: string, after: string)
    requires forall c :: c in open ==> !IsEnding(c)
    requires forall c :: c in fence ==> !IsEnding(c)
    ensures Lines(open + [NL] + (content + [NL] + (fence + [NL] + after))) ==
              [open] + (Lines(content + [NL]) + ([fence] + Lines(after)))
  {
    OneLine(open, content + [NL] + (fence + [NL] + after));
    LinesCut(content, fence + [NL] + after);
    OneLine(fence, after);
  }

  lemma ReadsBlock(open: string, n: nat, info: string, body: seq<string>, fence: string, after: seq<string>)
    requires Opens(open) == Some((n, info)) && Closes(fence, n)
    requires forall i :: 0 <= i < |body| ==> !Closes(body[i], n)
    ensures ReadBlock([open] + (body + ([fence] + after))) == Some(Block(info, body, true, after))
  {
    var rest := body + ([fence] + after);
    assert rest[|body|] == fence;
    FirstClosingIs(rest, |body|, n);
    assert ([open] + rest)[1..] == rest && rest[..|body|] == body && rest[|body| + 1..] == after;
  }

  /** Whatever the content and whatever follows on the next line, a CommonMark reader closes the block at
      the fence that was emitted, and its content is the content's lines. */
  lemma FenceRoundTrip(fence: string, lang: string, content: string, after: string)
    requires FenceFor(fence, content)
    requires forall c :: c in lang ==> !IsEnding(c) && c != '`'
    ensures ReadBlock(Lines(Fenced(fence, lang, content) + [NL] + after)) ==
              Some(Block(lang, Lines(content + [NL]), true, Lines(after)))
  {
    var doc := Fenced(fence, lang, content) + [NL] + after;
    assert doc == (fence + lang) + [NL] + (content + [NL] + (fence + [NL] + after));
    assert forall c :: c in fence ==> c == '`';
    LinesOfBlock(fence + lang, fence, content, after);
    OpensFence(fence, lang);
    ClosesFence(fence);
    var body := Lines(content + [NL]);
    forall i | 0 <= i < |body| ensures !Closes(body[i], |fence|) {
      if Closes(body[i], |fence|) {
        ClosingHasRun(content, i, |fence|);
      }
    }
    ReadsBlock(fence + lang, |fence|, lang, body, fence, Lines(after));
  }

  // ---- language tags ----

  /** Extensions that are their own tag. */
  const SAME: seq<string> :=
    ["ts", "tsx", "go", "py", "rs", "js", "jsx", "json", "sh", "md", "yaml", "toml", "java", "c", "cpp", "rb",
     "php", "css", "scss", "html", "sql", "swift", "proto", "graphql", "vue", "svelte", "lua", "xml"]

  /** The table of extensions, lower-case and without their dot. */
  function LangForExt(ext: string): string {
    if ext in SAME then ext
    else if ext == "mjs" || ext == "cjs" then "js"
    else if ext == "json5" then "json"
    else if ext == "bash" || ext == "zsh" then "sh"
    else if ext == "markdown" then "md"
    else if ext == "yml" then "yaml"
    else if ext == "h" then "c"
    else if ext == "cc" || ext == "hpp" then "cpp"
    else if ext == "htm" then "html"
    else if ext == "kt" || ext == "kts" then "kotlin"
    else ""
  }

  predicate Lower(s: string) {
    forall i :: 0 <= i < |s| ==> 'a' <= s[i] <= 'z'
  }

  lemma SameAreLower(i: nat)
    requires i < |SAME|
    ensures Lower(SAME[i])
  {
  }

  /** Every tag consists of small letters. */
  lemma TagsAreLower(ext: string)
    ensures Lower(LangForExt(ext))
  {
    if ext in SAME {
      var i :| 0 <= i < |SAME| && SAME[i] == ext;
      SameAreLower(i);
    }
  }

  /** So the block of a snippet comes back whatever the file's extension, the content and the text behind. */
  lemma SnippetComesBack(fence: string, ext: string, content: string, after: string)
    requires FenceFor(fence, content)
    ensures ReadBlock(Lines(Fenced(fence, LangForExt(ext), content) + [NL] + after)) ==
              Some(Block(LangForExt(ext), Lines(content + [NL]), true, Lines(after)))
  {
    TagsAreLower(ext);
    FenceRoundTrip(fence, LangForExt(ext), content, after);
  }

  /** Without carriage returns the content comes back character by character. */
  lemma ContentComesBack(content: string)
    requires '\r' !in content
    ensures Join(Lines(content + [NL]), [NL]) == content
  {
    LinesAreSplit(content);
    JoinSplit(content, NL);
  }

  lemma {:induction false} LinesAreSplit(content: string)
    requires '\r' !in content
    ensures Lines(content + [NL]) == Split(content, NL)
    decreases |content|
  {
    var k := LineEnd(content);
    var line := content[..k];
    LineEndMeaning(content);
    SplitWhole(line, NL);
    OneLine(line, []);
    assert line + [NL] + [] == line + [NL];
    if k == |content| {
      assert content == line;
    } else {
      var rest := content[k + 1..];
      assert content[k] == NL && content == line + [NL] + rest;
      SplitAppend(line, rest, NL);
      assert content + [NL] == line + [NL] + (rest + [NL]);
      OneLine(line, rest + [NL]);
      LinesAreSplit(rest);
    }
  }
}
