/** The split of a rule file into YAML frontmatter and body (parseFrontmatter of
    internal/config/frontmatter.go). Decoding the YAML is a parameter. */
module Frontmatter {
  import opened Text
  import opened Citations

  const NL := '\n'
  const CR := '\r'
  const BOM := '\U{FEFF}'

  datatype Error = Unterminated | BadYAML(detail: string)

  /** Three hyphens and nothing else but space. */
  predicate IsDelimiter(line: string) {
    var t := TrimSpace(line);
    |t| == 3 && t[0] == '-' && t[1] == '-' && t[2] == '-'
  }

  predicate IsBlank(line: string) {
    |TrimSpace(line)| == 0
  }

  lemma LineMeaning(line: string)
    ensures IsDelimiter(line) <==> TrimSpace(line) == "---"
    ensures IsBlank(line) <==> TrimSpace(line) == ""
  {
    if IsDelimiter(line) {
      assert TrimSpace(line) == "---";
    }
  }

  function StripBOM(data: string): string {
    if data != "" && data[0] == BOM then data[1..] else data
  }

  function ReplaceCR(s: string): string {
    if s == "" then "" else [if s[0] == CR then NL else s[0]] + ReplaceCR(s[1..])
  }

  /** Every line ending, in any of its three forms, as one newline. */
  function Endings(s: string): string {
    if s == "" then ""
    else if s[0] == CR then [NL] + Endings(if |s| > 1 && s[1] == NL then s[2..] else s[1..])
    else [s[0]] + Endings(s[1..])
  }

  lemma {:induction false} TwoReplacements(s: string)
    ensures ReplaceCR(ReplaceCRLF(s)) == Endings(s)
  {
    if |s| >= 2 && s[0] == CR && s[1] == NL {
      TwoReplacements(s[2..]);
      assert ("\n" + ReplaceCRLF(s[2..]))[1..] == ReplaceCRLF(s[2..]);
    } else if s == "" {
    } else {
      TwoReplacements(s[1..]);
      assert ([s[0]] + ReplaceCRLF(s[1..]))[1..] == ReplaceCRLF(s[1..]);
    }
  }

  // ---- the two scans ----

  /** The index of the first element that is p, or the length. */
  function First<T>(xs: seq<T>, p: T -> bool): (i: nat)
    ensures i <= |xs| && (forall j :: 0 <= j < i ==> !p(xs[j])) && (i < |xs| ==> p(xs[i]))
  {
    if xs == [] || p(xs[0]) then 0 else 1 + First(xs[1..], p)
  }

  lemma FirstIs<T>(xs: seq<T>, p: T -> bool, i: nat)
    requires i <= |xs| && (forall j :: 0 <= j < i ==> !p(xs[j])) && (i < |xs| ==> p(xs[i]))
    ensures First(xs, p) == i
  {
  }

  lemma FirstFrom<T>(xs: seq<T>, p: T -> bool, from: nat, i: nat)
    requires from <= i <= |xs| && (forall j :: from <= j < i ==> !p(xs[j])) && (i < |xs| ==> p(xs[i]))
    ensures First(xs[from..], p) == i - from
    ensures i < |xs| ==> xs[from..][..i - from] == xs[from..i] && xs[from..][i - from + 1..] == xs[i + 1..]
  {
    FirstIs(xs[from..], p, i - from);
  }

  /** How the lines of a file divide: no opener, an opener that is never closed, or a block and a body. */
  datatype Division<+T> = Bare | Open | Divided(block: seq<T>, body: seq<T>)

  function Divide<T>(lines: seq<T>, blank: T -> bool, delimiter: T -> bool): Division<T> {
    var i := First(lines, line => !blank(line));
    if i >= |lines| || !delimiter(lines[i]) then Bare
    else
      var rest := lines[i + 1..];
      var j := First(rest, delimiter);
      if j >= |rest| then Open else Divided(rest[..j], rest[j + 1..])
  }

  /** What a division of the content yields: the decoded keys and the body, or an error. */
  function Assembled<Y>(content: string, d: Division<string>, decode: string -> Result<Y, string>,
      none: Y): Result<(Y, string), Error> {
    match d
    case Bare => Ok((none, TrimSpace(content)))
    case Open => Err(Unterminated)
    case Divided(block, body) =>
      var yaml := Join(block, [NL]);
      if IsBlank(yaml) then Ok((none, TrimSpace(Join(body, [NL]))))
      else match decode(yaml)
        case Ok(keys) => Ok((keys, TrimSpace(Join(body, [NL]))))
        case Err(e) => Err(BadYAML(e))
  }

  /** The parse once BOM and line endings are out of the way. */
  function Decoded<Y>(content: string, decode: string -> Result<Y, string>, none: Y): Result<(Y, string), Error> {
    Assembled(content, Divide(Split(content, NL), IsBlank, IsDelimiter), decode, none)
  }

  function Parsed<Y>(data: string, decode: string -> Result<Y, string>, none: Y): Result<(Y, string), Error> {
    Decoded(Endings(StripBOM(data)), decode, none)
  }

  /** The two loops over the lines. */
  method Scan<T>(lines: seq<T>, blank: T -> bool, delimiter: T -> bool) returns (d: Division<T>)
    ensures d == Divide(lines, blank, delimiter)
  {
    var i := 0;
    while i < |lines| && blank(lines[i])
      invariant 0 <= i <= |lines| && forall k :: 0 <= k < i ==> blank(lines[k])
    {
      i := i + 1;
    }
    FirstIs(lines, line => !blank(line), i);
    if i >= |lines| || !delimiter(lines[i]) {
      return Bare;
    }
    var start := i + 1;
    var j := start;
    while j < |lines| && !delimiter(lines[j])
      invariant start <= j <= |lines| && forall k :: start <= k < j ==> !delimiter(lines[k])
    {
      j := j + 1;
    }
    FirstFrom(lines, delimiter, start, j);
    if j >= |lines| {
      return Open;
    }
    return Divided(lines[start..j], lines[j + 1..]);
  }

  method Assemble<Y>(content: string, d: Division<string>, decode: string -> Result<Y, string>, none: Y)
    returns (r: Result<(Y, string), Error>)
    ensures r == Assembled(content, d, decode, none)
  {
    match d
    case Bare => return Ok((none, TrimSpace(content)));
    case Open => return Err(Unterminated);
    case Divided(block, rest) =>
      var yaml := Join(block, [NL]);
      var body := TrimSpace(Join(rest, [NL]));
      if IsBlank(yaml) {
        return Ok((none, body));
      }
      var keys := decode(yaml);
      if keys.Err? {
        return Err(BadYAML(keys.error));
      }
      return Ok((keys.value, body));
  }

  method ParseFrontmatter<Y>(data: string, decode: string -> Result<Y, string>, none: Y)
    returns (r: Result<(Y, string), Error>)
    ensures r == Parsed(data, decode, none)
  {
    var content := ReplaceCRLF(StripBOM(data));
    content := ReplaceCR(content);
    TwoReplacements(StripBOM(data));
    var d := Scan(Split(content, NL), IsBlank, IsDelimiter);
    r := Assemble(content, d, decode, none);
  }

  // ---- files as they are written ----

  /** No newline and no carriage return. */
  predicate OneLiner(line: string) {
    '\n' !in line && '\r' !in line
  }

  /** The lines of a head, each with the file's line ending, then the body as it stands. */
  function Written(head: seq<string>, eol: string, body: string): string {
    if head == [] then body else head[0] + eol + Written(head[1..], eol, body)
  }

  predicate IsEol(eol: string) {
    eol == "\n" || eol == "\r\n" || eol == "\r"
  }

  lemma {:induction false} EndingsOfLine(line: string, rest: string)
    requires OneLiner(line)
    ensures Endings(line + rest) == line + Endings(rest)
  {
    if line == "" {
      assert line + rest == rest;
    } else {
      assert (line + rest)[1..] == line[1..] + rest;
      EndingsOfLine(line[1..], rest);
    }
  }

  /** One line of the head; a lone carriage return swallows a newline that follows it. */
  lemma EndingsOfHead(line: string, eol: string, rest: string)
    requires OneLiner(line) && IsEol(eol)
    ensures Endings(line + eol + rest) ==
              line + [NL] + Endings(if eol == [CR] && rest != "" && rest[0] == NL then rest[1..] else rest)
  {
    assert line + eol + rest == line + (eol + rest);
    EndingsOfLine(line, eol + rest);
    var s := eol + rest;
    if eol == [CR] {
      assert s[1..] == rest;
      assert rest != "" && rest[0] == NL ==> s[2..] == rest[1..];
    } else if eol == [NL] {
      assert s[1..] == rest;
    } else {
      assert s[2..] == rest;
    }
  }

  lemma TrimSpaceNewline(s: string)
    ensures TrimSpace([NL] + s) == TrimSpace(s)
  {
    assert ([NL] + s)[1..] == s;
  }

  /** Whatever the line ending, the parser sees the head's lines and, up to leading newlines, the body. */
  lemma {:induction false} EndingsOfWritten(head: seq<string>, eol: string, body: string) returns (seen: string)
    requires IsEol(eol) && forall line :: line in head ==> OneLiner(line)
    ensures Endings(Written(head, eol, body)) == Written(head, [NL], seen)
    ensures TrimSpace(seen) == TrimSpace(Endings(body))
    ensures || seen == Endings(body)
            || (head != [] && eol == [CR] && body != "" && body[0] == NL && seen == Endings(body[1..]))
  {
    if head == [] {
      seen := Endings(body);
    } else {
      var rest := Written(head[1..], eol, body);
      EndingsOfHead(head[0], eol, rest);
      if |head| == 1 && eol == [CR] && body != "" && body[0] == NL {
        seen := Endings(body[1..]);
        TrimSpaceNewline(seen);
      } else {
        seen := EndingsOfWritten(head[1..], eol, body);
        NoStrayNewline(head[1..], eol, body);
      }
    }
  }

  lemma NoStrayNewline(head: seq<string>, eol: string, body: string)
    requires IsEol(eol) && forall line :: line in head ==> OneLiner(line)
    ensures eol == [CR] && head != [] ==> Written(head, eol, body) != "" && Written(head, eol, body)[0] != NL
  {
    if head != [] && head[0] != "" {
      assert head[0] in head && head[0][0] in head[0];
    }
  }

  lemma {:induction false} SplitWritten(head: seq<string>, body: string)
    requires forall line :: line in head ==> OneLiner(line)
    ensures Split(Written(head, [NL], body), NL) == head + Split(body, NL)
  {
    if head == [] {
      assert head + Split(body, NL) == Split(body, NL);
    } else {
      assert head[0] in head;
      SplitWhole(head[0], NL);
      SplitAppend(head[0], Written(head[1..], [NL], body), NL);
      SplitWritten(head[1..], body);
      Regroup([head[0]], head[1..], Split(body, NL));
      assert head == [head[0]] + head[1..];
    }
  }

  predicate IsHead(blanks: seq<string>, opener: string, block: seq<string>, closer: string) {
    && (forall line :: line in blanks ==> OneLiner(line) && TrimSpace(line) == "")
    && OneLiner(opener) && TrimSpace(opener) == "---" && OneLiner(closer) && TrimSpace(closer) == "---"
    && (forall line :: line in block ==> OneLiner(line) && TrimSpace(line) != "---")
  }

  lemma HeadDelimits(blanks: seq<string>, opener: string, block: seq<string>, closer: string)
    requires IsHead(blanks, opener, block, closer)
    ensures forall line :: line in blanks ==> IsBlank(line)
    ensures IsDelimiter(opener) && IsDelimiter(closer) && forall line :: line in block ==> !IsDelimiter(line)
  {
    LineMeaning(opener);
    LineMeaning(closer);
    forall line | line in block ensures !IsDelimiter(line) {
      LineMeaning(line);
    }
  }

  lemma Around<T>(before: seq<T>, x: T, after: seq<T>)
    ensures var xs := before + ([x] + after);
            |before| < |xs| && xs[|before|] == x && xs[|before| + 1..] == after && xs[..|before|] == before
  {
  }

  lemma {:induction false} FirstAfter<T>(before: seq<T>, x: T, after: seq<T>, p: T -> bool)
    requires (forall y :: y in before ==> !p(y)) && p(x)
    ensures First(before + ([x] + after), p) == |before|
    ensures var xs := before + ([x] + after);
            xs[|before|] == x && xs[|before| + 1..] == after && xs[..|before|] == before
  {
    var xs := before + ([x] + after);
    Around(before, x, after);
    forall i | 0 <= i < |before| ensures !p(xs[i]) {
      assert xs[i] == xs[..|before|][i] == before[i];
    }
    FirstIs(xs, p, |before|);
  }

  lemma DividesWritten<T>(blanks: seq<T>, opener: T, block: seq<T>, closer: T, rest: seq<T>, blank: T -> bool,
      delimiter: T -> bool)
    requires (forall line :: line in blanks ==> blank(line)) && !blank(opener) && delimiter(opener)
    requires (forall line :: line in block ==> !delimiter(line)) && delimiter(closer)
    ensures Divide(blanks + ([opener] + (block + ([closer] + rest))), blank, delimiter) == Divided(block, rest)
  {
    FirstAfter(blanks, opener, block + ([closer] + rest), line => !blank(line));
    FirstAfter(block, closer, rest, delimiter);
  }

  /** A file written as blank lines, delimiter, YAML, delimiter, body, with any one of the three line
      endings throughout its head and with or without a BOM, parses to that YAML and that body, trimmed. */
  lemma RoundTrip<Y>(bom: bool, blanks: seq<string>, opener: string, block: seq<string>, closer: string,
      eol: string, body: string,
      decode: string -> Result<Y, string>, none: Y)
    requires IsHead(blanks, opener, block, closer) && IsEol(eol)
    ensures var file := (if bom then "\U{FEFF}" else "") + Written(blanks + ([opener] + (block + [closer])), eol, body);
            var yaml := Join(block, [NL]);
            var text := TrimSpace(Endings(body));
            Parsed(file, decode, none) ==
              if TrimSpace(yaml) == "" then Ok((none, text))
              else match decode(yaml) case Ok(keys) => Ok((keys, text)) case Err(e) => Err(BadYAML(e))
  {
    var head := blanks + ([opener] + (block + [closer]));
    HeadIsPlain(blanks, opener, block, closer);
    StripsBOM(bom, head, eol, body);
    var seen := EndingsOfWritten(head, eol, body);
    DividesAsWritten(blanks, opener, block, closer, seen);
    JoinSplit(seen, NL);
  }

  lemma DividesAsWritten(blanks: seq<string>, opener: string, block: seq<string>, closer: string, seen: string)
    requires IsHead(blanks, opener, block, closer)
    ensures var written := Written(blanks + ([opener] + (block + [closer])), [NL], seen);
            Divide(Split(written, NL), IsBlank, IsDelimiter) == Divided(block, Split(seen, NL))
  {
    var rest := Split(seen, NL);
    HeadDelimits(blanks, opener, block, closer);
    HeadIsPlain(blanks, opener, block, closer);
    SplitWritten(blanks + ([opener] + (block + [closer])), seen);
    Regroup(block, [closer], rest);
    Regroup([opener], block + [closer], rest);
    Regroup(blanks, [opener] + (block + [closer]), rest);
    DividesWritten(blanks, opener, block, closer, rest, IsBlank, IsDelimiter);
  }

  lemma HeadIsPlain(blanks: seq<string>, opener: string, block: seq<string>, closer: string)
    requires IsHead(blanks, opener, block, closer)
    ensures var head := blanks + ([opener] + (block + [closer]));
            (forall line :: line in head ==> OneLiner(line)) && (IsBlank(head[0]) || IsDelimiter(head[0]))
  {
    HeadDelimits(blanks, opener, block, closer);
    if blanks != [] {
      assert blanks[0] in blanks;
    }
  }

  lemma StripsBOM(bom: bool, head: seq<string>, eol: string, body: string)
    requires head != [] && IsEol(eol) && (IsBlank(head[0]) || IsDelimiter(head[0]))
    ensures StripBOM((if bom then "\U{FEFF}" else "") + Written(head, eol, body)) == Written(head, eol, body)
  {
    var text := Written(head, eol, body);
    if bom {
      assert ([BOM] + text)[1..] == text;
    } else {
      assert [] + text == text;
      NoBOM(head[0]);
    }
  }

  lemma NoBOM(line: string)
    requires IsBlank(line) || IsDelimiter(line)
    ensures line == "" || line[0] != BOM
  {
    var l := TrimLeft(line, IsSpace);
    TrimRightMeaning(l, IsSpace);
    assert line != "" && !IsSpace(line[0]) ==> l == line;
  }

  // ---- errors ----

  /** An opener: a delimiter with nothing but blank lines before it. */
  ghost predicate OpensAt<T>(lines: seq<T>, blank: T -> bool, delimiter: T -> bool, i: nat) {
    i < |lines| && delimiter(lines[i]) && forall j :: 0 <= j < i ==> blank(lines[j])
  }

  ghost predicate NeverCloses<T>(lines: seq<T>, delimiter: T -> bool, i: nat) {
    forall j :: i < j < |lines| ==> !delimiter(lines[j])
  }

  /** An opener that nothing closes. */
  ghost predicate Unclosed<T>(lines: seq<T>, blank: T -> bool, delimiter: T -> bool) {
    exists i: nat :: OpensAt(lines, blank, delimiter, i) && NeverCloses(lines, delimiter, i)
  }

  ghost predicate NoOpener<T>(lines: seq<T>, blank: T -> bool, delimiter: T -> bool) {
    forall i: nat :: !OpensAt(lines, blank, delimiter, i)
  }

  lemma DivisionMeaning<T>(lines: seq<T>, blank: T -> bool, delimiter: T -> bool)
    requires forall line :: line in lines ==> !(blank(line) && delimiter(line))
    ensures Divide(lines, blank, delimiter).Bare? <==> NoOpener(lines, blank, delimiter)
    ensures Divide(lines, blank, delimiter).Open? <==> Unclosed(lines, blank, delimiter)
  {
    var i := First(lines, line => !blank(line));
    forall k: nat | OpensAt(lines, blank, delimiter, k) ensures k == i {
      assert lines[k] in lines;
    }
    if i < |lines| && delimiter(lines[i]) {
      assert OpensAt(lines, blank, delimiter, i);
      var rest := lines[i + 1..];
      assert forall j :: i < j < |lines| ==> lines[j] == rest[j - i - 1];
    }
  }

  lemma NeverBoth(lines: seq<string>)
    ensures forall line :: line in lines ==> !(IsBlank(line) && IsDelimiter(line))
  {
  }

  lemma AssembledMeaning<Y>(content: string, d: Division<string>, decode: string -> Result<Y, string>, none: Y)
    ensures Assembled(content, d, decode, none) == Err(Unterminated) <==> d.Open?
    ensures d.Bare? ==> Assembled(content, d, decode, none) == Ok((none, TrimSpace(content)))
  {
  }

  /** The first line that is not blank is line i, and it is a delimiter. */
  ghost predicate OpensWith(lines: seq<string>, i: nat) {
    i < |lines| && TrimSpace(lines[i]) == "---" && forall j :: 0 <= j < i ==> TrimSpace(lines[j]) == ""
  }

  lemma OpensMeaning(lines: seq<string>, i: nat)
    ensures OpensWith(lines, i) <==> OpensAt(lines, IsBlank, IsDelimiter, i)
    ensures NeverCloses(lines, IsDelimiter, i) <==> forall j :: i < j < |lines| ==> TrimSpace(lines[j]) != "---"
  {
    forall j | 0 <= j < |lines|
      ensures IsBlank(lines[j]) <==> TrimSpace(lines[j]) == ""
      ensures IsDelimiter(lines[j]) <==> TrimSpace(lines[j]) == "---"
    {
      LineMeaning(lines[j]);
    }
  }

  /** A file is unterminated exactly when an opener is never closed; without an opener it is all body. */
  lemma ErrorsExactly<Y>(data: string, decode: string -> Result<Y, string>, none: Y)
    ensures var content := Endings(StripBOM(data)); var lines := Split(content, '\n');
            && (Parsed(data, decode, none) == Err(Unterminated) <==>
                  exists i: nat :: OpensWith(lines, i) && forall j :: i < j < |lines| ==> TrimSpace(lines[j]) != "---")
            && ((forall i: nat :: !OpensWith(lines, i)) ==>
                  Parsed(data, decode, none) == Ok((none, TrimSpace(content))))
  {
    var content := Endings(StripBOM(data));
    var lines := Split(content, NL);
    forall i: nat
      ensures OpensWith(lines, i) <==> OpensAt(lines, IsBlank, IsDelimiter, i)
      ensures NeverCloses(lines, IsDelimiter, i) <==> forall j :: i < j < |lines| ==> TrimSpace(lines[j]) != "---"
    {
      OpensMeaning(lines, i);
    }
    NeverBoth(lines);
    DivisionMeaning(lines, IsBlank, IsDelimiter);
    AssembledMeaning(content, Divide(lines, IsBlank, IsDelimiter), decode, none);
  }

  /** A byte order mark goes only from the start, and every line ending becomes one newline. */
  lemma PreparesText(text: string)
    ensures StripBOM("\U{FEFF}" + text) == text
    ensures text == "" || text[0] as int != 0xFEFF ==> StripBOM(text) == text
    ensures '\r' !in text ==> Endings(text) == text
    ensures Endings("\r\n" + text) == "\n" + Endings(text)
    ensures text == "" || text[0] != '\n' ==> Endings("\r" + text) == "\n" + Endings(text)
  {
    assert ("\U{FEFF}" + text)[1..] == text;
    assert ("\r\n" + text)[2..] == text && ("\r" + text)[1..] == text;
    if '\r' !in text {
      NoReturns(text);
    }
  }

  lemma {:induction false} NoReturns(text: string)
    requires '\r' !in text
    ensures Endings(text) == text
  {
    if text == "" {
    } else {
      NoReturns(text[1..]);
      assert [text[0]] + text[1..] == text;
    }
  }
}
