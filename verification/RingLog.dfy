/** The capped script log (internal/store/log.go): a writer that keeps the last bytes of everything
    written, and TailLog reading the last lines of what it left. A log is a string of bytes, each carried
    as the character of that code. */
module RingLog {
  import opened Text

  const LOG_CAP_BYTES := 1048576

  /** The last n bytes, or all of them. */
  function Last(s: string, n: nat): string {
    if |s| <= n then s else s[|s| - n..]
  }

  /** It is an end of the text: of n bytes, or the whole of a shorter one. */
  lemma LastIsEnd(s: string, n: nat) returns (before: string)
    ensures s == before + Last(s, n) && |Last(s, n)| == if |s| < n then |s| else n
  {
    before := s[..|s| - |Last(s, n)|];
  }

  /** Forgetting early forgets nothing that counts. */
  lemma LastOfLast(w: string, p: string, n: nat)
    ensures Last(Last(w, n) + p, n) == Last(w + p, n)
  {
    var kept := Last(w, n);
    assert w + p == w[..|w| - |kept|] + (kept + p);
  }

  class RingLogWriter {
    var buf: string
    var closed: bool
    ghost var written: string

    ghost predicate Valid()
      reads this
    {
      buf == Last(written, LOG_CAP_BYTES)
    }

    constructor ()
      ensures Valid() && written == "" && !closed
    {
      buf, written, closed := "", "", false;
    }

    /** Appends, then trims the oldest bytes away. */
    method Write(p: string) returns (n: Result<nat, ()>)
      requires Valid()
      modifies this
      ensures Valid() && closed == old(closed)
      ensures if old(closed) then n == Err(()) && written == old(written)
              else n == Ok(|p|) && written == old(written) + p
    {
      if closed {
        return Err(());
      }
      LastOfLast(written, p, LOG_CAP_BYTES);
      written := written + p;
      buf := buf + p;
      if |buf| > LOG_CAP_BYTES {
        var start := |buf| - LOG_CAP_BYTES;
        buf := buf[start..];
      }
      return Ok(|p|);
    }

    /** What is flushed to the file: once, the last bytes of everything written. */
    method Close() returns (file: Option<string>)
      requires Valid()
      modifies this`closed
      ensures Valid() && closed
      ensures file == if old(closed) then None else Some(Last(written, LOG_CAP_BYTES))
    {
      if closed {
        return None;
      }
      closed := true;
      return Some(buf);
    }
  }

  function Concat(chunks: seq<string>): string {
    if chunks == [] then "" else Concat(chunks[..|chunks| - 1]) + chunks[|chunks| - 1]
  }

  /** Writes one chunk after the other and closes: the file is the end of the whole output, however it was
      cut into writes. */
  method WriteAll(chunks: seq<string>) returns (file: Option<string>)
    ensures file == Some(Last(Concat(chunks), LOG_CAP_BYTES))
    ensures file.Some? && |file.value| <= 1024 * 1024 && |file.value| <= |Concat(chunks)|
    ensures file.value == Concat(chunks)[|Concat(chunks)| - |file.value|..]
    ensures |file.value| < 1024 * 1024 ==> file.value == Concat(chunks)
  {
    var w := new RingLogWriter();
    for i := 0 to |chunks|
      invariant w.Valid() && !w.closed && fresh(w)
      invariant w.written == Concat(chunks[..i])
    {
      assert chunks[..i + 1][..i] == chunks[..i];
      var _ := w.Write(chunks[i]);
    }
    assert chunks[..|chunks|] == chunks;
    file := w.Close();
  }

  // ---- TailLog ----

  function TailLog(data: string, lines: int): string {
    if lines <= 0 then ""
    else
      var trimmed := TrimRight(data, IsNewline);
      if trimmed == "" then "" else LastLines(trimmed, lines)
  }

  function LastLines(text: string, lines: nat): string {
    var all := Split(text, '\n');
    Join(if |all| > lines then all[|all| - lines..] else all, ['\n'])
  }

  function Newlines(s: string): nat {
    if s == "" then 0 else (if s[0] == '\n' then 1 else 0) + Newlines(s[1..])
  }

  lemma {:induction false} NewlinesAdd(a: string, b: string)
    ensures Newlines(a + b) == Newlines(a) + Newlines(b)
  {
    if a == "" {
      assert a + b == b;
    } else {
      assert (a + b)[1..] == a[1..] + b;
      NewlinesAdd(a[1..], b);
    }
  }

  lemma {:induction false} NewlinesSplit(s: string)
    ensures |Split(s, '\n')| == Newlines(s) + 1
  {
    if s == "" {
    } else {
      NewlinesSplit(s[1..]);
    }
  }

  /** tail is the longest end of text with fewer than k newlines: a longer one starts with the k-th. */
  predicate IsTail(text: string, k: nat, tail: string) {
    && |tail| <= |text| && text[|text| - |tail|..] == tail
    && Newlines(tail) < k
    && (|tail| < |text| ==> text[|text| - |tail| - 1] == '\n' && Newlines(tail) == k - 1)
  }

  lemma LastLinesIsTail(text: string, k: nat)
    requires k >= 1
    ensures IsTail(text, k, LastLines(text, k))
  {
    var all := Split(text, '\n');
    JoinSplit(text, '\n');
    NewlinesSplit(text);
    if |all| > k {
      var cut := |all| - k;
      var before, after := Join(all[..cut], ['\n']), Join(all[cut..], ['\n']);
      assert all == all[..cut] + all[cut..];
      JoinAppend(all[..cut], all[cut..], ['\n']);
      assert text == before + ['\n'] + after;
      SplitJoin(all[cut..], '\n');
      NewlinesSplit(after);
      assert text[|text| - |after| - 1] == '\n';
    } else {
      assert text[0..] == text;
    }
  }

  /** The end of an end. */
  lemma TailShorter(text: string, k: nat, a: string, b: string)
    requires IsTail(text, k, a) && |b| <= |text| && text[|text| - |b|..] == b && |b| > |a|
    ensures Newlines(b) >= k
  {
    var n := |text| - |a|;
    var middle := text[|text| - |b|..n - 1];
    assert b == middle + (['\n'] + a);
    NewlinesAdd(middle, ['\n'] + a);
    NewlinesAdd(['\n'], a);
    assert Newlines(['\n']) == 1;
  }

  lemma EndOfEnd(text: string, kept: string, b: string)
    requires |b| <= |kept| <= |text| && kept == text[|text| - |kept|..]
    ensures kept[|kept| - |b|..] == text[|text| - |b|..]
  {
  }

  lemma EndsAgree(text: string, kept: string, k: nat, a: string, b: string)
    requires |kept| <= |text| && kept == text[|text| - |kept|..]
    requires IsTail(text, k, a) && IsTail(kept, k, b)
    ensures a == b <==> |a| <= |kept|
  {
    EndOfEnd(text, kept, b);
    if |a| <= |kept| {
      EndOfEnd(text, kept, a);
      if |b| > |a| {
        TailShorter(text, k, a, b);
      } else if |a| > |b| {
        TailShorter(kept, k, b, a);
      }
    }
  }

  lemma LastEndsAgree(text: string, k: nat, m: nat, a: string, b: string)
    requires IsTail(text, k, a) && IsTail(Last(text, m), k, b)
    ensures b == a <==> |a| <= m
  {
    EndsAgree(text, Last(text, m), k, a, b);
  }

  /** Of a text and its last m bytes, the last k lines agree exactly when they are no more than m bytes. */
  lemma TailsAgree(text: string, k: nat, m: nat)
    requires k >= 1
    ensures LastLines(Last(text, m), k) == LastLines(text, k) <==> |LastLines(text, k)| <= m
  {
    LastLinesIsTail(text, k);
    LastLinesIsTail(Last(text, m), k);
    LastEndsAgree(text, k, m, LastLines(text, k), LastLines(Last(text, m), k));
  }

  /** The trailing newlines TailLog ignores. */
  function TrailingNewlines(s: string): nat {
    |s| - |TrimRight(s, IsNewline)|
  }

  lemma AllNewlines(s: string)
    requires forall i :: 0 <= i < |s| ==> IsNewline(s[i])
    ensures TrimRight(s, IsNewline) == ""
  {
    TrimRightOf("", s, IsNewline);
    assert "" + s == s;
  }

  lemma LastOfSum(a: string, b: string, n: nat)
    requires n > |b|
    ensures Last(a + b, n) == Last(a, n - |b|) + b
  {
  }

  lemma LastEndsAlike(s: string, n: nat)
    requires n > 0 && s != ""
    ensures Last(s, n) != "" && Last(s, n)[|Last(s, n)| - 1] == s[|s| - 1]
  {
  }

  lemma LastStaysTrimmed(s: string, n: nat)
    requires n > 0 && (s != "" ==> !IsNewline(s[|s| - 1]))
    ensures TrimRight(Last(s, n), IsNewline) == Last(s, n)
  {
    if s != "" {
      LastEndsAlike(s, n);
    }
    TrimRightSet(Last(s, n), IsNewline);
  }

  lemma TrimLastSum(trimmed: string, ends: string, cap: nat)
    requires cap > |ends| && (trimmed != "" ==> !IsNewline(trimmed[|trimmed| - 1]))
    requires forall i :: 0 <= i < |ends| ==> IsNewline(ends[i])
    ensures TrimRight(Last(trimmed + ends, cap), IsNewline) == Last(trimmed, cap - |ends|)
  {
    LastOfSum(trimmed, ends, cap);
    TrimRightOf(Last(trimmed, cap - |ends|), ends, IsNewline);
    LastStaysTrimmed(trimmed, cap - |ends|);
  }

  /** The output is its trim and the newlines it ends with. */
  lemma TrimSplits(full: string) returns (ends: string)
    ensures full == TrimRight(full, IsNewline) + ends && |ends| == TrailingNewlines(full)
    ensures forall i :: 0 <= i < |ends| ==> IsNewline(ends[i])
    ensures var trimmed := TrimRight(full, IsNewline); trimmed != "" ==> !IsNewline(trimmed[|trimmed| - 1])
  {
    TrimRightMeaning(full, IsNewline);
    ends := full[|TrimRight(full, IsNewline)|..];
  }

  /** Trimming what is left of the output leaves what is left of the trimmed output. */
  lemma TrimLast(full: string, cap: nat)
    ensures TrimRight(Last(full, cap), IsNewline) ==
              if cap <= TrailingNewlines(full) then ""
              else Last(TrimRight(full, IsNewline), cap - TrailingNewlines(full))
  {
    var ends := TrimSplits(full);
    if cap <= TrailingNewlines(full) {
      LastOfNewlines(TrimRight(full, IsNewline), ends, cap);
    } else {
      TrimLastSum(TrimRight(full, IsNewline), ends, cap);
    }
  }

  lemma LastOfNewlines(trimmed: string, ends: string, cap: nat)
    requires cap <= |ends| && forall i :: 0 <= i < |ends| ==> IsNewline(ends[i])
    ensures TrimRight(Last(trimmed + ends, cap), IsNewline) == ""
  {
    var s := trimmed + ends;
    assert forall i :: |trimmed| <= i < |s| ==> s[i] == ends[i - |trimmed|];
    AllNewlines(Last(s, cap));
  }

  /** The tail shown of a capped log is the tail of the full output exactly when it is empty or fits in
      the cap together with the newlines the output ends with. */
  lemma CapKeepsTail(full: string, lines: int, cap: nat)
    ensures TailLog(Last(full, cap), lines) == TailLog(full, lines) <==>
            TailLog(full, lines) == "" || |TailLog(full, lines)| + TrailingNewlines(full) <= cap
  {
    if lines > 0 {
      var trimmed := TrimRight(full, IsNewline);
      var nl := TrailingNewlines(full);
      TrimLast(full, cap);
      TrimRightMeaning(full, IsNewline);
      if trimmed != "" {
        TailNotEmpty(trimmed, lines);
        if cap > nl {
          TailsAgree(trimmed, lines, cap - nl);
        }
      }
    }
  }

  /** What is shown of a log: nothing for no lines, else the last lines of the data without its trailing
      newlines, as many as asked for or all there are. */
  lemma TailLogIsTail(data: string, lines: int)
    ensures lines <= 0 ==> TailLog(data, lines) == ""
    ensures lines > 0 ==> IsTail(TrimRight(data, IsNewline), lines, TailLog(data, lines))
  {
    if lines > 0 {
      LastLinesIsTail(TrimRight(data, IsNewline), lines);
    }
  }

  lemma TailNotEmpty(text: string, k: nat)
    requires k >= 1 && text != "" && !IsNewline(text[|text| - 1])
    ensures LastLines(text, k) != ""
  {
    LastLinesIsTail(text, k);
  }

  /** Concatenation, chunk by chunk. */
  lemma {:induction false} ConcatAppend(a: seq<string>, b: seq<string>, chunk: string)
    ensures Concat([]) == "" && Concat([chunk]) == chunk && Concat(a + b) == Concat(a) + Concat(b)
  {
    assert [chunk][..0] == [];
    assert Concat([chunk]) == Concat([]) + chunk;
    if b == [] {
      assert a + b == a;
    } else {
      assert (a + b)[..|a + b| - 1] == a + b[..|b| - 1];
      ConcatAppend(a, b[..|b| - 1], chunk);
    }
  }

  /** The number of newlines, character by character. */
  lemma NewlinesOfOne(c: char)
    ensures Newlines("") == 0 && Newlines([c]) == if c == '\n' then 1 else 0
  {
    assert [c][1..] == "";
  }
}
