/** ValidateFindings (internal/checker/validate.go): the cached loop, the per-finding classification it
    computes, and what that classification means on disk. */
module CitationFilter {
  import opened Text
  import opened Model
  import opened LexicalPath
  import opened Citations

  datatype FileNode = Directory | Unreadable | Content(text: string)

  /** What the worktree holds at each clean relative path, fixed during a call. */
  type Worktree = map<string, FileNode>

  function ReadLines(wt: Worktree, rel: string): Option<seq<string>> {
    if rel in wt && wt[rel].Content? then Some(TrimmedLines(wt[rel].text)) else None
  }

  method ReadFileLines(wt: Worktree, rel: string) returns (r: Option<seq<string>>)
    ensures r == ReadLines(wt, rel)
  {
    if rel !in wt {
      return None;
    }
    match wt[rel]
    case Directory => r := None;
    case Unreadable => r := None;
    case Content(text) =>
      var lines := SplitTrimmedLines(text);
      r := Some(lines);
  }

  function ChangedSet(files: seq<string>): set<string> {
    set f | f in files && NormalizePath(f).Some? :: NormalizePath(f).value
  }

  datatype Outcome<+K, +D> = Kept(finding: K) | Dropped(dropped: D)

  type Verdict = Outcome<Finding, DiscardedFinding>

  function Stamp(rule: string, rf: RawFinding): Finding {
    Finding(rule, rf.file, rf.line, rf.snippet, rf.explanation)
  }

  function Classify(changed: set<string>, wt: Worktree, rule: string, rf: RawFinding): Verdict {
    match NormalizePath(rf.file)
    case None => Dropped(DiscardedFinding(Stamp(rule, rf), NotChanged))
    case Some(norm) =>
      if norm !in changed then Dropped(DiscardedFinding(Stamp(rule, rf), NotChanged))
      else match ReadLines(wt, norm)
        case None => Dropped(DiscardedFinding(Stamp(rule, rf), MissingFile))
        case Some(lines) =>
          match SnippetAt(lines, rf.line, rf.snippet)
          case None => Dropped(DiscardedFinding(Stamp(rule, rf), BadSnippet))
          case Some(at) => Kept(Stamp(rule, rf).(file := norm, line := at))
  }

  function ClassifyAll(changed: set<string>, wt: Worktree, rule: string, raw: seq<RawFinding>): (r: seq<Verdict>)
    ensures |r| == |raw|
  {
    seq(|raw|, i requires 0 <= i < |raw| => Classify(changed, wt, rule, raw[i]))
  }

  function KeptPart<K, D>(v: Outcome<K, D>): seq<K> {
    match v
    case Kept(f) => [f]
    case Dropped(_) => []
  }

  function DroppedPart<K, D>(v: Outcome<K, D>): seq<D> {
    match v
    case Kept(_) => []
    case Dropped(d) => [d]
  }

  function KeptOf<K, D>(vs: seq<Outcome<K, D>>): seq<K> {
    if vs == [] then [] else KeptOf(vs[..|vs| - 1]) + KeptPart(vs[|vs| - 1])
  }

  function DroppedOf<K, D>(vs: seq<Outcome<K, D>>): seq<D> {
    if vs == [] then [] else DroppedOf(vs[..|vs| - 1]) + DroppedPart(vs[|vs| - 1])
  }

  /** The loop with its per-call file cache computes the uncached classification of each finding. */
  method ValidateFindings(rule: string, raw: seq<RawFinding>, wt: Worktree, changedFiles: seq<string>)
    returns (kept: seq<Finding>, discarded: seq<DiscardedFinding>)
    ensures kept == KeptOf(ClassifyAll(ChangedSet(changedFiles), wt, rule, raw))
    ensures discarded == DroppedOf(ClassifyAll(ChangedSet(changedFiles), wt, rule, raw))
  {
    var changed: set<string> := BuildChanged(changedFiles);
    var cache: map<string, Option<seq<string>>> := map[];
    kept, discarded := [], [];
    ghost var all := ClassifyAll(changed, wt, rule, raw);
    for i := 0 to |raw|
      invariant forall k :: k in cache ==> cache[k] == ReadLines(wt, k)
      invariant kept == KeptOf(all[..i]) && discarded == DroppedOf(all[..i])
    {
      var verdict;
      verdict, cache := ClassifyCached(changed, wt, rule, raw[i], cache);
      assert verdict == all[i];
      kept, discarded := kept + KeptPart(verdict), discarded + DroppedPart(verdict);
      AppendVerdict(all, i);
    }
    assert all[..|raw|] == all;
  }

  lemma AppendVerdict<K, D>(all: seq<Outcome<K, D>>, i: nat)
    requires i < |all|
    ensures KeptOf(all[..i + 1]) == KeptOf(all[..i]) + KeptPart(all[i])
    ensures DroppedOf(all[..i + 1]) == DroppedOf(all[..i]) + DroppedPart(all[i])
  {
    assert all[..i + 1][..i] == all[..i];
  }

  method BuildChanged(changedFiles: seq<string>) returns (changed: set<string>)
    ensures changed == ChangedSet(changedFiles)
  {
    changed := {};
    for i := 0 to |changedFiles|
      invariant changed == ChangedSet(changedFiles[..i])
    {
      assert changedFiles[..i + 1] == changedFiles[..i] + [changedFiles[i]];
      match NormalizePath(changedFiles[i])
      case Some(norm) => changed := changed + {norm};
      case None =>
    }
    assert changedFiles[..|changedFiles|] == changedFiles;
  }

  /** One turn of the loop: each file is read at most once per call. */
  method ClassifyCached(changed: set<string>, wt: Worktree, rule: string, rf: RawFinding,
      cache: map<string, Option<seq<string>>>)
    returns (verdict: Verdict, now: map<string, Option<seq<string>>>)
    requires forall k :: k in cache ==> cache[k] == ReadLines(wt, k)
    ensures verdict == Classify(changed, wt, rule, rf)
    ensures forall k :: k in now ==> now[k] == ReadLines(wt, k)
    ensures forall k :: k in cache ==> k in now
  {
    now := cache;
    var path := NormalizePath(rf.file);
    if path == None || path.value !in changed {
      return Dropped(DiscardedFinding(Stamp(rule, rf), NotChanged)), now;
    }
    var norm := path.value;
    if norm !in now {
      var entry := ReadFileLines(wt, norm);
      now := now[norm := entry];
    }
    if now[norm] == None {
      return Dropped(DiscardedFinding(Stamp(rule, rf), MissingFile)), now;
    }
    var at := FindSnippet(now[norm].value, rf.line, rf.snippet);
    if at == None {
      return Dropped(DiscardedFinding(Stamp(rule, rf), BadSnippet)), now;
    }
    return Kept(Stamp(rule, rf).(file := norm, line := at.value)), now;
  }

  // ---- what the verdicts mean ----

  /** The cited path and some changed file name one location inside the worktree. */
  ghost predicate NamesChanged(file: string, changedFiles: seq<string>) {
    exists f, at :: f in changedFiles && Locates(f, at) && Locates(file, at)
  }

  /** The lines of the file at the cited location. */
  ghost predicate HasLines(file: string, wt: Worktree, lines: seq<string>) {
    exists at :: Locates(file, at) && ReadLines(wt, Join(at, "/")) == Some(lines)
  }

  /** The snippet occurs, consecutively, within the window of the cited line. */
  ghost predicate Occurs(lines: seq<string>, line: int, snippet: string) {
    line >= 1 && SnippetLines(snippet) != [] &&
    exists b :: Matches(lines, SnippetLines(snippet), b) && InWindow(line, b)
  }

  lemma ChangedSetMeaning(file: string, changedFiles: seq<string>)
    ensures (NormalizePath(file).Some?
            && NormalizePath(file).value in ChangedSet(changedFiles)) <==> NamesChanged(file, changedFiles)
  {
    NormalizeExact(file);
    if NormalizePath(file).Some? && NormalizePath(file).value in ChangedSet(changedFiles) {
      var f :| f in changedFiles && NormalizePath(f) == NormalizePath(file);
      NormalizeExact(f);
      var at :| Locates(file, at);
      assert Locates(f, at);
    }
    if NamesChanged(file, changedFiles) {
      var f, at :| f in changedFiles && Locates(f, at) && Locates(file, at);
      NormalizeExact(f);
    }
  }

  lemma HasLinesMeaning(file: string, wt: Worktree, lines: seq<string>)
    ensures HasLines(file, wt, lines) <==>
            NormalizePath(file).Some? && ReadLines(wt, NormalizePath(file).value) == Some(lines)
  {
    NormalizeExact(file);
    if NormalizePath(file).Some? {
      var at :| Locates(file, at);
      assert NormalizePath(file) == Some(Join(at, "/"));
    }
  }

  /** A finding survives exactly when it cites a changed, readable file in which its snippet occurs
      near its line; otherwise the reason is the first of those checks to fail. */
  lemma ClassifyMeaning(changedFiles: seq<string>, wt: Worktree, rule: string, rf: RawFinding)
    ensures match Classify(ChangedSet(changedFiles), wt, rule, rf)
            case Kept(f) =>
              && NamesChanged(rf.file, changedFiles)
              && (exists lines :: HasLines(rf.file, wt, lines) && Occurs(lines, rf.line, rf.snippet)
                                  && IsNearest(lines, SnippetLines(rf.snippet), rf.line, f.line))
              && f == Stamp(rule, rf).(file := f.file, line := f.line) && NormalizePath(rf.file) == Some(f.file)
            case Dropped(d) =>
              && d.finding == Stamp(rule, rf)
              && (d.reason == NotChanged <==> !NamesChanged(rf.file, changedFiles))
              && (d.reason == MissingFile <==>
                    NamesChanged(rf.file, changedFiles) && !exists lines :: HasLines(rf.file, wt, lines))
              && (d.reason == BadSnippet ==>
                    exists lines :: HasLines(rf.file, wt, lines) && !Occurs(lines, rf.line, rf.snippet))
  {
    ChangedSetMeaning(rf.file, changedFiles);
    forall lines ensures HasLines(rf.file, wt, lines) <==>
            NormalizePath(rf.file).Some? && ReadLines(wt, NormalizePath(rf.file).value) == Some(lines) {
      HasLinesMeaning(rf.file, wt, lines);
    }
    if NormalizePath(rf.file).Some? {
      match ReadLines(wt, NormalizePath(rf.file).value)
      case None =>
      case Some(lines) =>
        assert HasLines(rf.file, wt, lines);
        SnippetAtNearest(lines, rf.line, rf.snippet);
    }
  }

  // ---- near its line ----

  /** The snippet's lines stand in these lines from line `start` on, up to trailing space. */
  ghost predicate StandsIn(lines: seq<string>, snip: seq<string>, start: int) {
    && 1 <= start && start - 1 + |snip| <= |lines|
    && forall k :: 0 <= k < |snip| ==> TrimRight(lines[start - 1 + k], IsTrailing) == snip[k]
  }

  ghost predicate StandsAt(text: string, snip: seq<string>, start: int) {
    StandsIn(Split(text, '\n'), snip, start)
  }

  lemma SliceIs<T>(lines: seq<T>, snip: seq<T>, from: nat)
    requires from + |snip| <= |lines|
    ensures lines[from..from + |snip|] == snip <==> forall k :: 0 <= k < |snip| ==> lines[from + k] == snip[k]
  {
    if lines[from..from + |snip|] == snip {
      forall k | 0 <= k < |snip| ensures lines[from + k] == snip[k] {
        assert lines[from..from + |snip|][k] == lines[from + k];
      }
    }
  }

  lemma StandsMeaning(text: string, snip: seq<string>, start: int)
    ensures Matches(TrimmedLines(text), snip, start) <==> StandsAt(text, snip, start)
  {
    CRLFRedundant(text);
    StandsTrimmed(Split(text, '\n'), snip, start);
  }

  lemma StandsTrimmed(lines: seq<string>, snip: seq<string>, start: int)
    ensures Matches(TrimLines(lines), snip, start) <==> StandsIn(lines, snip, start)
  {
    if 1 <= start && start - 1 + |snip| <= |lines| {
      SliceIs(TrimLines(lines), snip, start - 1);
    }
  }

  /** Within 3 lines of the cited one. */
  predicate Near(line: int, b: int) {
    line - 3 <= b <= line + 3
  }

  function Distance(a: int, b: int): nat {
    if a < b then b - a else a - b
  }

  /** The snippet stands at this line near the cited one, and no nearer, nor as near and earlier. */
  ghost predicate Closest(text: string, snip: seq<string>, line: int, at: int) {
    && Near(line, at) && StandsAt(text, snip, at)
    && forall b :: Near(line, b) && StandsAt(text, snip, b) ==>
         Distance(at, line) < Distance(b, line) || (Distance(at, line) == Distance(b, line) && at <= b)
  }

  lemma NearestIsClosest<T(!new)>(lines: seq<T>, snip: seq<T>, line: int, at: int)
    requires IsNearest(lines, snip, line, at)
    ensures Near(line, at) && Matches(lines, snip, at)
    ensures forall b :: Near(line, b) && Matches(lines, snip, b) ==>
              Distance(at, line) < Distance(b, line) || (Distance(at, line) == Distance(b, line) && at <= b)
  {
    WithinThree(line, at, at);
    forall b | Near(line, b) && Matches(lines, snip, b)
      ensures Distance(at, line) < Distance(b, line) || (Distance(at, line) == Distance(b, line) && at <= b)
    {
      WithinThree(line, at, b);
      assert Nearer(at, b, line);
    }
  }

  ghost predicate FoundNear(text: string, snip: seq<string>, line: int) {
    exists b :: Near(line, b) && StandsAt(text, snip, b)
  }

  lemma FoundInWindow(text: string, snip: seq<string>, line: int)
    ensures FoundNear(text, snip, line) <==> exists b :: Matches(TrimmedLines(text), snip, b) && InWindow(line, b)
  {
    if b :| Near(line, b) && StandsAt(text, snip, b) {
      StandsMeaning(text, snip, b);
      WithinThree(line, b, b);
    }
    if b :| Matches(TrimmedLines(text), snip, b) && InWindow(line, b) {
      StandsMeaning(text, snip, b);
      WithinThree(line, b, b);
    }
  }

  lemma SearchFinds(text: string, line: int, snippet: string)
    ensures SnippetAt(TrimmedLines(text), line, snippet).Some? <==>
              line >= 1 && SnippetLines(snippet) != [] && FoundNear(text, SnippetLines(snippet), line)
  {
    SnippetAtNearest(TrimmedLines(text), line, snippet);
    FoundInWindow(text, SnippetLines(snippet), line);
  }

  lemma SearchIsClosest(text: string, line: int, snippet: string)
    requires SnippetAt(TrimmedLines(text), line, snippet).Some?
    ensures Closest(text, SnippetLines(snippet), line, SnippetAt(TrimmedLines(text), line, snippet).value)
  {
    var lines, snip := TrimmedLines(text), SnippetLines(snippet);
    SnippetAtNearest(lines, line, snippet);
    NearestIsClosest(lines, snip, line, SnippetAt(lines, line, snippet).value);
    forall b ensures Matches(lines, snip, b) <==> StandsAt(text, snip, b) {
      StandsMeaning(text, snip, b);
    }
  }

  lemma KeptIsFound(changedFiles: seq<string>, wt: Worktree, rule: string, rf: RawFinding, text: string)
    requires NormalizePath(rf.file).Some? && NormalizePath(rf.file).value in wt
    requires wt[NormalizePath(rf.file).value] == Content(text)
    ensures var v := Classify(ChangedSet(changedFiles), wt, rule, rf);
            var found := SnippetAt(TrimmedLines(text), rf.line, rf.snippet);
            && (v.Kept? <==> NamesChanged(rf.file, changedFiles) && found.Some?)
            && (v.Kept? ==> v.finding.line == found.value)
  {
    ChangedSetMeaning(rf.file, changedFiles);
  }

  /** A finding is kept exactly if the file it names, changed and readable, holds the snippet within 3 lines
      of the cited one; it then cites the closest such line. */
  lemma KeptWithinThree(changedFiles: seq<string>, wt: Worktree, rule: string, rf: RawFinding, text: string)
    requires NormalizePath(rf.file).Some? && NormalizePath(rf.file).value in wt
    requires wt[NormalizePath(rf.file).value] == Content(text)
    ensures var v := Classify(ChangedSet(changedFiles), wt, rule, rf); var snip := SnippetLines(rf.snippet);
            && (v.Kept? <==>
                  && NamesChanged(rf.file, changedFiles) && rf.line >= 1 && snip != []
                  && FoundNear(text, snip, rf.line))
            && (v.Kept? ==>
                  rf.line - 3 <= v.finding.line <= rf.line + 3 && Closest(text, snip, rf.line, v.finding.line))
  {
    KeptIsFound(changedFiles, wt, rule, rf, text);
    SearchFinds(text, rf.line, rf.snippet);
    if Classify(ChangedSet(changedFiles), wt, rule, rf).Kept? {
      SearchIsClosest(text, rf.line, rf.snippet);
    }
  }

  // ---- partition and re-validation ----

  ghost predicate Increasing(s: seq<nat>) {
    forall i, j :: 0 <= i < j < |s| ==> s[i] < s[j]
  }

  /** The positions of the kept (or of the dropped) verdicts. */
  function Positions<K, D>(vs: seq<Outcome<K, D>>, kept: bool): seq<nat> {
    if vs == [] then []
    else Positions(vs[..|vs| - 1], kept) + if vs[|vs| - 1].Kept? == kept then [|vs| - 1] else []
  }

  lemma {:induction false} PositionsCover<K, D>(vs: seq<Outcome<K, D>>, kept: bool)
    ensures Increasing(Positions(vs, kept))
    ensures forall n :: n in Positions(vs, kept) <==> 0 <= n < |vs| && vs[n].Kept? == kept
  {
    if vs == [] {
    } else {
      PositionsCover(vs[..|vs| - 1], kept);
      var p := Positions(vs[..|vs| - 1], kept);
      assert forall i :: 0 <= i < |p| ==> p[i] in p;
    }
  }

  lemma {:induction false} KeptByPosition<K, D>(vs: seq<Outcome<K, D>>)
    ensures var ks := Positions(vs, true);
            |ks| == |KeptOf(vs)| && forall i :: 0 <= i < |ks| ==> ks[i] < |vs| && vs[ks[i]] == Kept(KeptOf(vs)[i])
  {
    if vs == [] {
    } else {
      KeptByPosition(vs[..|vs| - 1]);
    }
  }

  lemma {:induction false} DroppedByPosition<K, D>(vs: seq<Outcome<K, D>>)
    ensures var ds := Positions(vs, false);
            && |ds| == |DroppedOf(vs)|
            && forall i :: 0 <= i < |ds| ==> ds[i] < |vs| && vs[ds[i]] == Dropped(DroppedOf(vs)[i])
  {
    if vs == [] {
    } else {
      DroppedByPosition(vs[..|vs| - 1]);
    }
  }

  /** Kept and discarded are order-preserving and partition the input: the positions of the kept
      verdicts, in increasing order, hold the kept findings one by one, those of the others hold the
      discards, and together they are all the positions, each once. */
  lemma Partition<K, D>(vs: seq<Outcome<K, D>>)
    ensures var ks := Positions(vs, true);
            && Increasing(ks) && |ks| == |KeptOf(vs)|
            && forall i :: 0 <= i < |ks| ==> ks[i] < |vs| && vs[ks[i]] == Kept(KeptOf(vs)[i])
    ensures var ds := Positions(vs, false);
            && Increasing(ds) && |ds| == |DroppedOf(vs)|
            && forall i :: 0 <= i < |ds| ==> ds[i] < |vs| && vs[ds[i]] == Dropped(DroppedOf(vs)[i])
    ensures forall n :: 0 <= n < |vs| ==> (n in Positions(vs, true) <==> n !in Positions(vs, false))
  {
    PositionsCover(vs, true);
    PositionsCover(vs, false);
    KeptByPosition(vs);
    DroppedByPosition(vs);
  }

  function AsRaw(f: Finding): RawFinding {
    RawFinding(f.file, f.line, f.snippet, f.explanation)
  }

  lemma FoundAgain(lines: seq<string>, line: int, snippet: string)
    requires SnippetAt(lines, line, snippet).Some?
    ensures var at := SnippetAt(lines, line, snippet).value; SnippetAt(lines, at, snippet) == Some(at)
  {
    SnippetAtNearest(lines, line, snippet);
  }

  lemma KeptReads(changed: set<string>, wt: Worktree, rule: string, rf: RawFinding)
    requires Classify(changed, wt, rule, rf).Kept?
    ensures var f := Classify(changed, wt, rule, rf).finding;
            && NormalizePath(rf.file) == Some(f.file) && f.file in changed && ReadLines(wt, f.file).Some?
            && SnippetAt(ReadLines(wt, f.file).value, f.line, f.snippet) == Some(f.line)
            && Stamp(rule, AsRaw(f)) == f
  {
    var f := Classify(changed, wt, rule, rf).finding;
    FoundAgain(ReadLines(wt, f.file).value, rf.line, rf.snippet);
  }

  /** A kept finding validates to itself exactly when its path has no edge whitespace. */
  lemma RevalidateOne(changed: set<string>, wt: Worktree, rule: string, rf: RawFinding)
    requires Classify(changed, wt, rule, rf).Kept?
    ensures var f := Classify(changed, wt, rule, rf).finding;
            Classify(changed, wt, rule, AsRaw(f)) == Kept(f) <==> NoEdgeSpace(f.file)
  {
    var f := Classify(changed, wt, rule, rf).finding;
    KeptReads(changed, wt, rule, rf);
    NormalizeFixpoint(rf.file);
    if Classify(changed, wt, rule, AsRaw(f)) == Kept(f) {
      KeptReads(changed, wt, rule, AsRaw(f));
    }
  }

  lemma {:induction false} KeptCameFrom(vs: seq<Verdict>, i: nat)
    requires i < |KeptOf(vs)|
    ensures Kept(KeptOf(vs)[i]) in vs
  {
    Partition(vs);
    assert vs[Positions(vs, true)[i]] == Kept(KeptOf(vs)[i]);
  }

  lemma {:induction false} AllKept(fs: seq<Finding>, vs: seq<Verdict>)
    requires |vs| == |fs| && forall i :: 0 <= i < |fs| ==> vs[i] == Kept(fs[i])
    ensures KeptOf(vs) == fs && DroppedOf(vs) == []
  {
    if fs == [] {
    } else {
      AllKept(fs[..|fs| - 1], vs[..|vs| - 1]);
    }
  }

  /** Validating what was kept changes nothing, as long as no kept path has edge whitespace. */
  lemma Revalidate(changed: set<string>, wt: Worktree, rule: string, raw: seq<RawFinding>)
    requires forall f :: f in KeptOf(ClassifyAll(changed, wt, rule, raw)) ==> NoEdgeSpace(f.file)
    ensures var kept := KeptOf(ClassifyAll(changed, wt, rule, raw));
            var again := ClassifyAll(changed, wt, rule, seq(|kept|, i requires 0 <= i < |kept| => AsRaw(kept[i])));
            KeptOf(again) == kept && DroppedOf(again) == []
  {
    var vs := ClassifyAll(changed, wt, rule, raw);
    var kept := KeptOf(vs);
    var again := ClassifyAll(changed, wt, rule, seq(|kept|, i requires 0 <= i < |kept| => AsRaw(kept[i])));
    forall i | 0 <= i < |kept| ensures again[i] == Kept(kept[i]) {
      KeptCameFrom(vs, i);
      var n :| 0 <= n < |vs| && vs[n] == Kept(kept[i]);
      RevalidateOne(changed, wt, rule, raw[n]);
    }
    AllKept(kept, again);
  }
}
