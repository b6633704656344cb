/** What feedback.md says (Render and its parts in internal/feedback/feedback.go), section by section:
    the wording is left out, what is listed and counted is not. */
module Feedback {
  import opened Text
  import opened Model

  /** One "### rule" subsection, a block for each finding it lists. */
  datatype RuleSection = RuleSection(rule: string, blocks: seq<Finding>)

  datatype Section =
    | Title(state: RunState)
    | DriftNotice(entries: seq<DriftEntry>)
    | ErrorText(error: RunError)
    | Warnings(fetch: string, others: seq<string>)
    | Summary(findings: nat, rules: nat, ran: seq<ScriptName>)
    | Violations(sections: seq<RuleSection>)
    | ScriptFailure(name: ScriptName, result: ScriptResult)

  const ORDER: seq<ScriptName> := [Setup, Check, Test]

  predicate ShouldWrite(run: Run) {
    run.state == Failed || run.drift != []
  }

  /** When writeFeedback leaves an artifact. */
  predicate Writes(run: Run) {
    ShouldWrite(run) || run.state == Errored
  }

  // ---- findings ----

  lemma {:induction false} FindingsAppend(a: seq<RuleResult>, b: seq<RuleResult>)
    ensures Findings(a + b) == Findings(a) + Findings(b)
  {
    if a == [] {
      assert a + b == b;
    } else {
      assert (a + b)[1..] == a[1..] + b;
      FindingsAppend(a[1..], b);
    }
  }

  /** Run.Findings: the append loop. */
  method CollectFindings(rules: seq<RuleResult>) returns (all: seq<Finding>)
    ensures all == Findings(rules)
  {
    all := [];
    for i := 0 to |rules|
      invariant all == Findings(rules[..i])
    {
      assert rules[..i + 1] == rules[..i] + [rules[i]];
      FindingsAppend(rules[..i], [rules[i]]);
      all := all + rules[i].findings;
    }
    assert rules[..|rules|] == rules;
  }

  // ---- the violations section ----

  /** A subsection per rule with surviving findings, in the rules' order. */
  function Sections(rules: seq<RuleResult>): seq<RuleSection> {
    if rules == [] then []
    else
      var r := rules[|rules| - 1];
      Sections(rules[..|rules| - 1]) + (if r.findings == [] then [] else [RuleSection(r.name, r.findings)])
  }

  method RenderRuleViolations(rules: seq<RuleResult>) returns (sections: seq<RuleSection>)
    ensures sections == Sections(rules)
  {
    sections := [];
    for i := 0 to |rules|
      invariant sections == Sections(rules[..i])
    {
      assert rules[..i + 1][..i] == rules[..i];
      if |rules[i].findings| != 0 {
        sections := sections + [RuleSection(rules[i].name, rules[i].findings)];
      }
    }
    assert rules[..|rules|] == rules;
  }

  /** The blocks of the document, top to bottom. */
  function Blocks(sections: seq<RuleSection>): seq<Finding> {
    if sections == [] then [] else Blocks(sections[..|sections| - 1]) + sections[|sections| - 1].blocks
  }

  lemma BlocksMore(sections: seq<RuleSection>, r: RuleResult)
    ensures var more := if r.findings == [] then [] else [RuleSection(r.name, r.findings)];
            Blocks(sections + more) == Blocks(sections) + r.findings
  {
    if r.findings == [] {
      assert sections + [] == sections;
    } else {
      assert (sections + [RuleSection(r.name, r.findings)])[..|sections|] == sections;
    }
  }

  lemma FindingsMore(rules: seq<RuleResult>)
    requires rules != []
    ensures Findings(rules) == Findings(rules[..|rules| - 1]) + rules[|rules| - 1].findings
  {
    var n := |rules| - 1;
    assert rules == rules[..n] + [rules[n]];
    FindingsAppend(rules[..n], [rules[n]]);
    assert [rules[n]][1..] == [];
  }

  /** One block per surviving finding, in rule then finding order, and nothing else. */
  lemma {:induction false} BlocksAreFindings(rules: seq<RuleResult>)
    ensures Blocks(Sections(rules)) == Findings(rules)
  {
    if rules == [] {
    } else {
      var n := |rules| - 1;
      BlocksAreFindings(rules[..n]);
      BlocksMore(Sections(rules[..n]), rules[n]);
      FindingsMore(rules);
    }
  }

  /** The positions of the rules that have findings, in order. */
  ghost predicate HaveFindings(rules: seq<RuleResult>, at: seq<nat>) {
    && (forall i :: 0 <= i < |at| ==> at[i] < |rules| && rules[at[i]].findings != [])
    && (forall i, j :: 0 <= i < j < |at| ==> at[i] < at[j])
    && (forall n: nat :: n < |rules| && rules[n].findings != [] ==> n in at)
  }

  lemma HaveMore(rules: seq<RuleResult>, at: seq<nat>)
    requires rules != [] && HaveFindings(rules[..|rules| - 1], at)
    ensures HaveFindings(rules, if rules[|rules| - 1].findings == [] then at else at + [|rules| - 1])
  {
    var n := |rules| - 1;
    var more := if rules[n].findings == [] then at else at + [n];
    forall m: nat | m < |rules| && rules[m].findings != [] ensures m in more {
      if m < n {
        assert rules[..n][m].findings != [];
      } else {
        assert more[|at|] == n;
      }
    }
  }

  ghost predicate NamedAfter(sections: seq<RuleSection>, rules: seq<RuleResult>, at: seq<nat>) {
    && |sections| == |at|
    && forall i :: 0 <= i < |at| ==>
         at[i] < |rules| && sections[i].rule == rules[at[i]].name && sections[i].blocks == rules[at[i]].findings
  }

  lemma NamedMore(sections: seq<RuleSection>, rules: seq<RuleResult>, at: seq<nat>)
    requires rules != [] && NamedAfter(sections, rules[..|rules| - 1], at)
    ensures var r := rules[|rules| - 1];
            if r.findings == [] then NamedAfter(sections, rules, at)
            else NamedAfter(sections + [RuleSection(r.name, r.findings)], rules, at + [|rules| - 1])
  {
    forall i | 0 <= i < |at| ensures rules[at[i]] == rules[..|rules| - 1][at[i]] {
    }
  }

  lemma SectionsLast(rules: seq<RuleResult>)
    requires rules != []
    ensures var r := rules[|rules| - 1]; var before := Sections(rules[..|rules| - 1]);
            Sections(rules) == if r.findings == [] then before else before + [RuleSection(r.name, r.findings)]
  {
  }

  ghost predicate Sectioned(sections: seq<RuleSection>, rules: seq<RuleResult>, at: seq<nat>) {
    HaveFindings(rules, at) && NamedAfter(sections, rules, at)
  }

  lemma SectionedMore(rules: seq<RuleResult>, at: seq<nat>)
    requires rules != [] && Sectioned(Sections(rules[..|rules| - 1]), rules[..|rules| - 1], at)
    ensures Sectioned(Sections(rules), rules, if rules[|rules| - 1].findings == [] then at else at + [|rules| - 1])
  {
    HaveMore(rules, at);
    NamedMore(Sections(rules[..|rules| - 1]), rules, at);
    SectionsLast(rules);
  }

  /** The i-th subsection stands under the name of the i-th rule that has findings, and holds its findings. */
  lemma {:induction false} SectionsNamed(rules: seq<RuleResult>) returns (at: seq<nat>)
    ensures Sectioned(Sections(rules), rules, at)
  {
    if rules == [] {
      at := [];
    } else {
      var before := SectionsNamed(rules[..|rules| - 1]);
      SectionedMore(rules, before);
      at := if rules[|rules| - 1].findings == [] then before else before + [|rules| - 1];
    }
  }

  /** No rule is listed without a finding. */
  lemma {:induction false} NoEmptySection(rules: seq<RuleResult>)
    ensures forall s :: s in Sections(rules) ==> s.blocks != []
  {
    if rules == [] {
    } else {
      NoEmptySection(rules[..|rules| - 1]);
    }
  }

  /** summaryCountLine: the two numbers it prints. */
  method SummaryCounts(rules: seq<RuleResult>) returns (findings: nat, ruleCount: nat)
    ensures findings == |Blocks(Sections(rules))| && ruleCount == |Sections(rules)|
  {
    var all := CollectFindings(rules);
    findings, ruleCount := |all|, 0;
    for i := 0 to |rules|
      invariant ruleCount == |Sections(rules[..i])|
    {
      assert rules[..i + 1][..i] == rules[..i];
      if |rules[i].findings| > 0 {
        ruleCount := ruleCount + 1;
      }
    }
    assert rules[..|rules|] == rules;
    BlocksAreFindings(rules);
  }

  // ---- the document ----

  function Ran(scripts: map<ScriptName, ScriptResult>, names: seq<ScriptName>): seq<ScriptName> {
    if names == [] then []
    else
      var n := names[|names| - 1];
      Ran(scripts, names[..|names| - 1]) + (if n in scripts then [n] else [])
  }

  function Failures(scripts: map<ScriptName, ScriptResult>, names: seq<ScriptName>): seq<Section> {
    if names == [] then []
    else
      var n := names[|names| - 1];
      Failures(scripts, names[..|names| - 1])
      + (if n in scripts && !scripts[n].OK() then [ScriptFailure(n, scripts[n])] else [])
  }

  /** The summary names the scripts that have a result, in the order setup, check, test. */
  lemma RanMeaning(scripts: map<ScriptName, ScriptResult>)
    ensures Ran(scripts, ORDER) ==
              (if Setup in scripts then [Setup] else [])
              + (if ScriptName.Check in scripts then [ScriptName.Check] else [])
              + (if Test in scripts then [Test] else [])
  {
    assert ORDER[..2] == [Setup, ScriptName.Check] && ORDER[..2][..1] == [Setup] && [Setup][..0] == [];
    assert Ran(scripts, [Setup]) == Ran(scripts, []) + if Setup in scripts then [Setup] else [];
  }

  method RenderScripts(scripts: map<ScriptName, ScriptResult>) returns (ran: seq<ScriptName>, failed: seq<Section>)
    ensures ran == Ran(scripts, ORDER) && failed == Failures(scripts, ORDER)
  {
    ran, failed := [], [];
    for i := 0 to |ORDER|
      invariant ran == Ran(scripts, ORDER[..i]) && failed == Failures(scripts, ORDER[..i])
    {
      assert ORDER[..i + 1][..i] == ORDER[..i];
      var name := ORDER[i];
      if name in scripts {
        ran := ran + [name];
        if !scripts[name].OK() {
          failed := failed + [ScriptFailure(name, scripts[name])];
        }
      }
    }
    assert ORDER[..|ORDER|] == ORDER;
  }

  function Part(included: bool, x: Section): seq<Section> {
    if included then [x] else []
  }

  function Counts(run: Run): Section {
    Summary(|Findings(run.rules)|, |Sections(run.rules)|, Ran(run.scripts, ORDER))
  }

  /** Above the summary. */
  function Head(run: Run): seq<Section> {
    [Title(run.state)]
    + Part(run.drift != [], DriftNotice(run.drift))
    + Part(run.state == Errored, ErrorText(run.error))
    + Part(run.fetchWarning != "" || run.warnings != [], Warnings(run.fetchWarning, run.warnings))
  }

  function Body(run: Run): seq<Section> {
    Part(run.state != Errored, Counts(run))
    + Part(run.state != Errored && Findings(run.rules) != [], Violations(Sections(run.rules)))
  }

  method RenderHead(run: Run) returns (doc: seq<Section>)
    ensures doc == Head(run)
  {
    doc := [Title(run.state)];
    if |run.drift| > 0 {
      doc := doc + [DriftNotice(run.drift)];
    }
    if run.state == Errored {
      doc := doc + [ErrorText(run.error)];
    }
    if run.fetchWarning != "" || |run.warnings| > 0 {
      doc := doc + [Warnings(run.fetchWarning, run.warnings)];
    }
  }

  method RenderBody(run: Run, ran: seq<ScriptName>) returns (doc: seq<Section>)
    requires ran == Ran(run.scripts, ORDER)
    ensures doc == Body(run)
  {
    doc := [];
    if run.state != Errored {
      var findings, rules := SummaryCounts(run.rules);
      BlocksAreFindings(run.rules);
      doc := [Summary(findings, rules, ran)];
      if findings > 0 {
        var sections := RenderRuleViolations(run.rules);
        doc := doc + [Violations(sections)];
      }
    }
  }

  method Render(run: Run) returns (doc: seq<Section>)
    ensures doc == Head(run) + Body(run) + Failures(run.scripts, ORDER)
  {
    doc := RenderHead(run);
    var ran, failed := RenderScripts(run.scripts);
    var body := RenderBody(run, ran);
    doc := doc + body + failed;
  }

  /** What a section of the document says of the record: the verdict; drift, error and warnings where
      there are any; for a run that is not errored a summary whose counts are those of the blocks and
      subsections shown, and, if there are any, every surviving finding in order; each script that ran
      and failed. */
  ghost predicate Belongs(run: Run, x: Section) {
    match x
    case Title(state) => state == run.state
    case DriftNotice(entries) => entries == run.drift && run.drift != []
    case ErrorText(error) => error == run.error && run.state == Errored
    case Warnings(fetch, others) => fetch == run.fetchWarning && others == run.warnings && (fetch != "" || others != [])
    case Summary(findings, rules, ran) =>
      && run.state != Errored
      && findings == |Blocks(Sections(run.rules))| && rules == |Sections(run.rules)| && ran == Ran(run.scripts, ORDER)
    case Violations(sections) =>
      && run.state != Errored && Findings(run.rules) != []
      && sections == Sections(run.rules) && Blocks(sections) == Findings(run.rules)
    case ScriptFailure(name, result) => name in run.scripts && result == run.scripts[name] && !result.OK()
  }

  /** The place of each kind of section in the document. */
  function Place(x: Section): nat {
    match x
    case Title(_) => 0
    case DriftNotice(_) => 1
    case ErrorText(_) => 2
    case Warnings(_, _) => 3
    case Summary(_, _, _) => 4
    case Violations(_) => 5
    case ScriptFailure(name, _) => 6 + ScriptPlace(name)
  }

  function ScriptPlace(name: ScriptName): nat {
    match name case Setup => 0 case Check => 1 case Test => 2
  }

  /** No section twice, and each in its place. */
  ghost predicate InPlace(doc: seq<Section>) {
    forall i, j :: 0 <= i < j < |doc| ==> Place(doc[i]) < Place(doc[j])
  }

  ghost predicate Below(doc: seq<Section>, limit: nat) {
    forall x :: x in doc ==> Place(x) < limit
  }

  lemma PlaceAppend(a: seq<Section>, b: seq<Section>, limit: nat)
    requires InPlace(a) && InPlace(b)
    requires Below(a, limit)
    requires forall x :: x in b ==> limit <= Place(x)
    ensures InPlace(a + b)
  {
    var doc := a + b;
    forall i, j | 0 <= i < j < |doc| ensures Place(doc[i]) < Place(doc[j]) {
      assert if i < |a| then doc[i] in a else doc[i] == b[i - |a|];
      assert if j < |a| then doc[j] == a[j] else doc[j] in b;
    }
  }

  lemma {:induction false} FailuresInPlace(scripts: map<ScriptName, ScriptResult>, names: seq<ScriptName>)
    requires forall i, j :: 0 <= i < j < |names| ==> ScriptPlace(names[i]) < ScriptPlace(names[j])
    ensures InPlace(Failures(scripts, names))
  {
    if names == [] {
    } else {
      var before, last := names[..|names| - 1], names[|names| - 1];
      FailuresInPlace(scripts, before);
      forall x | x in Failures(scripts, before) ensures Place(x) < 6 + ScriptPlace(last) {
        InFailures(scripts, before, x);
      }
      if last in scripts && !scripts[last].OK() {
        PlaceAppend(Failures(scripts, before), [ScriptFailure(last, scripts[last])], 6 + ScriptPlace(last));
      }
    }
  }

  lemma PartInPlace(doc: seq<Section>, included: bool, x: Section)
    requires InPlace(doc) && Below(doc, Place(x))
    ensures InPlace(doc + Part(included, x)) && Below(doc + Part(included, x), Place(x) + 1)
  {
    PlaceAppend(doc, Part(included, x), Place(x));
  }

  lemma HeadInPlace(run: Run)
    ensures InPlace(Head(run)) && Below(Head(run), 4)
  {
    var title := [Title(run.state)];
    var drift := title + Part(run.drift != [], DriftNotice(run.drift));
    PartInPlace(title, run.drift != [], DriftNotice(run.drift));
    PartInPlace(drift, run.state == Errored, ErrorText(run.error));
    PartInPlace(drift + Part(run.state == Errored, ErrorText(run.error)),
      run.fetchWarning != "" || run.warnings != [], Warnings(run.fetchWarning, run.warnings));
  }

  lemma HeadAndBodyInPlace(run: Run)
    ensures InPlace(Head(run) + Body(run)) && Below(Head(run) + Body(run), 6)
  {
    HeadInPlace(run);
    var summary := Part(run.state != Errored, Counts(run));
    var shows := run.state != Errored && Findings(run.rules) != [];
    PartInPlace(Head(run), run.state != Errored, Counts(run));
    PartInPlace(Head(run) + summary, shows, Violations(Sections(run.rules)));
    Regroup(Head(run), summary, Part(shows, Violations(Sections(run.rules))));
  }

  lemma DocumentInPlace(run: Run)
    ensures InPlace(Head(run) + Body(run) + Failures(run.scripts, ORDER))
  {
    HeadAndBodyInPlace(run);
    FailuresInPlace(run.scripts, ORDER);
    FailuresLast(run.scripts);
    PlaceAppend(Head(run) + Body(run), Failures(run.scripts, ORDER), 6);
  }

  lemma FailuresLast(scripts: map<ScriptName, ScriptResult>)
    ensures forall x :: x in Failures(scripts, ORDER) ==> 6 <= Place(x)
  {
    forall x | x in Failures(scripts, ORDER) ensures 6 <= Place(x) {
      InFailures(scripts, ORDER, x);
    }
  }

  /** The document holds exactly the sections that belong to the record, each of them once and in its
      place: verdict, drift, error, warnings, summary, violations, then the failed scripts in the order
      setup, check, test. */
  lemma RenderIsFaithful(run: Run)
    ensures var doc := Head(run) + Body(run) + Failures(run.scripts, ORDER);
            InPlace(doc) && forall x :: x in doc <==> Belongs(run, x)
  {
    DocumentInPlace(run);
    var doc := Head(run) + Body(run) + Failures(run.scripts, ORDER);
    forall x ensures x in doc <==> Belongs(run, x) {
      InHead(run, x);
      InBody(run, x);
      InFailures(run.scripts, ORDER, x);
      if x.ScriptFailure? { AllScripts(x.name); }
    }
  }

  lemma AllScripts(name: ScriptName)
    ensures name in ORDER
  {
    assert ORDER[0] == Setup && ORDER[1] == ScriptName.Check && ORDER[2] == Test;
  }

  lemma InHead(run: Run, x: Section)
    ensures x in Head(run) <==> Belongs(run, x) && (x.Title? || x.DriftNotice? || x.ErrorText? || x.Warnings?)
  {
  }

  lemma InBody(run: Run, x: Section)
    ensures x in Body(run) <==> Belongs(run, x) && (x.Summary? || x.Violations?)
  {
    BlocksAreFindings(run.rules);
  }

  lemma {:induction false} InFailures(scripts: map<ScriptName, ScriptResult>, names: seq<ScriptName>, x: Section)
    ensures x in Failures(scripts, names) <==>
              x.ScriptFailure? && x.name in names && x.name in scripts && x.result == scripts[x.name] && !x.result.OK()
  {
    if names == [] {
    } else {
      InFailures(scripts, names[..|names| - 1], x);
      assert names == names[..|names| - 1] + [names[|names| - 1]];
    }
  }
}
