/** One gate run (internal/runner/runner.go and Check of internal/checker/checker.go): the sequential
    reading of execute, the methods that update the run record step by step, and what a passed verdict
    means. */
module Gate {
  import opened Text
  import opened Model
  import opened LexicalPath
  import opened Citations
  import opened CitationFilter
  import opened Envelope
  import opened Rules

  /** What became of one agent process. */
  datatype AgentRun = Finished(stdout: string) | Broken(error: string)

  /** Everything the run reads from outside: git, scripts, files, agents, codecs. `files` is the worktree
      as the filter of each rule finds it; check.sh and test.sh run there at the same time. */
  datatype Inputs = Inputs(
    worktreeError: Option<string>,
    fetchError: Option<string>,
    remoteBase: string,
    localBase: string,
    changed: Result<seq<string>, string>,
    drift: Result<seq<DriftEntry>, string>,
    changedListError: Option<string>,
    setup: ScriptResult,
    check: ScriptResult,
    test: ScriptResult,
    rules: Result<seq<Rule>, string>,
    settings: SettingsFile,
    diffError: Option<string>,
    agent: string -> AgentRun,
    files: string -> Worktree,
    glob: Glob,
    codec: Codec)

  const EMPTY_TREE_SHA := "4b825dc642cb6eb9a060e54bf8d69288fbee4904"

  /** resolveBase: the remote-tracking ref, then the local branch, then the empty tree unless the fetch
      failed. */
  function ResolveBase(remoteBase: string, localBase: string, fetchFailed: bool): Result<string, ()> {
    if remoteBase != "" then Ok(remoteBase)
    else if localBase != "" then Ok(localBase)
    else if fetchFailed then Err(())
    else Ok(EMPTY_TREE_SHA)
  }

  // ---- one rule ----

  function Discards(rule: string, raw: seq<RawFinding>, wt: Worktree, changed: seq<string>): RuleResult {
    var verdicts := ClassifyAll(ChangedSet(changed), wt, rule, raw);
    RuleResult(rule, KeptOf(verdicts), DroppedOf(verdicts), NoRuleError)
  }

  ghost function Checked(input: Inputs, rule: string, changed: seq<string>): RuleResult
    requires Consumes(input.codec)
  {
    match input.agent(rule)
    case Broken(e) => RuleResult(rule, [], [], AgentFailed(e))
    case Finished(stdout) =>
      match Parse(input.codec, stdout)
      case Err(e) => RuleResult(rule, [], [], BadEnvelope(e))
      case Ok(raw) => Discards(rule, raw, input.files(rule), changed)
  }

  method Check(input: Inputs, rule: string, changed: seq<string>) returns (r: RuleResult)
    requires Consumes(input.codec)
    ensures r == Checked(input, rule, changed)
  {
    match input.agent(rule)
    case Broken(e) => return RuleResult(rule, [], [], AgentFailed(e));
    case Finished(stdout) =>
      var parsed := ParseEnvelope(input.codec, stdout);
      match parsed
      case Err(e) => return RuleResult(rule, [], [], BadEnvelope(e));
      case Ok(raw) =>
        var kept, discarded := ValidateFindings(rule, raw, input.files(rule), changed);
        return RuleResult(rule, kept, discarded, NoRuleError);
  }

  // ---- all rules, in order ----

  ghost function CheckedAll(input: Inputs, rules: seq<Rule>, changed: seq<string>): (r: seq<RuleResult>)
    requires Consumes(input.codec)
    ensures |r| == |rules|
  {
    seq(|rules|, i requires 0 <= i < |rules| => Checked(input, rules[i].name, changed))
  }

  function Failures(results: seq<RuleResult>): seq<(string, RuleError)> {
    if results == [] then []
    else
      var r := results[|results| - 1];
      Failures(results[..|results| - 1]) + (if r.error != NoRuleError then [(r.name, r.error)] else [])
  }

  /** runRules: the results recorded in the run, and the error that errors it, if any. */
  ghost function RanRules(input: Inputs, rules: seq<Rule>, changed: seq<string>): (seq<RuleResult>, Option<RunError>)
    requires Consumes(input.codec)
  {
    if rules == [] then ([], None)
    else if SettingsOf(input.settings).Err? then ([], Some(FailedAt(LoadingSettings, SettingsOf(input.settings).error)))
    else if input.diffError.Some? then ([], Some(FailedAt(BuildDiff, input.diffError.value)))
    else
      var results := CheckedAll(input, rules, changed);
      var failed := Failures(results);
      (results, if failed == [] then None else Some(FailedAt(EvaluatingRules(failed), "")))
  }

  method RunRules(input: Inputs, rules: seq<Rule>, changed: seq<string>)
    returns (results: seq<RuleResult>, err: Option<RunError>)
    requires Consumes(input.codec)
    ensures (results, err) == RanRules(input, rules, changed)
  {
    if |rules| == 0 {
      return [], None;
    }
    var limit := LoadSettings(input.settings);
    if limit.Err? {
      return [], Some(FailedAt(LoadingSettings, limit.error));
    }
    if input.diffError.Some? {
      return [], Some(FailedAt(BuildDiff, input.diffError.value));
    }
    results := CheckEach(input, rules, changed);
    var failed := CollectFailures(results);
    err := if |failed| == 0 then None else Some(FailedAt(EvaluatingRules(failed), ""));
  }

  lemma CheckedOneMore(input: Inputs, rules: seq<Rule>, i: nat, changed: seq<string>)
    requires Consumes(input.codec) && i < |rules|
    ensures CheckedAll(input, rules[..i + 1], changed) ==
              CheckedAll(input, rules[..i], changed) + [Checked(input, rules[i].name, changed)]
  {
  }

  /** The slots, filled in order; FanOut shows that any interleaving fills them the same. */
  method CheckEach(input: Inputs, rules: seq<Rule>, changed: seq<string>) returns (results: seq<RuleResult>)
    requires Consumes(input.codec)
    ensures results == CheckedAll(input, rules, changed)
  {
    results := [];
    for i := 0 to |rules|
      invariant results == CheckedAll(input, rules[..i], changed)
    {
      var r := Check(input, rules[i].name, changed);
      results := results + [r];
      CheckedOneMore(input, rules, i, changed);
    }
    assert rules[..|rules|] == rules;
  }

  method CollectFailures(results: seq<RuleResult>) returns (failed: seq<(string, RuleError)>)
    ensures failed == Failures(results)
  {
    failed := [];
    for i := 0 to |results|
      invariant failed == Failures(results[..i])
    {
      assert results[..i + 1][..i] == results[..i];
      if results[i].error != NoRuleError {
        failed := failed + [(results[i].name, results[i].error)];
      }
    }
    assert results[..|results|] == results;
  }

  // ---- the run ----

  /** execute up to its first SaveRun: worktree, base, changed files, drift. */
  function Prologue(run: Run, input: Inputs): (Run, Option<RunError>) {
    if input.worktreeError.Some? then (run, Some(FailedAt(CreateWorktree, input.worktreeError.value)))
    else
      var fetched := if input.fetchError.Some? then run.(fetchWarning := input.fetchError.value) else run;
      match ResolveBase(input.remoteBase, input.localBase, input.fetchError.Some?)
      case Err(_) => (fetched, Some(FailedAt(ResolvingBase, "")))
      case Ok(base) =>
        match input.changed
        case Err(e) => (fetched.(baseSHA := base), Some(FailedAt(DiffChangedFiles, e)))
        case Ok(changed) =>
          var diffed := fetched.(baseSHA := base, changedFiles := changed);
          match input.drift
          case Ok(drift) => (diffed.(drift := run.drift + drift), None)
          case Err(e) => (diffed.(warnings := run.warnings + [e]), None)
  }

  /** The verdict once everything has run: any surviving finding fails the gate. */
  function Decided(run: Run, input: Inputs, results: seq<RuleResult>, ruleErr: Option<RunError>): (Run,
      Option<RunError>) {
    var scripts := map[Setup := input.setup, ScriptName.Check := input.check, Test := input.test];
    var passed := input.check.OK() && input.test.OK() && |Findings(results)| == 0;
    var state := if ruleErr.Some? then run.state else if passed then Passed else Failed;
    (run.(scripts := scripts, rules := results, state := state), ruleErr)
  }

  /** The rest of execute: scripts, rules, verdict. */
  ghost function Body(run: Run, input: Inputs): (Run, Option<RunError>)
    requires Consumes(input.codec)
  {
    if input.changedListError.Some? then (run, Some(FailedAt(WriteChangedList, input.changedListError.value)))
    else
      var ready := run.(scripts := map[Setup := input.setup]);
      if !input.setup.OK() then (ready, Some(FailedAt(SetupScript, "")))
      else match input.rules
        case Err(e) => (ready, Some(FailedAt(LoadingRules, e)))
        case Ok(all) =>
          var (results, err) := RanRules(input, Selected(input.glob, all, run.changedFiles), run.changedFiles);
          Decided(run, input, results, err)
  }

  /** The end of Execute: an error errors the run, and so does a state that is not terminal. */
  function Conclude(run: Run, err: Option<RunError>): Run {
    var r := if err.Some? then run.(state := Errored, error := err.value) else run;
    if r.state.Terminal() then r else r.(state := Errored, error := NonTerminal)
  }

  /** Whatever came before, the run ends in a terminal state: errored by its error, or for want of one. */
  lemma AlwaysEnds(run: Run, err: Option<RunError>)
    ensures Conclude(run, err).state !in {Queued, Running}
    ensures match err
            case Some(e) => Conclude(run, err) == run.(state := Errored, error := e)
            case None =>
              Conclude(run, err) ==
              if run.state in {Queued, Running} then run.(state := Errored, error := NonTerminal) else run
  {
  }

  function Started(run: Run): Run {
    run.(state := Running)
  }

  /** execute: what it leaves in the record, and the error it returns, if any. */
  ghost function Executed(run: Run, input: Inputs): (Run, Option<RunError>)
    requires Consumes(input.codec)
  {
    var (run1, err1) := Prologue(run, input);
    if err1.Some? then (run1, err1) else Body(run1, input)
  }

  ghost function Judged(run: Run, input: Inputs): Run
    requires Consumes(input.codec)
  {
    var (done, err) := Executed(run, input);
    Conclude(done, err)
  }

  /** The *model.Run a run is executed on. The saves between the steps are the Lifecycle's. */
  class GateRun {
    const id: string
    const repoID: string
    const sha: string
    var state: RunState
    var error: RunError
    var fetchWarning: string
    var baseSHA: string
    var changedFiles: seq<string>
    var drift: seq<DriftEntry>
    var scripts: map<ScriptName, ScriptResult>
    var rules: seq<RuleResult>
    var warnings: seq<string>
    var feedbackPath: string

    function Record(): Run
      reads this
    {
      Run(id, repoID, sha, state, error, fetchWarning, baseSHA, changedFiles, drift, scripts, rules, warnings,
        feedbackPath)
    }

    constructor (id: string, repoID: string, sha: string)
      ensures Record() == QueuedRun(id, repoID, sha)
    {
      this.id, this.repoID, this.sha := id, repoID, sha;
      state, error, fetchWarning, baseSHA, feedbackPath := Queued, NoError, "", "", "";
      changedFiles, drift, rules, warnings := [], [], [], [];
      scripts := map[];
    }

    method Execute(input: Inputs)
      requires Consumes(input.codec)
      modifies this
      ensures Record() == Judged(old(Started(Record())), input)
    {
      ghost var started := Started(Record());
      state := Running;
      assert Record() == started;
      var err := ExecuteSteps(input);
      assert (Record(), err) == Executed(started, input);
      Finish(err);
    }

    method ExecuteSteps(input: Inputs) returns (err: Option<RunError>)
      requires Consumes(input.codec)
      modifies this
      ensures (Record(), err) == Executed(old(Record()), input)
    {
      err := Prepare(input);
      if err == None {
        err := Evaluate(input);
      }
    }

    method Finish(err: Option<RunError>)
      modifies this
      ensures Record() == Conclude(old(Record()), err)
    {
      if err.Some? {
        state := Errored;
        error := err.value;
      }
      if !state.Terminal() {
        state := Errored;
        error := NonTerminal;
      }
    }

    method Prepare(input: Inputs) returns (err: Option<RunError>)
      modifies this
      ensures (Record(), err) == Prologue(old(Record()), input)
    {
      if input.worktreeError.Some? {
        return Some(FailedAt(CreateWorktree, input.worktreeError.value));
      }
      if input.fetchError.Some? {
        fetchWarning := input.fetchError.value;
      }
      var base := ResolveBase(input.remoteBase, input.localBase, input.fetchError.Some?);
      if base.Err? {
        return Some(FailedAt(ResolvingBase, ""));
      }
      baseSHA := base.value;
      if input.changed.Err? {
        return Some(FailedAt(DiffChangedFiles, input.changed.error));
      }
      changedFiles := input.changed.value;
      if input.drift.Ok? {
        drift := drift + input.drift.value;
      } else {
        warnings := warnings + [input.drift.error];
      }
      return None;
    }

    method Evaluate(input: Inputs) returns (err: Option<RunError>)
      requires Consumes(input.codec)
      modifies this
      ensures (Record(), err) == Body(old(Record()), input)
    {
      if input.changedListError.Some? {
        return Some(FailedAt(WriteChangedList, input.changedListError.value));
      }
      scripts := map[Setup := input.setup];
      if !input.setup.OK() {
        return Some(FailedAt(SetupScript, ""));
      }
      if input.rules.Err? {
        return Some(FailedAt(LoadingRules, input.rules.error));
      }
      var matched := MatchRules(input.glob, input.rules.value, changedFiles);
      var results, ruleErr := RunRules(input, matched, changedFiles);
      err := Decide(input, results, ruleErr);
    }

    /** Collects what the concurrent scripts and rules left, then decides. */
    method Decide(input: Inputs, results: seq<RuleResult>, ruleErr: Option<RunError>) returns (err: Option<RunError>)
      requires scripts == map[Setup := input.setup]
      modifies this
      ensures (Record(), err) == Decided(old(Record()), input, results, ruleErr)
    {
      scripts := scripts[ScriptName.Check := input.check];
      scripts := scripts[Test := input.test];
      assert scripts == map[Setup := input.setup, ScriptName.Check := input.check, Test := input.test];
      rules := results;
      if ruleErr.Some? {
        return ruleErr;
      }
      var passed := scripts[ScriptName.Check].OK() && scripts[Test].OK() && |Findings(rules)| == 0;
      state := if passed then Passed else Failed;
      return None;
    }
  }

  // ---- what a passed verdict means ----

  /** A finding the filter may not drop: it cites a changed, readable file in which its snippet occurs
      near its line. */
  ghost predicate Cited(rf: RawFinding, changed: seq<string>, files: Worktree) {
    && NamesChanged(rf.file, changed)
    && exists lines :: HasLines(rf.file, files, lines) && Occurs(lines, rf.line, rf.snippet)
  }

  /** The rule's agent finished cleanly with a well-formed report none of whose findings is cited. */
  ghost predicate RuleClean(input: Inputs, rule: string, changed: seq<string>) {
    && input.agent(rule).Finished?
    && exists raw :: Reports(input.codec, input.agent(rule).stdout, raw)
         && forall rf :: rf in raw ==> !Cited(rf, changed, input.files(rule))
  }

  /** Everything a pass stands for. */
  ghost predicate Clean(input: Inputs) {
    && input.worktreeError == None
    && (input.remoteBase != "" || input.localBase != "" || input.fetchError == None)
    && input.changed.Ok?
    && BodyClean(input)
  }

  ghost predicate AllSelectedClean(input: Inputs)
    requires input.changed.Ok? && input.rules.Ok?
  {
    forall r :: r in input.rules.value && Selects(input.glob, r, input.changed.value) ==>
      SettingsOf(input.settings).Ok? && input.diffError == None && RuleClean(input, r.name, input.changed.value)
  }

  ghost predicate BodyClean(input: Inputs)
    requires input.changed.Ok?
  {
    && input.changedListError == None
    && input.setup.OK() && input.check.OK() && input.test.OK()
    && input.rules.Ok? && AllSelectedClean(input)
  }

  lemma {:induction false} NothingKept<K, D>(vs: seq<Outcome<K, D>>)
    ensures KeptOf(vs) == [] <==> forall i :: 0 <= i < |vs| ==> vs[i].Dropped?
  {
    if vs == [] {
    } else {
      var n := |vs| - 1;
      NothingKept(vs[..n]);
      assert |KeptOf(vs)| == |KeptOf(vs[..n])| + |KeptPart(vs[n])|;
      assert forall i :: 0 <= i < n ==> vs[..n][i] == vs[i];
    }
  }

  lemma NoneKept(changed: seq<string>, files: Worktree, rule: string, raw: seq<RawFinding>)
    ensures KeptOf(ClassifyAll(ChangedSet(changed), files, rule, raw)) == [] <==>
            forall rf :: rf in raw ==> !Cited(rf, changed, files)
  {
    var vs := ClassifyAll(ChangedSet(changed), files, rule, raw);
    NothingKept(vs);
    forall i | 0 <= i < |raw| ensures vs[i].Dropped? <==> !Cited(raw[i], changed, files) {
      KeptIsCited(changed, files, rule, raw[i]);
    }
    assert forall rf :: rf in raw ==> exists i :: 0 <= i < |raw| && raw[i] == rf;
  }

  lemma KeptIsCited(changed: seq<string>, files: Worktree, rule: string, rf: RawFinding)
    ensures Classify(ChangedSet(changed), files, rule, rf).Kept? <==> Cited(rf, changed, files)
  {
    ClassifyMeaning(changed, files, rule, rf);
    if NormalizePath(rf.file).Some? && ReadLines(files, NormalizePath(rf.file).value).Some? {
      var lines := ReadLines(files, NormalizePath(rf.file).value).value;
      SnippetAtNearest(lines, rf.line, rf.snippet);
      forall ls ensures HasLines(rf.file, files, ls) ==> ls == lines {
        HasLinesMeaning(rf.file, files, ls);
      }
    }
  }

  /** One rule contributes neither an error nor a finding exactly when it is clean. */
  lemma CheckedClean(input: Inputs, rule: string, changed: seq<string>)
    requires Consumes(input.codec)
    ensures var r := Checked(input, rule, changed);
            (r.error == NoRuleError && r.findings == []) <==> RuleClean(input, rule, changed)
  {
    if input.agent(rule).Finished? {
      var stdout := input.agent(rule).stdout;
      forall raw ensures Parse(input.codec, stdout) == Ok(raw) <==> Reports(input.codec, stdout, raw) {
        ParseMeaning(input.codec, stdout, raw);
      }
      if Parse(input.codec, stdout).Ok? {
        NoneKept(changed, input.files(rule), rule, Parse(input.codec, stdout).value);
      }
    }
  }

  lemma {:induction false} NothingFailed(results: seq<RuleResult>)
    ensures Failures(results) == [] <==> forall r :: r in results ==> r.error == NoRuleError
  {
    if results == [] {
    } else {
      NothingFailed(results[..|results| - 1]);
      assert results == results[..|results| - 1] + [results[|results| - 1]];
    }
  }

  lemma {:induction false} NothingFound(results: seq<RuleResult>)
    ensures |Findings(results)| == 0 <==> forall r :: r in results ==> r.findings == []
  {
    if results == [] {
    } else {
      NothingFound(results[1..]);
      assert results == [results[0]] + results[1..];
    }
  }

  lemma {:induction false} NothingWrong(results: seq<RuleResult>)
    ensures (Failures(results) == [] && |Findings(results)| == 0) <==>
            forall i :: 0 <= i < |results| ==> results[i].error == NoRuleError && results[i].findings == []
  {
    NothingFailed(results);
    NothingFound(results);
    assert forall i :: 0 <= i < |results| ==> results[i] in results;
  }

  lemma {:induction false} AllRulesClean(input: Inputs, rules: seq<Rule>, changed: seq<string>)
    requires Consumes(input.codec)
    ensures var results := CheckedAll(input, rules, changed);
            (Failures(results) == [] && |Findings(results)| == 0) <==>
            forall r :: r in rules ==> RuleClean(input, r.name, changed)
  {
    var results := CheckedAll(input, rules, changed);
    NothingWrong(results);
    forall i | 0 <= i < |rules|
      ensures rules[i] in rules
      ensures (results[i].error == NoRuleError && results[i].findings == []) <==>
              RuleClean(input, rules[i].name, changed)
    {
      CheckedClean(input, rules[i].name, changed);
    }
  }

  lemma RanRulesClean(input: Inputs, rules: seq<Rule>, changed: seq<string>)
    requires Consumes(input.codec)
    ensures var (results, err) := RanRules(input, rules, changed);
            (err == None && |Findings(results)| == 0) <==>
            (rules != [] ==> SettingsOf(input.settings).Ok? && input.diffError == None)
            && forall r :: r in rules ==> RuleClean(input, r.name, changed)
  {
    AllRulesClean(input, rules, changed);
  }

  lemma PrologueMeaning(run: Run, input: Inputs)
    ensures var (r, err) := Prologue(run, input);
            && (err == None <==> input.worktreeError == None && input.changed.Ok?
                                 && (input.remoteBase != "" || input.localBase != "" || input.fetchError == None))
            && (err == None ==> r.changedFiles == input.changed.value)
            && r.state == run.state && SameRun(r, run)
  {
  }

  predicate SameRun(a: Run, b: Run) {
    a.id == b.id && a.repoID == b.repoID && a.sha == b.sha
  }

  lemma SelectedClean(input: Inputs)
    requires Consumes(input.codec) && input.changed.Ok? && input.rules.Ok?
    ensures var rules := Selected(input.glob, input.rules.value, input.changed.value);
            var (results, err) := RanRules(input, rules, input.changed.value);
            (err == None && |Findings(results)| == 0) <==> AllSelectedClean(input)
  {
    var changed := input.changed.value;
    var rules := Selected(input.glob, input.rules.value, changed);
    SelectedMeaning(input.glob, input.rules.value, changed);
    RanRulesClean(input, rules, changed);
    assert rules != [] ==> rules[0] in rules;
  }

  lemma BodyMeaning(run: Run, input: Inputs)
    requires Consumes(input.codec) && input.changed.Ok? && run.changedFiles == input.changed.value
    requires run.state == Running
    ensures var (r, err) := Body(run, input);
            && (err == None ==> r.state == Passed || r.state == Failed)
            && (err == None && r.state == Passed <==> BodyClean(input))
            && SameRun(r, run)
  {
    if input.rules.Ok? {
      SelectedClean(input);
    }
  }

  /** A run passes exactly when everything it is meant to stand for holds; it always ends passed,
      failed or errored, as the run it was. */
  lemma PassedMeansClean(run: Run, input: Inputs)
    requires Consumes(input.codec) && run.state == Running
    ensures Judged(run, input).state == Passed <==> Clean(input)
    ensures Judged(run, input).state in {Passed, Failed, Errored} && SameRun(Judged(run, input), run)
  {
    PrologueMeaning(run, input);
    var (run1, err1) := Prologue(run, input);
    if err1 == None {
      BodyMeaning(run1, input);
    }
  }

  // ---- what the other verdicts mean ----

  /** The rule's agent finished cleanly with a well-formed report, whatever it reports. */
  ghost predicate RuleReports(input: Inputs, rule: string) {
    input.agent(rule).Finished? && exists raw :: Reports(input.codec, input.agent(rule).stdout, raw)
  }

  ghost predicate AllSelectedReport(input: Inputs)
    requires input.changed.Ok? && input.rules.Ok?
  {
    forall r :: r in input.rules.value && Selects(input.glob, r, input.changed.value) ==>
      SettingsOf(input.settings).Ok? && input.diffError == None && RuleReports(input, r.name)
  }

  /** Nothing happened for which execute returns an error: worktree, base, changed files, setup, rules,
      settings, diff, agents and their reports. */
  ghost predicate Evaluable(input: Inputs) {
    && input.worktreeError == None
    && (input.remoteBase != "" || input.localBase != "" || input.fetchError == None)
    && input.changed.Ok? && input.changedListError == None
    && input.setup.OK() && input.rules.Ok? && AllSelectedReport(input)
  }

  lemma CheckedReports(input: Inputs, rule: string, changed: seq<string>)
    requires Consumes(input.codec)
    ensures Checked(input, rule, changed).error == NoRuleError <==> RuleReports(input, rule)
  {
    if input.agent(rule).Finished? {
      var stdout := input.agent(rule).stdout;
      forall raw ensures Parse(input.codec, stdout) == Ok(raw) <==> Reports(input.codec, stdout, raw) {
        ParseMeaning(input.codec, stdout, raw);
      }
      assert Parse(input.codec, stdout).Ok? ==> Parse(input.codec, stdout) == Ok(Parse(input.codec, stdout).value);
    }
  }

  lemma AllRulesReport(input: Inputs, rules: seq<Rule>, changed: seq<string>)
    requires Consumes(input.codec)
    ensures Failures(CheckedAll(input, rules, changed)) == [] <==> forall r :: r in rules ==> RuleReports(input, r.name)
  {
    var results := CheckedAll(input, rules, changed);
    NothingFailed(results);
    forall i | 0 <= i < |rules|
      ensures results[i] in results && (results[i].error == NoRuleError <==> RuleReports(input, rules[i].name))
    {
      CheckedReports(input, rules[i].name, changed);
    }
  }

  lemma RanRulesReport(input: Inputs, rules: seq<Rule>, changed: seq<string>)
    requires Consumes(input.codec)
    ensures RanRules(input, rules, changed).1 == None <==>
              (rules != [] ==> SettingsOf(input.settings).Ok? && input.diffError == None)
              && forall r :: r in rules ==> RuleReports(input, r.name)
  {
    AllRulesReport(input, rules, changed);
  }

  lemma SelectedReport(input: Inputs)
    requires Consumes(input.codec) && input.changed.Ok? && input.rules.Ok?
    ensures var rules := Selected(input.glob, input.rules.value, input.changed.value);
            RanRules(input, rules, input.changed.value).1 == None <==> AllSelectedReport(input)
  {
    var changed := input.changed.value;
    var rules := Selected(input.glob, input.rules.value, changed);
    SelectedMeaning(input.glob, input.rules.value, changed);
    RanRulesReport(input, rules, changed);
    assert rules != [] ==> rules[0] in rules;
  }

  lemma BodyVerdict(run: Run, input: Inputs)
    requires Consumes(input.codec) && input.changed.Ok? && run.changedFiles == input.changed.value
    requires run.state == Running
    ensures Body(run, input).1 == None <==>
              input.changedListError == None && input.setup.OK() && input.rules.Ok? && AllSelectedReport(input)
    ensures Body(run, input).1 == None ==> Body(run, input).0.state in {Passed, Failed}
  {
    if input.rules.Ok? {
      SelectedReport(input);
    }
  }

  /** Errored says that a step of the run itself went wrong, never that check, test or a rule found fault;
      failed says that none did, and that something is not clean. */
  lemma VerdictMeaning(run: Run, input: Inputs)
    requires Consumes(input.codec) && run.state == Running
    ensures Judged(run, input).state == Errored <==> !Evaluable(input)
    ensures Judged(run, input).state == Failed <==> Evaluable(input) && !Clean(input)
  {
    PassedMeansClean(run, input);
    PrologueMeaning(run, input);
    var (run1, err1) := Prologue(run, input);
    if err1 == None {
      BodyVerdict(run1, input);
    }
  }

  /** A script passes the gate only if it was skipped, or exited 0 in time and without an error: a run that
      passes had all three so; check.sh or test.sh otherwise fails it; setup.sh otherwise errors it. */
  lemma ScriptsDecide(run: Run, input: Inputs)
    requires Consumes(input.codec) && run.state == Running
    ensures Judged(run, input).state == Passed ==> forall r :: r in {input.setup, input.check, input.test} ==>
              r.skipped || (r.exitCode == 0 && !r.timedOut && r.error == "")
    ensures Evaluable(input) && (exists r :: r in {input.check, input.test} && !r.skipped
                                   && (r.exitCode != 0 || r.timedOut || r.error != "")) ==>
              Judged(run, input).state == Failed
    ensures !input.setup.skipped && (input.setup.exitCode != 0 || input.setup.timedOut || input.setup.error != "") ==>
              Judged(run, input).state == Errored
  {
    VerdictMeaning(run, input);
    PassedMeansClean(run, input);
  }

  /** And scripts alone fail no run: with all three so, and no finding, it passes. */
  lemma ScriptsPass(run: Run, input: Inputs)
    requires Consumes(input.codec) && run.state == Running && Evaluable(input)
    requires forall r :: r in {input.check, input.test} ==>
               r.skipped || (r.exitCode == 0 && !r.timedOut && r.error == "")
    ensures Judged(run, input).state == Passed <==>
              forall r :: r in input.rules.value && Selects(input.glob, r, input.changed.value) ==>
                RuleClean(input, r.name, input.changed.value)
  {
    PassedMeansClean(run, input);
    assert input.check in {input.check, input.test} && input.test in {input.check, input.test};
  }

  // ---- what the record says of a run ----

  /** The error of a run that gets nowhere near its scripts: the first step to go wrong. */
  lemma PrologueErrors(run: Run, input: Inputs)
    requires Consumes(input.codec) && run.state == Running
    ensures var r := Judged(run, input);
            var noBase := input.remoteBase == "" && input.localBase == "" && input.fetchError.Some?;
            && (input.worktreeError.Some? ==> r.error == FailedAt(CreateWorktree, input.worktreeError.value))
            && (input.worktreeError.None? && noBase ==> r.error == FailedAt(ResolvingBase, ""))
            && (input.worktreeError.None? && !noBase && input.changed.Err? ==>
                  && r.error == FailedAt(DiffChangedFiles, input.changed.error)
                  && Ok(r.baseSHA) == ResolveBase(input.remoteBase, input.localBase, input.fetchError.Some?))
  {
  }

  /** The run has its base and its changed files. */
  predicate Prepared(input: Inputs) {
    && input.worktreeError.None? && input.changed.Ok?
    && (input.remoteBase != "" || input.localBase != "" || input.fetchError.None?)
  }

  lemma BodyErrors(run: Run, input: Inputs)
    requires Consumes(input.codec) && run.state == Running && Prepared(input)
    ensures var r := Judged(run, input); var setup := input.setup;
            var setUp := setup.skipped || (setup.exitCode == 0 && !setup.timedOut && setup.error == "");
            && (input.changedListError.Some? ==> r.error == FailedAt(WriteChangedList, input.changedListError.value))
            && (input.changedListError.None? && !setUp ==>
                  r.error == FailedAt(SetupScript, "") && r.scripts == map[Setup := setup])
            && (input.changedListError.None? && setUp && input.rules.Err? ==>
                  r.error == FailedAt(LoadingRules, input.rules.error))
  {
    PrologueMeaning(run, input);
  }

  /** The run has its scripts and rules to run. */
  predicate SetUp(input: Inputs) {
    Prepared(input) && input.changedListError.None? && input.setup.OK() && input.rules.Ok?
  }

  lemma RulesErrors(run: Run, input: Inputs)
    requires Consumes(input.codec) && run.state == Running && SetUp(input)
    ensures var r := Judged(run, input); var changed := input.changed.value;
            var rules := Selected(input.glob, input.rules.value, changed);
            && (rules != [] && SettingsOf(input.settings).Err? ==>
                  r.error == FailedAt(LoadingSettings, SettingsOf(input.settings).error) && r.rules == [])
            && (rules != [] && SettingsOf(input.settings).Ok? && input.diffError.Some? ==>
                  r.error == FailedAt(BuildDiff, input.diffError.value) && r.rules == [])
            && (rules == [] || (SettingsOf(input.settings).Ok? && input.diffError.None?) ==>
                  && r.rules == CheckedAll(input, rules, changed)
                  && r.error == if Failures(r.rules) == [] then run.error
                                else FailedAt(EvaluatingRules(Failures(r.rules)), ""))
  {
    PrologueMeaning(run, input);
    BodyRules(Prologue(run, input).0, input);
    assert Failures([]) == [];
  }

  lemma BodyRules(run: Run, input: Inputs)
    requires Consumes(input.codec) && input.changedListError.None? && input.setup.OK() && input.rules.Ok?
    ensures var rules := Selected(input.glob, input.rules.value, run.changedFiles);
            var (done, err) := Body(run, input);
            && (done.rules, err) == RanRules(input, rules, run.changedFiles)
            && done.error == run.error && (err == None ==> done.state.Terminal())
  {
  }

  /** The rules that failed, each under its name with its error, in order. */
  lemma {:induction false} FailuresMeaning(a: seq<RuleResult>, r: RuleResult)
    ensures Failures([]) == []
    ensures Failures(a + [r]) == if r.error == NoRuleError then Failures(a) else Failures(a) + [(r.name, r.error)]
    ensures forall x :: x in Failures(a) <==> exists b :: b in a && b.error != NoRuleError && x == (b.name, b.error)
  {
    assert (a + [r])[..|a|] == a;
    if a == [] {
    } else {
      FailuresMeaning(a[..|a| - 1], a[|a| - 1]);
      assert a == a[..|a| - 1] + [a[|a| - 1]];
    }
  }

  /** The finding is the reported one. */
  predicate IsOf(f: Finding, rf: RawFinding) {
    f.file == rf.file && f.line == rf.line && f.snippet == rf.snippet && f.explanation == rf.explanation
  }

  /** The finding is the reported one, with its path normalised and its line corrected by at most 3. */
  predicate Cites(f: Finding, rf: RawFinding) {
    && NormalizePath(rf.file) == Some(f.file) && rf.line - 3 <= f.line <= rf.line + 3
    && f.snippet == rf.snippet && f.explanation == rf.explanation
  }

  /** A finding kept for the rule cites a reported one; a discarded one is a reported one that cites nothing. */
  ghost predicate KeptFrom(f: Finding, input: Inputs, rule: string, changed: seq<string>, raw: seq<RawFinding>) {
    f.rule == rule && exists rf :: rf in raw && Cited(rf, changed, input.files(rule)) && Cites(f, rf)
  }

  ghost predicate DroppedFrom(f: Finding, input: Inputs, rule: string, changed: seq<string>, raw: seq<RawFinding>) {
    f.rule == rule && exists rf :: rf in raw && !Cited(rf, changed, input.files(rule)) && IsOf(f, rf)
  }

  /** What one rule leaves: its name; the agent's error, or the report's, and then no finding; otherwise each
      finding of the report either kept or discarded, under that name. */
  lemma CheckedMeaning(input: Inputs, rule: string, changed: seq<string>)
    requires Consumes(input.codec)
    ensures var r := Checked(input, rule, changed);
            && r.name == rule
            && (r.error != NoRuleError ==> r.findings == [] && r.discarded == [])
            && match input.agent(rule)
               case Broken(e) => r.error == AgentFailed(e)
               case Finished(stdout) =>
                 match Parse(input.codec, stdout)
                 case Err(e) => r.error == BadEnvelope(e)
                 case Ok(raw) =>
                   && r.error == NoRuleError && |r.findings| + |r.discarded| == |raw|
                   && (forall f :: f in r.findings ==> KeptFrom(f, input, rule, changed, raw))
                   && (forall d :: d in r.discarded ==> DroppedFrom(d.finding, input, rule, changed, raw))
  {
    if input.agent(rule).Finished? && Parse(input.codec, input.agent(rule).stdout).Ok? {
      var raw := Parse(input.codec, input.agent(rule).stdout).value;
      var vs := ClassifyAll(ChangedSet(changed), input.files(rule), rule, raw);
      Partition(vs);
      SplitCounts(vs);
      forall f: Finding | f in KeptOf(vs) ensures KeptFrom(f, input, rule, changed, raw) {
        KeptCites(input, rule, changed, raw, f);
      }
      forall d: DiscardedFinding | d in DroppedOf(vs) ensures DroppedFrom(d.finding, input, rule, changed, raw) {
        DroppedIsOf(input, rule, changed, raw, d);
      }
    }
  }

  lemma {:induction false} SplitCounts<K, D>(vs: seq<Outcome<K, D>>)
    ensures |KeptOf(vs)| + |DroppedOf(vs)| == |vs|
  {
    if vs == [] {
    } else {
      SplitCounts(vs[..|vs| - 1]);
    }
  }

  lemma KeptCites(input: Inputs, rule: string, changed: seq<string>, raw: seq<RawFinding>, f: Finding)
    requires f in KeptOf(ClassifyAll(ChangedSet(changed), input.files(rule), rule, raw))
    ensures KeptFrom(f, input, rule, changed, raw)
  {
    var files := input.files(rule);
    var vs := ClassifyAll(ChangedSet(changed), files, rule, raw);
    Partition(vs);
    var n :| 0 <= n < |KeptOf(vs)| && KeptOf(vs)[n] == f;
    var rf := raw[Positions(vs, true)[n]];
    ClassifyMeaning(changed, files, rule, rf);
    var lines :| IsNearest(lines, SnippetLines(rf.snippet), rf.line, f.line) && HasLines(rf.file, files, lines)
      && Occurs(lines, rf.line, rf.snippet);
    WithinThree(rf.line, f.line, f.line);
    assert rf in raw && Cites(f, rf);
  }

  lemma DroppedIsOf(input: Inputs, rule: string, changed: seq<string>, raw: seq<RawFinding>, d: DiscardedFinding)
    requires d in DroppedOf(ClassifyAll(ChangedSet(changed), input.files(rule), rule, raw))
    ensures DroppedFrom(d.finding, input, rule, changed, raw)
  {
    var files := input.files(rule);
    var vs := ClassifyAll(ChangedSet(changed), files, rule, raw);
    Partition(vs);
    var n :| 0 <= n < |DroppedOf(vs)| && DroppedOf(vs)[n] == d;
    var rf := raw[Positions(vs, false)[n]];
    ClassifyMeaning(changed, files, rule, rf);
    KeptIsCited(changed, files, rule, rf);
    assert rf in raw && IsOf(d.finding, rf);
  }

  /** What a run that has its changed files says of how it came by them: the base, the drift, and what went
      wrong without stopping it. */
  lemma RecordsPreparation(run: Run, input: Inputs)
    requires Consumes(input.codec) && run.state == Running && Prepared(input)
    ensures var r := Judged(run, input);
            && r.changedFiles == input.changed.value
            && r.drift == (if input.drift.Ok? then run.drift + input.drift.value else run.drift)
            && r.warnings == (if input.drift.Err? then run.warnings + [input.drift.error] else run.warnings)
            && r.fetchWarning == (if input.fetchError.Some? then input.fetchError.value else run.fetchWarning)
  {
    PrologueMeaning(run, input);
    BodyKeeps(Prologue(run, input).0, input);
  }

  lemma BodyKeeps(run: Run, input: Inputs)
    requires Consumes(input.codec)
    ensures var r := Body(run, input).0;
            && r.changedFiles == run.changedFiles && r.drift == run.drift && r.warnings == run.warnings
            && r.fetchWarning == run.fetchWarning
  {
  }

  // ---- a script that could not be run ----

  /** The script was skipped, or it came to an exit of its own or to its timeout, and its log was written. */
  predicate Completed(r: ScriptResult) {
    r.skipped || r.error == ""
  }

  /** The gate ran fully: no step of its own went wrong, and neither did the running of a script. */
  ghost predicate RanFully(input: Inputs) {
    Evaluable(input) && Completed(input.check) && Completed(input.test)
  }

  /** The plan calls a run failed when the gate ran fully and found problems, and errored when it could not
      complete. That is so unless everything else worked and check.sh or test.sh could not be started,
      logged or waited for: then the run is failed although the gate did not run fully. */
  lemma DocumentedVerdicts(run: Run, input: Inputs)
    requires Consumes(input.codec) && run.state == Running
    ensures var state := Judged(run, input).state;
            var documented := if Clean(input) then Passed else if RanFully(input) then Failed else Errored;
            && (state == documented <==>
                  (Evaluable(input) ==>
                     && (input.check.skipped || input.check.error == "")
                     && (input.test.skipped || input.test.error == "")))
            && (state != documented ==> state == Failed && documented == Errored)
  {
    VerdictMeaning(run, input);
    CleanRanFully(input);
  }

  lemma CleanRanFully(input: Inputs)
    requires Consumes(input.codec)
    ensures Clean(input) ==> RanFully(input)
  {
    var run := Started(QueuedRun("", "", ""));
    PassedMeansClean(run, input);
    VerdictMeaning(run, input);
  }

  /** The record of a verdict holds what it rests on: all three scripts, and every selected rule's result. */
  lemma VerdictRecord(run: Run, input: Inputs)
    requires Consumes(input.codec) && run.state == Running && Evaluable(input)
    ensures var r := Judged(run, input); var changed := input.changed.value;
            && r.changedFiles == changed
            && r.scripts == map[Setup := input.setup, ScriptName.Check := input.check, Test := input.test]
            && r.rules == CheckedAll(input, Selected(input.glob, input.rules.value, changed), changed)
  {
    PrologueMeaning(run, input);
    BodyVerdict(Prologue(run, input).0, input);
    SelectedReport(input);
  }

  lemma BodyKeepsBase(run: Run, input: Inputs)
    requires Consumes(input.codec)
    ensures Body(run, input).0.baseSHA == run.baseSHA
  {
  }

  lemma PrologueBase(run: Run, input: Inputs)
    requires Prologue(run, input).1 == None
    ensures ResolveBase(input.remoteBase, input.localBase, input.fetchError.Some?) == Ok(Prologue(run, input).0.baseSHA)
  {
  }

  /** What a verdict was computed against: the merge base with the remote branch, else with the local one;
      the empty tree, which makes every file changed, only when the fetch succeeded and there is neither. */
  lemma NoGuessedBase(run: Run, input: Inputs)
    requires Consumes(input.codec) && run.state == Running && Evaluable(input)
    ensures var base := Judged(run, input).baseSHA;
            && (input.remoteBase != "" ==> base == input.remoteBase)
            && (input.remoteBase == "" && input.localBase != "" ==> base == input.localBase)
            && (input.remoteBase == "" && input.localBase == "" ==>
                  base == "4b825dc642cb6eb9a060e54bf8d69288fbee4904" && input.fetchError == None)
  {
    PrologueMeaning(run, input);
    PrologueBase(run, input);
    BodyKeepsBase(Prologue(run, input).0, input);
  }
}
