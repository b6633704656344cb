/** The records shared by every package (internal/model/model.go). Times, durations, log paths and
    token usage are not carried: nothing in the modelled logic reads them. Error texts are carried as
    what they say, not as their wording. */
module Model {

  datatype RunState = Queued | Running | Passed | Failed | Errored | Cancelled {
    predicate Terminal() {
      match this
      case Passed | Failed | Errored | Cancelled => true
      case Queued | Running => false
    }

    /** Position in the lifecycle queued, running, terminal. */
    function Rank(): nat {
      match this
      case Queued => 0
      case Running => 1
      case _ => 2
    }
  }

  datatype Repo = Repo(id: string, path: string, gateRepo: string, defaultBranch: string, upstreamURL: string)

  datatype Finding = Finding(rule: string, file: string, line: int, snippet: string, explanation: string)

  datatype DiscardReason = NotChanged | MissingFile | BadSnippet

  datatype DiscardedFinding = DiscardedFinding(finding: Finding, reason: DiscardReason)

  datatype ScriptName = Setup | Check | Test

  datatype ScriptResult = ScriptResult(skipped: bool, exitCode: int, timedOut: bool, error: string) {
    predicate OK() {
      skipped || (exitCode == 0 && !timedOut && error == "")
    }
  }

  /** Why an agent's output is not a findings report. */
  datatype EnvelopeError =
    | NoEnvelope
    | NoStructuredOutput
    | NullStructuredOutput
    | NotAnObject
    | NoFindings
    | NullFindings
    | NotAFindingsArray

  /** The error of a rule that could not be evaluated; NoRuleError is the empty string. */
  datatype RuleError = NoRuleError | AgentFailed(detail: string) | BadEnvelope(reason: EnvelopeError)

  datatype RuleResult = RuleResult(
    name: string,
    findings: seq<Finding>,
    discarded: seq<DiscardedFinding>,
    error: RuleError)

  /** The step of a run that failed. */
  datatype Stage =
    | CreateWorktree
    | ResolvingBase
    | DiffChangedFiles
    | WriteChangedList
    | SetupScript
    | LoadingRules
    | LoadingSettings
    | BuildDiff
    | EvaluatingRules(failed: seq<(string, RuleError)>)

  /** The error text of a run, by what it says; NoError is the empty string. */
  datatype RunError = NoError | Interrupted | NonTerminal | FailedAt(stage: Stage, detail: string)

  datatype DriftEntry = DriftEntry(status: string, path: string)

  datatype Run = Run(
    id: string,
    repoID: string,
    sha: string,
    state: RunState,
    error: RunError,
    fetchWarning: string,
    baseSHA: string,
    changedFiles: seq<string>,
    drift: seq<DriftEntry>,
    scripts: map<ScriptName, ScriptResult>,
    rules: seq<RuleResult>,
    warnings: seq<string>,
    feedbackPath: string)

  /** The record a submit registers: no verdict, no evidence. */
  function QueuedRun(id: string, repoID: string, sha: string): Run {
    Run(id, repoID, sha, Queued, NoError, "", "", [], [], map[], [], [], "")
  }

  /** The surviving findings across all rules, in rule order. */
  function Findings(rules: seq<RuleResult>): seq<Finding> {
    if rules == [] then [] else rules[0].findings + Findings(rules[1..])
  }
}
