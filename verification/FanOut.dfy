/** The concurrent middle of a run (internal/runner/runner.go): check.sh and test.sh each in a goroutine,
    and one agent per rule behind errgroup's limit, each writing its own slot. Whatever the schedule,
    what is left when everything has been waited for is what Gate computes in order. */
module FanOut {
  import opened Text
  import opened Model
  import opened Envelope
  import opened Rules
  import opened Gate

  /** The work: what each rule's agent and each script comes to, and how many agents may run at once. */
  datatype Job<!R> = Job(rules: nat, outcome: nat -> R, script: ScriptName -> ScriptResult, limit: nat)

  /** next counts the calls of g.Go that have returned; a goroutine is in working until it gives its
      token back, and in filled once it has written its slot. */
  datatype State<R> = State(
    scripts: map<ScriptName, ScriptResult>,
    pending: set<ScriptName>,
    next: nat,
    working: set<nat>,
    filled: set<nat>,
    slots: seq<Option<R>>)

  datatype Action = Finish(name: ScriptName) | Launch | Fill(i: nat) | Release(i: nat)

  const PARALLEL: set<ScriptName> := {ScriptName.Check, Test}

  function Begin<R>(job: Job<R>, setup: ScriptResult): State<R> {
    State(map[Setup := setup], PARALLEL, 0, {}, {}, seq(job.rules, _ => None))
  }

  predicate Enabled<R>(job: Job<R>, s: State<R>, a: Action) {
    match a
    case Finish(name) => name in s.pending
    case Launch => s.next < job.rules && |s.working| < job.limit
    case Fill(i) => i in s.working && i !in s.filled && i < |s.slots|
    case Release(i) => i in s.working && i in s.filled
  }

  function Next<R>(job: Job<R>, s: State<R>, a: Action): State<R>
    requires Enabled(job, s, a)
  {
    match a
    case Finish(name) => s.(scripts := s.scripts[name := job.script(name)], pending := s.pending - {name})
    case Launch => s.(next := s.next + 1, working := s.working + {s.next})
    case Fill(i) => s.(slots := s.slots[i := Some(job.outcome(i))], filled := s.filled + {i})
    case Release(i) => s.(working := s.working - {i})
  }

  predicate Runs<R(==)>(job: Job<R>, s: State<R>, actions: seq<Action>, end: State<R>)
    decreases |actions|
  {
    if actions == [] then s == end
    else Enabled(job, s, actions[0]) && Runs(job, Next(job, s, actions[0]), actions[1..], end)
  }

  /** g.Wait and wg.Wait have both returned. */
  predicate Complete<R>(job: Job<R>, s: State<R>) {
    s.pending == {} && s.next == job.rules && s.working == {}
  }

  // ---- what every step keeps ----

  ghost predicate Inv<R(!new)>(job: Job<R>, setup: ScriptResult, s: State<R>) {
    && s.pending <= PARALLEL && s.scripts.Keys == {Setup} + (PARALLEL - s.pending) && s.scripts[Setup] == setup
    && (forall name :: name in PARALLEL && name !in s.pending ==> s.scripts[name] == job.script(name))
    && |s.slots| == job.rules && s.next <= job.rules && |s.working| <= job.limit
    && (forall i :: i in s.working || i in s.filled ==> i < s.next)
    && (forall i :: 0 <= i < s.next ==> i in s.working || i in s.filled)
    && (forall i :: 0 <= i < |s.slots| ==> s.slots[i] == if i in s.filled then Some(job.outcome(i)) else None)
  }

  lemma Preserves<R(!new)>(job: Job<R>, setup: ScriptResult, s: State<R>, a: Action)
    requires Inv(job, setup, s) && Enabled(job, s, a)
    ensures Inv(job, setup, Next(job, s, a))
  {
    if a.Release? {
      assert s.working == Next(job, s, a).working + {a.i};
    }
  }

  lemma {:induction false} RunsKeep<R(!new)>(job: Job<R>, setup: ScriptResult, s: State<R>,
      actions: seq<Action>, end: State<R>)
    requires Inv(job, setup, s) && Runs(job, s, actions, end)
    ensures Inv(job, setup, end)
    decreases |actions|
  {
    if actions == [] {
    } else {
      Preserves(job, setup, s, actions[0]);
      RunsKeep(job, setup, Next(job, s, actions[0]), actions[1..], end);
    }
  }

  /** Never more agents at once than the limit, under any schedule. */
  lemma Bounded<R(!new)>(job: Job<R>, setup: ScriptResult, actions: seq<Action>, end: State<R>)
    requires Runs(job, Begin(job, setup), actions, end)
    ensures |end.working| <= job.limit
  {
    RunsKeep(job, setup, Begin(job, setup), actions, end);
  }

  /** Every complete schedule leaves the same: each rule's own outcome in its slot, whatever became of
      the others, and the three scripts. */
  lemma ScheduleIndependent<R(!new)>(job: Job<R>, setup: ScriptResult, actions: seq<Action>, end: State<R>)
    requires Runs(job, Begin(job, setup), actions, end) && Complete(job, end)
    ensures end.slots == seq(job.rules, i requires 0 <= i < job.rules => Some(job.outcome(i)))
    ensures end.scripts ==
              map[Setup := setup, ScriptName.Check := job.script(ScriptName.Check), Test := job.script(Test)]
  {
    RunsKeep(job, setup, Begin(job, setup), actions, end);
  }

  // ---- every schedule ends ----

  function Remaining<R>(job: Job<R>, s: State<R>): int {
    |s.pending| + 3 * (job.rules - s.next) + |s.working| + |s.working - s.filled|
  }

  lemma OneMore<T>(s: set<T>, t: set<T>, x: T)
    requires x !in s && t == s + {x}
    ensures |t| == |s| + 1
  {
  }

  lemma LaunchCounts<R(!new)>(job: Job<R>, setup: ScriptResult, s: State<R>)
    requires Inv(job, setup, s) && Enabled(job, s, Launch)
    ensures Remaining(job, Next(job, s, Launch)) < Remaining(job, s)
  {
    var s' := Next(job, s, Launch);
    OneMore(s.working, s'.working, s.next);
    OneMore(s.working - s.filled, s'.working - s'.filled, s.next);
  }

  lemma WorkerCounts<R(!new)>(job: Job<R>, s: State<R>, a: Action)
    requires Enabled(job, s, a) && (a.Fill? || a.Release?)
    ensures Remaining(job, Next(job, s, a)) < Remaining(job, s)
  {
    var s' := Next(job, s, a);
    if a.Fill? {
      OneMore(s'.working - s'.filled, s.working - s.filled, a.i);
    } else {
      OneMore(s'.working, s.working, a.i);
      assert s.working - s.filled == s'.working - s'.filled;
    }
  }

  lemma EveryStepCounts<R(!new)>(job: Job<R>, setup: ScriptResult, s: State<R>, a: Action)
    requires Inv(job, setup, s) && Enabled(job, s, a)
    ensures 0 <= Remaining(job, Next(job, s, a)) < Remaining(job, s)
  {
    Preserves(job, setup, s, a);
    match a {
      case Finish(name) => OneMore(Next(job, s, a).pending, s.pending, name);
      case Launch => LaunchCounts(job, setup, s);
      case Fill(_) => WorkerCounts(job, s, a);
      case Release(_) => WorkerCounts(job, s, a);
    }
  }

  lemma {:induction false} SchedulesAreShort<R(!new)>(job: Job<R>, setup: ScriptResult, s: State<R>,
      actions: seq<Action>, end: State<R>)
    requires Inv(job, setup, s) && Runs(job, s, actions, end)
    ensures |actions| <= Remaining(job, s)
    decreases |actions|
  {
    if actions == [] {
    } else {
      EveryStepCounts(job, setup, s, actions[0]);
      Preserves(job, setup, s, actions[0]);
      SchedulesAreShort(job, setup, Next(job, s, actions[0]), actions[1..], end);
    }
  }

  /** With room for one agent something can always go on until everything is done. */
  lemma NeverStuck<R(!new)>(job: Job<R>, setup: ScriptResult, s: State<R>) returns (a: Action)
    requires Inv(job, setup, s) && !Complete(job, s) && job.limit >= 1
    ensures Enabled(job, s, a)
  {
    if s.pending != {} {
      var name :| name in s.pending;
      a := Finish(name);
    } else if s.working != {} {
      var i :| i in s.working;
      a := if i in s.filled then Release(i) else Fill(i);
    } else {
      a := Launch;
    }
  }

  lemma {:induction false} NothingLaunched<R(!new)>(job: Job<R>, setup: ScriptResult, s: State<R>,
      actions: seq<Action>, end: State<R>)
    requires job.limit == 0 && s.next == 0 && Runs(job, s, actions, end)
    ensures end.next == 0
    decreases |actions|
  {
    if actions == [] {
    } else {
      NothingLaunched(job, setup, Next(job, s, actions[0]), actions[1..], end);
    }
  }

  lemma {:induction false} Completes<R(!new)>(job: Job<R>, setup: ScriptResult, s: State<R>)
    returns (actions: seq<Action>, end: State<R>)
    requires Inv(job, setup, s) && job.limit >= 1
    ensures Runs(job, s, actions, end) && Complete(job, end)
    decreases Remaining(job, s)
  {
    if Complete(job, s) {
      actions, end := [], s;
    } else {
      var a := NeverStuck(job, setup, s);
      EveryStepCounts(job, setup, s, a);
      Preserves(job, setup, s, a);
      var rest;
      rest, end := Completes(job, setup, Next(job, s, a));
      actions := [a] + rest;
      assert actions[1..] == rest;
    }
  }

  lemma ScriptsAlone<R(!new)>(job: Job<R>, setup: ScriptResult) returns (actions: seq<Action>, end: State<R>)
    requires job.rules == 0
    ensures Runs(job, Begin(job, setup), actions, end) && Complete(job, end)
  {
    var s1 := Next(job, Begin(job, setup), Finish(ScriptName.Check));
    actions, end := [Finish(ScriptName.Check), Finish(Test)], Next(job, s1, Finish(Test));
    assert actions[1..] == [Finish(Test)] && [Finish(Test)][1..] == [];
    assert Runs(job, s1, [Finish(Test)], end);
  }

  ghost predicate GetsThrough<R(!new)>(job: Job<R>, setup: ScriptResult, actions: seq<Action>, end: State<R>) {
    Runs(job, Begin(job, setup), actions, end) && Complete(job, end)
  }

  /** The run gets through exactly when the limit lets an agent start or there is none to start. */
  lemma DeadlockIffNoRoom<R(!new)>(job: Job<R>, setup: ScriptResult)
    ensures (exists actions, end :: GetsThrough(job, setup, actions, end)) <==>
            job.limit >= 1 || job.rules == 0
  {
    if job.limit >= 1 {
      var actions, end := Completes(job, setup, Begin(job, setup));
      assert GetsThrough(job, setup, actions, end);
    } else if job.rules == 0 {
      var actions, end := ScriptsAlone(job, setup);
      assert GetsThrough(job, setup, actions, end);
    } else {
      forall actions, end | Runs(job, Begin(job, setup), actions, end) ensures !GetsThrough(job, setup, actions, end) {
        NothingLaunched(job, setup, Begin(job, setup), actions, end);
      }
    }
  }

  // ---- back to the run ----

  /** The error runRules returns before it starts an agent. */
  ghost function EarlyError(input: Inputs, rules: seq<Rule>): Option<RunError> {
    if rules == [] then None
    else if SettingsOf(input.settings).Err? then Some(FailedAt(LoadingSettings, SettingsOf(input.settings).error))
    else if input.diffError.Some? then Some(FailedAt(BuildDiff, input.diffError.value))
    else None
  }

  /** The work of a run; after an early error no agent is started and the limit is never used. */
  ghost function JobOf(input: Inputs, rules: seq<Rule>, changed: seq<string>): Job<RuleResult>
    requires Consumes(input.codec)
  {
    Job(if EarlyError(input, rules) == None then |rules| else 0,
        (i: nat) => if i < |rules| then Checked(input, rules[i].name, changed) else RuleResult("", [], [], NoRuleError),
        (name: ScriptName) => match name case Setup => input.setup case Check => input.check case Test => input.test,
        if SettingsOf(input.settings).Ok? then SettingsOf(input.settings).value else 1)
  }

  ghost predicate AllFilled<R>(s: State<R>) {
    forall i :: 0 <= i < |s.slots| ==> s.slots[i].Some?
  }

  ghost function Results<R>(s: State<R>): (r: seq<R>)
    requires AllFilled(s)
    ensures |r| == |s.slots|
  {
    seq(|s.slots|, i requires 0 <= i < |s.slots| && AllFilled(s) => s.slots[i].value)
  }

  /** runRules' error: an early one, or the rules that failed. */
  function RulesError(early: Option<RunError>, results: seq<RuleResult>): Option<RunError> {
    var failed := Failures(results);
    if early.Some? then early else if failed == [] then None else Some(FailedAt(EvaluatingRules(failed), ""))
  }

  /** The end of execute, on what the goroutines have left: the script results, the slots, the rule errors
      collected from the slots, the verdict. */
  ghost function Gathered(run: Run, early: Option<RunError>, end: State<RuleResult>): (Run, Option<RunError>)
    requires AllFilled(end) && ScriptName.Check in end.scripts && Test in end.scripts
  {
    var results := Results(end);
    var err := RulesError(early, results);
    var passed := end.scripts[ScriptName.Check].OK() && end.scripts[Test].OK() && |Findings(results)| == 0;
    var state := if err.Some? then run.state else if passed then Passed else Failed;
    (run.(scripts := end.scripts, rules := results, state := state), err)
  }

  lemma RulesErrorSame(input: Inputs, rules: seq<Rule>, changed: seq<string>)
    requires Consumes(input.codec)
    ensures RanRules(input, rules, changed).1 == RulesError(EarlyError(input, rules), RanRules(input, rules, changed).0)
  {
    assert Failures([]) == [];
  }

  lemma GatheredIsDecided(run: Run, input: Inputs, early: Option<RunError>, end: State<RuleResult>)
    requires AllFilled(end)
    requires end.scripts == map[Setup := input.setup, ScriptName.Check := input.check, Test := input.test]
    ensures Gathered(run, early, end)
         == Decided(run.(scripts := map[Setup := input.setup]), input, Results(end), RulesError(early, Results(end)))
  {
  }

  /** What a complete schedule leaves is what the sequential reading of the rules computes. */
  lemma LeavesRanRules(input: Inputs, rules: seq<Rule>, changed: seq<string>, actions: seq<Action>,
      end: State<RuleResult>)
    requires Consumes(input.codec)
    requires var job := JobOf(input, rules, changed);
             Runs(job, Begin(job, input.setup), actions, end) && Complete(job, end)
    ensures AllFilled(end) && Results(end) == RanRules(input, rules, changed).0
    ensures end.scripts == map[Setup := input.setup, ScriptName.Check := input.check, Test := input.test]
  {
    var job := JobOf(input, rules, changed);
    ScheduleIndependent(job, input.setup, actions, end);
    forall i | 0 <= i < |end.slots| ensures end.slots[i] == Some(CheckedAll(input, rules, changed)[i]) {
      assert end.slots[i] == Some(job.outcome(i));
    }
    if EarlyError(input, rules).Some? || rules == [] {
      assert Results(end) == [];
    } else {
      assert Results(end) == CheckedAll(input, rules, changed);
    }
  }

  lemma GoesOn<R(!new)>(job: Job<R>, setup: ScriptResult, actions: seq<Action>, end: State<R>)
    requires job.limit >= 1 && Runs(job, Begin(job, setup), actions, end)
    ensures Complete(job, end) || exists a :: Enabled(job, end, a)
  {
    RunsKeep(job, setup, Begin(job, setup), actions, end);
    if !Complete(job, end) {
      var a := NeverStuck(job, setup, end);
    }
  }

  /** With the limit LoadSettings yields, the concurrent part of a run always gets through, whichever
      goroutine moves next. */
  lemma AlwaysGoesOn(input: Inputs, rules: seq<Rule>, changed: seq<string>, actions: seq<Action>,
      end: State<RuleResult>)
    requires Consumes(input.codec)
    requires var job := JobOf(input, rules, changed); Runs(job, Begin(job, input.setup), actions, end)
    ensures var job := JobOf(input, rules, changed); Complete(job, end) || exists a :: Enabled(job, end, a)
  {
    GoesOn(JobOf(input, rules, changed), input.setup, actions, end);
  }

  /** Every complete schedule ends the run as the sequential reading does: the same record, verdict and
      error, early errors included. */
  lemma SameAsInOrder(run: Run, input: Inputs, all: seq<Rule>, actions: seq<Action>, end: State<RuleResult>)
    requires Consumes(input.codec)
    requires input.changedListError == None && input.setup.OK() && input.rules == Ok(all)
    requires var job := JobOf(input, Selected(input.glob, all, run.changedFiles), run.changedFiles);
             Runs(job, Begin(job, input.setup), actions, end) && Complete(job, end)
    ensures AllFilled(end) && ScriptName.Check in end.scripts && Test in end.scripts
    ensures Gathered(run, EarlyError(input, Selected(input.glob, all, run.changedFiles)), end) == Body(run, input)
  {
    var rules := Selected(input.glob, all, run.changedFiles);
    LeavesRanRules(input, rules, run.changedFiles, actions, end);
    RulesErrorSame(input, rules, run.changedFiles);
    GatheredIsDecided(run, input, EarlyError(input, rules), end);
  }
}
