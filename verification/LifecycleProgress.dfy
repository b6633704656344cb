/** The protocol gets on: every run and every recovery has a next step and a bounded number of them. */
module LifecycleProgress {
  import opened Text
  import opened Waiters
  import opened Lifecycle
  import opened LifecycleInv
  import opened LifecycleWait
  import opened LifecycleVerdict
  import opened LifecycleTheorems

  // ---- how far a run has to go ----

  function StageRank(stage: WStage): nat {
    match stage
    case Idle => 3
    case Open(_) => 2
    case Full(_) => 1
  }

  function PcRank(pc: Pc): nat {
    match pc
    case Writing(SaveQueued, stage) => 36 + StageRank(stage)
    case Writing(SaveRunning, stage) => 32 + StageRank(stage)
    case Executing => 28
    case Writing(SaveProgress, stage) => 24 + StageRank(stage)
    case Judging => 20
    case Writing(SaveNote, stage) => 16 + StageRank(stage)
    case Writing(SaveFinal, stage) => 12 + StageRank(stage)
    case Notifying => 8
    case Closing => 4
  }

  /** A step of the process itself, past its submission. */
  predicate Advances<N, E>(a: Action<N, E>, p: nat) {
    ByProc(a) && a.p == p && !a.Submit?
  }

  /** Each step of a run, failing writes included, brings it nearer its end, or closes one of the
      channels it has taken. */
  lemma RunsEnd<N(!new), E(!new)>(sys: Sys<N, E>, s: State<N, E>, a: Action<N, E>, p: nat)
    requires Enabled(sys, s, a) && p in s.procs && Advances(a, p)
    ensures var proc := ProcAfter(sys, s, a);
            if a.CloseOne? then proc == Some(s.procs[p])
            else proc.Some? ==> PcRank(proc.value.pc) < PcRank(s.procs[p].pc)
  {
  }

  // ---- there is always a next step ----

  lemma WriteStep<T>(temps: map<nat, File<T>>, stage: WStage, data: T) returns (step: WStep)
    requires StageOK(temps, stage, data)
    ensures StepEnabled(temps, stage, step) && !step.Fail?
  {
    match stage {
      case Idle =>
        var t := FreshName(temps.Keys);
        step := Create(t);
      case Open(_) => step := Fill;
      case Full(_) => step := Rename;
    }
  }

  lemma ProcStep<N(!new), E(!new)>(sys: Sys<N, E>, s: State<N, E>, p: nat, e: E) returns (a: Action<N, E>)
    requires p in s.procs && TakenOK(s)
    requires s.procs[p].pc.Writing? ==> StageOK(s.disk.temps, s.procs[p].pc.stage, s.procs[p].rec)
    requires s.procs[p].pc.Judging? ==> s.procs[p].rec.id in s.log.evidence
    ensures Enabled(sys, s, a) && Advances(a, p) && (a.Write? ==> !a.step.Fail?)
  {
    match s.procs[p].pc {
      case Writing(_, stage) =>
        var step := WriteStep(s.disk.temps, stage, s.procs[p].rec);
        a := Write(p, step);
      case Executing => a := Begin(p, e);
      case Judging => a := Judge(p);
      case Notifying => a := Notify(p);
      case Closing => a := if s.board.taken[p] == [] then Exit(p) else CloseOne(p);
    }
  }

  /** Whatever the others are doing, a run has a step to take that does not fail. */
  lemma NeverStuck<N(!new), E(!new)>(sys: Sys<N, E>, s: State<N, E>, p: nat, e: E) returns (a: Action<N, E>)
    requires Judges(sys) && Reachable(sys, s) && p in s.procs
    ensures Enabled(sys, s, a) && Advances(a, p) && (a.Write? ==> !a.step.Fail?)
  {
    Invariant(sys, s);
    assert ProcBacked(sys, s.log.evidence, s.procs[p]);
    a := ProcStep(sys, s, p, e);
  }

  /** The steps a daemon takes of its own accord: those of runs, whether their writes fail or not, and
      those of waits, but for the poll and the timeout. */
  predicate Ordinary<N, E>(a: Action<N, E>) {
    (ByProc(a) && Advances(a, a.p)) || a.Wake? || a.Subscribe? || a.Read? || a.Unsubscribe?
  }

  lemma Step<N(!new), E(!new)>(sys: Sys<N, E>, s: State<N, E>, a: Action<N, E>)
    requires Enabled(sys, s, a)
    ensures Runs(sys, s, [a], Next(sys, s, a))
  {
    assert [a][1..] == [];
  }

  lemma Steps<N(!new), E(!new)>(sys: Sys<N, E>, s: State<N, E>, a: Action<N, E>, b: Action<N, E>)
    requires Enabled(sys, s, a) && Enabled(sys, Next(sys, s, a), b)
    ensures Runs(sys, s, [a, b], Next(sys, Next(sys, s, a), b))
  {
    Step(sys, Next(sys, s, a), b);
    assert [a, b][1..] == [b];
  }

  // ---- recovery finishes ----

  /** What ListRuns returns when every record can be read. */
  lemma {:induction false} ListingExists<N(!new)>(runs: map<Dir<N>, File<Rec<N>>>, repo: N, dirs: set<Dir<N>>)
    returns (todo: seq<Rec<N>>)
    requires dirs <= runs.Keys && forall d :: d in runs ==> runs[d].Complete? && runs[d].value.dir == d
    ensures Distinct(todo)
    ensures forall r :: r in todo <==> r.dir in dirs && r.dir.repo == repo && runs[r.dir] == Complete(r)
    decreases |dirs|
  {
    if dirs == {} {
      todo := [];
    } else {
      var d :| d in dirs;
      var rest := ListingExists(runs, repo, dirs - {d});
      todo := if d.repo == repo then rest + [runs[d].value] else rest;
    }
  }

  predicate Recovers<N, E>(a: Action<N, E>) {
    a.ListRuns? || a.SkipRepo? || a.SkipTerminal? || a.RecoverWrite?
  }

  /** A recovery that is not done has a step to take that does not fail. */
  lemma RecoveryNeverStuck<N(!new), E(!new)>(sys: Sys<N, E>, s: State<N, E>) returns (a: Action<N, E>)
    requires Judges(sys) && Reachable(sys, s) && s.phase.Recovering? && !Enabled(sys, s, Serve)
    ensures Enabled(sys, s, a) && Recovers(a) && !a.SkipRepo? && (a.RecoverWrite? ==> !a.step.Fail?)
  {
    Invariant(sys, s);
    if s.phase.todo == [] {
      var todo := ListingExists(s.disk.runs, s.phase.repos[0], s.disk.runs.Keys);
      a := ListRuns(todo);
    } else if s.phase.todo[0].state.Terminal() {
      a := SkipTerminal;
    } else {
      match s.phase.stage {
        case Idle =>
          var t := FreshName(s.disk.temps.Keys);
          a := RecoverWrite(Create(t));
        case Open(_) => a := RecoverWrite(Fill);
        case Full(_) => a := RecoverWrite(Rename);
      }
    }
  }

  ghost predicate Shorter<N(!new)>(now: Phase<N>, later: Phase<N>) {
    && now.Recovering? && later.Recovering?
    && (|later.repos| < |now.repos|
        || (later.repos == now.repos && |later.todo| < |now.todo|)
        || (later.repos == now.repos && later.todo == now.todo && StageRank(later.stage) < StageRank(now.stage)))
  }

  lemma RecoverWriteShortens<N(!new), E(!new)>(s: State<N, E>, step: WStep)
    requires s.phase.Recovering? && s.phase.todo != [] && StepEnabled(s.disk.temps, s.phase.stage, step)
    ensures Shorter(s.phase, NextRecoverWrite(s, step).phase)
  {
  }

  /** Each step of recovery, failing writes included, brings it nearer its end; registrations made
      meanwhile do not prolong it. */
  lemma RecoveryEnds<N(!new), E(!new)>(sys: Sys<N, E>, s: State<N, E>, a: Action<N, E>)
    requires Judges(sys) && Reachable(sys, s) && s.phase.Recovering? && Enabled(sys, s, a) && !a.Kill? && !a.Serve?
    ensures if Recovers(a) then Shorter(s.phase, Next(sys, s, a).phase) else Next(sys, s, a).phase == s.phase
  {
    Invariant(sys, s);
    if a.RecoverWrite? {
      RecoverWriteShortens(s, a.step);
    }
  }

  /** From any point of a recovery none of whose writes fails from there on, it ends with every record
      of the disk terminal, but for those whose rewrite had failed, or whose repository had been skipped,
      before. */
  lemma {:induction false} RecoveryFinishes<N(!new), E(!new)>(sys: Sys<N, E>, s: State<N, E>)
    returns (actions: seq<Action<N, E>>, end: State<N, E>)
    requires Judges(sys) && Reachable(sys, s) && s.phase.Recovering?
    ensures Runs(sys, s, actions, end) && Reachable(sys, end) && end.phase.Serving?
    ensures forall d :: d in end.disk.runs ==>
              && end.disk.runs[d].Complete?
              && var r := end.disk.runs[d].value;
                 r.state.Terminal() || r.id in s.phase.failed || d.repo in s.phase.skipped
    decreases |s.phase.repos|, |s.phase.todo|, StageRank(s.phase.stage)
  {
    if Enabled(sys, s, Serve) {
      actions, end := [Serve], Next(sys, s, Serve);
      Step(sys, s, Serve);
      Reaches(sys, s, [Serve], end);
      forall d | d in s.disk.runs
        ensures s.disk.runs[d].Complete?
        ensures var r := s.disk.runs[d].value;
                r.state.Terminal() || r.id in s.phase.failed || d.repo in s.phase.skipped
      {
        RecoveryLeavesNothingOpen(sys, s, d);
      }
    } else {
      var a := RecoveryNeverStuck(sys, s);
      var s' := Next(sys, s, a);
      Step(sys, s, a);
      Reaches(sys, s, [a], s');
      RecoveryEnds(sys, s, a);
      var rest;
      rest, end := RecoveryFinishes(sys, s');
      actions := [a] + rest;
      assert actions[1..] == rest;
    }
  }
}
