/** What holds on every run of the lifecycle, over any schedule of submits, executors, waits, kills and
    restarts. */
module LifecycleTheorems {
  import opened Model
  import opened Waiters
  import opened Lifecycle
  import opened LifecycleInv
  import opened LifecycleWait
  import opened LifecycleVerdict
  import opened LifecycleFeedback
  import B = WaitBoard

  // ---- the invariant ----

  ghost predicate DiskOK<N(!new), E(!new)>(sys: Sys<N, E>, s: State<N, E>) {
    FilesOK(sys, s) && ProcsOK(sys, s) && KeptOK(s) && TodoOK(s) && TempsOK(s) && LedgerOK(s)
  }

  ghost predicate WaitOK<N(!new), E(!new)>(s: State<N, E>) {
    OwedOK(s) && RecoverOK(s) && TakenOK(s) && BlockedOK(s) && PollOK(s) && SeenOK(s) && B.Inv(s.board)
  }

  ghost predicate TellOK<N(!new), E(!new)>(sys: Sys<N, E>, s: State<N, E>) {
    EvidenceOK(sys, s) && AnswersOK(s) && NotesOK(s) && AloneOK(s) && OwnOK(s)
  }

  ghost predicate All<N(!new), E(!new)>(sys: Sys<N, E>, s: State<N, E>) {
    DiskOK(sys, s) && WaitOK(s) && TellOK(sys, s)
  }

  lemma InitKeeps<N(!new), E(!new)>(sys: Sys<N, E>)
    ensures All(sys, Init<N, E>())
  {
    B.EmptyInv<Dir<N>, Reply<N>>();
  }

  lemma DiskStep<N(!new), E(!new)>(sys: Sys<N, E>, s: State<N, E>, a: Action<N, E>)
    requires Judges(sys) && DiskOK(sys, s) && Enabled(sys, s, a)
    ensures DiskOK(sys, Next(sys, s, a))
  {
    FilesPreserved(sys, s, a);
    ProcsPreserved(sys, s, a);
    KeptPreserved(sys, s, a);
    TodoPreserved(sys, s, a);
    TempsPreserved(sys, s, a);
    LedgerPreserved(sys, s, a);
  }

  lemma WaitStep<N(!new), E(!new)>(sys: Sys<N, E>, s: State<N, E>, a: Action<N, E>)
    requires DiskOK(sys, s) && WaitOK(s) && Enabled(sys, s, a)
    ensures WaitOK(Next(sys, s, a))
  {
    OwedPreserved(sys, s, a);
    RecoverPreserved(sys, s, a);
    TakenPreserved(sys, s, a);
    BlockedPreserved(sys, s, a);
    PollPreserved(sys, s, a);
    SeenPreserved(sys, s, a);
    BoardPreserved(sys, s, a);
  }

  lemma TellStep<N(!new), E(!new)>(sys: Sys<N, E>, s: State<N, E>, a: Action<N, E>)
    requires Judges(sys) && DiskOK(sys, s) && TellOK(sys, s) && Enabled(sys, s, a)
    ensures TellOK(sys, Next(sys, s, a))
  {
    EvidencePreserved(sys, s, a);
    AnswersPreserved(sys, s, a);
    NotesPreserved(sys, s, a);
    AlonePreserved(sys, s, a);
    OwnPreserved(sys, s, a);
  }

  lemma {:induction false} RunKeeps<N(!new), E(!new)>(sys: Sys<N, E>, s: State<N, E>,
      actions: seq<Action<N, E>>, end: State<N, E>)
    requires Judges(sys) && All(sys, s) && Runs(sys, s, actions, end)
    ensures All(sys, end)
    decreases |actions|
  {
    if actions == [] {
    } else {
      DiskStep(sys, s, actions[0]);
      WaitStep(sys, s, actions[0]);
      TellStep(sys, s, actions[0]);
      RunKeeps(sys, Next(sys, s, actions[0]), actions[1..], end);
    }
  }

  /** A state some schedule reaches from an empty disk. */
  ghost predicate Reachable<N(!new), E(!new)>(sys: Sys<N, E>, s: State<N, E>) {
    exists actions :: Runs(sys, Init<N, E>(), actions, s)
  }

  lemma Invariant<N(!new), E(!new)>(sys: Sys<N, E>, s: State<N, E>)
    requires Judges(sys) && Reachable(sys, s)
    ensures All(sys, s)
  {
    var actions :| Runs(sys, Init<N, E>(), actions, s);
    InitKeeps(sys);
    RunKeeps(sys, Init<N, E>(), actions, s);
  }

  lemma {:induction false} RunsConcat<N(!new), E(!new)>(sys: Sys<N, E>, s: State<N, E>,
      first: seq<Action<N, E>>, mid: State<N, E>, second: seq<Action<N, E>>, end: State<N, E>)
    requires Runs(sys, s, first, mid) && Runs(sys, mid, second, end)
    ensures Runs(sys, s, first + second, end)
    decreases |first|
  {
    if first == [] {
      assert first + second == second;
    } else {
      assert (first + second)[1..] == first[1..] + second;
      RunsConcat(sys, Next(sys, s, first[0]), first[1..], mid, second, end);
    }
  }

  // ---- crash safety ----

  /** No record file is ever torn or in another run's directory, whatever was killed where. */
  lemma NoTornRecord<N(!new), E(!new)>(sys: Sys<N, E>, s: State<N, E>, d: Dir<N>)
    requires Judges(sys) && Reachable(sys, s) && d in s.disk.runs
    ensures s.disk.runs[d].Complete? && s.disk.runs[d].value.dir == d && s.disk.runs[d].value in s.log.history
    ensures ValidDir(sys, d) && d.repo in s.disk.repos
  {
    Invariant(sys, s);
    var r := s.disk.runs[d].value;
    assert Latest(s.log.history, r);
  }

  lemma NothingOpen<N(!new), E(!new)>(sys: Sys<N, E>, s: State<N, E>, d: Dir<N>)
    requires FilesOK(sys, s) && RecoverOK(s) && Enabled(sys, s, Serve) && d in s.disk.runs
    ensures s.disk.runs[d].Complete?
    ensures var r := s.disk.runs[d].value; r.state.Terminal() || r.id in s.phase.failed || d.repo in s.phase.skipped
  {
  }

  /** When recovery is over, every record is terminal except those whose own rewrite failed and those of
      repositories it could not list; and while it goes on there is no run or wait of this daemon to
      disturb. */
  lemma RecoveryLeavesNothingOpen<N(!new), E(!new)>(sys: Sys<N, E>, s: State<N, E>, d: Dir<N>)
    requires Judges(sys) && Reachable(sys, s)
    ensures s.phase.Recovering? ==> s.procs == map[] && s.board.waits == map[]
    ensures Enabled(sys, s, Serve) && d in s.disk.runs ==>
              && s.disk.runs[d].Complete?
              && var r := s.disk.runs[d].value;
                 r.state.Terminal() || r.id in s.phase.failed || d.repo in s.phase.skipped
  {
    Invariant(sys, s);
    if Enabled(sys, s, Serve) && d in s.disk.runs {
      NothingOpen(sys, s, d);
    }
  }

  /** Per run ID the saved states go up queued, running, terminal, in one directory, and end with the
      first terminal one. */
  lemma LifecyclePerRun<N(!new), E(!new)>(sys: Sys<N, E>, s: State<N, E>, i: nat, j: nat)
    requires Judges(sys) && Reachable(sys, s) && i < j < |s.log.history| && s.log.history[i].id == s.log.history[j].id
    ensures s.log.history[i].state in {Queued, Running}
    ensures s.log.history[i].state == Running ==> s.log.history[j].state != Queued
    ensures s.log.history[i].dir == s.log.history[j].dir
  {
    Invariant(sys, s);
  }

  // ---- push, then wait ----

  lemma {:induction false} RunGrows<N(!new), E(!new)>(sys: Sys<N, E>, s: State<N, E>,
      actions: seq<Action<N, E>>, end: State<N, E>)
    requires Runs(sys, s, actions, end)
    ensures s.log.acked <= end.log.acked && s.log.history <= end.log.history
    decreases |actions|
  {
    if actions == [] {
    } else {
      HistoryGrows(sys, s, actions[0]);
      RunGrows(sys, Next(sys, s, actions[0]), actions[1..], end);
    }
  }

  /** Once a submit has returned, which it may do at any time after its record was saved, a record can be
      read for ever after, kills and restarts included. */
  lemma NeverForgotten<N(!new), E(!new)>(sys: Sys<N, E>, s: State<N, E>, r: Rec<N>, later: seq<Action<N, E>>,
      end: State<N, E>)
    requires Judges(sys) && Reachable(sys, s) && Enabled(sys, s, Acknowledge(r))
    requires Runs(sys, Next(sys, s, Acknowledge(r)), later, end)
    ensures ReadRun(sys, end, r.dir).Verdict?
  {
    var s' := Next(sys, s, Acknowledge(r));
    Reaches(sys, s, [Acknowledge(r)] + later, end);
    Invariant(sys, end);
    RunGrows(sys, s', later, end);
  }

  lemma Reaches<N(!new), E(!new)>(sys: Sys<N, E>, s: State<N, E>, actions: seq<Action<N, E>>, end: State<N, E>)
    requires Reachable(sys, s) && Runs(sys, s, actions, end)
    ensures Reachable(sys, end)
  {
    var before :| Runs(sys, Init<N, E>(), before, s);
    RunsConcat(sys, Init<N, E>(), before, s, actions, end);
  }

  /** A wait that returns a record returns a terminal one that was saved in the directory it asked
      about: passed, failed or errored as the run's own inputs evaluate, or errored by recovery. */
  lemma AnswersAreVerdicts<N(!new), E(!new)>(sys: Sys<N, E>, s: State<N, E>, x: (Dir<N>, Rec<N>))
    requires Judges(sys) && Reachable(sys, s) && x in s.log.answers
    ensures x.1 in s.log.history && x.1.dir == x.0 && x.1.state.Terminal()
    ensures JudgedBy(sys, s.log.evidence, x.1)
  {
    Invariant(sys, s);
    var i :| 0 <= i < |s.log.history| && s.log.history[i] == x.1;
    assert RecordOK(sys, s.log.evidence, s.log.history[i]);
  }

  /** The state is recovery's, or state and drift are what the run's own inputs evaluate to. */
  ghost predicate JudgedBy<N(!new), E(!new)>(sys: Sys<N, E>, evidence: map<nat, E>, r: Rec<N>) {
    if r.interrupted then r.state == Errored
    else
      && r.id in evidence && r.state == sys.verdict(evidence[r.id])
      && (r.drift <==> sys.progresses(evidence[r.id]) && sys.drifts(evidence[r.id]))
  }

  // ---- feedback before the verdict ----

  /** A saved record points at feedback exactly if it is a verdict that calls for some, was not written by
      recovery, and the feedback write of its run did not fail; then there is some on disk. */
  lemma FeedbackFirst<N(!new), E(!new)>(sys: Sys<N, E>, s: State<N, E>, r: Rec<N>)
    requires Judges(sys) && Reachable(sys, s) && r in s.log.history
    ensures r.feedback <==> (r.state in {Failed, Errored} || (r.state in {Passed, Cancelled} && r.drift))
                              && !r.interrupted && r.id !in s.log.noteLost
    ensures r.feedback ==> r.dir in s.disk.notes
  {
    Invariant(sys, s);
    var i :| 0 <= i < |s.log.history| && s.log.history[i] == r;
    assert NoteKept(s.disk.notes, s.log.noteLost, s.log.history[i]);
  }

  /** Without overlapping runs it is the feedback of that very record. */
  lemma FeedbackIsItsOwn<N(!new), E(!new)>(sys: Sys<N, E>, s: State<N, E>, d: Dir<N>)
    requires Judges(sys) && Reachable(sys, s) && d in s.disk.runs && d !in s.log.overlapped
    ensures s.disk.runs[d].Complete?
    ensures var r := s.disk.runs[d].value;
            r.feedback ==> d in s.disk.notes && s.disk.notes[d] == Complete(r.(feedback := false))
  {
    Invariant(sys, s);
    assert OwnNote(s.disk.notes, s.disk.runs[d].value);
  }

  // ---- no lost wakeup ----

  /** A blocked wait that can still get an answer, because its run did not lose its last save or because a
      terminal record is there already: its channel is closed, or a process is in the middle of closing
      it, or it is listed and some run of the directory still has to notify. */
  lemma NoLostWakeup<N(!new), E(!new)>(sys: Sys<N, E>, s: State<N, E>, w: nat)
    requires Judges(sys) && Reachable(sys, s) && w in s.board.waits && s.board.waits[w].pc.Blocked?
    requires s.board.waits[w].pc.run !in s.log.lost || TerminalAt(s.disk, s.board.waits[w].key)
    ensures var ch, d := s.board.waits[w].pc.ch, s.board.waits[w].key;
            || ch in s.board.closed
            || (exists p :: p in s.board.taken && ch in s.board.taken[p] && p in s.procs && s.procs[p].pc.Closing?)
            || (ch in Subs(s.board.table, d)
                && exists p :: p in s.procs && s.procs[p].rec.dir == d && OwesNotify(s.procs[p]))
  {
    Invariant(sys, s);
    var ch, d := s.board.waits[w].pc.ch, s.board.waits[w].key;
    assert B.Holds(s.board, w, ch) && WillWake(s.board, s.procs, s.log.lost, w);
    if B.IsTaken(s.board, ch) {
      var p :| p in s.board.taken && ch in s.board.taken[p];
      assert p in s.procs && s.procs[p].pc.Closing?;
    }
  }

  /** Whatever a poll finds, it is an answer only when the wakeup is on its way: what it reads is a record,
      and a terminal one only if the channel is closed, taken, or some run of the directory still has to
      notify. No save needs to succeed for that. */
  lemma PollNeverNeeded<N(!new), E(!new)>(sys: Sys<N, E>, s: State<N, E>, w: nat)
    requires Judges(sys) && Reachable(sys, s) && w in s.board.waits && s.board.waits[w].pc.Blocked?
    ensures ReadRun(sys, s, s.board.waits[w].key).Verdict?
    ensures ReadRun(sys, s, s.board.waits[w].key).rec.state.Terminal() ==> Due(s.board, s.procs, w)
  {
    Invariant(sys, s);
    var d := s.board.waits[w].key;
    assert d in s.disk.runs && s.disk.runs[d].Complete? && ValidDir(sys, d);
  }

  /** No channel is closed twice: the one a notifier is about to close is open. And the table is empty when
      no wait is outstanding. */
  lemma NoDoubleClose<N(!new), E(!new)>(sys: Sys<N, E>, s: State<N, E>)
    requires Judges(sys) && Reachable(sys, s)
    ensures forall p :: p in s.board.taken && s.board.taken[p] != [] ==> s.board.taken[p][0] !in s.board.closed
    ensures !s.board.doubleClosed && EachOnce(s.board.table)
    ensures s.board.waits == map[] ==> s.board.table == map[]
  {
    Invariant(sys, s);
    B.EmptyWhenNobodyWaits(s.board);
    forall p | p in s.board.taken && s.board.taken[p] != [] ensures s.board.taken[p][0] !in s.board.closed {
      assert B.IsTaken(s.board, s.board.taken[p][0]);
    }
  }
}
