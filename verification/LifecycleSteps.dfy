/** What the steps of the lifecycle do to what a reader sees: the records on disk are the saves in order,
    and every reply of a wait is what the disk held when it was read. */
module LifecycleSteps {
  import opened Text
  import opened Model
  import opened Lifecycle
  import opened LifecycleInv
  import opened LifecycleWait
  import opened LifecycleTheorems
  import B = WaitBoard

  // ---- what a wait answers ----

  /** What a wait on channel ch goes on to once it has read this directory: it answers not found exactly
      when both names are valid and there is no record, a read error exactly when a name is invalid, and a
      record exactly when that is the one on disk and it is terminal; it blocks on the run of a record
      that is not. */
  ghost predicate ReadsAs<N(!new)>(runs: map<Dir<N>, File<Rec<N>>>, d: Dir<N>, named: bool, ch: nat,
      pc: B.Pc<Reply<N>>) {
    && (pc == B.Leaving(ch, Some(NotFound)) <==> named && d !in runs)
    && (pc == B.Leaving(ch, Some(ReadError)) <==> !named)
    && (forall r :: pc == B.Leaving(ch, Some(Verdict(r))) <==>
          d in runs && runs[d] == Complete(r) && r.state !in {Queued, Running})
    && (forall run :: pc == B.Blocked(ch, run) <==>
          && d in runs && runs[d].Complete?
          && runs[d].value.id == run && runs[d].value.state in {Queued, Running})
  }

  lemma ReadStep<N(!new), E(!new)>(sys: Sys<N, E>, s: State<N, E>, w: nat)
    requires Enabled(sys, s, Read(w))
    ensures Next(sys, s, Read(w)) == s.(board := B.Apply(s.board, ReadOp(sys, s, w)))
  {
  }

  lemma ReadsAsDisk<N(!new), E(!new)>(sys: Sys<N, E>, s: State<N, E>, w: nat)
    requires FilesOK(sys, s) && w in s.board.waits && s.board.waits[w].pc.Subscribing?
    ensures var d := s.board.waits[w].key;
            ReadsAs(s.disk.runs, d, sys.validName(d.repo) && sys.validName(d.sha), s.board.waits[w].pc.ch,
              B.Apply(s.board, ReadOp(sys, s, w)).waits[w].pc)
  {
  }

  lemma FilesInOrder<N(!new), E(!new)>(sys: Sys<N, E>, s: State<N, E>)
    requires Judges(sys) && Reachable(sys, s)
    ensures FilesOK(sys, s)
  {
    Invariant(sys, s);
  }

  /** In every reachable state a wait that reads goes on as the disk says, and changes no file. */
  lemma ReadAnswers<N(!new), E(!new)>(sys: Sys<N, E>, s: State<N, E>, w: nat)
    requires Judges(sys) && Reachable(sys, s) && Enabled(sys, s, Read(w))
    ensures var s' := Next(sys, s, Read(w)); var d := s.board.waits[w].key;
            && s'.disk == s.disk && w in s'.board.waits
            && ReadsAs(s.disk.runs, d, sys.validName(d.repo) && sys.validName(d.sha), s.board.waits[w].pc.ch,
                 s'.board.waits[w].pc)
  {
    FilesInOrder(sys, s);
    ReadsAsDisk(sys, s, w);
    ReadStep(sys, s, w);
  }

  /** What the wait has been answered, or is about to be. */
  function AnswerOf<R>(pc: B.Pc<R>): Option<R> {
    match pc
    case Leaving(_, answer) => answer
    case Returned(reply) => Some(reply)
    case _ => None
  }

  /** Only a leave changes what a wait is answered. */
  lemma AnswerOfOp<K(!new), R(!new)>(b: B.Board<K, R>, op: B.Op<K, R>, w: nat)
    requires B.Enabled(b, op) && w in B.Apply(b, op).waits
    ensures var answer := AnswerOf(B.Apply(b, op).waits[w].pc);
            || answer == None
            || (w in b.waits && answer == AnswerOf(b.waits[w].pc))
            || (op.Leave? && op.w == w && answer == op.answer)
  {
  }

  lemma NotTimedOut<N(!new), E(!new)>(sys: Sys<N, E>, s: State<N, E>, a: Action<N, E>, w: nat)
    requires Enabled(sys, s, a) && !TimedOutAt(s, w) && a != GiveUp(w)
    ensures !TimedOutAt(Next(sys, s, a), w)
  {
    var s' := Next(sys, s, a);
    OnlyOpsMove(sys, s, a);
    if BoardOp(sys, s, a).Some? && w in s'.board.waits {
      AnswerOfOp(s.board, BoardOp(sys, s, a).value, w);
    }
  }

  predicate TimedOutAt<N(==), E>(s: State<N, E>, w: nat) {
    w in s.board.waits && AnswerOf(s.board.waits[w].pc) == Some(TimedOut)
  }

  /** A wait answers a timeout only because it gave up. */
  lemma {:induction false} TimedOutGaveUp<N(!new), E(!new)>(sys: Sys<N, E>, s: State<N, E>,
      actions: seq<Action<N, E>>, end: State<N, E>, w: nat)
    requires Runs(sys, s, actions, end) && !TimedOutAt(s, w) && TimedOutAt(end, w)
    ensures GiveUp(w) in actions
    decreases |actions|
  {
    if actions == [] {
    } else if actions[0] != GiveUp(w) {
      NotTimedOut(sys, s, actions[0], w);
      TimedOutGaveUp(sys, Next(sys, s, actions[0]), actions[1..], end, w);
    }
  }

  lemma LeavesStep<K, R>(b: B.Board<K, R>, w: nat, answer: Option<R>)
    requires w in b.waits && b.waits[w].pc.Blocked?
    ensures var left := B.Apply(b, B.Leave(w, answer));
            && B.Enabled(left, B.Unsubscribe(w)) && w in B.Apply(left, B.Unsubscribe(w)).waits
            && B.Apply(left, B.Unsubscribe(w)).waits[w].pc == if answer.Some? then B.Returned(answer.value) else B.Loop
  {
  }

  /** A blocked wait that gives up unsubscribes and returns a timeout. */
  lemma GivesUp<N(!new), E(!new)>(sys: Sys<N, E>, s: State<N, E>, w: nat)
    requires Enabled(sys, s, GiveUp(w))
    ensures var left := Next(sys, s, GiveUp(w));
            && Enabled(sys, left, Unsubscribe(w)) && w in Next(sys, left, Unsubscribe(w)).board.waits
            && Next(sys, left, Unsubscribe(w)).board.waits[w].pc == B.Returned(TimedOut)
  {
    LeavesStep(s.board, w, Some(TimedOut));
  }

  /** One that polls unsubscribes and starts over. */
  lemma PollsAgain<N(!new), E(!new)>(sys: Sys<N, E>, s: State<N, E>, w: nat)
    requires Enabled(sys, s, Poll(w))
    ensures var left := Next(sys, s, Poll(w));
            && Enabled(sys, left, Unsubscribe(w)) && w in Next(sys, left, Unsubscribe(w)).board.waits
            && Next(sys, left, Unsubscribe(w)).board.waits[w].pc == B.Loop
  {
    LeavesStep(s.board, w, None);
  }

  // ---- the disk is the log of saves ----

  /** The records the saves leave, each in its directory, over the one that was there. */
  function Replay<N(==)>(h: seq<Rec<N>>): map<Dir<N>, File<Rec<N>>> {
    if h == [] then map[]
    else Replay(h[..|h| - 1])[h[|h| - 1].dir := Complete(h[|h| - 1])]
  }

  lemma {:induction false} ReplayMore<N>(h: seq<Rec<N>>, r: Rec<N>)
    ensures Replay(h + [r]) == Replay(h)[r.dir := Complete(r)]
  {
    assert (h + [r])[..|h|] == h;
  }

  /** The step saves nothing, or it logs one record and puts it in its directory. */
  ghost predicate SavesOne<N(!new), E(!new)>(s: State<N, E>, s': State<N, E>) {
    || (s'.log.history == s.log.history && s'.disk.runs == s.disk.runs)
    || exists r :: s'.log.history == s.log.history + [r] && s'.disk.runs == s.disk.runs[r.dir := Complete(r)]
  }

  lemma WriteSaves<N(!new), E(!new)>(sys: Sys<N, E>, s: State<N, E>, p: nat, step: WStep)
    requires TempsOK(s) && Enabled(sys, s, Write(p, step))
    ensures SavesOne(s, Next(sys, s, Write(p, step)))
  {
    WriteNext(sys, s, p, step);
    var r := s.procs[p].rec;
    assert step.Rename? ==> s.disk.temps[s.procs[p].pc.stage.t] == Complete(r);
    if step.Rename? && s.procs[p].pc.purpose != SaveNote {
      assert WriteLog(s.log, s.procs[p], step).history == s.log.history + [r];
    }
  }

  lemma RecoverySaves<N(!new), E(!new)>(sys: Sys<N, E>, s: State<N, E>, step: WStep)
    requires TempsOK(s) && Enabled(sys, s, RecoverWrite(step))
    ensures SavesOne(s, Next(sys, s, RecoverWrite(step)))
  {
    var r := Recovered(s.phase.todo[0]);
    assert step.Rename? ==> s.disk.temps[s.phase.stage.t] == Complete(r);
    assert step.Rename? ==> Next(sys, s, RecoverWrite(step)).log.history == s.log.history + [r];
  }

  lemma StepSaves<N(!new), E(!new)>(sys: Sys<N, E>, s: State<N, E>, a: Action<N, E>)
    requires TempsOK(s) && Enabled(sys, s, a)
    ensures SavesOne(s, Next(sys, s, a))
  {
    if a.Write? {
      WriteSaves(sys, s, a.p, a.step);
    } else if a.RecoverWrite? {
      RecoverySaves(sys, s, a.step);
    } else {
      OnlyWritesWrite(sys, s, a);
    }
  }

  lemma SaveReplays<N(!new), E(!new)>(s: State<N, E>, s': State<N, E>)
    requires SavesOne(s, s') && s.disk.runs == Replay(s.log.history)
    ensures s'.disk.runs == Replay(s'.log.history)
  {
    if s'.log.history != s.log.history {
      var r :| s'.log.history == s.log.history + [r] && s'.disk.runs == s.disk.runs[r.dir := Complete(r)];
      ReplayMore(s.log.history, r);
    }
  }

  lemma Step<N(!new), E(!new)>(sys: Sys<N, E>, s: State<N, E>, a: Action<N, E>)
    requires Judges(sys) && All(sys, s) && Enabled(sys, s, a)
    ensures All(sys, Next(sys, s, a))
  {
    DiskStep(sys, s, a);
    WaitStep(sys, s, a);
    TellStep(sys, s, a);
  }

  lemma {:induction false} RunReplays<N(!new), E(!new)>(sys: Sys<N, E>, s: State<N, E>,
      actions: seq<Action<N, E>>, end: State<N, E>)
    requires Judges(sys) && All(sys, s) && Runs(sys, s, actions, end) && s.disk.runs == Replay(s.log.history)
    ensures end.disk.runs == Replay(end.log.history)
    decreases |actions|
  {
    if actions == [] {
    } else {
      StepSaves(sys, s, actions[0]);
      SaveReplays(s, Next(sys, s, actions[0]));
      Step(sys, s, actions[0]);
      RunReplays(sys, Next(sys, s, actions[0]), actions[1..], end);
    }
  }

  /** Whatever was killed where, the records on disk are the saves that were logged, in their order. */
  lemma DiskIsReplay<N(!new), E(!new)>(sys: Sys<N, E>, s: State<N, E>)
    requires Judges(sys) && Reachable(sys, s)
    ensures s.disk.runs == Replay(s.log.history)
  {
    var actions :| Runs(sys, Init<N, E>(), actions, s);
    InitKeeps(sys);
    RunReplays(sys, Init<N, E>(), actions, s);
  }

  // ---- what the log says happened ----

  /** A run is given up on only when its last save fails, or when recovery ends without having rewritten
      its record; its feedback only when that write fails. */
  lemma LostOnlyBy<N(!new), E(!new)>(sys: Sys<N, E>, s: State<N, E>, a: Action<N, E>, id: nat)
    requires Enabled(sys, s, a)
    ensures id in Next(sys, s, a).log.lost && id !in s.log.lost ==>
              || (a.Write? && a.step == Fail && s.procs[a.p].rec.id == id && s.procs[a.p].pc.purpose == SaveFinal)
              || (a == Serve && (id in s.phase.failed || OpenAt(s.disk.runs, s.phase.skipped, id)))
    ensures id in Next(sys, s, a).log.noteLost && id !in s.log.noteLost ==>
              a.Write? && a.step == Fail && s.procs[a.p].rec.id == id && s.procs[a.p].pc.purpose == SaveNote
  {
  }

  /** The run has a record in one of the repositories that is not terminal. */
  ghost predicate OpenAt<N(!new)>(runs: map<Dir<N>, File<Rec<N>>>, repos: seq<N>, id: nat) {
    exists d :: d in runs && d.repo in repos && runs[d].Complete? && runs[d].value.id == id
      && runs[d].value.state in {Queued, Running}
  }

  /** Recovery gives up on a record only when writing it fails, and on a repository only when it cannot
      list it, or the registry. */
  lemma SkippedOnlyBy<N(!new), E(!new)>(sys: Sys<N, E>, s: State<N, E>, a: Action<N, E>)
    requires Enabled(sys, s, a) && Next(sys, s, a).phase.Recovering?
    ensures var p := Next(sys, s, a).phase;
            && (p.failed == {} || (s.phase.Recovering? && p.failed == s.phase.failed)
                || (a == RecoverWrite(Fail) && p.failed == s.phase.failed + {s.phase.todo[0].id}))
            && (p.skipped == [] || (s.phase.Recovering? && p.skipped == s.phase.skipped) || a == StartBlind
                || (a == SkipRepo && p.skipped == s.phase.skipped + [s.phase.repos[0]]))
  {
  }

  /** Inputs are logged for the run that begins with them, an identifier is issued once, by a submit, a
      directory is acknowledged for a run saved as queued, and an answer is logged when a wait returns it. */
  lemma LogsExactly<N(!new), E(!new)>(sys: Sys<N, E>, s: State<N, E>, a: Action<N, E>)
    requires Enabled(sys, s, a)
    ensures var log := Next(sys, s, a).log;
            && log.evidence == (if a.Begin? then s.log.evidence[s.procs[a.p].rec.id := a.e] else s.log.evidence)
            && log.used == (if a.Submit? then s.log.used + {a.id} else s.log.used)
    ensures a.Submit? ==> a.id !in s.log.used
  {
  }

  lemma AcknowledgesExactly<N(!new), E(!new)>(sys: Sys<N, E>, s: State<N, E>, a: Action<N, E>)
    requires Enabled(sys, s, a)
    ensures Next(sys, s, a).log.acked == if a.Acknowledge? then s.log.acked + {a.rec.dir} else s.log.acked
    ensures a.Acknowledge? ==> a.rec in s.log.history && a.rec.state == Queued
  {
  }

  lemma AnswersExactly<N(!new), E(!new)>(sys: Sys<N, E>, s: State<N, E>, a: Action<N, E>)
    requires Enabled(sys, s, a)
    ensures var before, after := s.log.answers, Next(sys, s, a).log.answers;
            if a.Unsubscribe? && s.board.waits[a.w].pc.answer.Some? && s.board.waits[a.w].pc.answer.value.Verdict? then
              after == before + [(s.board.waits[a.w].key, s.board.waits[a.w].pc.answer.value.rec)]
            else after == before
  {
  }

  /** The directory is being saved to by a process other than p. */
  ghost predicate SavedByOther<N(!new), E(!new)>(s: State<N, E>, d: Dir<N>, p: nat) {
    exists q :: q in s.procs && q != p && s.procs[q].rec.dir == d
      && (s.procs[q].pc.Writing? || s.procs[q].pc.Executing? || s.procs[q].pc.Judging?)
  }

  /** Runs of a directory overlap from a submit while another run is still saving there until a run
      registers there alone. */
  lemma OverlapsExactly<N(!new), E(!new)>(sys: Sys<N, E>, s: State<N, E>, a: Action<N, E>, d: Dir<N>)
    requires Enabled(sys, s, a)
    ensures d in Next(sys, s, a).log.overlapped <==>
              if a.Submit? && a.dir == d && SavedByOther(s, d, a.p) then true
              else if a.Write? && a.step == Rename && s.procs[a.p].pc.purpose == SaveQueued && s.procs[a.p].rec.dir == d
                && !SavedByOther(s, d, a.p) then false
              else d in s.log.overlapped
  {
  }

  // ---- how recovery begins ----

  /** A start has every registered repository to recover; one that cannot read the registry has none, may
      serve at once, and passes over them all. */
  lemma RecoveryBegins<N(!new), E(!new)>(sys: Sys<N, E>, s: State<N, E>)
    requires s.phase.Down?
    ensures var p := Next(sys, s, Start).phase;
            p.Recovering? && p.repos == s.disk.repos && p.todo == [] && p.skipped == [] && p.failed == {}
    ensures var s' := Next(sys, s, StartBlind);
            && s'.disk == s.disk && Enabled(sys, s', Serve) && s'.phase.skipped == s.disk.repos
  {
  }

  // ---- what may happen at any time ----

  /** A daemon can be killed at any moment, and started again whether or not it can read the registry. */
  lemma KilledAnytime<N(!new), E(!new)>(sys: Sys<N, E>, s: State<N, E>)
    ensures if s.phase.Down? then Enabled(sys, s, Start) && Enabled(sys, s, StartBlind) else Enabled(sys, s, Kill)
  {
  }

  /** Any listing and any write can fail, at each of its steps. */
  lemma FailsAnytime<N(!new), E(!new)>(sys: Sys<N, E>, s: State<N, E>, p: nat)
    ensures s.phase.Recovering? && s.phase.todo == [] && s.phase.repos != [] ==> Enabled(sys, s, SkipRepo)
    ensures s.phase.Recovering? && s.phase.todo != [] && s.phase.todo[0].state in {Queued, Running} ==>
              Enabled(sys, s, RecoverWrite(Fail))
    ensures p in s.procs && s.procs[p].pc.Writing? ==> Enabled(sys, s, Write(p, Fail))
  {
  }

  /** Anybody can ask about any directory, valid or not, and a blocked wait can poll or give up at any time. */
  lemma WaitsAnytime<N(!new), E(!new)>(sys: Sys<N, E>, s: State<N, E>, w: nat, d: Dir<N>)
    ensures s.phase.Serving? && w !in s.board.waits ==> Enabled(sys, s, WaitFor(w, d))
    ensures w in s.board.waits && s.board.waits[w].pc.Blocked? ==>
              Enabled(sys, s, Poll(w)) && Enabled(sys, s, GiveUp(w))
  {
  }

  // ---- temp files ----

  /** Somebody is in the middle of writing it. */
  ghost predicate Held<N(!new), E(!new)>(s: State<N, E>, t: nat) {
    || (exists p :: p in s.procs && Owns(s.procs[p], t))
    || (s.phase.Recovering? && !s.phase.stage.Idle? && s.phase.stage.t == t)
  }

  ghost predicate NoLitter<N(!new), E(!new)>(s: State<N, E>) {
    forall t :: t in s.disk.temps ==> Held(s, t)
  }

  lemma LitterWrite<N(!new), E(!new)>(sys: Sys<N, E>, s: State<N, E>, p: nat, step: WStep)
    requires TempsOK(s) && NoLitter(s) && Enabled(sys, s, Write(p, step))
    ensures NoLitter(Next(sys, s, Write(p, step)))
  {
    var s' := Next(sys, s, Write(p, step));
    WriteNext(sys, s, p, step);
    forall t | t in s'.disk.temps ensures Held(s', t) {
      if Owns(s.procs[p], t) || step == Create(t) {
        assert Owns(s'.procs[p], t);
      } else {
        assert Held(s, t);
        if q :| q in s.procs && Owns(s.procs[q], t) {
          assert q != p && Owns(s'.procs[q], t);
        }
      }
    }
  }

  lemma LitterRecover<N(!new), E(!new)>(sys: Sys<N, E>, s: State<N, E>, step: WStep)
    requires ProcsOK(sys, s) && NoLitter(s) && Enabled(sys, s, RecoverWrite(step))
    ensures NoLitter(Next(sys, s, RecoverWrite(step)))
  {
    var s' := Next(sys, s, RecoverWrite(step));
    forall t | t in s'.disk.temps ensures Held(s', t) {
      assert t in s.disk.temps ==> Held(s, t);
    }
  }

  lemma LitterRest<N(!new), E(!new)>(sys: Sys<N, E>, s: State<N, E>, a: Action<N, E>)
    requires TempsOK(s) && NoLitter(s) && Enabled(sys, s, a) && !a.Write? && !a.RecoverWrite? && !a.Kill?
    ensures NoLitter(Next(sys, s, a))
  {
    var s' := Next(sys, s, a);
    OnlyWritesWrite(sys, s, a);
    OnlyProcsMove(sys, s, a);
    forall t | t in s'.disk.temps ensures Held(s', t) {
      assert Held(s, t);
      if q :| q in s.procs && Owns(s.procs[q], t) {
        assert Owns(s'.procs[q], t);
      }
    }
  }

  lemma LitterStep<N(!new), E(!new)>(sys: Sys<N, E>, s: State<N, E>, a: Action<N, E>)
    requires ProcsOK(sys, s) && TempsOK(s) && NoLitter(s) && Enabled(sys, s, a) && !a.Kill?
    ensures NoLitter(Next(sys, s, a))
  {
    if a.Write? {
      LitterWrite(sys, s, a.p, a.step);
    } else if a.RecoverWrite? {
      LitterRecover(sys, s, a.step);
    } else {
      LitterRest(sys, s, a);
    }
  }

  /** Short of a kill no write, failed or not, leaves a temp file behind: whatever temp file there is,
      somebody is in the middle of writing it. */
  lemma {:induction false} LeavesNoLitter<N(!new), E(!new)>(sys: Sys<N, E>, s: State<N, E>,
      actions: seq<Action<N, E>>, end: State<N, E>)
    requires Judges(sys) && All(sys, s) && Runs(sys, s, actions, end)
    requires NoLitter(s) && Kill !in actions
    ensures NoLitter(end)
    decreases |actions|
  {
    if actions == [] {
    } else {
      LitterStep(sys, s, actions[0]);
      Step(sys, s, actions[0]);
      assert forall a :: a in actions[1..] ==> a in actions;
      LeavesNoLitter(sys, Next(sys, s, actions[0]), actions[1..], end);
    }
  }
}
