/** The wait protocol loses no wakeup: whoever can still turn a record terminal still owes a notify. */
module LifecycleWait {
  import opened Text
  import opened Waiters
  import opened Lifecycle
  import opened LifecycleInv
  import B = WaitBoard

  // ---- who owes what ----

  /** Its record is registered and its last save is still to come. */
  predicate PreFinal<N>(proc: Proc<N>) {
    Registered(proc) && StillSaving(proc.pc)
  }

  /** It will still take the waiters of its directory. */
  predicate OwesNotify<N>(proc: Proc<N>) {
    Registered(proc) && !proc.pc.Closing?
  }

  ghost predicate Saving<N(!new)>(procs: map<nat, Proc<N>>, id: nat) {
    exists p :: p in procs && procs[p].rec.id == id && PreFinal(procs[p])
  }

  ghost predicate OwesFor<N(!new)>(procs: map<nat, Proc<N>>, d: Dir<N>) {
    exists p :: p in procs && procs[p].rec.dir == d && OwesNotify(procs[p])
  }

  /** While serving, a record that is not terminal belongs to a run that is still going, or whose last
      save failed. */
  ghost predicate OwedOK<N(!new), E(!new)>(s: State<N, E>) {
    s.phase.Serving? ==>
      forall d :: d in s.disk.runs && s.disk.runs[d].Complete? && !s.disk.runs[d].value.state.Terminal() ==>
        s.disk.runs[d].value.id in s.log.lost || Saving(s.procs, s.disk.runs[d].value.id)
  }

  /** While recovering, such a record is still to be listed, still to be handled, its rewrite failed, or its
      repository was skipped. */
  ghost predicate RecoverOK<N(!new), E(!new)>(s: State<N, E>) {
    s.phase.Recovering? ==>
      forall d :: d in s.disk.runs && s.disk.runs[d].Complete? && !s.disk.runs[d].value.state.Terminal() ==>
        || s.disk.runs[d].value in s.phase.todo || d.repo in s.phase.repos
        || s.disk.runs[d].value.id in s.phase.failed || d.repo in s.phase.skipped
  }

  /** The wakeup of a blocked wait is on its way. */
  ghost predicate Due<N(!new)>(board: B.Board<Dir<N>, Reply<N>>, procs: map<nat, Proc<N>>, w: nat)
    requires w in board.waits && board.waits[w].pc.Blocked?
  {
    var ch := board.waits[w].pc.ch;
    ch in board.closed || B.IsTaken(board, ch) || OwesFor(procs, board.waits[w].key)
  }

  /** A blocked wait will be woken, unless the run it read had its last save fail. */
  ghost predicate WillWake<N(!new)>(board: B.Board<Dir<N>, Reply<N>>, procs: map<nat, Proc<N>>, lost: set<nat>, w: nat)
    requires w in board.waits && board.waits[w].pc.Blocked?
  {
    board.waits[w].pc.run in lost || Due(board, procs, w)
  }

  ghost predicate BlockedOK<N(!new), E(!new)>(s: State<N, E>) {
    forall w :: w in s.board.waits && s.board.waits[w].pc.Blocked? ==> WillWake(s.board, s.procs, s.log.lost, w)
  }

  /** Exactly the closing processes hold taken channels. */
  ghost predicate TakenOK<N(!new), E(!new)>(s: State<N, E>) {
    Holders(s.board.taken, s.procs)
  }

  ghost predicate Holders<N(!new)>(taken: map<nat, seq<nat>>, procs: map<nat, Proc<N>>) {
    forall p :: p in taken <==> p in procs && procs[p].pc.Closing?
  }

  // ---- records owed a terminal save ----

  /** Two records of one run lie in one directory. */
  lemma SameRunSameDir<N(!new), E(!new)>(sys: Sys<N, E>, s: State<N, E>, d: Dir<N>, p: nat)
    requires FilesOK(sys, s) && LedgerOK(s) && d in s.disk.runs && p in s.procs && StillSaving(s.procs[p].pc)
    requires s.disk.runs[d].value.id == s.procs[p].rec.id
    ensures s.procs[p].rec.dir == d
  {
    var r := s.disk.runs[d].value;
    var i :| 0 <= i < |s.log.history| && s.log.history[i] == r;
    assert CanSave(s.log.history, s.procs[p].rec);
  }

  /** A write keeps a run going, or ends its last save on disk or as lost. */
  lemma WriteKeepsSaving<N>(proc: Proc<N>, step: WStep)
    requires proc.pc.Writing? && PreFinal(proc) && !(proc.pc.purpose == SaveFinal && (step.Rename? || step.Fail?))
    ensures var next := WriteProc(proc, step); next.Some? && PreFinal(next.value) && next.value.rec.id == proc.rec.id
  {
  }

  /** The run whose record lies at d takes a step that does not save to d. */
  lemma OwedWriteSelf<N(!new), E(!new)>(sys: Sys<N, E>, s: State<N, E>, p: nat, step: WStep, d: Dir<N>)
    requires FilesOK(sys, s) && LedgerOK(s) && Enabled(sys, s, Write(p, step)) && PreFinal(s.procs[p])
    requires d in s.disk.runs && s.disk.runs[d].value.id == s.procs[p].rec.id
    requires d == s.procs[p].rec.dir && s.procs[p].pc.purpose != SaveNote ==> !step.Rename?
    ensures var id := s.procs[p].rec.id;
            id in WriteLog(s.log, s.procs[p], step).lost || Saving(SetProc(s.procs, p, WriteProc(s.procs[p], step)), id)
  {
    var proc := s.procs[p];
    SameRunSameDir(sys, s, d, p);
    if !(proc.pc.purpose == SaveFinal && step.Fail?) {
      WriteKeepsSaving(proc, step);
      assert PreFinal(SetProc(s.procs, p, WriteProc(proc, step))[p]);
    }
  }

  lemma OwedWriteOne<N(!new), E(!new)>(sys: Sys<N, E>, s: State<N, E>, p: nat, step: WStep, d: Dir<N>)
    requires FilesOK(sys, s) && LedgerOK(s) && OwedOK(s) && s.phase.Serving? && Enabled(sys, s, Write(p, step))
    requires d in s.disk.runs && !s.disk.runs[d].value.state.Terminal()
    requires d == s.procs[p].rec.dir && s.procs[p].pc.purpose != SaveNote ==> !step.Rename?
    ensures var id := s.disk.runs[d].value.id;
            id in WriteLog(s.log, s.procs[p], step).lost || Saving(SetProc(s.procs, p, WriteProc(s.procs[p], step)), id)
  {
    var proc := s.procs[p];
    var id := s.disk.runs[d].value.id;
    var procs' := SetProc(s.procs, p, WriteProc(proc, step));
    if id !in s.log.lost {
      var q :| q in s.procs && s.procs[q].rec.id == id && PreFinal(s.procs[q]);
      if q != p {
        assert procs'[q] == s.procs[q];
      } else {
        OwedWriteSelf(sys, s, p, step, d);
      }
    }
  }

  lemma OwedWrite<N(!new), E(!new)>(sys: Sys<N, E>, s: State<N, E>, p: nat, step: WStep)
    requires FilesOK(sys, s) && TempsOK(s) && LedgerOK(s) && OwedOK(s) && s.phase.Serving?
    requires Enabled(sys, s, Write(p, step)) && ProcOK(sys, s, s.procs[p])
    ensures OwedOK(Next(sys, s, Write(p, step)))
  {
    var s' := Next(sys, s, Write(p, step));
    var proc := s.procs[p];
    forall d | d in s'.disk.runs && s'.disk.runs[d].Complete? && !s'.disk.runs[d].value.state.Terminal()
      ensures s'.disk.runs[d].value.id in s'.log.lost || Saving(s'.procs, s'.disk.runs[d].value.id)
    {
      if step.Rename? && proc.pc.purpose != SaveNote && d == proc.rec.dir {
        assert PreFinal(s'.procs[p]) && s'.procs[p].rec.id == proc.rec.id;
      } else {
        OwedWriteOne(sys, s, p, step, d);
      }
    }
  }

  /** A step of a process that does not end its last save leaves every run that was going going. */
  lemma SavingStays<N(!new), E(!new)>(sys: Sys<N, E>, s: State<N, E>, a: Action<N, E>, id: nat)
    requires ProcsOK(sys, s) && Enabled(sys, s, a) && !a.Write? && !a.Kill? && Saving(s.procs, id)
    ensures Saving(Next(sys, s, a).procs, id)
  {
    var s' := Next(sys, s, a);
    var q :| q in s.procs && s.procs[q].rec.id == id && PreFinal(s.procs[q]);
    OnlyProcsMove(sys, s, a);
    assert q in s'.procs && s'.procs[q].rec.id == id && PreFinal(s'.procs[q]);
  }

  lemma OwedServe<N(!new), E(!new)>(sys: Sys<N, E>, s: State<N, E>)
    requires FilesOK(sys, s) && RecoverOK(s) && Enabled(sys, s, Serve)
    ensures OwedOK(Next(sys, s, Serve))
  {
  }

  lemma OwedRest<N(!new), E(!new)>(sys: Sys<N, E>, s: State<N, E>, a: Action<N, E>)
    requires ProcsOK(sys, s) && OwedOK(s) && s.phase.Serving? && Enabled(sys, s, a) && !a.Write? && !a.Kill?
    ensures OwedOK(Next(sys, s, a))
  {
    OnlyWritesWrite(sys, s, a);
    forall id | Saving(s.procs, id) ensures Saving(Next(sys, s, a).procs, id) {
      SavingStays(sys, s, a, id);
    }
  }

  lemma OwedPreserved<N(!new), E(!new)>(sys: Sys<N, E>, s: State<N, E>, a: Action<N, E>)
    requires FilesOK(sys, s) && ProcsOK(sys, s) && TempsOK(s) && LedgerOK(s) && OwedOK(s) && RecoverOK(s)
    requires Enabled(sys, s, a)
    ensures OwedOK(Next(sys, s, a))
  {
    if a.Write? {
      OwedWrite(sys, s, a.p, a.step);
    } else if a.Serve? {
      OwedServe(sys, s);
    } else if s.phase.Serving? && !a.Kill? {
      OwedRest(sys, s, a);
    }
  }

  // ---- recovery ----

  lemma RecoverStep<N(!new), E(!new)>(sys: Sys<N, E>, s: State<N, E>, step: WStep)
    requires FilesOK(sys, s) && TempsOK(s) && TodoOK(s) && RecoverOK(s) && Enabled(sys, s, RecoverWrite(step))
    ensures RecoverOK(NextRecoverWrite(s, step))
  {
    TailDistinct(s.phase.todo);
    assert s.phase.todo[0] in s.phase.todo;
  }

  lemma RecoverList<N(!new), E(!new)>(sys: Sys<N, E>, s: State<N, E>, todo: seq<Rec<N>>)
    requires FilesOK(sys, s) && RecoverOK(s) && Enabled(sys, s, ListRuns(todo))
    ensures RecoverOK(Next(sys, s, ListRuns(todo)))
  {
    var repos := s.phase.repos;
    assert forall n :: n in repos <==> n == repos[0] || n in repos[1..];
    forall d | d in s.disk.runs && d.repo == repos[0] ensures s.disk.runs[d].value in todo {
      assert s.disk.runs[d] == Complete(s.disk.runs[d].value);
    }
  }

  lemma RecoverPreserved<N(!new), E(!new)>(sys: Sys<N, E>, s: State<N, E>, a: Action<N, E>)
    requires FilesOK(sys, s) && ProcsOK(sys, s) && TempsOK(s) && TodoOK(s) && RecoverOK(s) && Enabled(sys, s, a)
    ensures RecoverOK(Next(sys, s, a))
  {
    if a.RecoverWrite? {
      RecoverStep(sys, s, a.step);
    } else if a.ListRuns? {
      RecoverList(sys, s, a.todo);
    } else if a.SkipTerminal? {
      TailDistinct(s.phase.todo);
    } else if !a.Write? {
      OnlyWritesWrite(sys, s, a);
    }
  }

  // ---- blocked waits ----

  /** Only the operation of a step touches the board; a kill empties it. */
  lemma OnlyOpsMove<N(!new), E(!new)>(sys: Sys<N, E>, s: State<N, E>, a: Action<N, E>)
    requires Enabled(sys, s, a)
    ensures Next(sys, s, a).board ==
              if a.Kill? then B.Empty()
              else if BoardOp(sys, s, a).Some? then B.Apply(s.board, BoardOp(sys, s, a).value)
              else s.board
  {
  }

  lemma HoldersSet<N(!new)>(taken: map<nat, seq<nat>>, procs: map<nat, Proc<N>>, p: nat, next: Option<Proc<N>>)
    requires Holders(taken, procs) && p !in taken && (next.Some? ==> !next.value.pc.Closing?)
    ensures Holders(taken, SetProc(procs, p, next))
  {
  }

  /** A step of a run before its notify. */
  lemma TakenBefore<N(!new), E(!new)>(sys: Sys<N, E>, s: State<N, E>, a: Action<N, E>)
    requires TakenOK(s) && Enabled(sys, s, a) && (a.Submit? || a.Write? || a.Begin? || a.Judge?)
    ensures TakenOK(Next(sys, s, a))
  {
    OnlyProcsMove(sys, s, a);
    OnlyOpsMove(sys, s, a);
    HoldersSet(s.board.taken, s.procs, a.p, ProcAfter(sys, s, a));
  }

  /** The notify and the closes. */
  lemma TakenNotify<N(!new), E(!new)>(sys: Sys<N, E>, s: State<N, E>, a: Action<N, E>)
    requires TakenOK(s) && Enabled(sys, s, a) && (a.Notify? || a.CloseOne? || a.Exit?)
    ensures TakenOK(Next(sys, s, a))
  {
    OnlyProcsMove(sys, s, a);
    OnlyOpsMove(sys, s, a);
  }

  /** A step of a wait takes nothing. */
  lemma TakenWait<K(!new), R(!new)>(b: B.Board<K, R>, op: B.Op<K, R>)
    requires B.Enabled(b, op) && !op.Take? && !op.Close? && !op.Done?
    ensures B.Apply(b, op).taken == b.taken
  {
  }

  lemma TakenPreserved<N(!new), E(!new)>(sys: Sys<N, E>, s: State<N, E>, a: Action<N, E>)
    requires ProcsOK(sys, s) && TakenOK(s) && Enabled(sys, s, a)
    ensures TakenOK(Next(sys, s, a))
  {
    if a.Submit? || a.Write? || a.Begin? || a.Judge? {
      TakenBefore(sys, s, a);
    } else if ByProc(a) {
      TakenNotify(sys, s, a);
    } else {
      OnlyProcsMove(sys, s, a);
      OnlyOpsMove(sys, s, a);
      if BoardOp(sys, s, a).Some? {
        TakenWait(s.board, BoardOp(sys, s, a).value);
      }
    }
  }

  /** The wait that blocks on this read will be woken by the run it read. */
  lemma BlockedRead<N(!new), E(!new)>(sys: Sys<N, E>, s: State<N, E>, w: nat)
    requires FilesOK(sys, s) && ProcsOK(sys, s) && LedgerOK(s) && OwedOK(s) && Enabled(sys, s, Read(w))
    ensures ReadOp(sys, s, w).Block? ==> ReadOp(sys, s, w).run in s.log.lost || OwesFor(s.procs, s.board.waits[w].key)
  {
    if ReadOp(sys, s, w).Block? {
      var d := s.board.waits[w].key;
      var r := s.disk.runs[d].value;
      if r.id !in s.log.lost {
        var p :| p in s.procs && s.procs[p].rec.id == r.id && PreFinal(s.procs[p]);
        SameRunSameDir(sys, s, d, p);
      }
    }
  }

  /** Until it takes the waiters, a process keeps owing the notify. */
  lemma StillOwes<N(!new), E(!new)>(sys: Sys<N, E>, s: State<N, E>, a: Action<N, E>)
    requires Enabled(sys, s, a) && ByProc(a) && !a.Notify? && a.p in s.procs && OwesNotify(s.procs[a.p])
    ensures var proc := ProcAfter(sys, s, a);
            proc.Some? && proc.value.rec.dir == s.procs[a.p].rec.dir && OwesNotify(proc.value)
  {
  }

  lemma OwesStays<N(!new), E(!new)>(sys: Sys<N, E>, s: State<N, E>, a: Action<N, E>, d: Dir<N>)
    requires Enabled(sys, s, a) && !a.Kill? && OwesFor(s.procs, d)
    requires a.Notify? ==> s.procs[a.p].rec.dir != d
    ensures OwesFor(Next(sys, s, a).procs, d)
  {
    var s' := Next(sys, s, a);
    var q :| q in s.procs && s.procs[q].rec.dir == d && OwesNotify(s.procs[q]);
    if ByProc(a) && a.p == q {
      StillOwes(sys, s, a);
    }
    assert q in s'.procs && s'.procs[q].rec.dir == d && OwesNotify(s'.procs[q]);
  }

  /** Closed stays closed; taken ends closed. */
  lemma TakenStays<K(!new), R(!new)>(b: B.Board<K, R>, op: B.Op<K, R>, ch: nat)
    requires B.Enabled(b, op) && (ch in b.closed || B.IsTaken(b, ch))
    ensures var b' := B.Apply(b, op); ch in b'.closed || B.IsTaken(b', ch)
  {
    var b' := B.Apply(b, op);
    if ch !in b.closed {
      var p :| p in b.taken && ch in b.taken[p];
      if op.Close? && op.p == p && ch == b.taken[p][0] {
        assert ch in b'.closed;
      } else {
        assert ch in b'.taken[p];
      }
    }
  }

  lemma TakeTakes<K(!new), R(!new)>(b: B.Board<K, R>, p: nat, key: K, ch: nat)
    requires B.Enabled(b, B.Take(p, key)) && ch in Subs(b.table, key)
    ensures B.IsTaken(B.Apply(b, B.Take(p, key)), ch)
  {
    assert ch in B.Apply(b, B.Take(p, key)).taken[p];
  }

  /** A wait that stays blocked stays due. */
  lemma DueStays<N(!new), E(!new)>(sys: Sys<N, E>, s: State<N, E>, a: Action<N, E>, w: nat)
    requires B.Inv(s.board) && Enabled(sys, s, a) && !a.Kill? && !a.RecoverWrite?
    requires w in s.board.waits && s.board.waits[w].pc.Blocked? && Due(s.board, s.procs, w)
    ensures var s' := Next(sys, s, a);
            var ch, d := s.board.waits[w].pc.ch, s.board.waits[w].key;
            ch in s'.board.closed || B.IsTaken(s'.board, ch) || OwesFor(s'.procs, d)
  {
    var ch, d := s.board.waits[w].pc.ch, s.board.waits[w].key;
    OnlyOpsMove(sys, s, a);
    if ch in s.board.closed || B.IsTaken(s.board, ch) {
      if BoardOp(sys, s, a).Some? {
        TakenStays(s.board, BoardOp(sys, s, a).value, ch);
      }
    } else if a.Notify? && s.procs[a.p].rec.dir == d {
      assert B.Holds(s.board, w, ch);
      TakeTakes(s.board, a.p, d, ch);
    } else {
      OwesStays(sys, s, a, d);
    }
  }

  lemma LostGrows<N(!new), E(!new)>(sys: Sys<N, E>, s: State<N, E>, a: Action<N, E>)
    requires Enabled(sys, s, a)
    ensures s.log.lost <= Next(sys, s, a).log.lost
  {
  }

  lemma BlockedSinceOp<K(!new), R(!new)>(b: B.Board<K, R>, op: B.Op<K, R>, w: nat)
    requires B.Enabled(b, op) && w in B.Apply(b, op).waits && B.Apply(b, op).waits[w].pc.Blocked?
    ensures w in b.waits && b.waits[w].key == B.Apply(b, op).waits[w].key
    ensures || (op.Block? && op.w == w && op.run == B.Apply(b, op).waits[w].pc.run)
            || b.waits[w] == B.Apply(b, op).waits[w]
  {
  }

  /** A wait is blocked after a step only if it was before, or this step was its read. */
  lemma BlockedSince<N(!new), E(!new)>(sys: Sys<N, E>, s: State<N, E>, a: Action<N, E>, w: nat)
    requires Enabled(sys, s, a) && !a.Kill? && !a.RecoverWrite?
    requires w in Next(sys, s, a).board.waits && Next(sys, s, a).board.waits[w].pc.Blocked?
    ensures w in s.board.waits && s.board.waits[w].key == Next(sys, s, a).board.waits[w].key
    ensures if a.Read? && a.w == w then ReadOp(sys, s, w) == B.Block(w, Next(sys, s, a).board.waits[w].pc.run)
            else s.board.waits[w] == Next(sys, s, a).board.waits[w]
  {
    if BoardOp(sys, s, a).Some? {
      BlockedSinceOp(s.board, BoardOp(sys, s, a).value, w);
    }
  }

  lemma BlockedOne<N(!new), E(!new)>(sys: Sys<N, E>, s: State<N, E>, a: Action<N, E>, w: nat)
    requires FilesOK(sys, s) && ProcsOK(sys, s) && LedgerOK(s) && OwedOK(s) && BlockedOK(s) && B.Inv(s.board)
    requires Enabled(sys, s, a) && !a.Kill? && !a.RecoverWrite?
    requires w in Next(sys, s, a).board.waits && Next(sys, s, a).board.waits[w].pc.Blocked?
    ensures var s' := Next(sys, s, a); WillWake(s'.board, s'.procs, s'.log.lost, w)
  {
    LostGrows(sys, s, a);
    BlockedSince(sys, s, a, w);
    if a.Read? && a.w == w {
      BlockedRead(sys, s, w);
      if OwesFor(s.procs, s.board.waits[w].key) {
        OwesStays(sys, s, a, s.board.waits[w].key);
      }
    } else if Due(s.board, s.procs, w) {
      DueStays(sys, s, a, w);
    }
  }

  lemma BlockedPreserved<N(!new), E(!new)>(sys: Sys<N, E>, s: State<N, E>, a: Action<N, E>)
    requires FilesOK(sys, s) && ProcsOK(sys, s) && LedgerOK(s) && OwedOK(s) && BlockedOK(s) && B.Inv(s.board)
    requires Enabled(sys, s, a)
    ensures BlockedOK(Next(sys, s, a))
  {
    var s' := Next(sys, s, a);
    if !a.Kill? && !a.RecoverWrite? {
      forall w | w in s'.board.waits && s'.board.waits[w].pc.Blocked?
        ensures WillWake(s'.board, s'.procs, s'.log.lost, w)
      {
        BlockedOne(sys, s, a, w);
      }
    }
  }

  // ---- what a poll would find ----

  predicate TerminalAt<N>(disk: Disk<N>, d: Dir<N>) {
    d in disk.runs && disk.runs[d].Complete? && disk.runs[d].value.state.Terminal()
  }

  /** Whenever a poll would find a terminal record, the wakeup is on its way. */
  ghost predicate PollOK<N(!new), E(!new)>(s: State<N, E>) {
    forall w :: w in s.board.waits && s.board.waits[w].pc.Blocked? && TerminalAt(s.disk, s.board.waits[w].key) ==>
      Due(s.board, s.procs, w)
  }

  /** A record becomes terminal by the last save of a run, which then owes the notify. */
  lemma BecomesTerminal<N(!new), E(!new)>(sys: Sys<N, E>, s: State<N, E>, a: Action<N, E>, d: Dir<N>)
    requires ProcsOK(sys, s) && TempsOK(s) && Enabled(sys, s, a) && s.phase.Serving?
    requires !TerminalAt(s.disk, d) && TerminalAt(Next(sys, s, a).disk, d)
    ensures OwesFor(Next(sys, s, a).procs, d)
  {
    if a.Write? {
      var proc := s.procs[a.p];
      assert ProcOK(sys, s, proc) && StageOK(s.disk.temps, proc.pc.stage, proc.rec);
      var s' := Next(sys, s, a);
      assert s'.disk == WriteDisk(s.disk, proc, a.step);
      assert s'.procs[a.p].rec.dir == d && OwesNotify(s'.procs[a.p]);
    } else {
      OnlyWritesWrite(sys, s, a);
    }
  }

  /** A wait does not block on a record that is terminal. */
  lemma ReadsOpen<N(!new), E(!new)>(sys: Sys<N, E>, s: State<N, E>, w: nat)
    requires FilesOK(sys, s) && Enabled(sys, s, Read(w)) && ReadOp(sys, s, w).Block?
    ensures !TerminalAt(s.disk, s.board.waits[w].key) && Next(sys, s, Read(w)).disk == s.disk
  {
  }

  lemma PollOne<N(!new), E(!new)>(sys: Sys<N, E>, s: State<N, E>, a: Action<N, E>, w: nat)
    requires FilesOK(sys, s) && ProcsOK(sys, s) && TempsOK(s) && PollOK(s) && B.Inv(s.board)
    requires Enabled(sys, s, a) && !a.Kill? && !a.RecoverWrite?
    requires w in Next(sys, s, a).board.waits && Next(sys, s, a).board.waits[w].pc.Blocked?
    requires TerminalAt(Next(sys, s, a).disk, Next(sys, s, a).board.waits[w].key)
    ensures Due(Next(sys, s, a).board, Next(sys, s, a).procs, w)
  {
    BlockedSince(sys, s, a, w);
    if a.Read? && a.w == w {
      ReadsOpen(sys, s, w);
    } else if TerminalAt(s.disk, s.board.waits[w].key) {
      DueStays(sys, s, a, w);
    } else {
      BecomesTerminal(sys, s, a, s.board.waits[w].key);
    }
  }

  lemma PollPreserved<N(!new), E(!new)>(sys: Sys<N, E>, s: State<N, E>, a: Action<N, E>)
    requires FilesOK(sys, s) && ProcsOK(sys, s) && TempsOK(s) && PollOK(s) && B.Inv(s.board) && Enabled(sys, s, a)
    ensures PollOK(Next(sys, s, a))
  {
    var s' := Next(sys, s, a);
    if !a.Kill? && !a.RecoverWrite? {
      forall w | w in s'.board.waits && s'.board.waits[w].pc.Blocked? && TerminalAt(s'.disk, s'.board.waits[w].key)
        ensures Due(s'.board, s'.procs, w)
      {
        PollOne(sys, s, a, w);
      }
    }
  }

  // ---- the rest of the board ----

  /** A blocked wait has seen a record in its directory. */
  ghost predicate SeenOK<N(!new), E(!new)>(s: State<N, E>) {
    forall w :: w in s.board.waits && s.board.waits[w].pc.Blocked? ==> s.board.waits[w].key in s.disk.runs
  }

  lemma SeenPreserved<N(!new), E(!new)>(sys: Sys<N, E>, s: State<N, E>, a: Action<N, E>)
    requires SeenOK(s) && Enabled(sys, s, a)
    ensures SeenOK(Next(sys, s, a))
  {
    NextGrows(sys, s, a);
    var s' := Next(sys, s, a);
    if !a.Kill? && !a.RecoverWrite? {
      forall w | w in s'.board.waits && s'.board.waits[w].pc.Blocked? ensures s'.board.waits[w].key in s.disk.runs {
        BlockedSince(sys, s, a, w);
      }
    }
  }

  lemma BoardPreserved<N(!new), E(!new)>(sys: Sys<N, E>, s: State<N, E>, a: Action<N, E>)
    requires B.Inv(s.board) && Enabled(sys, s, a)
    ensures B.Inv(Next(sys, s, a).board)
  {
    if a.Kill? {
      B.EmptyInv<Dir<N>, Reply<N>>();
    } else if !a.RecoverWrite? && BoardOp(sys, s, a).Some? {
      B.Preserves(s.board, BoardOp(sys, s, a).value);
    }
  }
}
