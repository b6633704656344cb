/** What every step of the lifecycle keeps. */
module LifecycleInv {
  import opened Text
  import opened Model
  import opened Waiters
  import opened Lifecycle

  // ---- files and processes ----

  /** Every record file is whole and lies in the directory named by its own repository and SHA. */
  ghost predicate FilesOK<N(!new), E(!new)>(sys: Sys<N, E>, s: State<N, E>) {
    && (forall d :: d in s.disk.runs ==>
          s.disk.runs[d].Complete? && s.disk.runs[d].value.dir == d && ValidDir(sys, d) && d.repo in s.disk.repos)
    && (forall d :: d in s.disk.notes ==> s.disk.notes[d].Complete? && s.disk.notes[d].value.dir == d)
  }

  predicate StateFits<N>(proc: Proc<N>) {
    match proc.pc
    case Writing(SaveQueued, _) => proc.rec.state == Queued
    case Writing(SaveNote, _) => proc.rec.state.Terminal()
    case Writing(SaveFinal, _) => proc.rec.state.Terminal()
    case Notifying => proc.rec.state.Terminal()
    case Closing => proc.rec.state.Terminal()
    case _ => proc.rec.state == Running
  }

  predicate Registered<N>(proc: Proc<N>) {
    !(proc.pc.Writing? && proc.pc.purpose == SaveQueued)
  }

  ghost predicate ProcOK<N(!new), E(!new)>(sys: Sys<N, E>, s: State<N, E>, proc: Proc<N>) {
    && ValidDir(sys, proc.rec.dir) && proc.rec.dir.repo in s.disk.repos && proc.rec.id in s.log.used
    && StateFits(proc) && !proc.rec.interrupted
    && (Registered(proc) ==> proc.rec.dir in s.disk.runs)
  }

  ghost predicate ProcsOK<N(!new), E(!new)>(sys: Sys<N, E>, s: State<N, E>) {
    && (forall p :: p in s.procs ==> ProcOK(sys, s, s.procs[p]))
    && (forall p, q :: p in s.procs && q in s.procs && s.procs[p].rec.id == s.procs[q].rec.id ==> p == q)
    && (!s.phase.Serving? ==> s.procs == map[] && s.board.waits == map[])
  }

  /** Whatever was saved or acknowledged still has a record. */
  ghost predicate KeptOK<N(!new), E(!new)>(s: State<N, E>) {
    && (forall i :: 0 <= i < |s.log.history| ==> s.log.history[i].dir in s.disk.runs)
    && (forall d :: d in s.log.acked ==> d in s.disk.runs)
  }

  /** Recovery works on records that are still on disk as it read them. */
  ghost predicate TodoOK<N(!new), E(!new)>(s: State<N, E>) {
    s.phase.Recovering? ==>
      && Distinct(s.phase.todo)
      && (forall r :: r in s.phase.todo ==> r.dir in s.disk.runs && s.disk.runs[r.dir] == Complete(r))
      && (forall n :: n in s.phase.repos ==> n in s.disk.repos)
  }

  // ---- temp files ----

  predicate StageOK<T(==)>(temps: map<nat, File<T>>, stage: WStage, data: T) {
    match stage
    case Idle => true
    case Open(t) => t in temps
    case Full(t) => t in temps && temps[t] == Complete(data)
  }

  predicate Owns<N>(proc: Proc<N>, t: nat) {
    proc.pc.Writing? && !proc.pc.stage.Idle? && proc.pc.stage.t == t
  }

  ghost predicate TempsOK<N(!new), E(!new)>(s: State<N, E>) {
    ProcTemps(s.disk.temps, s.procs) && RecoveryTemps(s.disk.temps, s.phase)
  }

  ghost predicate ProcTemps<N(!new)>(temps: map<nat, File<Rec<N>>>, procs: map<nat, Proc<N>>) {
    && (forall p :: p in procs && procs[p].pc.Writing? ==> StageOK(temps, procs[p].pc.stage, procs[p].rec))
    && (forall p, q, t :: p in procs && q in procs && Owns(procs[p], t) && Owns(procs[q], t) ==> p == q)
  }

  ghost predicate RecoveryTemps<N(!new)>(temps: map<nat, File<Rec<N>>>, phase: Phase<N>) {
    phase.Recovering? && !phase.stage.Idle? ==>
      phase.todo != [] && !phase.todo[0].state.Terminal() && StageOK(temps, phase.stage, Recovered(phase.todo[0]))
  }

  // ---- the log of saves ----

  /** Per run ID: one directory, never back in the lifecycle, and nothing after a terminal record. */
  ghost predicate Monotone<N(!new)>(h: seq<Rec<N>>) {
    forall i, j :: 0 <= i < j < |h| && h[i].id == h[j].id ==>
      !h[i].state.Terminal() && h[i].state.Rank() <= h[j].state.Rank() && h[i].dir == h[j].dir
  }

  /** The record is the latest save of its run. */
  ghost predicate Latest<N(!new)>(h: seq<Rec<N>>, r: Rec<N>) {
    exists i :: 0 <= i < |h| && h[i] == r && forall j :: i < j < |h| ==> h[j].id != r.id
  }

  /** What a run has saved so far leaves room for saving this state. */
  ghost predicate CanSave<N(!new)>(h: seq<Rec<N>>, r: Rec<N>) {
    forall i :: 0 <= i < |h| && h[i].id == r.id ==>
      !h[i].state.Terminal() && h[i].state.Rank() <= r.state.Rank() && h[i].dir == r.dir
  }

  ghost predicate LedgerOK<N(!new), E(!new)>(s: State<N, E>) {
    && Monotone(s.log.history)
    && IssuedOK(s.log.history, s.log.used)
    && LatestOK(s.disk.runs, s.log.history)
    && CanSaveOK(s.procs, s.log.history)
  }

  ghost predicate IssuedOK<N(!new)>(h: seq<Rec<N>>, used: set<nat>) {
    forall i :: 0 <= i < |h| ==> h[i].id in used
  }

  ghost predicate LatestOK<N(!new)>(runs: map<Dir<N>, File<Rec<N>>>, h: seq<Rec<N>>) {
    forall d :: d in runs && runs[d].Complete? ==> Latest(h, runs[d].value)
  }

  ghost predicate CanSaveOK<N(!new)>(procs: map<nat, Proc<N>>, h: seq<Rec<N>>) {
    forall p :: p in procs && StillSaving(procs[p].pc) ==> CanSave(h, procs[p].rec)
  }

  // ---- what steps leave alone ----

  /** Evaluation ends in passed, failed or errored. */
  ghost predicate Judges<N(!new), E(!new)>(sys: Sys<N, E>) {
    forall e :: sys.verdict(e) == Passed || sys.verdict(e) == Failed || sys.verdict(e) == Errored
  }

  /** Directories, registrations and IDs never go away. */
  ghost predicate Grows<N(!new), E(!new)>(s: State<N, E>, s': State<N, E>) {
    && (forall d :: d in s.disk.runs ==> d in s'.disk.runs)
    && (forall n :: n in s.disk.repos ==> n in s'.disk.repos)
    && s.log.used <= s'.log.used
  }

  /** The state after a step of a save. */
  lemma WriteNext<N(!new), E(!new)>(sys: Sys<N, E>, s: State<N, E>, p: nat, step: WStep)
    requires Enabled(sys, s, Write(p, step))
    ensures Next(sys, s, Write(p, step)) ==
              State(WriteDisk(s.disk, s.procs[p], step), s.phase, SetProc(s.procs, p, WriteProc(s.procs[p], step)),
                s.board, Settled(WriteLog(s.log, s.procs[p], step), s.procs, p, step))
  {
  }

  lemma RestDisk<N(!new), E(!new)>(sys: Sys<N, E>, s: State<N, E>, a: Action<N, E>)
    requires Enabled(sys, s, a) && !a.Write? && !a.RecoverWrite?
    ensures Next(sys, s, a).disk == s.disk.(repos := Next(sys, s, a).disk.repos)
  {
  }

  lemma RestLog<N(!new), E(!new)>(sys: Sys<N, E>, s: State<N, E>, a: Action<N, E>)
    requires Enabled(sys, s, a) && !a.Write? && !a.RecoverWrite?
    ensures NextLog(sys, s, a).history == s.log.history && NextLog(sys, s, a).noteLost == s.log.noteLost
  {
  }

  /** Only a write touches the files or the log of saves. */
  lemma OnlyWritesWrite<N(!new), E(!new)>(sys: Sys<N, E>, s: State<N, E>, a: Action<N, E>)
    requires Enabled(sys, s, a) && !a.Write? && !a.RecoverWrite?
    ensures var s' := Next(sys, s, a);
            && s'.disk.runs == s.disk.runs && s'.disk.notes == s.disk.notes && s'.disk.temps == s.disk.temps
            && s'.log.history == s.log.history && s'.log.noteLost == s.log.noteLost
  {
    RestDisk(sys, s, a);
    RestLog(sys, s, a);
  }

  lemma DiskGrows<N(!new), E(!new)>(sys: Sys<N, E>, s: State<N, E>, a: Action<N, E>)
    requires Enabled(sys, s, a)
    ensures s.disk.runs.Keys <= Next(sys, s, a).disk.runs.Keys
  {
    if !a.Write? && !a.RecoverWrite? {
      RestDisk(sys, s, a);
    }
  }

  lemma NextGrows<N(!new), E(!new)>(sys: Sys<N, E>, s: State<N, E>, a: Action<N, E>)
    requires Enabled(sys, s, a)
    ensures Grows(s, Next(sys, s, a))
  {
    DiskGrows(sys, s, a);
  }

  /** Only its own step changes a process; a kill ends them all. */
  lemma OnlyProcsMove<N(!new), E(!new)>(sys: Sys<N, E>, s: State<N, E>, a: Action<N, E>)
    requires Enabled(sys, s, a)
    ensures Next(sys, s, a).procs ==
              if ByProc(a) then SetProc(s.procs, a.p, ProcAfter(sys, s, a)) else if a.Kill? then map[] else s.procs
  {
  }

  // ---- files ----

  lemma FilesWrite<N(!new), E(!new)>(sys: Sys<N, E>, s: State<N, E>, p: nat, step: WStep)
    requires FilesOK(sys, s) && TempsOK(s) && Enabled(sys, s, Write(p, step)) && ProcOK(sys, s, s.procs[p])
    ensures FilesOK(sys, Next(sys, s, Write(p, step)))
  {
  }

  lemma FilesRecover<N(!new), E(!new)>(sys: Sys<N, E>, s: State<N, E>, step: WStep)
    requires FilesOK(sys, s) && TempsOK(s) && TodoOK(s) && Enabled(sys, s, RecoverWrite(step))
    ensures FilesOK(sys, NextRecoverWrite(s, step))
  {
    assert s.phase.todo[0] in s.phase.todo;
  }

  lemma FilesPreserved<N(!new), E(!new)>(sys: Sys<N, E>, s: State<N, E>, a: Action<N, E>)
    requires FilesOK(sys, s) && ProcsOK(sys, s) && TodoOK(s) && TempsOK(s) && Enabled(sys, s, a)
    ensures FilesOK(sys, Next(sys, s, a))
  {
    if a.Write? {
      FilesWrite(sys, s, a.p, a.step);
    } else if a.RecoverWrite? {
      FilesRecover(sys, s, a.step);
    } else {
      OnlyWritesWrite(sys, s, a);
      NextGrows(sys, s, a);
    }
  }

  // ---- processes ----

  /** A step of the process p leaves the others as they are. */
  lemma ProcsStep<N(!new), E(!new)>(sys: Sys<N, E>, s: State<N, E>, s': State<N, E>, p: nat, proc: Option<Proc<N>>)
    requires ProcsOK(sys, s) && Grows(s, s') && s.phase.Serving? && s'.phase.Serving?
    requires s'.procs == SetProc(s.procs, p, proc)
    requires proc.Some? ==>
               && ProcOK(sys, s', proc.value)
               && forall q :: q in s.procs && q != p ==> s.procs[q].rec.id != proc.value.rec.id
    ensures ProcsOK(sys, s')
  {
    forall q | q in s'.procs ensures ProcOK(sys, s', s'.procs[q]) {
      if q != p { assert ProcOK(sys, s, s.procs[q]); }
    }
  }

  lemma ProcsSame<N(!new), E(!new)>(sys: Sys<N, E>, s: State<N, E>, s': State<N, E>)
    requires ProcsOK(sys, s) && Grows(s, s')
    requires s'.procs == s.procs && (!s'.phase.Serving? ==> s'.procs == map[] && s'.board.waits == map[])
    ensures ProcsOK(sys, s')
  {
    forall q | q in s'.procs ensures ProcOK(sys, s', s'.procs[q]) {
      assert ProcOK(sys, s, s.procs[q]);
    }
  }

  /** The same run, in a state that fits its next step. */
  predicate Moved<N(==)>(proc: Proc<N>, next: Proc<N>) {
    StateFits(next) && !next.rec.interrupted && next.rec.dir == proc.rec.dir && next.rec.id == proc.rec.id
  }

  lemma WriteMoves<N>(proc: Proc<N>, step: WStep)
    requires proc.pc.Writing? && StateFits(proc) && !proc.rec.interrupted
    ensures var next := WriteProc(proc, step);
            next.Some? ==> Moved(proc, next.value) && (Registered(next.value) ==> Registered(proc) || step.Rename?)
  {
  }

  lemma ProcMoves<N(!new), E(!new)>(sys: Sys<N, E>, s: State<N, E>, a: Action<N, E>)
    requires Judges(sys) && ProcsOK(sys, s) && Enabled(sys, s, a) && ByProc(a) && !a.Write? && !a.Submit?
    ensures Registered(s.procs[a.p])
    ensures var next := ProcAfter(sys, s, a); next.Some? ==> Moved(s.procs[a.p], next.value)
  {
    assert ProcOK(sys, s, s.procs[a.p]);
  }

  lemma ProcsWrite<N(!new), E(!new)>(sys: Sys<N, E>, s: State<N, E>, p: nat, step: WStep)
    requires ProcsOK(sys, s) && Enabled(sys, s, Write(p, step))
    ensures ProcsOK(sys, Next(sys, s, Write(p, step)))
  {
    assert ProcOK(sys, s, s.procs[p]);
    NextGrows(sys, s, Write(p, step));
    WriteNext(sys, s, p, step);
    WriteMoves(s.procs[p], step);
    ProcsStep(sys, s, Next(sys, s, Write(p, step)), p, WriteProc(s.procs[p], step));
  }

  /** A step of a process other than a save leaves it in order, with its own ID. */
  lemma ProcsMove<N(!new), E(!new)>(sys: Sys<N, E>, s: State<N, E>, a: Action<N, E>)
    requires Judges(sys) && ProcsOK(sys, s) && Enabled(sys, s, a) && ByProc(a) && !a.Write?
    ensures ProcsOK(sys, Next(sys, s, a))
  {
    NextGrows(sys, s, a);
    OnlyProcsMove(sys, s, a);
    if a.Submit? {
      assert forall q :: q in s.procs ==> ProcOK(sys, s, s.procs[q]);
    } else {
      assert ProcOK(sys, s, s.procs[a.p]);
      ProcMoves(sys, s, a);
    }
    ProcsStep(sys, s, Next(sys, s, a), a.p, ProcAfter(sys, s, a));
  }

  lemma ProcsPreserved<N(!new), E(!new)>(sys: Sys<N, E>, s: State<N, E>, a: Action<N, E>)
    requires Judges(sys) && ProcsOK(sys, s) && Enabled(sys, s, a)
    ensures ProcsOK(sys, Next(sys, s, a))
  {
    if a.Write? {
      ProcsWrite(sys, s, a.p, a.step);
    } else if ByProc(a) {
      ProcsMove(sys, s, a);
    } else if a.Kill? {
    } else {
      NextGrows(sys, s, a);
      OnlyProcsMove(sys, s, a);
      WaitsOnlyServing(sys, s, a);
      ProcsSame(sys, s, Next(sys, s, a));
    }
  }

  lemma WaitsOnlyServing<N(!new), E(!new)>(sys: Sys<N, E>, s: State<N, E>, a: Action<N, E>)
    requires ProcsOK(sys, s) && Enabled(sys, s, a) && !ByProc(a)
    ensures !Next(sys, s, a).phase.Serving? ==> Next(sys, s, a).procs == map[] && Next(sys, s, a).board.waits == map[]
  {
  }

  // ---- records stay ----

  lemma KeptPreserved<N(!new), E(!new)>(sys: Sys<N, E>, s: State<N, E>, a: Action<N, E>)
    requires KeptOK(s) && Enabled(sys, s, a)
    ensures KeptOK(Next(sys, s, a))
  {
    NextGrows(sys, s, a);
    if a.Acknowledge? {
      var i :| 0 <= i < |s.log.history| && s.log.history[i] == a.rec;
    }
  }

  // ---- recovery's list ----

  lemma TailDistinct<T>(s: seq<T>)
    requires s != [] && Distinct(s)
    ensures Distinct(s[1..]) && s[0] !in s[1..]
    ensures forall x :: x in s <==> x == s[0] || x in s[1..]
  {
  }

  lemma TodoRecover<N(!new), E(!new)>(sys: Sys<N, E>, s: State<N, E>, step: WStep)
    requires TodoOK(s) && s.phase.Recovering? && s.phase.todo != [] && StepEnabled(s.disk.temps, s.phase.stage, step)
    ensures TodoOK(NextRecoverWrite(s, step))
  {
    var todo := s.phase.todo;
    TailDistinct(todo);
    forall r | r in todo[1..] ensures r.dir != todo[0].dir {
      assert r in todo && todo[0] in todo;
    }
  }

  lemma TodoList<N(!new), E(!new)>(sys: Sys<N, E>, s: State<N, E>, todo: seq<Rec<N>>)
    requires FilesOK(sys, s) && s.phase.Recovering? && s.phase.repos != []
    requires Listing(s.disk.runs, s.phase.repos[0], todo)
    ensures Distinct(todo) && forall r :: r in todo ==> r.dir in s.disk.runs && s.disk.runs[r.dir] == Complete(r)
  {
    forall r | r in todo ensures r.dir in s.disk.runs && s.disk.runs[r.dir] == Complete(r) {
      var d :| d in s.disk.runs && s.disk.runs[d] == Complete(r);
    }
  }

  lemma TodoPreserved<N(!new), E(!new)>(sys: Sys<N, E>, s: State<N, E>, a: Action<N, E>)
    requires FilesOK(sys, s) && ProcsOK(sys, s) && TodoOK(s) && Enabled(sys, s, a)
    ensures TodoOK(Next(sys, s, a))
  {
    if a.RecoverWrite? {
      TodoRecover(sys, s, a.step);
    } else {
      NextGrows(sys, s, a);
      if a.ListRuns? {
        TodoList(sys, s, a.todo);
      } else if a.SkipTerminal? {
        TailDistinct(s.phase.todo);
      }
    }
  }

  // ---- temp files ----

  lemma TempsWrite<N(!new), E(!new)>(sys: Sys<N, E>, s: State<N, E>, p: nat, step: WStep)
    requires TempsOK(s) && s.phase.Serving? && Enabled(sys, s, Write(p, step))
    ensures TempsOK(Next(sys, s, Write(p, step)))
  {
    var s' := Next(sys, s, Write(p, step));
    forall q | q in s'.procs && q != p && s'.procs[q].pc.Writing?
      ensures StageOK(s'.disk.temps, s'.procs[q].pc.stage, s'.procs[q].rec)
    {
      var stage := s.procs[q].pc.stage;
      assert StageOK(s.disk.temps, stage, s.procs[q].rec);
      if !stage.Idle? {
        assert Owns(s.procs[q], stage.t) && !Owns(s.procs[p], stage.t);
      }
    }
  }

  lemma TempsPreserved<N(!new), E(!new)>(sys: Sys<N, E>, s: State<N, E>, a: Action<N, E>)
    requires ProcsOK(sys, s) && TempsOK(s) && Enabled(sys, s, a)
    ensures TempsOK(Next(sys, s, a))
  {
    if a.Write? {
      TempsWrite(sys, s, a.p, a.step);
    } else if a.RecoverWrite? {
      TempsRecover(s, a.step);
    } else {
      TempsRest(sys, s, a);
    }
  }

  lemma ProcTempsSet<N(!new)>(temps: map<nat, File<Rec<N>>>, procs: map<nat, Proc<N>>, p: nat, proc: Option<Proc<N>>)
    requires ProcTemps(temps, procs) && (proc.Some? && proc.value.pc.Writing? ==> proc.value.pc.stage.Idle?)
    ensures ProcTemps(temps, SetProc(procs, p, proc))
  {
    var next := SetProc(procs, p, proc);
    assert forall q, t :: q in next && Owns(next[q], t) ==> q in procs && next[q] == procs[q];
  }

  lemma RecoveryTempsRest<N(!new), E(!new)>(sys: Sys<N, E>, s: State<N, E>, a: Action<N, E>)
    requires RecoveryTemps(s.disk.temps, s.phase) && Enabled(sys, s, a) && !a.RecoverWrite?
    ensures RecoveryTemps(s.disk.temps, NextPhase(sys, s, a))
  {
  }

  /** No other step leaves a process inside a write it was not in. */
  lemma TempsRest<N(!new), E(!new)>(sys: Sys<N, E>, s: State<N, E>, a: Action<N, E>)
    requires TempsOK(s) && Enabled(sys, s, a) && !a.Write? && !a.RecoverWrite?
    ensures TempsOK(Next(sys, s, a))
  {
    OnlyWritesWrite(sys, s, a);
    OnlyProcsMove(sys, s, a);
    RecoveryTempsRest(sys, s, a);
    if ByProc(a) {
      ProcTempsSet(s.disk.temps, s.procs, a.p, ProcAfter(sys, s, a));
    }
  }

  lemma TempsRecover<N(!new), E(!new)>(s: State<N, E>, step: WStep)
    requires TempsOK(s) && s.procs == map[]
    requires s.phase.Recovering? && s.phase.todo != [] && !s.phase.todo[0].state.Terminal()
    requires StepEnabled(s.disk.temps, s.phase.stage, step)
    ensures TempsOK(NextRecoverWrite(s, step))
  {
  }

  // ---- the log ----

  lemma LatestAppend<N(!new)>(h: seq<Rec<N>>, r: Rec<N>, x: Rec<N>)
    ensures Latest(h + [x], x)
    ensures Latest(h, r) && r.id != x.id ==> Latest(h + [x], r)
  {
    assert (h + [x])[|h|] == x;
    if Latest(h, r) && r.id != x.id {
      var i :| 0 <= i < |h| && h[i] == r && forall j :: i < j < |h| ==> h[j].id != r.id;
      assert (h + [x])[i] == r;
    }
  }

  lemma MonotoneAppend<N(!new)>(h: seq<Rec<N>>, x: Rec<N>)
    requires Monotone(h) && CanSave(h, x)
    ensures Monotone(h + [x])
  {
  }

  /** A record on disk that is not terminal may still be followed by another save of its run. */
  lemma LatestCanSave<N(!new)>(h: seq<Rec<N>>, r: Rec<N>, x: Rec<N>)
    requires Monotone(h) && Latest(h, r) && !r.state.Terminal()
    requires x.id == r.id && x.dir == r.dir && r.state.Rank() <= x.state.Rank()
    ensures CanSave(h, x)
  {
    var i :| 0 <= i < |h| && h[i] == r && forall j :: i < j < |h| ==> h[j].id != r.id;
  }

  /** Appending a permitted save keeps the log and what the disk says about it. */
  lemma LedgerSave<N(!new), E(!new)>(sys: Sys<N, E>, s: State<N, E>, x: Rec<N>)
    requires FilesOK(sys, s) && LedgerOK(s) && CanSave(s.log.history, x)
    ensures Monotone(s.log.history + [x]) && Latest(s.log.history + [x], x)
    ensures forall d :: d in s.disk.runs && d != x.dir ==> Latest(s.log.history + [x], s.disk.runs[d].value)
  {
    var h := s.log.history;
    MonotoneAppend(h, x);
    LatestAppend(h, x, x);
    forall d | d in s.disk.runs && d != x.dir ensures Latest(h + [x], s.disk.runs[d].value) {
      var r := s.disk.runs[d].value;
      var i :| 0 <= i < |h| && h[i] == r && forall j :: i < j < |h| ==> h[j].id != r.id;
      assert r.id != x.id;
      LatestAppend(h, r, x);
    }
  }

  lemma CanSaveAppend<N(!new)>(h: seq<Rec<N>>, x: Rec<N>, r: Rec<N>)
    requires CanSave(h, r)
    requires r.id == x.id ==> r.dir == x.dir && !x.state.Terminal() && x.state.Rank() <= r.state.Rank()
    ensures CanSave(h + [x], r)
  {
  }

  /** After its own save a process can still make the next one. */
  lemma CanSaveNext<N(!new)>(h: seq<Rec<N>>, proc: Proc<N>, step: WStep)
    requires proc.pc.Writing? && StateFits(proc) && CanSave(h, proc.rec)
    ensures var next := WriteProc(proc, step);
            var h' := if step.Rename? && proc.pc.purpose != SaveNote then h + [proc.rec] else h;
            next.Some? && StillSaving(next.value.pc) ==> CanSave(h', next.value.rec)
  {
    var next := WriteProc(proc, step);
    if next.Some? && StillSaving(next.value.pc) {
      assert CanSave(h, next.value.rec);
      if step.Rename? && proc.pc.purpose != SaveNote {
        CanSaveAppend(h, proc.rec, next.value.rec);
      }
    }
  }

  lemma CanSaveWrite<N(!new), E(!new)>(sys: Sys<N, E>, s: State<N, E>, p: nat, step: WStep)
    requires ProcsOK(sys, s) && LedgerOK(s) && Enabled(sys, s, Write(p, step))
    ensures CanSaveOK(SetProc(s.procs, p, WriteProc(s.procs[p], step)), WriteLog(s.log, s.procs[p], step).history)
  {
    assert ProcOK(sys, s, s.procs[p]);
    CanSaveNext(s.log.history, s.procs[p], step);
    if step.Rename? && s.procs[p].pc.purpose != SaveNote {
      LedgerOthers(s, p);
    }
  }

  lemma LatestWrite<N(!new), E(!new)>(sys: Sys<N, E>, s: State<N, E>, p: nat, step: WStep)
    requires FilesOK(sys, s) && TempsOK(s) && LedgerOK(s) && Enabled(sys, s, Write(p, step))
    ensures LatestOK(WriteDisk(s.disk, s.procs[p], step).runs, WriteLog(s.log, s.procs[p], step).history)
    ensures Monotone(WriteLog(s.log, s.procs[p], step).history)
  {
    if step.Rename? && s.procs[p].pc.purpose != SaveNote {
      LedgerSave(sys, s, s.procs[p].rec);
    }
  }

  lemma LedgerWrite<N(!new), E(!new)>(sys: Sys<N, E>, s: State<N, E>, p: nat, step: WStep)
    requires FilesOK(sys, s) && ProcsOK(sys, s) && TempsOK(s) && LedgerOK(s) && Enabled(sys, s, Write(p, step))
    ensures LedgerOK(Next(sys, s, Write(p, step)))
  {
    CanSaveWrite(sys, s, p, step);
    LatestWrite(sys, s, p, step);
    IssuedWrite(sys, s, p, step);
  }

  lemma IssuedWrite<N(!new), E(!new)>(sys: Sys<N, E>, s: State<N, E>, p: nat, step: WStep)
    requires LedgerOK(s) && Enabled(sys, s, Write(p, step)) && ProcOK(sys, s, s.procs[p])
    ensures IssuedOK(WriteLog(s.log, s.procs[p], step).history, WriteLog(s.log, s.procs[p], step).used)
  {
  }

  lemma LedgerOthers<N(!new), E(!new)>(s: State<N, E>, p: nat)
    requires LedgerOK(s) && p in s.procs
    requires forall q :: q in s.procs && q != p ==> s.procs[q].rec.id != s.procs[p].rec.id
    ensures forall q :: q in s.procs && q != p && StillSaving(s.procs[q].pc) ==>
              CanSave(s.log.history + [s.procs[p].rec], s.procs[q].rec)
  {
    forall q | q in s.procs && q != p
      && StillSaving(s.procs[q].pc) ensures CanSave(s.log.history + [s.procs[p].rec], s.procs[q].rec) {
      CanSaveAppend(s.log.history, s.procs[p].rec, s.procs[q].rec);
    }
  }

  lemma LedgerRecover<N(!new), E(!new)>(sys: Sys<N, E>, s: State<N, E>, step: WStep)
    requires FilesOK(sys, s) && TodoOK(s) && TempsOK(s) && LedgerOK(s) && s.procs == map[]
    requires Enabled(sys, s, RecoverWrite(step))
    ensures LedgerOK(NextRecoverWrite(s, step))
  {
    if step.Rename? {
      var r := s.phase.todo[0];
      assert r in s.phase.todo;
      LatestCanSave(s.log.history, r, Recovered(r));
      LedgerSave(sys, s, Recovered(r));
    }
  }

  lemma CanSaveMoved<N(!new), E(!new)>(sys: Sys<N, E>, s: State<N, E>, a: Action<N, E>)
    requires Judges(sys) && ProcsOK(sys, s) && LedgerOK(s) && Enabled(sys, s, a) && ByProc(a) && !a.Write?
    ensures var proc := ProcAfter(sys, s, a);
            proc.Some? && StillSaving(proc.value.pc) ==> CanSave(s.log.history, proc.value.rec)
  {
    if !a.Submit? {
      assert ProcOK(sys, s, s.procs[a.p]);
    }
  }

  lemma CanSaveSet<N(!new)>(h: seq<Rec<N>>, procs: map<nat, Proc<N>>, p: nat, proc: Option<Proc<N>>)
    requires CanSaveOK(procs, h) && (proc.Some? && StillSaving(proc.value.pc) ==> CanSave(h, proc.value.rec))
    ensures CanSaveOK(SetProc(procs, p, proc), h)
  {
  }

  lemma LedgerRest<N(!new), E(!new)>(sys: Sys<N, E>, s: State<N, E>, a: Action<N, E>)
    requires Judges(sys) && ProcsOK(sys, s) && LedgerOK(s) && Enabled(sys, s, a) && !a.Write? && !a.RecoverWrite?
    ensures LedgerOK(Next(sys, s, a))
  {
    OnlyWritesWrite(sys, s, a);
    NextGrows(sys, s, a);
    OnlyProcsMove(sys, s, a);
    if ByProc(a) {
      CanSaveMoved(sys, s, a);
      CanSaveSet(s.log.history, s.procs, a.p, ProcAfter(sys, s, a));
    }
  }

  lemma LedgerPreserved<N(!new), E(!new)>(sys: Sys<N, E>, s: State<N, E>, a: Action<N, E>)
    requires Judges(sys)
    requires FilesOK(sys, s) && ProcsOK(sys, s) && TodoOK(s) && TempsOK(s) && LedgerOK(s) && Enabled(sys, s, a)
    ensures LedgerOK(Next(sys, s, a))
  {
    if a.Write? {
      LedgerWrite(sys, s, a.p, a.step);
    } else if a.RecoverWrite? {
      LedgerRecover(sys, s, a.step);
    } else {
      LedgerRest(sys, s, a);
    }
  }
}
