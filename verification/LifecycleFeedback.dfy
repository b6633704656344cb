/** Whose feedback.md it is: without overlapping runs of a directory, a record that points at a
    feedback artifact points at the one rendered from itself. */
module LifecycleFeedback {
  import opened Text
  import opened Lifecycle
  import opened LifecycleInv
  import opened LifecycleVerdict

  /** What was rendered, when the record says there is something to point at. */
  predicate OwnNote<N(==)>(notes: map<Dir<N>, File<Rec<N>>>, r: Rec<N>) {
    r.feedback ==> r.dir in notes && notes[r.dir] == Complete(r.(feedback := false))
  }

  predicate Rivals<N(==)>(a: Proc<N>, b: Proc<N>) {
    StillSaving(a.pc) && StillSaving(b.pc) && a.rec.dir == b.rec.dir
  }

  ghost predicate AloneOK<N(!new), E(!new)>(s: State<N, E>) {
    NoRivals(s.procs, s.log.overlapped) && AllInPlace(s.disk.runs, s.procs, s.log.overlapped)
  }

  ghost predicate NoRivals<N(!new)>(procs: map<nat, Proc<N>>, overlapped: set<Dir<N>>) {
    forall p, q :: p in procs && q in procs && Rivals(procs[p], procs[q]) ==> p == q || procs[p].rec.dir in overlapped
  }

  ghost predicate AllInPlace<N(!new)>(runs: map<Dir<N>, File<Rec<N>>>, procs: map<nat, Proc<N>>,
      overlapped: set<Dir<N>>) {
    forall p :: p in procs && Mine(procs[p]) && procs[p].rec.dir !in overlapped ==> InPlace(runs, procs[p].rec)
  }

  predicate Mine<N>(proc: Proc<N>) {
    StillSaving(proc.pc) && Registered(proc)
  }

  /** The file in the record's directory is of the same run. */
  predicate InPlace<N(==)>(runs: map<Dir<N>, File<Rec<N>>>, r: Rec<N>) {
    r.dir in runs && runs[r.dir].Complete? && runs[r.dir].value.id == r.id
  }

  ghost predicate OwnOK<N(!new), E(!new)>(s: State<N, E>) {
    OwnRuns(s.disk, s.log.overlapped) && OwnProcs(s.disk, s.procs, s.log.overlapped)
  }

  ghost predicate OwnRuns<N(!new)>(disk: Disk<N>, overlapped: set<Dir<N>>) {
    forall d :: d in disk.runs && disk.runs[d].Complete? && d !in overlapped ==> OwnNote(disk.notes, disk.runs[d].value)
  }

  ghost predicate OwnProcs<N(!new)>(disk: Disk<N>, procs: map<nat, Proc<N>>, overlapped: set<Dir<N>>) {
    forall p :: p in procs && StillSaving(procs[p].pc) && procs[p].rec.dir !in overlapped ==>
      OwnNote(disk.notes, procs[p].rec)
  }

  // ---- one run at a time ----

  lemma AloneWriteRuns<N(!new), E(!new)>(sys: Sys<N, E>, s: State<N, E>, p: nat, step: WStep, q: nat)
    requires ProcsOK(sys, s) && TempsOK(s) && AloneOK(s) && Enabled(sys, s, Write(p, step))
    requires var procs := SetProc(s.procs, p, WriteProc(s.procs[p], step));
             q in procs && Mine(procs[q]) && procs[q].rec.dir !in s.log.overlapped
    ensures var procs := SetProc(s.procs, p, WriteProc(s.procs[p], step));
            InPlace(WriteDisk(s.disk, s.procs[p], step).runs, procs[q].rec)
  {
    var proc := s.procs[p];
    assert ProcOK(sys, s, proc);
    if q != p {
      assert Mine(s.procs[q]) && InPlace(s.disk.runs, s.procs[q].rec);
    } else if Registered(proc) {
      assert Mine(proc) && InPlace(s.disk.runs, proc.rec);
    }
  }

  lemma AloneWriteProc<N>(proc: Proc<N>, step: WStep)
    requires proc.pc.Writing?
    ensures var next := WriteProc(proc, step);
            next.Some? ==> next.value.rec.dir == proc.rec.dir && next.value.rec.id == proc.rec.id
  {
  }

  lemma AloneWriteRivals<N(!new), E(!new)>(sys: Sys<N, E>, s: State<N, E>, p: nat, step: WStep)
    requires AloneOK(s) && Enabled(sys, s, Write(p, step))
    ensures NoRivals(SetProc(s.procs, p, WriteProc(s.procs[p], step)), s.log.overlapped)
  {
    AloneWriteProc(s.procs[p], step);
  }

  lemma AloneWriteInPlace<N(!new), E(!new)>(sys: Sys<N, E>, s: State<N, E>, p: nat, step: WStep)
    requires ProcsOK(sys, s) && TempsOK(s) && AloneOK(s) && Enabled(sys, s, Write(p, step))
    ensures var procs := SetProc(s.procs, p, WriteProc(s.procs[p], step));
            AllInPlace(WriteDisk(s.disk, s.procs[p], step).runs, procs, s.log.overlapped)
  {
    var procs := SetProc(s.procs, p, WriteProc(s.procs[p], step));
    forall q | q in procs && Mine(procs[q]) && procs[q].rec.dir !in s.log.overlapped
      ensures InPlace(WriteDisk(s.disk, s.procs[p], step).runs, procs[q].rec)
    {
      AloneWriteRuns(sys, s, p, step, q);
    }
  }

  /** Where only p is saving, the overlap can be forgotten. */
  lemma ClearAlone<N(!new)>(runs: map<Dir<N>, File<Rec<N>>>, procs: map<nat, Proc<N>>, overlapped: set<Dir<N>>, p: nat)
    requires NoRivals(procs, overlapped) && AllInPlace(runs, procs, overlapped)
    requires p in procs && SavesAlone(procs, p) && InPlace(runs, procs[p].rec)
    ensures NoRivals(procs, overlapped - {procs[p].rec.dir}) && AllInPlace(runs, procs, overlapped - {procs[p].rec.dir})
  {
  }

  /** A registration that is on disk: the process has the record in place and points at no feedback. */
  lemma Registers<N(!new), E(!new)>(sys: Sys<N, E>, s: State<N, E>, p: nat)
    requires TempsOK(s) && NotesOK(s) && Enabled(sys, s, Write(p, Rename)) && s.procs[p].pc.purpose == SaveQueued
    requires SavesAlone(s.procs, p)
    ensures var procs := SetProc(s.procs, p, WriteProc(s.procs[p], Rename));
            var disk := WriteDisk(s.disk, s.procs[p], Rename);
            && p in procs && SavesAlone(procs, p) && procs[p].rec.dir == s.procs[p].rec.dir && !procs[p].rec.feedback
            && InPlace(disk.runs, procs[p].rec) && !disk.runs[procs[p].rec.dir].value.feedback
  {
    assert NoteFits(s.disk.notes, s.log.noteLost, s.procs[p]);
  }

  lemma AloneWrite<N(!new), E(!new)>(sys: Sys<N, E>, s: State<N, E>, p: nat, step: WStep)
    requires ProcsOK(sys, s) && TempsOK(s) && NotesOK(s) && AloneOK(s) && Enabled(sys, s, Write(p, step))
    ensures var overlapped := Settled(WriteLog(s.log, s.procs[p], step), s.procs, p, step).overlapped;
            var procs := SetProc(s.procs, p, WriteProc(s.procs[p], step));
            NoRivals(procs, overlapped) && AllInPlace(WriteDisk(s.disk, s.procs[p], step).runs, procs, overlapped)
  {
    AloneWriteRivals(sys, s, p, step);
    AloneWriteInPlace(sys, s, p, step);
    if step.Rename? && s.procs[p].pc.purpose == SaveQueued && SavesAlone(s.procs, p) {
      Registers(sys, s, p);
      var runs, procs := WriteDisk(s.disk, s.procs[p], step).runs, SetProc(s.procs, p, WriteProc(s.procs[p], step));
      ClearAlone(runs, procs, s.log.overlapped, p);
    }
  }

  lemma AloneMoves<N(!new), E(!new)>(sys: Sys<N, E>, s: State<N, E>, a: Action<N, E>)
    requires ByProc(a) && !a.Write? && !a.Submit? && Enabled(sys, s, a)
    ensures var proc := ProcAfter(sys, s, a);
            proc.Some? && StillSaving(proc.value.pc) ==>
              && StillSaving(s.procs[a.p].pc) && Registered(proc.value) == Registered(s.procs[a.p])
              && proc.value.rec.dir == s.procs[a.p].rec.dir && proc.value.rec.id == s.procs[a.p].rec.id
  {
  }

  lemma AloneSubmit<N(!new), E(!new)>(sys: Sys<N, E>, s: State<N, E>, a: Action<N, E>)
    requires AloneOK(s) && Enabled(sys, s, a) && a.Submit?
    ensures AloneOK(Next(sys, s, a))
  {
    var s' := Next(sys, s, a);
    assert !BeingSaved(s.procs, a.dir) || a.dir in s'.log.overlapped;
  }

  /** A process of its own directory takes the place of p. */
  lemma AloneSet<N(!new)>(runs: map<Dir<N>, File<Rec<N>>>, procs: map<nat, Proc<N>>, overlapped: set<Dir<N>>, p: nat,
      next: Option<Proc<N>>)
    requires NoRivals(procs, overlapped) && AllInPlace(runs, procs, overlapped) && p in procs
    requires next.Some? && StillSaving(next.value.pc) ==>
               && StillSaving(procs[p].pc) && Registered(next.value) == Registered(procs[p])
               && next.value.rec.dir == procs[p].rec.dir && next.value.rec.id == procs[p].rec.id
    ensures NoRivals(SetProc(procs, p, next), overlapped) && AllInPlace(runs, SetProc(procs, p, next), overlapped)
  {
  }

  /** Only a submit makes an overlap, and only a write ends one. */
  lemma OverlapRest<N(!new), E(!new)>(sys: Sys<N, E>, s: State<N, E>, a: Action<N, E>)
    requires Enabled(sys, s, a) && !a.Write? && !a.RecoverWrite?
    ensures s.log.overlapped <= NextLog(sys, s, a).overlapped
    ensures !a.Submit? ==> s.log.overlapped == NextLog(sys, s, a).overlapped
  {
  }

  lemma AloneRest<N(!new), E(!new)>(sys: Sys<N, E>, s: State<N, E>, a: Action<N, E>)
    requires AloneOK(s) && Enabled(sys, s, a) && !a.Write? && !a.RecoverWrite? && !a.Submit?
    ensures AloneOK(Next(sys, s, a))
  {
    OnlyWritesWrite(sys, s, a);
    OnlyProcsMove(sys, s, a);
    OverlapRest(sys, s, a);
    if ByProc(a) {
      AloneMoves(sys, s, a);
      AloneSet(s.disk.runs, s.procs, s.log.overlapped, a.p, ProcAfter(sys, s, a));
    }
  }

  lemma AlonePreserved<N(!new), E(!new)>(sys: Sys<N, E>, s: State<N, E>, a: Action<N, E>)
    requires ProcsOK(sys, s) && TempsOK(s) && NotesOK(s) && AloneOK(s) && Enabled(sys, s, a)
    ensures AloneOK(Next(sys, s, a))
  {
    if a.Write? {
      AloneWrite(sys, s, a.p, a.step);
      WriteNext(sys, s, a.p, a.step);
    } else if a.Submit? {
      AloneSubmit(sys, s, a);
    } else if !a.RecoverWrite? {
      AloneRest(sys, s, a);
    }
  }

  // ---- the note of the record ----

  /** The file a run with saves to come has in place does not point at a feedback artifact. */
  lemma InPlaceBare<N(!new), E(!new)>(s: State<N, E>, p: nat)
    requires LedgerOK(s) && NotesOK(s) && p in s.procs && StillSaving(s.procs[p].pc)
    requires InPlace(s.disk.runs, s.procs[p].rec)
    ensures !s.disk.runs[s.procs[p].rec.dir].value.feedback
  {
    var r := s.disk.runs[s.procs[p].rec.dir].value;
    var i :| 0 <= i < |s.log.history| && s.log.history[i] == r;
    assert CanSave(s.log.history, s.procs[p].rec) && NoteKept(s.disk.notes, s.log.noteLost, s.log.history[i]);
  }

  /** What a save leaves behind for the process itself. */
  lemma OwnWriteSelf<N(!new), E(!new)>(sys: Sys<N, E>, s: State<N, E>, p: nat, step: WStep)
    requires ProcsOK(sys, s) && TempsOK(s) && NotesOK(s) && OwnOK(s)
    requires Enabled(sys, s, Write(p, step)) && s.procs[p].rec.dir !in s.log.overlapped
    ensures var proc, notes := s.procs[p], WriteDisk(s.disk, s.procs[p], step).notes;
            && (step.Rename? && proc.pc.purpose != SaveNote ==> OwnNote(notes, proc.rec))
            && (WriteProc(proc, step).Some? ==> OwnNote(notes, WriteProc(proc, step).value.rec))
  {
    assert NoteFits(s.disk.notes, s.log.noteLost, s.procs[p]) && OwnNote(s.disk.notes, s.procs[p].rec);
  }

  lemma OwnWriteRuns<N(!new), E(!new)>(sys: Sys<N, E>, s: State<N, E>, p: nat, step: WStep)
    requires FilesOK(sys, s) && ProcsOK(sys, s) && TempsOK(s) && LedgerOK(s) && NotesOK(s) && AloneOK(s) && OwnOK(s)
    requires Enabled(sys, s, Write(p, step))
    ensures OwnRuns(WriteDisk(s.disk, s.procs[p], step), s.log.overlapped)
  {
    var proc := s.procs[p];
    var disk := WriteDisk(s.disk, proc, step);
    forall d | d in disk.runs && disk.runs[d].Complete?
      && d !in s.log.overlapped ensures OwnNote(disk.notes, disk.runs[d].value) {
      if d == proc.rec.dir && step.Rename? {
        if proc.pc.purpose == SaveNote {
          assert Mine(proc);
          InPlaceBare(s, p);
        } else {
          OwnWriteSelf(sys, s, p, step);
        }
      } else {
        assert OwnNote(s.disk.notes, s.disk.runs[d].value);
      }
    }
  }

  lemma OwnWriteProcs<N(!new), E(!new)>(sys: Sys<N, E>, s: State<N, E>, p: nat, step: WStep)
    requires ProcsOK(sys, s) && TempsOK(s) && NotesOK(s) && AloneOK(s) && OwnOK(s)
    requires Enabled(sys, s, Write(p, step))
    ensures var disk, procs := WriteDisk(s.disk, s.procs[p], step), SetProc(s.procs, p, WriteProc(s.procs[p], step));
            OwnProcs(disk, procs, s.log.overlapped)
  {
    var disk, procs := WriteDisk(s.disk, s.procs[p], step), SetProc(s.procs, p, WriteProc(s.procs[p], step));
    forall q | q in procs && StillSaving(procs[q].pc)
      && procs[q].rec.dir !in s.log.overlapped ensures OwnNote(disk.notes, procs[q].rec) {
      if q == p {
        OwnWriteSelf(sys, s, p, step);
      } else {
        assert s.procs[q] == procs[q] && OwnNote(s.disk.notes, s.procs[q].rec);
      }
    }
  }

  lemma ClearOwn<N(!new)>(disk: Disk<N>, procs: map<nat, Proc<N>>, overlapped: set<Dir<N>>, p: nat)
    requires OwnRuns(disk, overlapped) && OwnProcs(disk, procs, overlapped)
    requires p in procs && SavesAlone(procs, p) && !procs[p].rec.feedback
    requires InPlace(disk.runs, procs[p].rec) && !disk.runs[procs[p].rec.dir].value.feedback
    ensures OwnRuns(disk, overlapped - {procs[p].rec.dir}) && OwnProcs(disk, procs, overlapped - {procs[p].rec.dir})
  {
  }

  /** What holds with the old overlaps holds with those that are left. */
  lemma OwnSettles<N(!new), E(!new)>(sys: Sys<N, E>, s: State<N, E>, p: nat, step: WStep)
    requires TempsOK(s) && NotesOK(s) && Enabled(sys, s, Write(p, step))
    requires OwnRuns(WriteDisk(s.disk, s.procs[p], step), s.log.overlapped)
    requires var disk, procs := WriteDisk(s.disk, s.procs[p], step), SetProc(s.procs, p, WriteProc(s.procs[p], step));
             OwnProcs(disk, procs, s.log.overlapped)
    ensures OwnOK(Next(sys, s, Write(p, step)))
  {
    WriteNext(sys, s, p, step);
    if step.Rename? && s.procs[p].pc.purpose == SaveQueued && SavesAlone(s.procs, p) {
      Registers(sys, s, p);
      var disk, procs := WriteDisk(s.disk, s.procs[p], step), SetProc(s.procs, p, WriteProc(s.procs[p], step));
      ClearOwn(disk, procs, s.log.overlapped, p);
    }
  }

  lemma OwnWrite<N(!new), E(!new)>(sys: Sys<N, E>, s: State<N, E>, p: nat, step: WStep)
    requires FilesOK(sys, s) && ProcsOK(sys, s) && TempsOK(s) && LedgerOK(s) && NotesOK(s) && AloneOK(s) && OwnOK(s)
    requires Enabled(sys, s, Write(p, step))
    ensures OwnOK(Next(sys, s, Write(p, step)))
  {
    OwnWriteRuns(sys, s, p, step);
    OwnWriteProcs(sys, s, p, step);
    OwnSettles(sys, s, p, step);
  }

  lemma OwnRecover<N(!new), E(!new)>(sys: Sys<N, E>, s: State<N, E>, step: WStep)
    requires FilesOK(sys, s) && TodoOK(s) && TempsOK(s) && LedgerOK(s) && NotesOK(s) && OwnOK(s)
    requires Enabled(sys, s, RecoverWrite(step)) && s.procs == map[]
    ensures OwnOK(NextRecoverWrite(s, step))
  {
    var r := s.phase.todo[0];
    assert r in s.phase.todo && Latest(s.log.history, r);
    var i :| 0 <= i < |s.log.history| && s.log.history[i] == r;
    assert NoteKept(s.disk.notes, s.log.noteLost, s.log.history[i]);
  }

  lemma OwnMoves<N(!new), E(!new)>(sys: Sys<N, E>, s: State<N, E>, a: Action<N, E>)
    requires NotesOK(s) && OwnOK(s) && Enabled(sys, s, a) && ByProc(a) && !a.Write?
    ensures var proc := ProcAfter(sys, s, a);
            proc.Some? && StillSaving(proc.value.pc) && proc.value.rec.dir !in NextLog(sys, s, a).overlapped ==>
              OwnNote(s.disk.notes, proc.value.rec)
  {
    if !a.Submit? {
      assert NoteFits(s.disk.notes, s.log.noteLost, s.procs[a.p]);
    }
  }

  lemma OwnSet<N(!new)>(disk: Disk<N>, procs: map<nat, Proc<N>>, overlapped: set<Dir<N>>, more: set<Dir<N>>, p: nat,
      next: Option<Proc<N>>)
    requires OwnRuns(disk, overlapped) && OwnProcs(disk, procs, overlapped) && overlapped <= more
    requires next.Some? && StillSaving(next.value.pc) && next.value.rec.dir !in more ==>
               OwnNote(disk.notes, next.value.rec)
    ensures OwnRuns(disk, more) && OwnProcs(disk, SetProc(procs, p, next), more)
  {
  }

  lemma OwnRest<N(!new), E(!new)>(sys: Sys<N, E>, s: State<N, E>, a: Action<N, E>)
    requires NotesOK(s) && OwnOK(s) && Enabled(sys, s, a) && !a.Write? && !a.RecoverWrite?
    ensures OwnOK(Next(sys, s, a))
  {
    OnlyWritesWrite(sys, s, a);
    OnlyProcsMove(sys, s, a);
    OverlapRest(sys, s, a);
    if ByProc(a) {
      OwnMoves(sys, s, a);
      OwnSet(s.disk, s.procs, s.log.overlapped, NextLog(sys, s, a).overlapped, a.p, ProcAfter(sys, s, a));
    }
  }

  lemma OwnPreserved<N(!new), E(!new)>(sys: Sys<N, E>, s: State<N, E>, a: Action<N, E>)
    requires FilesOK(sys, s) && ProcsOK(sys, s) && TodoOK(s) && TempsOK(s) && LedgerOK(s) && NotesOK(s)
    requires AloneOK(s) && OwnOK(s)
    requires Enabled(sys, s, a)
    ensures OwnOK(Next(sys, s, a))
  {
    if a.Write? {
      OwnWrite(sys, s, a.p, a.step);
    } else if a.RecoverWrite? {
      OwnRecover(sys, s, a.step);
    } else {
      OwnRest(sys, s, a);
    }
  }
}
