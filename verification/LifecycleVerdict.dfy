/** What saved and delivered records say: verdicts rest on the run's own evidence, answers are saved
    terminal records, and feedback.md is on disk before the verdict that points at it. */
module LifecycleVerdict {
  import opened Text
  import opened Model
  import opened Lifecycle
  import opened LifecycleInv
  import B = WaitBoard

  // ---- evidence ----

  /** The inputs have drift, and the run gets as far as recording it. */
  predicate Drifted<N, E>(sys: Sys<N, E>, e: E) {
    sys.progresses(e) && sys.drifts(e)
  }

  /** The record's state and drift are what evaluating its run's recorded inputs yields. */
  ghost predicate Backed<N(!new), E(!new)>(sys: Sys<N, E>, evidence: map<nat, E>, r: Rec<N>) {
    r.id in evidence && r.state == sys.verdict(evidence[r.id]) && r.drift == Drifted(sys, evidence[r.id])
  }

  ghost predicate RecordOK<N(!new), E(!new)>(sys: Sys<N, E>, evidence: map<nat, E>, r: Rec<N>) {
    r.state.Terminal() ==> if r.interrupted then r.state == Errored else Backed(sys, evidence, r)
  }

  ghost predicate ProcBacked<N(!new), E(!new)>(sys: Sys<N, E>, evidence: map<nat, E>, proc: Proc<N>) {
    && !proc.rec.interrupted
    && (proc.pc.Judging? || (proc.pc.Writing? && proc.pc.purpose == SaveProgress) ==>
          proc.rec.id in evidence && proc.rec.drift == Drifted(sys, evidence[proc.rec.id]))
    && (proc.pc.Executing? || (proc.pc.Writing? && proc.pc.purpose in {SaveQueued, SaveRunning}) ==>
          !proc.rec.drift)
    && RecordOK(sys, evidence, proc.rec)
  }

  ghost predicate AllBacked<N(!new), E(!new)>(sys: Sys<N, E>, evidence: map<nat, E>, h: seq<Rec<N>>) {
    forall i :: 0 <= i < |h| ==> RecordOK(sys, evidence, h[i])
  }

  ghost predicate EvidenceOK<N(!new), E(!new)>(sys: Sys<N, E>, s: State<N, E>) {
    && AllBacked(sys, s.log.evidence, s.log.history)
    && (forall p :: p in s.procs ==> ProcBacked(sys, s.log.evidence, s.procs[p]))
  }

  /** Begin records evidence once: no terminal save of the run exists yet, and no other process has
      its ID. */
  lemma EvidenceBegin<N(!new), E(!new)>(sys: Sys<N, E>, s: State<N, E>, p: nat, e: E)
    requires ProcsOK(sys, s) && LedgerOK(s) && EvidenceOK(sys, s) && Enabled(sys, s, Begin(p, e))
    ensures EvidenceOK(sys, Next(sys, s, Begin(p, e)))
  {
    var s' := Next(sys, s, Begin(p, e));
    var id := s.procs[p].rec.id;
    assert ProcOK(sys, s, s.procs[p]) && CanSave(s.log.history, s.procs[p].rec);
    forall i | 0 <= i < |s.log.history| ensures RecordOK(sys, s'.log.evidence, s.log.history[i]) {
      assert RecordOK(sys, s.log.evidence, s.log.history[i]);
    }
    forall q | q in s'.procs && q != p ensures ProcBacked(sys, s'.log.evidence, s'.procs[q]) {
      assert ProcBacked(sys, s.log.evidence, s.procs[q]);
    }
  }

  lemma EvidenceSave<N(!new), E(!new)>(sys: Sys<N, E>, evidence: map<nat, E>, proc: Proc<N>, step: WStep)
    requires proc.pc.Writing? && StateFits(proc) && ProcBacked(sys, evidence, proc)
    ensures var next := WriteProc(proc, step); next.Some? ==> ProcBacked(sys, evidence, next.value)
  {
  }

  lemma EvidenceMoves<N(!new), E(!new)>(sys: Sys<N, E>, s: State<N, E>, a: Action<N, E>)
    requires ProcsOK(sys, s) && EvidenceOK(sys, s) && Enabled(sys, s, a) && ByProc(a) && !a.Begin?
    ensures var proc := ProcAfter(sys, s, a); proc.Some? ==> ProcBacked(sys, s.log.evidence, proc.value)
  {
    if a.Submit? {
    } else {
      assert ProcOK(sys, s, s.procs[a.p]) && ProcBacked(sys, s.log.evidence, s.procs[a.p]);
      if a.Write? {
        EvidenceSave(sys, s.log.evidence, s.procs[a.p], a.step);
      }
    }
  }

  lemma EvidenceHistoryWrite<N(!new), E(!new)>(sys: Sys<N, E>, s: State<N, E>, p: nat, step: WStep)
    requires EvidenceOK(sys, s) && p in s.procs && s.procs[p].pc.Writing?
    ensures var log := Settled(WriteLog(s.log, s.procs[p], step), s.procs, p, step);
            log.evidence == s.log.evidence && AllBacked(sys, s.log.evidence, log.history)
  {
    assert ProcBacked(sys, s.log.evidence, s.procs[p]);
  }

  lemma EvidenceHistory<N(!new), E(!new)>(sys: Sys<N, E>, s: State<N, E>, a: Action<N, E>)
    requires EvidenceOK(sys, s) && Enabled(sys, s, a) && !a.Begin?
    ensures var log := Next(sys, s, a).log;
            log.evidence == s.log.evidence && AllBacked(sys, s.log.evidence, log.history)
  {
    if a.Write? {
      EvidenceHistoryWrite(sys, s, a.p, a.step);
    } else if !a.RecoverWrite? {
      OnlyWritesWrite(sys, s, a);
    }
  }

  lemma EvidenceProcs<N(!new), E(!new)>(sys: Sys<N, E>, s: State<N, E>, a: Action<N, E>)
    requires ProcsOK(sys, s) && EvidenceOK(sys, s) && Enabled(sys, s, a) && !a.Begin?
    ensures var procs := Next(sys, s, a).procs; forall p :: p in procs ==> ProcBacked(sys, s.log.evidence, procs[p])
  {
    if ByProc(a) {
      EvidenceMoves(sys, s, a);
    }
  }

  lemma EvidencePreserved<N(!new), E(!new)>(sys: Sys<N, E>, s: State<N, E>, a: Action<N, E>)
    requires ProcsOK(sys, s) && LedgerOK(s) && EvidenceOK(sys, s) && Enabled(sys, s, a)
    ensures EvidenceOK(sys, Next(sys, s, a))
  {
    if a.Begin? {
      EvidenceBegin(sys, s, a.p, a.e);
    } else {
      EvidenceHistory(sys, s, a);
      EvidenceProcs(sys, s, a);
    }
  }

  // ---- answers ----

  ghost predicate Saved<N(!new)>(h: seq<Rec<N>>, d: Dir<N>, r: Rec<N>) {
    r in h && r.dir == d && r.state.Terminal()
  }

  predicate Announces<N>(wait: B.Wait<Dir<N>, Reply<N>>) {
    match wait.pc
    case Leaving(_, Some(Verdict(_))) => true
    case Returned(Verdict(_)) => true
    case _ => false
  }

  function Announced<N>(wait: B.Wait<Dir<N>, Reply<N>>): Rec<N>
    requires Announces(wait)
  {
    match wait.pc
    case Leaving(_, answer) => answer.value.rec
    case Returned(result) => result.rec
  }

  /** Every verdict delivered, or about to be, is a terminal record that was saved in the directory
      asked about. */
  ghost predicate AnswersOK<N(!new), E(!new)>(s: State<N, E>) {
    && (forall w :: w in s.board.waits && Announces(s.board.waits[w]) ==>
          Saved(s.log.history, s.board.waits[w].key, Announced(s.board.waits[w])))
    && (forall x :: x in s.log.answers ==> Saved(s.log.history, x.0, x.1))
  }

  lemma ReadSaved<N(!new), E(!new)>(sys: Sys<N, E>, s: State<N, E>, w: nat)
    requires FilesOK(sys, s) && LedgerOK(s) && Enabled(sys, s, Read(w))
    ensures var d := s.board.waits[w].key; var op := ReadOp(sys, s, w);
            op.Leave? && op.answer.value.Verdict? ==> Saved(s.log.history, d, op.answer.value.rec)
  {
    var d := s.board.waits[w].key;
    if d in s.disk.runs && s.disk.runs[d].Complete? {
      assert Latest(s.log.history, s.disk.runs[d].value);
    }
  }

  lemma HistoryGrows<N(!new), E(!new)>(sys: Sys<N, E>, s: State<N, E>, a: Action<N, E>)
    requires Enabled(sys, s, a)
    ensures s.log.history <= Next(sys, s, a).log.history
  {
  }

  /** A wait announces a verdict after a step only if it did before, or this step was its read. */
  lemma AnnouncesSinceOp<N(!new)>(b: B.Board<Dir<N>, Reply<N>>, op: B.Op<Dir<N>, Reply<N>>, w: nat)
    requires B.Enabled(b, op) && w in B.Apply(b, op).waits && Announces(B.Apply(b, op).waits[w])
    ensures w in b.waits && b.waits[w].key == B.Apply(b, op).waits[w].key
    ensures (op.Leave? && op.w == w && op.answer == Some(Verdict(Announced(B.Apply(b, op).waits[w]))))
            || (Announces(b.waits[w]) && Announced(b.waits[w]) == Announced(B.Apply(b, op).waits[w]))
  {
  }

  lemma AnswersWait<N(!new), E(!new)>(sys: Sys<N, E>, s: State<N, E>, a: Action<N, E>, w: nat)
    requires FilesOK(sys, s) && LedgerOK(s) && AnswersOK(s) && Enabled(sys, s, a) && !a.Kill? && !a.RecoverWrite?
    requires var b := Next(sys, s, a).board; w in b.waits && Announces(b.waits[w])
    ensures var b := Next(sys, s, a).board; Saved(s.log.history, b.waits[w].key, Announced(b.waits[w]))
  {
    if BoardOp(sys, s, a).Some? {
      AnnouncesSinceOp(s.board, BoardOp(sys, s, a).value, w);
      if a.Read? {
        ReadSaved(sys, s, a.w);
      }
    }
  }

  lemma AnswersPreserved<N(!new), E(!new)>(sys: Sys<N, E>, s: State<N, E>, a: Action<N, E>)
    requires FilesOK(sys, s) && LedgerOK(s) && AnswersOK(s) && Enabled(sys, s, a)
    requires !s.phase.Serving? ==> s.board.waits == map[]
    ensures AnswersOK(Next(sys, s, a))
  {
    HistoryGrows(sys, s, a);
    var s' := Next(sys, s, a);
    if !a.Kill? && !a.RecoverWrite? {
      forall w | w in s'.board.waits && Announces(s'.board.waits[w])
        ensures Saved(s'.log.history, s'.board.waits[w].key, Announced(s'.board.waits[w]))
      {
        AnswersWait(sys, s, a, w);
      }
      AnswersLogged(sys, s, a);
    }
  }

  lemma AnswersLogged<N(!new), E(!new)>(sys: Sys<N, E>, s: State<N, E>, a: Action<N, E>)
    requires AnswersOK(s) && Enabled(sys, s, a)
    ensures forall x :: x in Next(sys, s, a).log.answers ==> Saved(s.log.history, x.0, x.1)
  {
    if a.Unsubscribe? {
      var wait := s.board.waits[a.w];
      assert wait.pc.answer.Some? && wait.pc.answer.value.Verdict? ==> Announces(wait);
    }
  }

  // ---- feedback ----

  /** A record points at a feedback artifact exactly if it is a verdict of its own run that needs one and
      writing it did not fail; then there is one. */
  ghost predicate NoteKept<N(!new)>(notes: map<Dir<N>, File<Rec<N>>>, noteLost: set<nat>, r: Rec<N>) {
    && (r.feedback ==> r.dir in notes)
    && (r.feedback <==> r.state.Terminal() && !r.interrupted && NeedsNote(r) && r.id !in noteLost)
  }

  /** Whether the process is past its feedback write, or needs none. */
  predicate PastNote<N>(proc: Proc<N>) {
    proc.pc.Notifying? || proc.pc.Closing? || (proc.pc.Writing? && proc.pc.purpose == SaveFinal)
  }

  ghost predicate NoteFits<N(!new)>(notes: map<Dir<N>, File<Rec<N>>>, noteLost: set<nat>, proc: Proc<N>) {
    && (if PastNote(proc) then NoteKept(notes, noteLost, proc.rec) else !proc.rec.feedback && proc.rec.id !in noteLost)
    && (proc.pc.Writing? && proc.pc.purpose == SaveNote ==> NeedsNote(proc.rec))
  }

  ghost predicate AllKept<N(!new)>(notes: map<Dir<N>, File<Rec<N>>>, noteLost: set<nat>, h: seq<Rec<N>>) {
    forall i :: 0 <= i < |h| ==> NoteKept(notes, noteLost, h[i])
  }

  ghost predicate AllFit<N(!new)>(notes: map<Dir<N>, File<Rec<N>>>, noteLost: set<nat>, procs: map<nat, Proc<N>>) {
    forall p :: p in procs ==> NoteFits(notes, noteLost, procs[p])
  }

  ghost predicate NotesOK<N(!new), E(!new)>(s: State<N, E>) {
    && AllKept(s.disk.notes, s.log.noteLost, s.log.history) && AllFit(s.disk.notes, s.log.noteLost, s.procs)
    && s.log.noteLost <= s.log.used
  }

  /** What was kept and fitted still does once more notes are there and the run of one process is known to
      have lost its own: nothing saved of that run is terminal yet. */
  lemma NotesGrown<N(!new)>(notes: map<Dir<N>, File<Rec<N>>>, lost: set<nat>, more: map<Dir<N>, File<Rec<N>>>,
      moreLost: set<nat>, h: seq<Rec<N>>, procs: map<nat, Proc<N>>, id: nat)
    requires AllKept(notes, lost, h) && AllFit(notes, lost, procs)
    requires notes.Keys <= more.Keys && (moreLost == lost || moreLost == lost + {id})
    requires forall i :: 0 <= i < |h| && h[i].id == id ==> !h[i].state.Terminal()
    requires forall p :: p in procs ==> procs[p].rec.id != id
    ensures AllKept(more, moreLost, h) && AllFit(more, moreLost, procs)
  {
    forall i | 0 <= i < |h| ensures NoteKept(more, moreLost, h[i]) {
      assert NoteKept(notes, lost, h[i]);
    }
    forall p | p in procs ensures NoteFits(more, moreLost, procs[p]) {
      assert NoteFits(notes, lost, procs[p]);
    }
  }

  /** The process after a step of its save, and the record the step saves, if it saves one. */
  lemma NoteSave<N(!new), E(!new)>(disk: Disk<N>, log: Log<N, E>, proc: Proc<N>, step: WStep)
    requires proc.pc.Writing? && StepEnabled(disk.temps, proc.pc.stage, step)
    requires StateFits(proc) && !proc.rec.interrupted && NoteFits(disk.notes, log.noteLost, proc)
    ensures var notes, lost := WriteDisk(disk, proc, step).notes, WriteLog(log, proc, step).noteLost;
            && disk.notes.Keys <= notes.Keys && (lost == log.noteLost || lost == log.noteLost + {proc.rec.id})
            && (WriteProc(proc, step).Some? ==> NoteFits(notes, lost, WriteProc(proc, step).value))
            && (step.Rename? && proc.pc.purpose != SaveNote ==> NoteKept(notes, lost, proc.rec))
  {
  }

  lemma FitsSet<N(!new)>(notes: map<Dir<N>, File<Rec<N>>>, lost: set<nat>, procs: map<nat, Proc<N>>, p: nat,
      proc: Option<Proc<N>>)
    requires AllFit(notes, lost, procs - {p}) && (proc.Some? ==> NoteFits(notes, lost, proc.value))
    ensures AllFit(notes, lost, SetProc(procs, p, proc))
  {
    forall q | q in procs && q != p ensures NoteFits(notes, lost, procs[q]) {
      assert q in procs - {p};
    }
  }

  lemma NotesWrite<N(!new), E(!new)>(sys: Sys<N, E>, s: State<N, E>, p: nat, step: WStep)
    requires ProcsOK(sys, s) && LedgerOK(s) && NotesOK(s) && Enabled(sys, s, Write(p, step))
    ensures NotesOK(Next(sys, s, Write(p, step)))
  {
    var proc, others := s.procs[p], s.procs - {p};
    var disk, log := WriteDisk(s.disk, proc, step), WriteLog(s.log, proc, step);
    assert ProcOK(sys, s, proc) && NoteFits(s.disk.notes, s.log.noteLost, proc);
    assert CanSave(s.log.history, proc.rec);
    WriteNext(sys, s, p, step);
    NoteSave(s.disk, s.log, proc, step);
    NotesGrown(s.disk.notes, s.log.noteLost, disk.notes, log.noteLost, s.log.history, others, proc.rec.id);
    FitsSet(disk.notes, log.noteLost, s.procs, p, WriteProc(proc, step));
  }

  lemma NotesRecover<N(!new), E(!new)>(sys: Sys<N, E>, s: State<N, E>, step: WStep)
    requires FilesOK(sys, s) && TodoOK(s) && LedgerOK(s) && NotesOK(s) && Enabled(sys, s, RecoverWrite(step))
    ensures NotesOK(NextRecoverWrite(s, step))
  {
    var r := s.phase.todo[0];
    assert r in s.phase.todo;
    var i :| 0 <= i < |s.log.history| && s.log.history[i] == r;
    assert NoteKept(s.disk.notes, s.log.noteLost, s.log.history[i]);
  }

  lemma NoteMoves<N(!new), E(!new)>(sys: Sys<N, E>, s: State<N, E>, a: Action<N, E>)
    requires Judges(sys) && ProcsOK(sys, s) && NotesOK(s) && Enabled(sys, s, a) && ByProc(a) && !a.Write?
    ensures var proc := ProcAfter(sys, s, a); proc.Some? ==> NoteFits(s.disk.notes, s.log.noteLost, proc.value)
  {
    if a.Submit? {
    } else {
      assert ProcOK(sys, s, s.procs[a.p]) && NoteFits(s.disk.notes, s.log.noteLost, s.procs[a.p]);
    }
  }

  lemma NotesRest<N(!new), E(!new)>(sys: Sys<N, E>, s: State<N, E>, a: Action<N, E>)
    requires Judges(sys) && ProcsOK(sys, s) && NotesOK(s) && Enabled(sys, s, a) && !a.Write? && !a.RecoverWrite?
    ensures NotesOK(Next(sys, s, a))
  {
    OnlyWritesWrite(sys, s, a);
    OnlyProcsMove(sys, s, a);
    NextGrows(sys, s, a);
    if ByProc(a) {
      NoteMoves(sys, s, a);
      FitsSet(s.disk.notes, s.log.noteLost, s.procs, a.p, ProcAfter(sys, s, a));
    }
  }

  lemma NotesPreserved<N(!new), E(!new)>(sys: Sys<N, E>, s: State<N, E>, a: Action<N, E>)
    requires Judges(sys) && FilesOK(sys, s) && ProcsOK(sys, s) && TodoOK(s) && LedgerOK(s) && NotesOK(s)
    requires Enabled(sys, s, a)
    ensures NotesOK(Next(sys, s, a))
  {
    if a.Write? {
      NotesWrite(sys, s, a.p, a.step);
    } else if a.RecoverWrite? {
      NotesRecover(sys, s, a.step);
    } else {
      NotesRest(sys, s, a);
    }
  }
}
