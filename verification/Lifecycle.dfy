/** The run lifecycle as a transition system: submits, executors, waiters and `init` writers of one
    daemon at a time, the files they write, and a kill between any two steps (internal/daemon/daemon.go,
    internal/runner/runner.go, internal/store/atomic.go, internal/store/runs.go).

    N is the type of validated names, E what a run's evaluation reads. Directories are keyed by the pair
    (repository, SHA): Paths shows that the path strings and waiter keys of validated names are as
    injective as the pair. */
module Lifecycle {
  import opened Text
  import opened Model
  import opened Waiters
  import B = WaitBoard

  datatype Dir<+N> = Dir(repo: N, sha: N)

  /** run.json, or the record a feedback.md was rendered from: identity, state, whether drift was
      recorded, whether FeedbackPath is set, whether the error is recovery's. */
  datatype Rec<+N> = Rec(id: nat, dir: Dir<N>, state: RunState, drift: bool, feedback: bool, interrupted: bool)

  datatype File<+T> = Torn | Complete(value: T)

  /** The parts of the program the protocol does not look into: name validation, and what evaluating
      the inputs E yields (terminal state, recorded drift, whether it gets as far as saving it). */
  datatype Sys<!N, !E> = Sys(validName: N -> bool, verdict: E -> RunState, drifts: E -> bool, progresses: E -> bool)

  datatype Purpose = SaveQueued | SaveRunning | SaveProgress | SaveNote | SaveFinal

  /** Inside writeFileAtomic: before CreateTemp, with the temp file open, with it fully written. */
  datatype WStage = Idle | Open(t: nat) | Full(t: nat)

  datatype WStep = Create(t: nat) | Fill | Rename | Fail

  datatype Pc = Writing(purpose: Purpose, stage: WStage) | Executing | Judging | Notifying | Closing

  /** A submit handler and the executor goroutine it starts. */
  datatype Proc<+N> = Proc(rec: Rec<N>, pc: Pc)

  datatype Phase<+N> =
    | Down
    | Recovering(repos: seq<N>, todo: seq<Rec<N>>, stage: WStage, failed: set<nat>, skipped: seq<N>)
    | Serving

  datatype Reply<+N> = Verdict(rec: Rec<N>) | NotFound | ReadError | TimedOut

  datatype Disk<N(==)> = Disk(
    runs: map<Dir<N>, File<Rec<N>>>,
    notes: map<Dir<N>, File<Rec<N>>>,
    temps: map<nat, File<Rec<N>>>,
    repos: seq<N>)

  /** What happened, for stating properties: IDs issued, run.json renames in order, inputs of each
      evaluated run, runs that will get no terminal record since their last save failed or recovery could
      not list or rewrite them, runs whose feedback write failed, directories whose submit returned,
      directories submitted again while a run of theirs was still saving, until one registers alone
      again, verdicts delivered. */
  datatype Log<N(==), E> = Log(
    used: set<nat>,
    history: seq<Rec<N>>,
    evidence: map<nat, E>,
    lost: set<nat>,
    noteLost: set<nat>,
    acked: set<Dir<N>>,
    overlapped: set<Dir<N>>,
    answers: seq<(Dir<N>, Rec<N>)>)

  datatype State<N(==), E> = State(
    disk: Disk<N>,
    phase: Phase<N>,
    procs: map<nat, Proc<N>>,
    board: B.Board<Dir<N>, Reply<N>>,
    log: Log<N, E>)

  function Init<N, E>(): State<N, E> {
    State(Disk(map[], map[], map[], []), Down, map[], B.Empty(), Log({}, [], map[], {}, {}, {}, {}, []))
  }

  datatype Action<+N, +E> =
    | Register(repo: N)
    | Start
    | StartBlind
    | ListRuns(todo: seq<Rec<N>>)
    | SkipRepo
    | SkipTerminal
    | RecoverWrite(step: WStep)
    | Serve
    | Submit(p: nat, dir: Dir<N>, id: nat)
    | Write(p: nat, step: WStep)
    | Acknowledge(rec: Rec<N>)
    | Begin(p: nat, e: E)
    | Judge(p: nat)
    | Notify(p: nat)
    | CloseOne(p: nat)
    | Exit(p: nat)
    | WaitFor(w: nat, dir: Dir<N>)
    | Subscribe(w: nat)
    | Read(w: nat)
    | Wake(w: nat)
    | Poll(w: nat)
    | GiveUp(w: nat)
    | Unsubscribe(w: nat)
    | Kill

  predicate ValidDir<N, E>(sys: Sys<N, E>, d: Dir<N>) {
    sys.validName(d.repo) && sys.validName(d.sha)
  }

  // ---- writeFileAtomic ----

  predicate StepEnabled<T>(temps: map<nat, File<T>>, stage: WStage, step: WStep) {
    match step
    case Create(t) => stage.Idle? && t !in temps
    case Fill => stage.Open?
    case Rename => stage.Full? && stage.t in temps
    case Fail => true
  }

  /** The temp files after the step; a failed write removes its own. */
  function StepTemps<T>(temps: map<nat, File<T>>, stage: WStage, step: WStep, data: T): map<nat, File<T>>
    requires StepEnabled(temps, stage, step)
  {
    match step
    case Create(t) => temps[t := Torn]
    case Fill => temps[stage.t := Complete(data)]
    case Rename => temps - {stage.t}
    case Fail => if stage.Idle? then temps else temps - {stage.t}
  }

  function StepStage(stage: WStage, step: WStep): WStage {
    match step
    case Create(t) => Open(t)
    case Fill => if stage.Open? then Full(stage.t) else stage
    case _ => Idle
  }

  /** A temp file name not in use, as CreateTemp finds one. */
  lemma {:induction false} FreshName(names: set<nat>) returns (t: nat)
    ensures t !in names && forall n :: n in names ==> n < t
    decreases |names|
  {
    if names == {} {
      t := 0;
    } else {
      var n :| n in names;
      var u := FreshName(names - {n});
      assert forall m :: m in names ==> m == n || m in names - {n};
      t := if n < u then u else n + 1;
    }
  }

  // ---- what each process does next ----

  predicate NeedsNote<N>(rec: Rec<N>) {
    rec.state == Failed || rec.drift || rec.state == Errored
  }

  /** Where the process goes when the save it is in ends. */
  function AfterSave<N>(proc: Proc<N>, ok: bool): Proc<N>
    requires proc.pc.Writing?
  {
    match proc.pc.purpose
    case SaveQueued => Proc(proc.rec.(state := Running), Writing(SaveRunning, Idle))
    case SaveRunning => proc.(pc := Executing)
    case SaveProgress => proc.(pc := Judging)
    case SaveNote => Proc(proc.rec.(feedback := ok), Writing(SaveFinal, Idle))
    case SaveFinal => proc.(pc := Notifying)
  }

  function Recovered<N>(rec: Rec<N>): Rec<N> {
    rec.(state := Errored, interrupted := true)
  }

  /** The records ListRuns returns for a repository it can list. One record or entry it cannot read makes
      it fail, and recovery then skips the repository; that can happen for reasons outside the records. */
  ghost predicate Listing<N(!new)>(runs: map<Dir<N>, File<Rec<N>>>, repo: N, todo: seq<Rec<N>>) {
    && (forall d :: d in runs && d.repo == repo ==> runs[d].Complete?)
    && Distinct(todo)
    && (forall r :: r in todo <==> exists d :: d in runs && d.repo == repo && runs[d] == Complete(r))
  }

  /** The runs of these repositories whose record is not terminal. */
  function OpenIn<N(==)>(runs: map<Dir<N>, File<Rec<N>>>, repos: seq<N>): set<nat> {
    set d | d in runs && d.repo in repos && runs[d].Complete? && !runs[d].value.state.Terminal() :: runs[d].value.id
  }

  function ReadRun<N, E>(sys: Sys<N, E>, s: State<N, E>, d: Dir<N>): Reply<N> {
    if !ValidDir(sys, d) then ReadError
    else if d !in s.disk.runs then NotFound
    else match s.disk.runs[d]
      case Torn => ReadError
      case Complete(r) => Verdict(r)
  }

  /** What the wait loop does with a read: answer unless the record is not terminal. */
  function ReadOp<N, E>(sys: Sys<N, E>, s: State<N, E>, w: nat): B.Op<Dir<N>, Reply<N>>
    requires w in s.board.waits
  {
    match ReadRun(sys, s, s.board.waits[w].key)
    case Verdict(r) => if r.state.Terminal() then B.Leave(w, Some(Verdict(r))) else B.Block(w, r.id)
    case other => B.Leave(w, Some(other))
  }

  ghost predicate Enabled<N(!new), E>(sys: Sys<N, E>, s: State<N, E>, a: Action<N, E>) {
    match a
    case Register(repo) => sys.validName(repo)
    case Start => s.phase.Down?
    case StartBlind => s.phase.Down?
    case SkipRepo => s.phase.Recovering? && s.phase.repos != [] && s.phase.todo == []
    case ListRuns(todo) =>
      s.phase.Recovering? && s.phase.repos != [] && s.phase.todo == [] && Listing(s.disk.runs, s.phase.repos[0], todo)
    case SkipTerminal => s.phase.Recovering? && s.phase.todo != [] && s.phase.todo[0].state.Terminal()
    case RecoverWrite(step) =>
      && s.phase.Recovering? && s.phase.todo != [] && !s.phase.todo[0].state.Terminal()
      && StepEnabled(s.disk.temps, s.phase.stage, step)
    case Serve => s.phase.Recovering? && s.phase.repos == [] && s.phase.todo == []
    case Submit(p, dir, id) =>
      && s.phase.Serving? && p !in s.procs && p !in s.board.taken
      && dir.repo in s.disk.repos && ValidDir(sys, dir) && id !in s.log.used
    case Write(p, step) =>
      p in s.procs && s.procs[p].pc.Writing? && StepEnabled(s.disk.temps, s.procs[p].pc.stage, step)
    case Acknowledge(rec) => rec in s.log.history && rec.state == Queued
    case Begin(p, _) => p in s.procs && s.procs[p].pc.Executing?
    case Judge(p) => p in s.procs && s.procs[p].pc.Judging? && s.procs[p].rec.id in s.log.evidence
    case Notify(p) => p in s.procs && s.procs[p].pc.Notifying? && B.Enabled(s.board, B.Take(p, s.procs[p].rec.dir))
    case CloseOne(p) => p in s.procs && s.procs[p].pc.Closing? && B.Enabled(s.board, B.Close(p))
    case Exit(p) => p in s.procs && s.procs[p].pc.Closing? && B.Enabled(s.board, B.Done(p))
    case WaitFor(w, dir) => s.phase.Serving? && B.Enabled(s.board, B.Arrive(w, dir))
    case Subscribe(w) => B.Enabled(s.board, B.Subscribe(w))
    case Read(w) => w in s.board.waits && s.board.waits[w].pc.Subscribing?
    case Wake(w) => B.Enabled(s.board, B.Wake(w))
    case Poll(w) => w in s.board.waits && s.board.waits[w].pc.Blocked?
    case GiveUp(w) => w in s.board.waits && s.board.waits[w].pc.Blocked?
    case Unsubscribe(w) => B.Enabled(s.board, B.Unsubscribe(w))
    case Kill => !s.phase.Down?
  }

  ghost function NextRecoverWrite<N(!new), E>(s: State<N, E>, step: WStep): State<N, E>
    requires s.phase.Recovering? && s.phase.todo != [] && StepEnabled(s.disk.temps, s.phase.stage, step)
  {
    var rec := Recovered(s.phase.todo[0]);
    var disk := s.disk.(temps := StepTemps(s.disk.temps, s.phase.stage, step, rec));
    var phase := s.phase.(stage := StepStage(s.phase.stage, step));
    match step
    case Rename =>
      s.(disk := disk.(runs := disk.runs[rec.dir := s.disk.temps[s.phase.stage.t]]),
         log := s.log.(history := s.log.history + [rec]),
         phase := phase.(todo := phase.todo[1..]))
    case Fail => s.(disk := disk, phase := phase.(todo := phase.todo[1..], failed := phase.failed + {rec.id}))
    case _ => s.(disk := disk, phase := phase)
  }

  /** The disk after a step of a process that is saving. */
  function WriteDisk<N>(disk: Disk<N>, proc: Proc<N>, step: WStep): Disk<N>
    requires proc.pc.Writing? && StepEnabled(disk.temps, proc.pc.stage, step)
  {
    var d := disk.(temps := StepTemps(disk.temps, proc.pc.stage, step, proc.rec));
    if !step.Rename? then d
    else
      var file := disk.temps[proc.pc.stage.t];
      if proc.pc.purpose == SaveNote then d.(notes := d.notes[proc.rec.dir := file])
      else d.(runs := d.runs[proc.rec.dir := file])
  }

  /** What the log notes of the step. */
  function WriteLog<N, E>(log: Log<N, E>, proc: Proc<N>, step: WStep): Log<N, E>
    requires proc.pc.Writing?
  {
    if step.Rename? && proc.pc.purpose != SaveNote then log.(history := log.history + [proc.rec])
    else if step.Fail? && proc.pc.purpose == SaveFinal then log.(lost := log.lost + {proc.rec.id})
    else if step.Fail? && proc.pc.purpose == SaveNote then log.(noteLost := log.noteLost + {proc.rec.id})
    else log
  }

  /** The process after the step; a submit whose first save fails is over. */
  function WriteProc<N>(proc: Proc<N>, step: WStep): Option<Proc<N>>
    requires proc.pc.Writing?
  {
    match step
    case Rename => Some(AfterSave(proc, true))
    case Fail => if proc.pc.purpose == SaveQueued then None else Some(AfterSave(proc, false))
    case _ => Some(proc.(pc := proc.pc.(stage := StepStage(proc.pc.stage, step))))
  }

  function Begun<N, E>(sys: Sys<N, E>, proc: Proc<N>, e: E): Proc<N> {
    if sys.progresses(e) then Proc(proc.rec.(drift := sys.drifts(e)), Writing(SaveProgress, Idle))
    else proc.(pc := Judging)
  }

  function JudgedProc<N, E>(sys: Sys<N, E>, proc: Proc<N>, e: E): Proc<N> {
    var rec := proc.rec.(state := sys.verdict(e));
    Proc(rec, Writing(if NeedsNote(rec) then SaveNote else SaveFinal, Idle))
  }

  /** The process p after a step of its own; None once it is gone. */
  ghost function ProcAfter<N(!new), E>(sys: Sys<N, E>, s: State<N, E>, a: Action<N, E>): Option<Proc<N>>
    requires ByProc(a) && Enabled(sys, s, a)
  {
    match a
    case Submit(p, dir, id) => Some(Proc(Rec(id, dir, Queued, false, false, false), Writing(SaveQueued, Idle)))
    case Write(p, step) => WriteProc(s.procs[p], step)
    case Begin(p, e) => Some(Begun(sys, s.procs[p], e))
    case Judge(p) => Some(JudgedProc(sys, s.procs[p], s.log.evidence[s.procs[p].rec.id]))
    case Notify(p) => Some(s.procs[p].(pc := Closing))
    case Exit(p) => None
    case CloseOne(p) => Some(s.procs[p])
  }

  /** The steps a submit handler or executor takes. */
  predicate ByProc<N, E>(a: Action<N, E>) {
    a.Submit? || a.Write? || a.Begin? || a.Judge? || a.Notify? || a.CloseOne? || a.Exit?
  }

  /** It has files left to write. */
  predicate StillSaving(pc: Pc) {
    pc.Writing? || pc.Executing? || pc.Judging?
  }

  predicate BeingSaved<N(==)>(procs: map<nat, Proc<N>>, d: Dir<N>) {
    exists p :: p in procs && procs[p].rec.dir == d && StillSaving(procs[p].pc)
  }

  /** Nobody else is saving to the directory of p. */
  predicate SavesAlone<N(==)>(procs: map<nat, Proc<N>>, p: nat)
    requires p in procs
  {
    forall q :: q in procs && q != p && procs[q].rec.dir == procs[p].rec.dir ==> !StillSaving(procs[q].pc)
  }

  /** A run that registers while nobody else is saving to its directory ends the overlap there. */
  function Settled<N(==), E>(log: Log<N, E>, procs: map<nat, Proc<N>>, p: nat, step: WStep): Log<N, E>
    requires p in procs && procs[p].pc.Writing?
  {
    if step.Rename? && procs[p].pc.purpose == SaveQueued && SavesAlone(procs, p)
    then log.(overlapped := log.overlapped - {procs[p].rec.dir})
    else log
  }

  ghost function NextLog<N(!new), E>(sys: Sys<N, E>, s: State<N, E>, a: Action<N, E>): Log<N, E>
    requires Enabled(sys, s, a)
  {
    match a
    case Submit(p, dir, id) =>
      var overlapped := if BeingSaved(s.procs, dir) then s.log.overlapped + {dir} else s.log.overlapped;
      s.log.(used := s.log.used + {id}, overlapped := overlapped)
    case Write(p, step) => Settled(WriteLog(s.log, s.procs[p], step), s.procs, p, step)
    case Acknowledge(rec) => s.log.(acked := s.log.acked + {rec.dir})
    case Begin(p, e) => s.log.(evidence := s.log.evidence[s.procs[p].rec.id := e])
    case Serve => s.log.(lost := s.log.lost + s.phase.failed + OpenIn(s.disk.runs, s.phase.skipped))
    case Unsubscribe(w) =>
      var wait := s.board.waits[w];
      if wait.pc.answer.Some? && wait.pc.answer.value.Verdict? then
        s.log.(answers := s.log.answers + [(wait.key, wait.pc.answer.value.rec)])
      else s.log
    case _ => s.log
  }

  ghost function BoardOp<N(!new), E>(sys: Sys<N, E>, s: State<N, E>, a: Action<N, E>): Option<B.Op<Dir<N>, Reply<N>>>
    requires Enabled(sys, s, a)
  {
    match a
    case Notify(p) => Some(B.Take(p, s.procs[p].rec.dir))
    case CloseOne(p) => Some(B.Close(p))
    case Exit(p) => Some(B.Done(p))
    case WaitFor(w, dir) => Some(B.Arrive(w, dir))
    case Subscribe(w) => Some(B.Subscribe(w))
    case Read(w) => Some(ReadOp(sys, s, w))
    case Wake(w) => Some(B.Wake(w))
    case Poll(w) => Some(B.Leave(w, None))
    case GiveUp(w) => Some(B.Leave(w, Some(TimedOut)))
    case Unsubscribe(w) => Some(B.Unsubscribe(w))
    case _ => None
  }

  ghost function NextBoard<N(!new), E>(sys: Sys<N, E>, s: State<N, E>, a: Action<N, E>): B.Board<Dir<N>, Reply<N>>
    requires Enabled(sys, s, a)
  {
    match BoardOp(sys, s, a)
    case Some(op) => B.Apply(s.board, op)
    case None => s.board
  }

  function SetProc<N>(procs: map<nat, Proc<N>>, p: nat, proc: Option<Proc<N>>): map<nat, Proc<N>> {
    match proc
    case Some(x) => procs[p := x]
    case None => procs - {p}
  }

  ghost function NextPhase<N(!new), E>(sys: Sys<N, E>, s: State<N, E>, a: Action<N, E>): Phase<N>
    requires Enabled(sys, s, a) && !a.RecoverWrite?
  {
    match a
    case Start => Recovering(s.disk.repos, [], Idle, {}, [])
    case StartBlind => Recovering([], [], Idle, {}, s.disk.repos)
    case SkipRepo => s.phase.(repos := s.phase.repos[1..], skipped := s.phase.skipped + [s.phase.repos[0]])
    case ListRuns(todo) => s.phase.(repos := s.phase.repos[1..], todo := todo)
    case SkipTerminal => s.phase.(todo := s.phase.todo[1..])
    case Serve => Serving
    case _ => s.phase
  }

  ghost function Next<N(!new), E>(sys: Sys<N, E>, s: State<N, E>, a: Action<N, E>): State<N, E>
    requires Enabled(sys, s, a)
  {
    if a.RecoverWrite? then NextRecoverWrite(s, a.step)
    else if a.Kill? then State(s.disk, Down, map[], B.Empty(), s.log)
    else
      var disk :=
        if a.Write? then WriteDisk(s.disk, s.procs[a.p], a.step)
        else if a.Register? && a.repo !in s.disk.repos then s.disk.(repos := s.disk.repos + [a.repo])
        else s.disk;
      var procs := if ByProc(a) then SetProc(s.procs, a.p, ProcAfter(sys, s, a)) else s.procs;
      State(disk, NextPhase(sys, s, a), procs, NextBoard(sys, s, a), NextLog(sys, s, a))
  }

  /** A run of the system: the actions of a schedule, each enabled in turn. */
  ghost predicate Runs<N(!new), E(!new)>(sys: Sys<N, E>, s: State<N, E>, actions: seq<Action<N, E>>, end: State<N, E>)
    decreases |actions|
  {
    if actions == [] then s == end
    else Enabled(sys, s, actions[0]) && Runs(sys, Next(sys, s, actions[0]), actions[1..], end)
  }
}
