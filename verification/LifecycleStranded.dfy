/** Why the wait protocol needs saves to succeed: a run of the system that strands a wait. */
module LifecycleStranded {
  import opened Model
  import opened Waiters
  import opened Lifecycle
  import opened LifecycleInv
  import opened LifecycleTheorems
  import opened LifecycleProgress
  import opened LifecycleLiveness
  import opened LifecycleFair
  import B = WaitBoard

  ghost predicate Goes<N(!new), E(!new)>(sys: Sys<N, E>, s: State<N, E>, a: Action<N, E>, s': State<N, E>) {
    Enabled(sys, s, a) && Next(sys, s, a) == s'
  }

  ghost predicate Leads<N(!new), E(!new)>(sys: Sys<N, E>, s: State<N, E>, s': State<N, E>) {
    exists actions :: Runs(sys, s, actions, s')
  }

  lemma LeadsOn<N(!new), E(!new)>(sys: Sys<N, E>, s: State<N, E>, mid: State<N, E>, end: State<N, E>)
    requires Leads(sys, s, mid) && Leads(sys, mid, end)
    ensures Leads(sys, s, end)
  {
    var first :| Runs(sys, s, first, mid);
    var second :| Runs(sys, mid, second, end);
    RunsConcat(sys, s, first, mid, second, end);
  }

  lemma Leads2<N(!new), E(!new)>(sys: Sys<N, E>, s0: State<N, E>, a0: Action<N, E>, s1: State<N, E>,
      a1: Action<N, E>, s2: State<N, E>)
    requires Goes(sys, s0, a0, s1) && Goes(sys, s1, a1, s2)
    ensures Leads(sys, s0, s2)
  {
    Steps(sys, s0, a0, a1);
  }

  /** A daemon serving one repository, with no feedback on disk. */
  function Scene<N, E>(n: N, runs: map<Dir<N>, File<Rec<N>>>, temps: map<nat, File<Rec<N>>>, procs: map<nat, Proc<N>>,
      board: B.Board<Dir<N>, Reply<N>>, log: Log<N, E>): State<N, E> {
    State(Disk(runs, map[], temps, [n]), Serving, procs, board, log)
  }

  /** Nothing going on. */
  function Quiet<N, E>(n: N, runs: map<Dir<N>, File<Rec<N>>>, log: Log<N, E>): State<N, E> {
    Scene(n, runs, map[], map[], B.Empty(), log)
  }

  /** One process, nobody waiting. */
  function Alone<N, E>(n: N, runs: map<Dir<N>, File<Rec<N>>>, temps: map<nat, File<Rec<N>>>, r: Rec<N>, pc: Pc,
      log: Log<N, E>): State<N, E> {
    Scene(n, runs, temps, map[0 := Proc(r, pc)], B.Empty(), log)
  }

  /** The record of a first run, as its submit makes it. */
  function First<N>(n: N): Rec<N> {
    Rec(0, Dir(n, n), Queued, false, false, false)
  }

  function Filed<N(==)>(r: Rec<N>): map<Dir<N>, File<Rec<N>>> {
    map[r.dir := Complete(r)]
  }

  /** The log of a daemon that has issued the first identifier. */
  function Issued<N, E>(): Log<N, E> {
    Init<N, E>().log.(used := {0})
  }

  function Begins<N, E>(n: N, repos: seq<N>): State<N, E> {
    Init<N, E>().(disk := Disk(map[], map[], map[], [n]), phase := Recovering(repos, [], Idle, {}, []))
  }

  lemma RegisterScene<N(!new), E(!new)>(sys: Sys<N, E>, n: N)
    requires sys.validName(n)
    ensures Leads(sys, Init<N, E>(), Begins(n, [n]))
  {
    var s0 := Init<N, E>();
    Leads2(sys, s0, Register(n), s0.(disk := Disk(map[], map[], map[], [n])), Start, Begins(n, [n]));
  }

  lemma ServeScene<N(!new), E(!new)>(sys: Sys<N, E>, n: N)
    ensures Leads(sys, Begins<N, E>(n, [n]), Quiet(n, map[], Init<N, E>().log))
  {
    assert [n][1..] == [];
    Leads2(sys, Begins<N, E>(n, [n]), ListRuns([]), Begins(n, []), Serve, Quiet(n, map[], Init<N, E>().log));
  }

  lemma StartScene<N(!new), E(!new)>(sys: Sys<N, E>, n: N)
    requires sys.validName(n)
    ensures Leads(sys, Init<N, E>(), Quiet(n, map[], Init<N, E>().log))
  {
    RegisterScene<N, E>(sys, n);
    ServeScene<N, E>(sys, n);
    LeadsOn(sys, Init<N, E>(), Begins(n, [n]), Quiet(n, map[], Init<N, E>().log));
  }

  lemma SubmitScene<N(!new), E(!new)>(sys: Sys<N, E>, n: N, r: Rec<N>, log: Log<N, E>)
    requires sys.validName(n) && r == First(n) && log == Issued<N, E>()
    ensures Leads(sys, Quiet(n, map[], Init<N, E>().log),
              Alone(n, map[], map[0 := Torn], r, Writing(SaveQueued, Open(0)), log))
  {
    Leads2(sys, Quiet(n, map[], Init<N, E>().log),
      Submit(0, r.dir, 0), Alone(n, map[], map[], r, Writing(SaveQueued, Idle), log),
      Write(0, Create(0)), Alone(n, map[], map[0 := Torn], r, Writing(SaveQueued, Open(0)), log));
  }

  lemma SavedScene<N(!new), E(!new)>(sys: Sys<N, E>, n: N, r: Rec<N>, log: Log<N, E>)
    requires log.overlapped == {}
    ensures Leads(sys, Alone(n, map[], map[0 := Torn], r, Writing(SaveQueued, Open(0)), log),
              Alone(n, Filed(r), map[], r.(state := Running), Writing(SaveRunning, Idle),
                log.(history := log.history + [r])))
  {
    var next := log.(history := log.history + [r]);
    Leads2(sys, Alone(n, map[], map[0 := Torn], r, Writing(SaveQueued, Open(0)), log),
      Write(0, Fill), Alone(n, map[], map[0 := Complete(r)], r, Writing(SaveQueued, Full(0)), log),
      Write(0, Rename), Alone(n, Filed(r), map[], r.(state := Running), Writing(SaveRunning, Idle), next));
  }

  lemma QueueScene<N(!new), E(!new)>(sys: Sys<N, E>, n: N, r: Rec<N>, log: Log<N, E>)
    requires sys.validName(n) && r == First(n) && log == Issued<N, E>()
    ensures Leads(sys, Quiet(n, map[], Init<N, E>().log),
              Alone(n, Filed(r), map[], r.(state := Running), Writing(SaveRunning, Idle), log.(history := [r])))
  {
    SubmitScene(sys, n, r, log);
    SavedScene(sys, n, r, log);
    assert log.history + [r] == [r];
    LeadsOn(sys, Quiet(n, map[], Init<N, E>().log),
      Alone(n, map[], map[0 := Torn], r, Writing(SaveQueued, Open(0)), log),
      Alone(n, Filed(r), map[], r.(state := Running), Writing(SaveRunning, Idle), log.(history := [r])));
  }

  /** The run goes on with every write failing, the save after its prologue included, up to its last. */
  lemma FailScene<N(!new), E(!new)>(sys: Sys<N, E>, n: N, runs: map<Dir<N>, File<Rec<N>>>, r: Rec<N>, e: E,
      log: Log<N, E>)
    requires sys.progresses(e) && !sys.drifts(e) && !r.drift
    ensures Leads(sys, Alone(n, runs, map[], r, Writing(SaveRunning, Idle), log),
              Alone(n, runs, map[], r, Judging, log.(evidence := log.evidence[r.id := e])))
  {
    var next := log.(evidence := log.evidence[r.id := e]);
    var s0 := Alone(n, runs, map[], r, Writing(SaveRunning, Idle), log);
    var s2 := Alone(n, runs, map[], r, Writing(SaveProgress, Idle), next);
    var s3 := Alone(n, runs, map[], r, Judging, next);
    Leads2(sys, s0, Write(0, Fail), Alone(n, runs, map[], r, Executing, log), Begin(0, e), s2);
    Step(sys, s2, Write(0, Fail));
    assert Next(sys, s2, Write(0, Fail)) == s3;
    LeadsOn(sys, s0, s2, s3);
  }

  lemma LoseScene<N(!new), E(!new)>(sys: Sys<N, E>, n: N, runs: map<Dir<N>, File<Rec<N>>>, r: Rec<N>, e: E,
      log: Log<N, E>)
    requires !r.drift && r.id in log.evidence && log.evidence[r.id] == e && sys.verdict(e) == Passed
    ensures Leads(sys, Alone(n, runs, map[], r, Judging, log),
              Alone(n, runs, map[], r.(state := Passed), Notifying, log.(lost := log.lost + {r.id})))
  {
    var done, next := r.(state := Passed), log.(lost := log.lost + {r.id});
    Leads2(sys, Alone(n, runs, map[], r, Judging, log),
      Judge(0), Alone(n, runs, map[], done, Writing(SaveFinal, Idle), log),
      Write(0, Fail), Alone(n, runs, map[], done, Notifying, next));
  }

  lemma LeaveScene<N(!new), E(!new)>(sys: Sys<N, E>, n: N, runs: map<Dir<N>, File<Rec<N>>>, r: Rec<N>, log: Log<N, E>)
    ensures Leads(sys, Alone(n, runs, map[], r, Notifying, log), Quiet(n, runs, log))
  {
    var b := B.Empty<Dir<N>, Reply<N>>().(taken := map[0 := []]);
    Leads2(sys, Alone(n, runs, map[], r, Notifying, log),
      Notify(0), Scene(n, runs, map[], map[0 := Proc(r, Closing)], b, log),
      Exit(0), Quiet(n, runs, log));
  }

  ghost function Waiting<N>(d: Dir<N>, pc: B.Pc<Reply<N>>): B.Board<Dir<N>, Reply<N>> {
    B.Board(map[d := [0]], map[], {}, 1, map[0 := B.Wait(d, pc)], false)
  }

  lemma BlockScene<N(!new), E(!new)>(sys: Sys<N, E>, n: N, r: Rec<N>, log: Log<N, E>)
    requires sys.validName(n) && r.dir == Dir(n, n) && !r.state.Terminal()
    ensures Leads(sys, Quiet(n, Filed(r), log),
              Scene(n, Filed(r), map[], map[], Waiting(r.dir, B.Blocked(0, r.id)), log))
  {
    var b := B.Empty<Dir<N>, Reply<N>>();
    var s0 := Quiet(n, Filed(r), log);
    var s2 := Scene(n, Filed(r), map[], map[], Waiting(r.dir, B.Subscribing(0)), log);
    var s3 := Scene(n, Filed(r), map[], map[], Waiting(r.dir, B.Blocked(0, r.id)), log);
    assert Subs(b.table, r.dir) + [0] == [0];
    Leads2(sys, s0,
      WaitFor(0, r.dir), Scene(n, Filed(r), map[], map[], b.(waits := map[0 := B.Wait(r.dir, B.Loop)]), log),
      Subscribe(0), s2);
    Step(sys, s2, Read(0));
    assert Next(sys, s2, Read(0)) == s3;
    LeadsOn(sys, s0, s2, s3);
  }

  /** The daemon with the record of an unfinished run that is over. */
  lemma AbandonedReachable<N(!new), E(!new)>(sys: Sys<N, E>, n: N, e: E) returns (log: Log<N, E>)
    requires sys.validName(n) && sys.progresses(e) && !sys.drifts(e) && sys.verdict(e) == Passed
    ensures Leads(sys, Init<N, E>(), Quiet(n, Filed(First(n)), log)) && log.lost == {0}
  {
    var r, start := First(n), Init<N, E>();
    var running, passed := r.(state := Running), r.(state := Passed);
    var log0 := Issued<N, E>().(history := [r]);
    var log1 := log0.(evidence := log0.evidence[0 := e]);
    log := log1.(lost := log1.lost + {0});
    StartScene(sys, n);
    QueueScene(sys, n, r, Issued<N, E>());
    LeadsOn(sys, start, Quiet(n, map[], start.log),
      Alone(n, Filed(r), map[], running, Writing(SaveRunning, Idle), log0));
    FailScene(sys, n, Filed(r), running, e, log0);
    LeadsOn(sys, start, Alone(n, Filed(r), map[], running, Writing(SaveRunning, Idle), log0),
      Alone(n, Filed(r), map[], running, Judging, log1));
    LoseScene(sys, n, Filed(r), running, e, log1);
    LeadsOn(sys, start, Alone(n, Filed(r), map[], running, Judging, log1),
      Alone(n, Filed(r), map[], passed, Notifying, log));
    LeaveScene(sys, n, Filed(r), passed, log);
    LeadsOn(sys, start, Alone(n, Filed(r), map[], passed, Notifying, log), Quiet(n, Filed(r), log));
  }

  lemma NothingOrdinary<N(!new), E(!new)>(sys: Sys<N, E>, s: State<N, E>)
    requires s.procs == map[]
    requires forall w :: w in s.board.waits ==>
               s.board.waits[w].pc.Blocked? && s.board.waits[w].pc.ch !in s.board.closed
    ensures AtRest(sys, s)
  {
  }

  /** The second case of LifecycleLiveness.EveryScheduleAnswers does occur: when the last save of a passing
      run fails, a wait that comes later is left blocked when the daemon has come to rest. */
  lemma LostSaveStrands<N(!new), E(!new)>(sys: Sys<N, E>, n: N, e: E) returns (s: State<N, E>)
    requires sys.validName(n) && sys.progresses(e) && !sys.drifts(e) && sys.verdict(e) == Passed
    ensures Reachable(sys, s) && 0 in s.board.waits && s.board.waits[0].pc.Blocked? && s.log.lost == {0}
    ensures AtRest(sys, s) && n in s.disk.repos && s.board.waits[0].key == Dir(n, n)
  {
    var log := AbandonedReachable(sys, n, e);
    var r := First(n);
    s := Scene(n, Filed(r), map[], map[], Waiting(r.dir, B.Blocked(0, 0)), log);
    BlockScene(sys, n, r, log);
    LeadsOn(sys, Init<N, E>(), Quiet(n, Filed(r), log), s);
    NothingOrdinary(sys, s);
  }

  /** And so does the second case of LifecycleFair.FairlyAnswered: there that wait is stranded for good, and
      the schedule that leaves it there is fair. */
  lemma LostSaveStrandsForGood<N(!new), E(!new)>(sys: Sys<N, E>, n: N, e: E) returns (s: State<N, E>)
    requires Judges(sys)
    requires sys.validName(n) && sys.progresses(e) && !sys.drifts(e) && sys.verdict(e) == Passed
    ensures Fair(sys, Still(s), OnlyInit(n), Dir(n, n), 0) && StrandedFrom(Still(s), 0, Dir(n, n), 0)
  {
    s := LostSaveStrands(sys, n, e);
    RestIsFair(sys, s, n, 0, e);
    RestStrands(sys, s, 0, e);
  }
}
