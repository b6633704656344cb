/** Every wait gets its verdict: left to itself, whatever the order of its steps, the daemon comes to
    rest, and then nobody is waiting. The poll interval and the timeout play no part in it. */
module LifecycleLiveness {
  import opened Text
  import opened Lifecycle
  import opened LifecycleInv
  import opened LifecycleWait
  import opened LifecycleVerdict
  import opened LifecycleTheorems
  import opened LifecycleProgress
  import B = WaitBoard

  // ---- totals over a map ----

  ghost function Pick<V>(m: map<nat, V>): (k: nat)
    requires m != map[]
    ensures k in m
  {
    var k :| k in m;
    k
  }

  ghost function Total<V>(m: map<nat, V>, rank: V -> nat): nat
    decreases |m|
  {
    if m == map[] then 0
    else
      assert (m - {Pick(m)}).Keys == m.Keys - {Pick(m)};
      rank(m[Pick(m)]) + Total(m - {Pick(m)}, rank)
  }

  lemma {:induction false} TotalWithout<V>(m: map<nat, V>, rank: V -> nat, k: nat)
    requires k in m
    ensures Total(m, rank) == rank(m[k]) + Total(m - {k}, rank)
    decreases |m|
  {
    var j := Pick(m);
    if j == k {
    } else {
      assert (m - {j}).Keys == m.Keys - {j} && (m - {k}).Keys == m.Keys - {k};
      TotalWithout(m - {j}, rank, k);
      TotalWithout(m - {k}, rank, j);
      assert m - {j} - {k} == m - {k} - {j};
    }
  }

  lemma TotalWith<V>(m: map<nat, V>, rank: V -> nat, k: nat, v: V)
    requires k in m
    ensures Total(m[k := v], rank) == Total(m, rank) - rank(m[k]) + rank(v)
  {
    TotalWithout(m, rank, k);
    TotalWithout(m[k := v], rank, k);
    assert m[k := v] - {k} == m - {k};
  }

  // ---- what is left to do ----

  function ProcRank<N>(): Proc<N> -> nat {
    (proc: Proc<N>) => PcRank(proc.pc)
  }

  function Length<T>(): seq<T> -> nat {
    s => |s|
  }

  /** How far a wait is from its answer, given the channels closed so far. */
  function WaitRank<K, R>(closed: set<nat>): B.Wait<K, R> -> nat {
    (wait: B.Wait<K, R>) => match wait.pc
      case Loop => 5
      case Subscribing(ch) => if ch in closed then 7 else 4
      case Blocked(ch, _) => if ch in closed then 6 else 2
      case Leaving(_, answer) => if answer == None then 6 else 1
      case Returned(_) => 0
  }

  ghost function RunsLeft<N, E>(s: State<N, E>): nat {
    Total(s.procs, ProcRank())
  }

  ghost function ClosesLeft<N, E>(s: State<N, E>): nat {
    Total(s.board.taken, Length())
  }

  ghost function WaitsLeft<N, E>(s: State<N, E>): nat {
    Total(s.board.waits, WaitRank(s.board.closed))
  }

  ghost predicate NearerRest<N(!new), E(!new)>(s: State<N, E>, s': State<N, E>) {
    || RunsLeft(s') < RunsLeft(s)
    || (RunsLeft(s') == RunsLeft(s) && ClosesLeft(s') < ClosesLeft(s))
    || (RunsLeft(s') == RunsLeft(s) && ClosesLeft(s') == ClosesLeft(s) && WaitsLeft(s') < WaitsLeft(s))
  }

  lemma RunStepFalls<N(!new), E(!new)>(sys: Sys<N, E>, s: State<N, E>, a: Action<N, E>)
    requires Enabled(sys, s, a) && ByProc(a) && Advances(a, a.p) && a.p in s.procs
    ensures NearerRest(s, Next(sys, s, a))
  {
    var p := a.p;
    RunsEnd(sys, s, a, p);
    var proc := ProcAfter(sys, s, a);
    if a.CloseOne? {
      assert SetProc(s.procs, p, proc) == s.procs;
      TotalWith(s.board.taken, Length(), p, s.board.taken[p][1..]);
    } else if proc.Some? {
      TotalWith(s.procs, ProcRank(), p, proc.value);
    } else {
      TotalWithout(s.procs, ProcRank(), p);
    }
  }

  lemma WaitOpFalls<K(!new), R(!new)>(b: B.Board<K, R>, op: B.Op<K, R>)
    requires B.Inv(b) && B.Enabled(b, op)
    requires || op.Subscribe? || op.Block? || op.Unsubscribe? || op.Wake?
             || (op.Leave? && op.answer.Some? && b.waits[op.w].pc.Subscribing?)
    ensures var b' := B.Apply(b, op);
            b'.taken == b.taken && b'.closed == b.closed && op.w in b.waits
            && b'.waits == b.waits[op.w := b'.waits[op.w]]
            && WaitRank(b.closed)(b'.waits[op.w]) < WaitRank(b.closed)(b.waits[op.w])
  {
  }

  lemma WaitStepFalls<N(!new), E(!new)>(sys: Sys<N, E>, s: State<N, E>, a: Action<N, E>)
    requires B.Inv(s.board) && Enabled(sys, s, a) && (a.Wake? || a.Subscribe? || a.Read? || a.Unsubscribe?)
    ensures NearerRest(s, Next(sys, s, a))
  {
    var op := BoardOp(sys, s, a).value;
    var b' := Next(sys, s, a).board;
    WaitOpFalls(s.board, op);
    TotalWith(s.board.waits, WaitRank(s.board.closed), op.w, b'.waits[op.w]);
  }

  // ---- the daemon comes to rest ----

  /** A schedule of ordinary steps that never ends. */
  ghost predicate Endless<N(!new), E(!new)>(sys: Sys<N, E>, states: nat -> State<N, E>, actions: nat -> Action<N, E>) {
    forall i: nat ::
      && Enabled(sys, states(i), actions(i)) && Ordinary(actions(i))
      && states(i + 1) == Next(sys, states(i), actions(i))
  }

  lemma OrdinaryFalls<N(!new), E(!new)>(sys: Sys<N, E>, s: State<N, E>, a: Action<N, E>)
    requires B.Inv(s.board) && Enabled(sys, s, a) && Ordinary(a)
    ensures NearerRest(s, Next(sys, s, a))
  {
    if ByProc(a) {
      RunStepFalls(sys, s, a);
    } else {
      WaitStepFalls(sys, s, a);
    }
  }

  lemma {:induction false} EndlessFrom<N(!new), E(!new)>(sys: Sys<N, E>, states: nat -> State<N, E>,
      actions: nat -> Action<N, E>, i: nat)
    requires Endless(sys, states, actions) && B.Inv(states(i).board)
    ensures false
    decreases RunsLeft(states(i)), ClosesLeft(states(i)), WaitsLeft(states(i))
  {
    assert states(i + 1) == Next(sys, states(i), actions(i));
    OrdinaryFalls(sys, states(i), actions(i));
    BoardPreserved(sys, states(i), actions(i));
    EndlessFrom(sys, states, actions, i + 1);
  }

  /** Without new submits and waits, every schedule ends, fair or not, failing writes included. */
  lemma NoEndlessSchedule<N(!new), E(!new)>(sys: Sys<N, E>, states: nat -> State<N, E>, actions: nat -> Action<N, E>)
    requires Judges(sys) && Reachable(sys, states(0))
    ensures !Endless(sys, states, actions)
  {
    Invariant(sys, states(0));
    if Endless(sys, states, actions) {
      EndlessFrom(sys, states, actions, 0);
    }
  }

  // ---- and at rest nobody waits ----

  /** No step is left but submits, new waits, polls, timeouts, kills and the like. */
  ghost predicate AtRest<N(!new), E(!new)>(sys: Sys<N, E>, s: State<N, E>) {
    forall a :: Enabled(sys, s, a) ==> !Ordinary(a)
  }

  lemma RestHasNoRuns<N(!new), E(!new)>(sys: Sys<N, E>, s: State<N, E>, e: E)
    requires Judges(sys) && Reachable(sys, s) && AtRest(sys, s)
    ensures s.procs == map[]
  {
    if s.procs != map[] {
      var p :| p in s.procs;
      var a := NeverStuck(sys, s, p, e);
      assert Ordinary(a);
    }
  }

  lemma RestingWait<N(!new), E(!new)>(sys: Sys<N, E>, s: State<N, E>, w: nat)
    requires AtRest(sys, s) && w in s.board.waits
    ensures s.board.waits[w].pc.Returned? || (s.board.waits[w].pc.Blocked? && s.board.waits[w].pc.ch !in s.board.closed)
  {
    assert !Enabled(sys, s, Subscribe(w)) && !Enabled(sys, s, Read(w)) && !Enabled(sys, s, Unsubscribe(w))
      && !Enabled(sys, s, Wake(w));
  }

  /** At rest every run is over, and every wait has returned, but for those blocked on a run that lost
      its last save, in a directory whose record is not terminal: there a poll finds nothing either. */
  lemma RestIsQuiet<N(!new), E(!new)>(sys: Sys<N, E>, s: State<N, E>, w: nat, e: E)
    requires Judges(sys) && Reachable(sys, s) && AtRest(sys, s)
    ensures s.procs == map[]
    ensures w in s.board.waits ==>
              || s.board.waits[w].pc.Returned?
              || (s.board.waits[w].pc.Blocked? && s.board.waits[w].pc.run in s.log.lost
                  && !TerminalAt(s.disk, s.board.waits[w].key))
  {
    RestHasNoRuns(sys, s, e);
    if w in s.board.waits {
      RestingWait(sys, s, w);
      var wait := s.board.waits[w];
      if wait.pc.Blocked? && (wait.pc.run !in s.log.lost || TerminalAt(s.disk, wait.key)) {
        NoLostWakeup(sys, s, w);
      }
    }
  }

  // ---- with a verdict ----

  /** A wait that has no answer yet, or one that is fine. */
  predicate Hopeful<N>(pc: B.Pc<Reply<N>>, fine: Reply<N> -> bool) {
    match pc
    case Leaving(_, Some(reply)) => fine(reply)
    case Returned(reply) => fine(reply)
    case _ => true
  }

  function AnyRecord<N>(): Reply<N> -> bool {
    (reply: Reply<N>) => reply.Verdict?
  }

  /** A wait that has seen a record, wherever it is in the loop since. */
  ghost predicate OnItsWay<N(!new), E(!new)>(sys: Sys<N, E>, s: State<N, E>, w: nat, d: Dir<N>) {
    && d in s.disk.runs && ValidDir(sys, d)
    && w in s.board.waits && s.board.waits[w].key == d && Hopeful(s.board.waits[w].pc, AnyRecord())
  }

  /** No operation on the board takes hope from a wait but its own leaving with something else. */
  lemma OpKeepsHope<N(!new)>(b: B.Board<Dir<N>, Reply<N>>, op: B.Op<Dir<N>, Reply<N>>, w: nat, fine: Reply<N> -> bool)
    requires B.Enabled(b, op) && w in b.waits && Hopeful(b.waits[w].pc, fine)
    requires op.Leave? && op.w == w && op.answer.Some? ==> fine(op.answer.value)
    ensures var b' := B.Apply(b, op);
            w in b'.waits && b'.waits[w].key == b.waits[w].key && Hopeful(b'.waits[w].pc, fine)
  {
  }

  lemma StepKeepsHope<N(!new), E(!new)>(sys: Sys<N, E>, s: State<N, E>, a: Action<N, E>, w: nat, fine: Reply<N> -> bool)
    requires Enabled(sys, s, a) && !a.Kill? && a != GiveUp(w)
    requires w in s.board.waits && Hopeful(s.board.waits[w].pc, fine)
    requires a == Read(w) && ReadOp(sys, s, w).Leave? ==> fine(ReadOp(sys, s, w).answer.value)
    ensures var b' := Next(sys, s, a).board;
            w in b'.waits && b'.waits[w].key == s.board.waits[w].key && Hopeful(b'.waits[w].pc, fine)
  {
    OnlyOpsMove(sys, s, a);
    if BoardOp(sys, s, a).Some? {
      OpKeepsHope(s.board, BoardOp(sys, s, a).value, w, fine);
    }
  }

  /** Whatever anyone does, short of a kill or its own timeout. */
  lemma StaysOnItsWay<N(!new), E(!new)>(sys: Sys<N, E>, s: State<N, E>, a: Action<N, E>, w: nat, d: Dir<N>)
    requires FilesOK(sys, s) && OnItsWay(sys, s, w, d) && Enabled(sys, s, a) && !a.Kill? && a != GiveUp(w)
    ensures OnItsWay(sys, Next(sys, s, a), w, d)
  {
    assert ReadRun(sys, s, d).Verdict?;
    StepKeepsHope(sys, s, a, w, AnyRecord());
    DiskGrows(sys, s, a);
  }

  lemma {:induction false} OnItsWayThere<N(!new), E(!new)>(sys: Sys<N, E>, s: State<N, E>,
      actions: seq<Action<N, E>>, end: State<N, E>, w: nat, d: Dir<N>)
    requires Judges(sys) && Reachable(sys, s) && OnItsWay(sys, s, w, d)
    requires Runs(sys, s, actions, end) && forall a :: a in actions ==> Ordinary(a)
    ensures OnItsWay(sys, end, w, d)
    decreases |actions|
  {
    if actions == [] {
    } else {
      var a := actions[0];
      Step(sys, s, a);
      Reaches(sys, s, [a], Next(sys, s, a));
      OneStepOn(sys, s, a, w, d);
      OnItsWayThere(sys, Next(sys, s, a), actions[1..], end, w, d);
    }
  }

  lemma OneStepOn<N(!new), E(!new)>(sys: Sys<N, E>, s: State<N, E>, a: Action<N, E>, w: nat, d: Dir<N>)
    requires Judges(sys) && Reachable(sys, s) && OnItsWay(sys, s, w, d) && Enabled(sys, s, a) && Ordinary(a)
    ensures OnItsWay(sys, Next(sys, s, a), w, d)
  {
    Invariant(sys, s);
    StaysOnItsWay(sys, s, a, w, d);
  }

  lemma BlockedIsOnItsWay<N(!new), E(!new)>(sys: Sys<N, E>, s: State<N, E>, w: nat)
    requires Judges(sys) && Reachable(sys, s) && w in s.board.waits && s.board.waits[w].pc.Blocked?
    ensures OnItsWay(sys, s, w, s.board.waits[w].key)
  {
    Invariant(sys, s);
  }

  lemma ReturnedIsSaved<N(!new), E(!new)>(sys: Sys<N, E>, s: State<N, E>, w: nat)
    requires Judges(sys) && Reachable(sys, s) && w in s.board.waits
    requires s.board.waits[w].pc.Returned? && s.board.waits[w].pc.result.Verdict?
    ensures Saved(s.log.history, s.board.waits[w].key, s.board.waits[w].pc.result.rec)
  {
    Invariant(sys, s);
    assert Announces(s.board.waits[w]) && Announced(s.board.waits[w]) == s.board.waits[w].pc.result.rec;
  }

  /** From any state in which a wait is blocked, every schedule of ordinary steps that comes to rest, and
      by NoEndlessSchedule all do, ends with the wait returning a terminal record saved in its directory,
      or else blocked on a run that lost its last save, with a record that is not terminal. */
  lemma EveryScheduleAnswers<N(!new), E(!new)>(sys: Sys<N, E>, s: State<N, E>, actions: seq<Action<N, E>>,
      end: State<N, E>, w: nat, e: E)
    requires Judges(sys) && Reachable(sys, s) && w in s.board.waits && s.board.waits[w].pc.Blocked?
    requires Runs(sys, s, actions, end) && (forall a :: a in actions ==> Ordinary(a)) && AtRest(sys, end)
    ensures w in end.board.waits && end.board.waits[w].key == s.board.waits[w].key
    ensures var pc := end.board.waits[w].pc;
            || (pc.Returned? && pc.result.Verdict? && Saved(end.log.history, s.board.waits[w].key, pc.result.rec))
            || (pc.Blocked? && pc.run in end.log.lost && !TerminalAt(end.disk, s.board.waits[w].key))
  {
    Reaches(sys, s, actions, end);
    BlockedIsOnItsWay(sys, s, w);
    OnItsWayThere(sys, s, actions, end, w, s.board.waits[w].key);
    RestIsQuiet(sys, end, w, e);
    if end.board.waits[w].pc.Returned? {
      ReturnedIsSaved(sys, end, w);
    }
  }

  // ---- exactly when ----

  /** The only answer there is to give while the record r stays: r itself, if it is terminal. */
  function JustThis<N(==)>(r: Rec<N>): Reply<N> -> bool {
    (reply: Reply<N>) => reply == Verdict(r) && r.state.Terminal()
  }

  ghost predicate NoRunOf<N(!new)>(procs: map<nat, Proc<N>>, d: Dir<N>) {
    forall p :: p in procs ==> procs[p].rec.dir != d
  }

  /** No run of the directory is left, its record is r, and the wait has no other answer. */
  ghost predicate Left<N(!new), E(!new)>(sys: Sys<N, E>, s: State<N, E>, w: nat, d: Dir<N>, r: Rec<N>) {
    && NoRunOf(s.procs, d)
    && d in s.disk.runs && s.disk.runs[d] == Complete(r) && ValidDir(sys, d)
    && w in s.board.waits && s.board.waits[w].key == d && Hopeful(s.board.waits[w].pc, JustThis(r))
  }

  /** A step of a run elsewhere touches neither the record of d nor its processes. */
  lemma RunStepElsewhere<N(!new), E(!new)>(sys: Sys<N, E>, s: State<N, E>, a: Action<N, E>, d: Dir<N>)
    requires Enabled(sys, s, a) && ByProc(a) && d in s.disk.runs && NoRunOf(s.procs, d) && (a.Submit? ==> a.dir != d)
    ensures var s' := Next(sys, s, a);
            d in s'.disk.runs && s'.disk.runs[d] == s.disk.runs[d] && NoRunOf(s'.procs, d)
  {
    OnlyProcsMove(sys, s, a);
    KeepsDir(sys, s, a);
    if !a.Write? {
      OnlyWritesWrite(sys, s, a);
    }
  }

  lemma KeepsDir<N(!new), E(!new)>(sys: Sys<N, E>, s: State<N, E>, a: Action<N, E>)
    requires Enabled(sys, s, a) && ByProc(a)
    ensures ProcAfter(sys, s, a).Some? ==>
              ProcAfter(sys, s, a).value.rec.dir == if a.Submit? then a.dir else s.procs[a.p].rec.dir
  {
  }

  /** Whatever anyone does, short of a kill, a submit to the directory or the wait's own timeout. */
  lemma StepKeepsLeft<N(!new), E(!new)>(sys: Sys<N, E>, s: State<N, E>, a: Action<N, E>, w: nat, d: Dir<N>, r: Rec<N>)
    requires s.phase.Serving? && Left(sys, s, w, d, r) && Enabled(sys, s, a) && !a.Kill? && a != GiveUp(w)
    requires a.Submit? ==> a.dir != d
    ensures Next(sys, s, a).phase.Serving? && Left(sys, Next(sys, s, a), w, d, r)
  {
    assert ReadRun(sys, s, d) == Verdict(r);
    StepKeepsHope(sys, s, a, w, JustThis(r));
    if ByProc(a) {
      RunStepElsewhere(sys, s, a, d);
    } else {
      OnlyProcsMove(sys, s, a);
      OnlyWritesWrite(sys, s, a);
    }
  }

  lemma {:induction false} LeftThere<N(!new), E(!new)>(sys: Sys<N, E>, s: State<N, E>, actions: seq<Action<N, E>>,
      end: State<N, E>, w: nat, d: Dir<N>, r: Rec<N>)
    requires s.phase.Serving? && Left(sys, s, w, d, r)
    requires Runs(sys, s, actions, end) && forall a :: a in actions ==> Ordinary(a)
    ensures Left(sys, end, w, d, r)
    decreases |actions|
  {
    if actions == [] {
    } else {
      assert actions[0] in actions && Ordinary(actions[0]);
      StepKeepsLeft(sys, s, actions[0], w, d, r);
      LeftThere(sys, Next(sys, s, actions[0]), actions[1..], end, w, d, r);
    }
  }

  lemma BlockedIsLeft<N(!new), E(!new)>(sys: Sys<N, E>, s: State<N, E>, w: nat) returns (r: Rec<N>)
    requires Judges(sys) && Reachable(sys, s) && w in s.board.waits && s.board.waits[w].pc.Blocked?
    requires NoRunOf(s.procs, s.board.waits[w].key)
    ensures s.phase.Serving? && Left(sys, s, w, s.board.waits[w].key, r)
  {
    Invariant(sys, s);
    r := s.disk.runs[s.board.waits[w].key].value;
  }

  /** Once no run of its directory is left, a blocked wait returns if and only if the record there is
      terminal, and then with that record: under every schedule of ordinary steps that comes to rest. */
  lemma AnsweredIffTerminal<N(!new), E(!new)>(sys: Sys<N, E>, s: State<N, E>, actions: seq<Action<N, E>>,
      end: State<N, E>, w: nat, e: E)
    requires Judges(sys) && Reachable(sys, s) && w in s.board.waits && s.board.waits[w].pc.Blocked?
    requires NoRunOf(s.procs, s.board.waits[w].key)
    requires Runs(sys, s, actions, end) && (forall a :: a in actions ==> Ordinary(a)) && AtRest(sys, end)
    ensures w in end.board.waits && (end.board.waits[w].pc.Returned? <==> TerminalAt(s.disk, s.board.waits[w].key))
    ensures end.board.waits[w].pc.Returned? ==> end.board.waits[w].pc.result == ReadRun(sys, s, s.board.waits[w].key)
  {
    var d := s.board.waits[w].key;
    var r := BlockedIsLeft(sys, s, w);
    LeftThere(sys, s, actions, end, w, d, r);
    Reaches(sys, s, actions, end);
    RestIsQuiet(sys, end, w, e);
  }
}
