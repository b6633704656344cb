/** The wait of one directory while the rest of the daemon goes on: submits elsewhere, waits anywhere,
    registrations and polls may keep arriving for ever. All it takes is that nobody submits to that
    directory again and that whoever can take a step takes one sooner or later. */
module LifecycleFair {
  import opened Text
  import opened Lifecycle
  import opened LifecycleInv
  import opened LifecycleWait
  import opened LifecycleVerdict
  import opened LifecycleTheorems
  import opened LifecycleProgress
  import opened LifecycleLiveness
  import B = WaitBoard

  // ---- schedules that never end ----

  ghost predicate StepAt<N(!new), E(!new)>(sys: Sys<N, E>, states: nat -> State<N, E>, actions: nat -> Action<N, E>,
      i: nat) {
    Enabled(sys, states(i), actions(i)) && states(i + 1) == Next(sys, states(i), actions(i)) && !actions(i).Kill?
  }

  /** A daemon that is not killed. */
  ghost predicate Unending<N(!new), E(!new)>(sys: Sys<N, E>, states: nat -> State<N, E>, actions: nat -> Action<N, E>) {
    Reachable(sys, states(0)) && forall i: nat :: StepAt(sys, states, actions, i)
  }

  ghost predicate AdvancesLater<N(!new), E(!new)>(actions: nat -> Action<N, E>, i: nat, p: nat) {
    exists j: nat :: i <= j && Advances(actions(j), p)
  }

  /** Every run there is takes a step sooner or later; its writes may fail. */
  ghost predicate FairToRuns<N(!new), E(!new)>(states: nat -> State<N, E>, actions: nat -> Action<N, E>) {
    forall i: nat, p: nat :: p in states(i).procs ==> AdvancesLater(actions, i, p)
  }

  /** The wait has a step to take, or is free to go on because its channel is closed. */
  predicate CanMove<K, R>(b: B.Board<K, R>, w: nat) {
    w in b.waits && match b.waits[w].pc
      case Blocked(ch, _) => ch in b.closed
      case Returned(_) => false
      case _ => true
  }

  predicate Moves<N(==), E(==)>(a: Action<N, E>, w: nat) {
    a == Subscribe(w) || a == Read(w) || a == Wake(w) || a == Poll(w) || a == Unsubscribe(w)
  }

  ghost predicate MovesLater<N(!new), E(!new)>(actions: nat -> Action<N, E>, i: nat, w: nat) {
    exists j: nat :: i <= j && Moves(actions(j), w)
  }

  ghost predicate FairToWait<N(!new), E(!new)>(states: nat -> State<N, E>, actions: nat -> Action<N, E>, w: nat) {
    forall i: nat :: CanMove(states(i).board, w) ==> MovesLater(actions, i, w)
  }

  /** The step is no submit to d, and the wait w does not time out in it. */
  predicate Apart<N(==), E(==)>(a: Action<N, E>, d: Dir<N>, w: nat) {
    (a.Submit? ==> a.dir != d) && a != GiveUp(w)
  }

  ghost predicate AllApart<N(!new), E(!new)>(actions: nat -> Action<N, E>, d: Dir<N>, w: nat) {
    forall i: nat :: Apart(actions(i), d, w)
  }

  /** A fair schedule around the wait w on the directory d. */
  ghost predicate Fair<N(!new), E(!new)>(sys: Sys<N, E>, states: nat -> State<N, E>, actions: nat -> Action<N, E>,
      d: Dir<N>, w: nat) {
    && Unending(sys, states, actions) && FairToRuns(states, actions) && FairToWait(states, actions, w)
    && AllApart(actions, d, w)
  }

  lemma {:induction false} ReachableAt<N(!new), E(!new)>(sys: Sys<N, E>, states: nat -> State<N, E>,
      actions: nat -> Action<N, E>, i: nat)
    requires Unending(sys, states, actions)
    ensures Reachable(sys, states(i))
  {
    if i == 0 {
    } else {
      ReachableAt(sys, states, actions, i - 1);
      assert StepAt(sys, states, actions, i - 1);
      Step(sys, states(i - 1), actions(i - 1));
      Reaches(sys, states(i - 1), [actions(i - 1)], states(i));
    }
  }

  lemma HoldsAt<N(!new), E(!new)>(sys: Sys<N, E>, states: nat -> State<N, E>, actions: nat -> Action<N, E>, i: nat)
    requires Judges(sys) && Unending(sys, states, actions)
    ensures All(sys, states(i)) && StepAt(sys, states, actions, i)
  {
    ReachableAt(sys, states, actions, i);
    Invariant(sys, states(i));
  }

  // ---- every run ends ----

  function TakenBy<N, E>(s: State<N, E>, p: nat): nat {
    if p in s.board.taken then |s.board.taken[p]| else 0
  }

  /** What a process has left, before and after. */
  predicate Lower<N, E>(s': State<N, E>, s: State<N, E>, p: nat)
    requires p in s.procs && p in s'.procs
  {
    || PcRank(s'.procs[p].pc) < PcRank(s.procs[p].pc)
    || (PcRank(s'.procs[p].pc) == PcRank(s.procs[p].pc) && TakenBy(s', p) < TakenBy(s, p))
  }

  lemma ProcFalls<N(!new), E(!new)>(sys: Sys<N, E>, s: State<N, E>, a: Action<N, E>, p: nat)
    requires Enabled(sys, s, a) && p in s.procs && Advances(a, p)
    ensures p !in Next(sys, s, a).procs || Lower(Next(sys, s, a), s, p)
  {
    RunsEnd(sys, s, a, p);
    OnlyProcsMove(sys, s, a);
    OnlyOpsMove(sys, s, a);
  }

  lemma OpLeavesTaken<K(!new), R(!new)>(b: B.Board<K, R>, op: B.Op<K, R>, p: nat)
    requires B.Enabled(b, op) && ((op.Take? || op.Close? || op.Done?) ==> op.p != p)
    ensures p in B.Apply(b, op).taken <==> p in b.taken
    ensures p in b.taken ==> B.Apply(b, op).taken[p] == b.taken[p]
  {
  }

  /** Nobody else's step touches a process or what it has taken. */
  lemma ProcStays<N(!new), E(!new)>(sys: Sys<N, E>, s: State<N, E>, a: Action<N, E>, p: nat)
    requires Enabled(sys, s, a) && p in s.procs && !Advances(a, p) && !a.Kill?
    ensures var s' := Next(sys, s, a); p in s'.procs && s'.procs[p] == s.procs[p] && TakenBy(s', p) == TakenBy(s, p)
  {
    OnlyProcsMove(sys, s, a);
    OnlyOpsMove(sys, s, a);
    if BoardOp(sys, s, a).Some? {
      OpLeavesTaken(s.board, BoardOp(sys, s, a).value, p);
    }
  }

  lemma {:induction false} UntilItAdvances<N(!new), E(!new)>(sys: Sys<N, E>, states: nat -> State<N, E>,
      actions: nat -> Action<N, E>, i: nat, k: nat, p: nat) returns (j: nat)
    requires Unending(sys, states, actions) && p in states(i).procs && i <= k && Advances(actions(k), p)
    ensures i < j && (p !in states(j).procs || Lower(states(j), states(i), p))
    decreases k - i
  {
    assert StepAt(sys, states, actions, i);
    if Advances(actions(i), p) {
      ProcFalls(sys, states(i), actions(i), p);
      j := i + 1;
    } else {
      ProcStays(sys, states(i), actions(i), p);
      j := UntilItAdvances(sys, states, actions, i + 1, k, p);
    }
  }

  /** A run that is scheduled fairly is gone sooner or later. */
  lemma {:induction false} RunGoes<N(!new), E(!new)>(sys: Sys<N, E>, states: nat -> State<N, E>,
      actions: nat -> Action<N, E>, i: nat, p: nat) returns (j: nat)
    requires Unending(sys, states, actions) && FairToRuns(states, actions) && p in states(i).procs
    ensures i < j && p !in states(j).procs
    decreases PcRank(states(i).procs[p].pc), TakenBy(states(i), p)
  {
    assert AdvancesLater(actions, i, p);
    var k: nat :| i <= k && Advances(actions(k), p);
    j := UntilItAdvances(sys, states, actions, i, k, p);
    if p in states(j).procs {
      j := RunGoes(sys, states, actions, j, p);
    }
  }

  function RunsOf<N(==), E>(s: State<N, E>, d: Dir<N>): set<nat> {
    set p | p in s.procs && s.procs[p].rec.dir == d
  }

  lemma StepAddsNoRun<N(!new), E(!new)>(sys: Sys<N, E>, s: State<N, E>, a: Action<N, E>, d: Dir<N>)
    requires Enabled(sys, s, a) && (a.Submit? ==> a.dir != d)
    ensures RunsOf(Next(sys, s, a), d) <= RunsOf(s, d)
  {
    OnlyProcsMove(sys, s, a);
    if ByProc(a) {
      KeepsDir(sys, s, a);
    }
  }

  lemma {:induction false} NoRunIsAdded<N(!new), E(!new)>(sys: Sys<N, E>, states: nat -> State<N, E>,
      actions: nat -> Action<N, E>, d: Dir<N>, w: nat, i: nat, j: nat)
    requires Unending(sys, states, actions) && AllApart(actions, d, w) && i <= j
    ensures RunsOf(states(j), d) <= RunsOf(states(i), d)
    decreases j - i
  {
    if i == j {
    } else {
      assert StepAt(sys, states, actions, i) && Apart(actions(i), d, w);
      StepAddsNoRun(sys, states(i), actions(i), d);
      NoRunIsAdded(sys, states, actions, d, w, i + 1, j);
    }
  }

  /** So the directory runs dry. */
  lemma {:induction false} RunsDry<N(!new), E(!new)>(sys: Sys<N, E>, states: nat -> State<N, E>,
      actions: nat -> Action<N, E>, d: Dir<N>, w: nat, i: nat) returns (j: nat)
    requires Fair(sys, states, actions, d, w)
    ensures i <= j && NoRunOf(states(j).procs, d)
    decreases |RunsOf(states(i), d)|
  {
    if RunsOf(states(i), d) == {} {
      assert forall p :: p in states(i).procs && states(i).procs[p].rec.dir == d ==> p in RunsOf(states(i), d);
      j := i;
    } else {
      var p :| p in RunsOf(states(i), d);
      var k := RunGoes(sys, states, actions, i, p);
      NoRunIsAdded(sys, states, actions, d, w, i, k);
      SmallerWithout(RunsOf(states(k), d), RunsOf(states(i), d), p);
      j := RunsDry(sys, states, actions, d, w, k);
    }
  }

  lemma SmallerWithout<T>(s: set<T>, t: set<T>, x: T)
    requires s <= t && x in t && x !in s
    ensures |s| < |t|
  {
    SubsetSize(s, t - {x});
  }

  lemma {:induction false} SubsetSize<T>(s: set<T>, t: set<T>)
    requires s <= t
    ensures |s| <= |t|
    decreases s
  {
    if s == {} {
    } else {
      var x :| x in s;
      SubsetSize(s - {x}, t - {x});
    }
  }

  // ---- what a taken channel comes to ----

  /** A channel p took stays with p or is closed. */
  lemma TakenStaysWith<N(!new), E(!new)>(sys: Sys<N, E>, s: State<N, E>, a: Action<N, E>, p: nat, ch: nat)
    requires Enabled(sys, s, a) && !a.Kill?
    requires ch in s.board.closed || (p in s.board.taken && ch in s.board.taken[p])
    ensures var b' := Next(sys, s, a).board; ch in b'.closed || (p in b'.taken && ch in b'.taken[p])
  {
    OnlyOpsMove(sys, s, a);
    if BoardOp(sys, s, a).Some? {
      OpKeepsTaken(s.board, BoardOp(sys, s, a).value, p, ch);
    }
  }

  lemma OpKeepsTaken<K(!new), R(!new)>(b: B.Board<K, R>, op: B.Op<K, R>, p: nat, ch: nat)
    requires B.Enabled(b, op) && (ch in b.closed || (p in b.taken && ch in b.taken[p]))
    ensures var b' := B.Apply(b, op); ch in b'.closed || (p in b'.taken && ch in b'.taken[p])
  {
    if op.Close? && op.p == p && ch !in b.closed {
      assert b.taken[p] == [b.taken[p][0]] + b.taken[p][1..];
    }
  }

  lemma {:induction false} TakenUntil<N(!new), E(!new)>(sys: Sys<N, E>, states: nat -> State<N, E>,
      actions: nat -> Action<N, E>, i: nat, j: nat, p: nat, ch: nat)
    requires Unending(sys, states, actions) && i <= j
    requires var b := states(i).board; ch in b.closed || (p in b.taken && ch in b.taken[p])
    ensures var b := states(j).board; ch in b.closed || (p in b.taken && ch in b.taken[p])
    decreases j - i
  {
    if i == j {
    } else {
      assert StepAt(sys, states, actions, i);
      TakenStaysWith(sys, states(i), actions(i), p, ch);
      TakenUntil(sys, states, actions, i + 1, j, p, ch);
    }
  }

  /** A channel that a notifier has taken is closed sooner or later. */
  lemma TakenIsClosed<N(!new), E(!new)>(sys: Sys<N, E>, states: nat -> State<N, E>, actions: nat -> Action<N, E>,
      i: nat, p: nat, ch: nat) returns (j: nat)
    requires Judges(sys) && Unending(sys, states, actions) && FairToRuns(states, actions)
    requires p in states(i).board.taken && ch in states(i).board.taken[p]
    ensures i <= j && ch in states(j).board.closed
  {
    HoldsAt(sys, states, actions, i);
    j := RunGoes(sys, states, actions, i, p);
    HoldsAt(sys, states, actions, j);
    TakenUntil(sys, states, actions, i, j, p, ch);
  }

  // ---- a wait beside a settled record ----

  /** How far the wait is from returning a record that is terminal. */
  function ToGo<R>(pc: B.Pc<R>): nat {
    match pc
    case Blocked(_, _) => 5
    case Leaving(_, None) => 4
    case Loop => 3
    case Subscribing(_) => 2
    case Leaving(_, Some(_)) => 1
    case Returned(_) => 0
  }

  predicate HasAnswer<R>(pc: B.Pc<R>) {
    pc.Returned? || (pc.Leaving? && pc.answer.Some?)
  }

  lemma {:induction false} LeftAt<N(!new), E(!new)>(sys: Sys<N, E>, states: nat -> State<N, E>,
      actions: nat -> Action<N, E>, d: Dir<N>, w: nat, r: Rec<N>, i: nat, j: nat)
    requires Unending(sys, states, actions) && AllApart(actions, d, w) && i <= j
    requires states(i).phase.Serving? && Left(sys, states(i), w, d, r)
    ensures states(j).phase.Serving? && Left(sys, states(j), w, d, r)
    decreases j - i
  {
    if i == j {
    } else {
      assert StepAt(sys, states, actions, i) && Apart(actions(i), d, w);
      StepKeepsLeft(sys, states(i), actions(i), w, d, r);
      LeftAt(sys, states, actions, d, w, r, i + 1, j);
    }
  }

  predicate OpOf<K, R>(op: B.Op<K, R>, w: nat) {
    (op.Subscribe? || op.Block? || op.Leave? || op.Unsubscribe? || op.Wake?) && op.w == w
  }

  lemma OpElsewhere<K(!new), R(!new)>(b: B.Board<K, R>, op: B.Op<K, R>, w: nat)
    requires B.Enabled(b, op) && w in b.waits && !OpOf(op, w)
    ensures w in B.Apply(b, op).waits && B.Apply(b, op).waits[w] == b.waits[w]
  {
  }

  lemma OpFalls<K(!new), R(!new)>(b: B.Board<K, R>, op: B.Op<K, R>, w: nat)
    requires B.Enabled(b, op) && OpOf(op, w) && !op.Block?
    requires op.Leave? && op.answer == None ==> b.waits[w].pc.Blocked?
    ensures w in b.waits && w in B.Apply(b, op).waits && ToGo(B.Apply(b, op).waits[w].pc) < ToGo(b.waits[w].pc)
    ensures HasAnswer(b.waits[w].pc) ==> b.waits[w].pc.Leaving? && B.Apply(b, op).waits[w].pc.Returned?
  {
  }

  /** The operation of a step is one of w exactly if the step moves w. */
  lemma MovesIsOp<N(!new), E(!new)>(sys: Sys<N, E>, s: State<N, E>, a: Action<N, E>, w: nat)
    requires Enabled(sys, s, a) && a != GiveUp(w)
    ensures Moves(a, w) <==> BoardOp(sys, s, a).Some? && OpOf(BoardOp(sys, s, a).value, w)
    ensures Moves(a, w) && BoardOp(sys, s, a).value.Leave? && BoardOp(sys, s, a).value.answer == None ==>
              s.board.waits[w].pc.Blocked?
  {
  }

  /** A step that is not its own leaves a wait as it is. */
  lemma StepElsewhere<N(!new), E(!new)>(sys: Sys<N, E>, s: State<N, E>, a: Action<N, E>, w: nat)
    requires Enabled(sys, s, a) && !a.Kill? && !Moves(a, w) && a != GiveUp(w) && w in s.board.waits
    ensures w in Next(sys, s, a).board.waits && Next(sys, s, a).board.waits[w] == s.board.waits[w]
  {
    OnlyOpsMove(sys, s, a);
    MovesIsOp(sys, s, a, w);
    if BoardOp(sys, s, a).Some? {
      OpElsewhere(s.board, BoardOp(sys, s, a).value, w);
    }
  }

  lemma ReadAnswers<N(!new), E(!new)>(sys: Sys<N, E>, s: State<N, E>, w: nat, d: Dir<N>, r: Rec<N>)
    requires Left(sys, s, w, d, r) && r.state.Terminal()
    ensures !ReadOp(sys, s, w).Block?
  {
    assert ReadRun(sys, s, d) == Verdict(r);
  }

  /** Its own steps bring a wait on a terminal record nearer to it. */
  lemma StepFalls<N(!new), E(!new)>(sys: Sys<N, E>, s: State<N, E>, a: Action<N, E>, w: nat, d: Dir<N>, r: Rec<N>)
    requires Left(sys, s, w, d, r) && r.state.Terminal() && Enabled(sys, s, a) && Moves(a, w)
    ensures var b' := Next(sys, s, a).board; w in b'.waits && ToGo(b'.waits[w].pc) < ToGo(s.board.waits[w].pc)
  {
    OnlyOpsMove(sys, s, a);
    MovesIsOp(sys, s, a, w);
    ReadAnswers(sys, s, w, d, r);
    OpFalls(s.board, BoardOp(sys, s, a).value, w);
  }

  ghost predicate MovedBetween<N(!new), E(!new)>(actions: nat -> Action<N, E>, i: nat, j: nat, w: nat) {
    exists k: nat :: i <= k < j && Moves(actions(k), w)
  }

  lemma {:induction false} WaitUntil<N(!new), E(!new)>(sys: Sys<N, E>, states: nat -> State<N, E>,
      actions: nat -> Action<N, E>, d: Dir<N>, w: nat, r: Rec<N>, i: nat, j: nat)
    requires Unending(sys, states, actions) && AllApart(actions, d, w) && i <= j
    requires states(i).phase.Serving? && Left(sys, states(i), w, d, r) && r.state.Terminal()
    ensures w in states(j).board.waits
    ensures || states(j).board.waits[w] == states(i).board.waits[w]
            || ToGo(states(j).board.waits[w].pc) < ToGo(states(i).board.waits[w].pc)
    ensures MovedBetween(actions, i, j, w) ==> ToGo(states(j).board.waits[w].pc) < ToGo(states(i).board.waits[w].pc)
    decreases j - i
  {
    if i == j {
    } else {
      assert StepAt(sys, states, actions, i) && Apart(actions(i), d, w);
      StepKeepsLeft(sys, states(i), actions(i), w, d, r);
      if Moves(actions(i), w) {
        StepFalls(sys, states(i), actions(i), w, d, r);
      } else {
        StepElsewhere(sys, states(i), actions(i), w);
      }
      WaitUntil(sys, states, actions, d, w, r, i + 1, j);
    }
  }

  /** A wait that can move gets on. */
  lemma GetsOn<N(!new), E(!new)>(sys: Sys<N, E>, states: nat -> State<N, E>, actions: nat -> Action<N, E>,
      d: Dir<N>, w: nat, r: Rec<N>, i: nat) returns (j: nat)
    requires Fair(sys, states, actions, d, w) && CanMove(states(i).board, w)
    requires states(i).phase.Serving? && Left(sys, states(i), w, d, r) && r.state.Terminal()
    ensures i < j && w in states(j).board.waits && ToGo(states(j).board.waits[w].pc) < ToGo(states(i).board.waits[w].pc)
  {
    assert MovesLater(actions, i, w);
    var k: nat :| i <= k && Moves(actions(k), w);
    WaitUntil(sys, states, actions, d, w, r, i, k + 1);
    j := k + 1;
  }

  /** A blocked wait is free to go on, or has gone on, sooner or later. */
  lemma GetsFree<N(!new), E(!new)>(sys: Sys<N, E>, states: nat -> State<N, E>, actions: nat -> Action<N, E>,
      d: Dir<N>, w: nat, r: Rec<N>, i: nat) returns (j: nat)
    requires Judges(sys) && Fair(sys, states, actions, d, w) && Left(sys, states(i), w, d, r) && r.state.Terminal()
    requires states(i).phase.Serving? && states(i).board.waits[w].pc.Blocked?
    ensures i <= j && w in states(j).board.waits
    ensures || ToGo(states(j).board.waits[w].pc) < ToGo(states(i).board.waits[w].pc)
            || (CanMove(states(j).board, w) && states(j).board.waits[w] == states(i).board.waits[w])
  {
    HoldsAt(sys, states, actions, i);
    var ch := states(i).board.waits[w].pc.ch;
    assert TerminalAt(states(i).disk, states(i).board.waits[w].key) && Due(states(i).board, states(i).procs, w);
    if ch in states(i).board.closed {
      j := i;
    } else {
      assert B.IsTaken(states(i).board, ch);
      var p :| p in states(i).board.taken && ch in states(i).board.taken[p];
      j := TakenIsClosed(sys, states, actions, i, p, ch);
      WaitUntil(sys, states, actions, d, w, r, i, j);
    }
  }

  /** With a terminal record the wait returns it. */
  lemma {:induction false} ReturnsIt<N(!new), E(!new)>(sys: Sys<N, E>, states: nat -> State<N, E>,
      actions: nat -> Action<N, E>, d: Dir<N>, w: nat, r: Rec<N>, i: nat) returns (j: nat)
    requires Judges(sys) && Fair(sys, states, actions, d, w) && Left(sys, states(i), w, d, r) && r.state.Terminal()
    requires states(i).phase.Serving?
    ensures i <= j && w in states(j).board.waits && states(j).board.waits[w] == B.Wait(d, B.Returned(Verdict(r)))
    decreases ToGo(states(i).board.waits[w].pc)
  {
    if states(i).board.waits[w].pc.Returned? {
      j := i;
    } else {
      var k := i;
      if states(i).board.waits[w].pc.Blocked? {
        k := GetsFree(sys, states, actions, d, w, r, i);
      }
      LeftAt(sys, states, actions, d, w, r, i, k);
      if ToGo(states(k).board.waits[w].pc) == ToGo(states(i).board.waits[w].pc) {
        var next := GetsOn(sys, states, actions, d, w, r, k);
        LeftAt(sys, states, actions, d, w, r, k, next);
        k := next;
      }
      j := ReturnsIt(sys, states, actions, d, w, r, k);
    }
  }

  // ---- a wait that has its answer ----

  /** The wait has returned a terminal record that was saved in its directory. */
  ghost predicate Answered<N(!new), E(!new)>(s: State<N, E>, d: Dir<N>, w: nat) {
    && w in s.board.waits && s.board.waits[w].pc.Returned? && s.board.waits[w].pc.result.Verdict?
    && Saved(s.log.history, d, s.board.waits[w].pc.result.rec)
  }

  /** With its answer in hand a wait only unsubscribes; then it stays as it is. */
  lemma AnswerStays<N(!new), E(!new)>(sys: Sys<N, E>, s: State<N, E>, a: Action<N, E>, w: nat)
    requires Enabled(sys, s, a) && Moves(a, w) && w in s.board.waits && HasAnswer(s.board.waits[w].pc)
    ensures var b' := Next(sys, s, a).board;
            s.board.waits[w].pc.Leaving? && w in b'.waits && b'.waits[w].pc.Returned?
  {
    OnlyOpsMove(sys, s, a);
    MovesIsOp(sys, s, a, w);
    assert a == Unsubscribe(w);
    OpFalls(s.board, BoardOp(sys, s, a).value, w);
  }

  lemma {:induction false} AnswerUntil<N(!new), E(!new)>(sys: Sys<N, E>, states: nat -> State<N, E>,
      actions: nat -> Action<N, E>, w: nat, i: nat, j: nat)
    requires Unending(sys, states, actions) && i <= j
    requires w in states(i).board.waits && HasAnswer(states(i).board.waits[w].pc)
    ensures w in states(j).board.waits && HasAnswer(states(j).board.waits[w].pc)
    ensures states(i).board.waits[w].pc.Returned? || MovedBetween(actions, i, j, w) ==>
              states(j).board.waits[w].pc.Returned?
    decreases j - i
  {
    if i == j {
    } else {
      assert StepAt(sys, states, actions, i);
      if Moves(actions(i), w) {
        AnswerStays(sys, states(i), actions(i), w);
      } else {
        StepElsewhere(sys, states(i), actions(i), w);
      }
      AnswerUntil(sys, states, actions, w, i + 1, j);
    }
  }

  lemma AnswerReturns<N(!new), E(!new)>(sys: Sys<N, E>, states: nat -> State<N, E>, actions: nat -> Action<N, E>,
      w: nat, i: nat) returns (j: nat)
    requires Unending(sys, states, actions) && FairToWait(states, actions, w)
    requires w in states(i).board.waits && HasAnswer(states(i).board.waits[w].pc)
    ensures i <= j && w in states(j).board.waits && states(j).board.waits[w].pc.Returned?
  {
    j := i;
    if !states(i).board.waits[w].pc.Returned? {
      assert MovesLater(actions, i, w);
      var k: nat :| i <= k && Moves(actions(k), w);
      AnswerUntil(sys, states, actions, w, i, k + 1);
      j := k + 1;
    }
  }

  lemma {:induction false} OnItsWayAt<N(!new), E(!new)>(sys: Sys<N, E>, states: nat -> State<N, E>,
      actions: nat -> Action<N, E>, d: Dir<N>, w: nat, i: nat, j: nat)
    requires Judges(sys) && Unending(sys, states, actions) && AllApart(actions, d, w) && i <= j
    requires OnItsWay(sys, states(i), w, d)
    ensures OnItsWay(sys, states(j), w, d)
    decreases j - i
  {
    if i == j {
    } else {
      HoldsAt(sys, states, actions, i);
      assert Apart(actions(i), d, w);
      StaysOnItsWay(sys, states(i), actions(i), w, d);
      OnItsWayAt(sys, states, actions, d, w, i + 1, j);
    }
  }

  // ---- answered, or stranded for good ----

  /** No run of the directory is left, its record is not terminal because the last save of its run failed,
      and the wait has returned nothing. */
  ghost predicate Stranded<N(!new), E(!new)>(s: State<N, E>, d: Dir<N>, w: nat) {
    && NoRunOf(s.procs, d) && w in s.board.waits && !s.board.waits[w].pc.Returned?
    && d in s.disk.runs && s.disk.runs[d].Complete? && !s.disk.runs[d].value.state.Terminal()
    && s.disk.runs[d].value.id in s.log.lost
  }

  ghost predicate StrandedFrom<N(!new), E(!new)>(states: nat -> State<N, E>, i: nat, d: Dir<N>, w: nat) {
    forall j: nat :: i <= j ==> Stranded(states(j), d, w)
  }

  lemma OpenIsLost<N(!new), E(!new)>(sys: Sys<N, E>, s: State<N, E>, d: Dir<N>)
    requires All(sys, s) && s.phase.Serving? && NoRunOf(s.procs, d) && d in s.disk.runs
    ensures s.disk.runs[d].Complete?
    ensures !s.disk.runs[d].value.state.Terminal() ==> s.disk.runs[d].value.id in s.log.lost
  {
    var r := s.disk.runs[d].value;
    forall p | p in s.procs && PreFinal(s.procs[p]) ensures s.procs[p].rec.id != r.id {
      if s.procs[p].rec.id == r.id {
        SameRunSameDir(sys, s, d, p);
      }
    }
  }

  lemma IsStranded<N(!new), E(!new)>(sys: Sys<N, E>, states: nat -> State<N, E>, actions: nat -> Action<N, E>,
      d: Dir<N>, w: nat, r: Rec<N>, i: nat)
    requires Judges(sys) && Unending(sys, states, actions) && AllApart(actions, d, w)
    requires states(i).phase.Serving? && Left(sys, states(i), w, d, r) && !r.state.Terminal()
    ensures StrandedFrom(states, i, d, w)
  {
    forall j: nat | i <= j ensures Stranded(states(j), d, w) {
      LeftAt(sys, states, actions, d, w, r, i, j);
      HoldsAt(sys, states, actions, j);
      OpenIsLost(sys, states(j), d);
    }
  }

  lemma AnsweredStays<N(!new), E(!new)>(sys: Sys<N, E>, states: nat -> State<N, E>, actions: nat -> Action<N, E>,
      d: Dir<N>, w: nat, i: nat, j: nat)
    requires Unending(sys, states, actions) && Answered(states(i), d, w) && i <= j
    ensures !Stranded(states(j), d, w)
  {
    AnswerUntil(sys, states, actions, w, i, j);
  }

  /** The record that is left decides. */
  lemma Decided<N(!new), E(!new)>(sys: Sys<N, E>, states: nat -> State<N, E>, actions: nat -> Action<N, E>,
      d: Dir<N>, w: nat, r: Rec<N>, i: nat)
    requires Judges(sys) && Fair(sys, states, actions, d, w)
    requires states(i).phase.Serving? && Left(sys, states(i), w, d, r)
    ensures if r.state.Terminal() then exists j: nat :: i <= j && Answered(states(j), d, w)
            else StrandedFrom(states, i, d, w)
  {
    if r.state.Terminal() {
      var j := ReturnsIt(sys, states, actions, d, w, r, i);
      ReachableAt(sys, states, actions, j);
      ReturnedIsSaved(sys, states(j), w);
      assert Answered(states(j), d, w);
    } else {
      IsStranded(sys, states, actions, d, w, r, i);
    }
  }

  /** A wait beside a directory that has run dry. */
  lemma DryDecides<N(!new), E(!new)>(sys: Sys<N, E>, states: nat -> State<N, E>, actions: nat -> Action<N, E>,
      d: Dir<N>, w: nat, i: nat)
    requires Judges(sys) && Fair(sys, states, actions, d, w)
    requires NoRunOf(states(i).procs, d) && OnItsWay(sys, states(i), w, d)
    ensures (exists j: nat :: Answered(states(j), d, w)) || StrandedFrom(states, i, d, w)
  {
    if HasAnswer(states(i).board.waits[w].pc) {
      var j := AnswerReturns(sys, states, actions, w, i);
      OnItsWayAt(sys, states, actions, d, w, i, j);
      ReachableAt(sys, states, actions, j);
      ReturnedIsSaved(sys, states(j), w);
      assert Answered(states(j), d, w);
    } else {
      var r := NoAnswerIsLeft(sys, states, actions, d, w, i);
      Decided(sys, states, actions, d, w, r, i);
    }
  }

  lemma NoAnswerIsLeft<N(!new), E(!new)>(sys: Sys<N, E>, states: nat -> State<N, E>, actions: nat -> Action<N, E>,
      d: Dir<N>, w: nat, i: nat) returns (r: Rec<N>)
    requires Judges(sys) && Unending(sys, states, actions)
    requires NoRunOf(states(i).procs, d) && OnItsWay(sys, states(i), w, d) && !HasAnswer(states(i).board.waits[w].pc)
    ensures states(i).phase.Serving? && Left(sys, states(i), w, d, r)
  {
    HoldsAt(sys, states, actions, i);
    r := states(i).disk.runs[d].value;
  }

  /** Whatever goes on elsewhere: under a fair schedule without another submit to its directory, a blocked
      wait returns a terminal record saved there, or is stranded for good on a record whose run lost its
      last save; one or the other, never both. */
  lemma FairlyAnswered<N(!new), E(!new)>(sys: Sys<N, E>, states: nat -> State<N, E>, actions: nat -> Action<N, E>,
      d: Dir<N>, w: nat)
    requires Judges(sys) && Fair(sys, states, actions, d, w)
    requires w in states(0).board.waits && states(0).board.waits[w].key == d && states(0).board.waits[w].pc.Blocked?
    ensures (exists i: nat :: Answered(states(i), d, w)) <==> !(exists i: nat :: StrandedFrom(states, i, d, w))
  {
    BlockedIsOnItsWay(sys, states(0), w);
    var i := RunsDry(sys, states, actions, d, w, 0);
    OnItsWayAt(sys, states, actions, d, w, 0, i);
    DryDecides(sys, states, actions, d, w, i);
    forall i: nat, j: nat | Answered(states(i), d, w) ensures !StrandedFrom(states, j, d, w) {
      AnsweredStays(sys, states, actions, d, w, i, if i < j then j else i);
    }
  }

  /** Once no run of its directory is left, a blocked wait is answered if and only if the record there is
      terminal, whatever goes on elsewhere. */
  lemma FairlyAnsweredIffTerminal<N(!new), E(!new)>(sys: Sys<N, E>, states: nat -> State<N, E>,
      actions: nat -> Action<N, E>, d: Dir<N>, w: nat, i: nat)
    requires Judges(sys) && Fair(sys, states, actions, d, w) && NoRunOf(states(i).procs, d)
    requires w in states(i).board.waits && states(i).board.waits[w].key == d && states(i).board.waits[w].pc.Blocked?
    ensures (exists j: nat :: i <= j && Answered(states(j), d, w)) <==> TerminalAt(states(i).disk, d)
  {
    ReachableAt(sys, states, actions, i);
    var r := BlockedIsLeft(sys, states(i), w);
    Decided(sys, states, actions, d, w, r, i);
    forall j: nat | i <= j && Answered(states(j), d, w) ensures !StrandedFrom(states, i, d, w) {
      AnsweredStays(sys, states, actions, d, w, j, j);
    }
  }

  // ---- a daemon at rest ----

  function Still<N(!new), E(!new)>(s: State<N, E>): nat -> State<N, E> {
    (i: nat) => s
  }

  function OnlyInit<N(!new), E(!new)>(n: N): nat -> Action<N, E> {
    (i: nat) => Register(n)
  }

  /** A daemon at rest to which only `init` comes back, for a repository it knows, is scheduled fairly. */
  lemma RestIsFair<N(!new), E(!new)>(sys: Sys<N, E>, s: State<N, E>, n: N, w: nat, e: E)
    requires Judges(sys) && Reachable(sys, s) && AtRest(sys, s) && sys.validName(n) && n in s.disk.repos
    requires w in s.board.waits && s.board.waits[w].pc.Blocked?
    ensures Fair(sys, Still(s), OnlyInit(n), s.board.waits[w].key, w)
  {
    RestHasNoRuns(sys, s, e);
    RestingWait(sys, s, w);
    assert Next(sys, s, Register(n)) == s;
    forall i: nat ensures StepAt(sys, Still(s), OnlyInit(n), i) {
    }
  }

  /** So whoever is blocked there is stranded for good. */
  lemma RestStrands<N(!new), E(!new)>(sys: Sys<N, E>, s: State<N, E>, w: nat, e: E)
    requires Judges(sys) && Reachable(sys, s) && AtRest(sys, s) && w in s.board.waits && s.board.waits[w].pc.Blocked?
    ensures StrandedFrom(Still(s), 0, s.board.waits[w].key, w)
  {
    Invariant(sys, s);
    RestIsQuiet(sys, s, w, e);
    var d := s.board.waits[w].key;
    OpenIsLost(sys, s, d);
    assert Stranded(s, d, w);
    forall j: nat ensures Stranded(Still(s)(j), d, w) {
    }
  }
}
