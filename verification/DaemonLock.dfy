/** One daemon at a time (internal/store/lock.go, Run of internal/daemon/daemon.go, Listen of
    internal/ipc/ipc.go), at the level of inodes: a lock file is opened first and flocked second, and a
    path need not lead to the inode a process has open. */
module DaemonLock {
  import opened Text

  /** Where a daemon process is in Run. Left is past the deferred release: the process is on its way
      out, but executors it cancelled may still be running. */
  datatype Pc = Opened | Holding | Unlinked | Listening | Closed | Left

  datatype Daemon = Daemon(inode: nat, pc: Pc)

  /** lockFile is the inode the lock path names, socket whose socket file lies at the socket path. */
  datatype State = State(
    lockFile: Option<nat>,
    inodes: nat,
    locks: map<nat, nat>,
    socket: Option<nat>,
    daemons: map<nat, Daemon>,
    robbed: bool)

  datatype Action =
    | Open(p: nat)
    | TryLock(p: nat)
    | Unlink(p: nat)
    | Bind(p: nat)
    | Close(p: nat)
    | Release(p: nat)
    | Exit(p: nat)

  const EMPTY := State.State(None, 0, map[], None, map[], false)

  predicate Holds(pc: Pc) {
    pc.Holding? || pc.Unlinked? || pc.Listening? || pc.Closed?
  }

  predicate Enabled(s: State, a: Action) {
    match a
    case Open(p) => p !in s.daemons
    case TryLock(p) => p in s.daemons && s.daemons[p].pc.Opened?
    case Unlink(p) => p in s.daemons && s.daemons[p].pc.Holding?
    case Bind(p) => p in s.daemons && s.daemons[p].pc.Unlinked?
    case Close(p) => p in s.daemons && s.daemons[p].pc.Listening?
    case Release(p) => p in s.daemons && Holds(s.daemons[p].pc)
    case Exit(p) => p in s.daemons
  }

  function SetPc(s: State, p: nat, pc: Pc): State
    requires p in s.daemons
  {
    s.(daemons := s.daemons[p := s.daemons[p].(pc := pc)])
  }

  /** Whether removing the socket file as p takes away the socket a daemon is listening on. */
  predicate Robs(s: State, p: nat) {
    s.socket.Some? && s.socket.value != p && s.socket.value in s.daemons && s.daemons[s.socket.value].pc.Listening?
  }

  function RemoveSocket(s: State, p: nat): State {
    s.(socket := None, robbed := s.robbed || Robs(s, p))
  }

  function Unlock(s: State, p: nat): State
    requires p in s.daemons
  {
    var i := s.daemons[p].inode;
    if i in s.locks && s.locks[i] == p then s.(locks := s.locks - {i}) else s
  }

  /** unlinks says whether release also removes the lock file, which the code deliberately does not. */
  function Next(unlinks: bool, s: State, a: Action): State
    requires Enabled(s, a)
  {
    match a
    case Open(p) =>
      (match s.lockFile
       case Some(i) => s.(daemons := s.daemons[p := Daemon(i, Opened)])
       case None =>
         s.(lockFile := Some(s.inodes), inodes := s.inodes + 1, daemons := s.daemons[p := Daemon(s.inodes, Opened)]))
    case TryLock(p) =>
      var i := s.daemons[p].inode;
      if i in s.locks then s.(daemons := s.daemons - {p}) else SetPc(s, p, Holding).(locks := s.locks[i := p])
    case Unlink(p) => SetPc(RemoveSocket(s, p), p, Unlinked)
    case Bind(p) => if s.socket.Some? then SetPc(s, p, Closed) else SetPc(s, p, Listening).(socket := Some(p))
    case Close(p) => SetPc(RemoveSocket(s, p), p, Closed)
    case Release(p) => SetPc(Unlock(s, p), p, Left).(lockFile := if unlinks then None else s.lockFile)
    case Exit(p) => Unlock(s, p).(daemons := s.daemons - {p})
  }

  ghost predicate Goes(unlinks: bool, s: State, a: Action, s': State) {
    Enabled(s, a) && Next(unlinks, s, a) == s'
  }

  predicate Runs(unlinks: bool, s: State, actions: seq<Action>, end: State)
    decreases |actions|
  {
    if actions == [] then s == end
    else Enabled(s, actions[0]) && Runs(unlinks, Next(unlinks, s, actions[0]), actions[1..], end)
  }

  /** Every process has the one lock file open, its holder is the kernel's owner, a listening daemon is
      behind the socket path, and nothing is there for one about to bind. */
  ghost predicate Inv(s: State) {
    && (forall p :: p in s.daemons ==> s.lockFile == Some(s.daemons[p].inode))
    && (forall p :: p in s.daemons && Holds(s.daemons[p].pc) ==>
          s.daemons[p].inode in s.locks && s.locks[s.daemons[p].inode] == p)
    && (forall i :: i in s.locks ==>
          s.locks[i] in s.daemons && s.daemons[s.locks[i]].inode == i && Holds(s.daemons[s.locks[i]].pc))
    && (forall p :: p in s.daemons && s.daemons[p].pc.Listening? ==> s.socket == Some(p))
    && (forall p :: p in s.daemons && s.daemons[p].pc.Unlinked? ==> s.socket == None)
    && !s.robbed
  }

  lemma PreservesOpen(s: State, p: nat)
    requires Inv(s) && Enabled(s, Open(p))
    ensures Inv(Next(false, s, Open(p)))
  {
  }

  lemma PreservesLock(s: State, p: nat)
    requires Inv(s) && Enabled(s, TryLock(p))
    ensures Inv(Next(false, s, TryLock(p)))
  {
  }

  lemma PreservesSocket(s: State, a: Action)
    requires Inv(s) && Enabled(s, a) && (a.Unlink? || a.Bind? || a.Close?)
    ensures Inv(Next(false, s, a))
  {
  }

  lemma PreservesUnlock(s: State, a: Action)
    requires Inv(s) && Enabled(s, a) && (a.Release? || a.Exit?)
    ensures Inv(Next(false, s, a))
  {
  }

  lemma Preserves(s: State, a: Action)
    requires Inv(s) && Enabled(s, a)
    ensures Inv(Next(false, s, a))
  {
    match a {
      case Open(p) => PreservesOpen(s, p);
      case TryLock(p) => PreservesLock(s, p);
      case Release(_) => PreservesUnlock(s, a);
      case Exit(_) => PreservesUnlock(s, a);
      case _ => PreservesSocket(s, a);
    }
  }

  lemma {:induction false} RunsKeep(s: State, actions: seq<Action>, end: State)
    requires Inv(s) && Runs(false, s, actions, end)
    ensures Inv(end)
    decreases |actions|
  {
    if actions == [] {
    } else {
      Preserves(s, actions[0]);
      RunsKeep(Next(false, s, actions[0]), actions[1..], end);
    }
  }

  /** Over any starts, shutdowns and kills at most one process holds the lock, no socket a daemon is
      listening on is ever removed, and a socket that is bound stays reachable until its owner closes. */
  lemma SingleDaemon(actions: seq<Action>, s: State, p: nat, q: nat)
    requires Runs(false, EMPTY, actions, s)
    ensures p in s.daemons && q in s.daemons && p != q ==>
              s.daemons[p].pc in {Opened, Left} || s.daemons[q].pc in {Opened, Left}
    ensures !s.robbed
    ensures p in s.daemons && s.daemons[p].pc.Listening? ==> s.socket == Some(p)
  {
    RunsKeep(EMPTY, actions, s);
  }

  /** Nobody else's step takes a listening daemon off its socket. */
  lemma ListenerStays(actions: seq<Action>, s: State, a: Action, q: nat)
    requires Runs(false, EMPTY, actions, s) && Enabled(s, a) && a.p != q
    requires q in s.daemons && s.daemons[q].pc.Listening?
    ensures var s' := Next(false, s, a); q in s'.daemons && s'.daemons[q].pc.Listening? && s'.socket == Some(q)
  {
    RunsKeep(EMPTY, actions, s);
    Preserves(s, a);
  }

  /** A socket file left by a dead daemon keeps nobody from listening: the holder of the lock removes it, and
      its own bind then succeeds, whatever others do in between. */
  lemma HolderListens(actions: seq<Action>, s: State, p: nat)
    requires Runs(false, EMPTY, actions, s) && Enabled(s, Bind(p))
    ensures var s' := Next(false, s, Bind(p)); s'.daemons[p].pc == Listening && s'.socket == Some(p)
  {
    RunsKeep(EMPTY, actions, s);
  }

  lemma RunsTwo(s: State, a: Action, mid: State, b: Action, end: State)
    requires Goes(false, s, a, mid) && Goes(false, mid, b, end)
    ensures Runs(false, s, [a, b], end)
  {
    assert [a, b][1..] == [b] && [b][1..] == [];
    assert Runs(false, mid, [b], end);
  }

  /** The steps are the process's own. */
  predicate Own(p: nat, steps: seq<Action>) {
    forall a :: a in steps ==> a.p == p
  }

  lemma {:induction false} RunsOn(s: State, first: seq<Action>, mid: State, second: seq<Action>, end: State)
    requires Runs(false, s, first, mid) && Runs(false, mid, second, end)
    ensures Runs(false, s, first + second, end)
    decreases |first|
  {
    if first == [] {
      assert first + second == second;
    } else {
      assert (first + second)[1..] == first[1..] + second;
      RunsOn(Next(false, s, first[0]), first[1..], mid, second, end);
    }
  }

  lemma GetsLock(s: State, p: nat) returns (steps: seq<Action>, end: State)
    requires Inv(s) && p !in s.daemons && forall q :: q in s.daemons ==> !Holds(s.daemons[q].pc)
    ensures Runs(false, s, steps, end) && Own(p, steps) && Inv(end)
    ensures p in end.daemons && end.daemons == s.daemons[p := end.daemons[p]] && end.daemons[p].pc.Holding?
  {
    var mid := Next(false, s, Open(p));
    PreservesOpen(s, p);
    end := Next(false, mid, TryLock(p));
    PreservesLock(mid, p);
    RunsTwo(s, Open(p), mid, TryLock(p), end);
    steps := [Open(p), TryLock(p)];
  }

  lemma GetsToListen(s: State, p: nat) returns (steps: seq<Action>, end: State)
    requires Inv(s) && p in s.daemons && s.daemons[p].pc.Holding?
    ensures Runs(false, s, steps, end) && Own(p, steps) && Inv(end)
    ensures end.daemons == s.daemons[p := s.daemons[p].(pc := Listening)] && end.socket == Some(p)
  {
    var mid := Next(false, s, Unlink(p));
    PreservesSocket(s, Unlink(p));
    end := Next(false, mid, Bind(p));
    PreservesSocket(mid, Bind(p));
    RunsTwo(s, Unlink(p), mid, Bind(p), end);
    steps := [Unlink(p), Bind(p)];
  }

  lemma Starts(s: State, p: nat) returns (steps: seq<Action>, end: State)
    requires Inv(s) && p !in s.daemons && forall q :: q in s.daemons ==> !Holds(s.daemons[q].pc)
    ensures Runs(false, s, steps, end) && Own(p, steps) && Inv(end)
    ensures p in end.daemons && end.daemons[p].pc.Listening? && end.daemons - {p} == s.daemons && end.socket == Some(p)
  {
    var lock, locked := GetsLock(s, p);
    var listen;
    listen, end := GetsToListen(locked, p);
    RunsOn(s, lock, locked, listen, end);
    steps := lock + listen;
    assert end.daemons - {p} == s.daemons;
  }

  lemma Stops(s: State, p: nat) returns (steps: seq<Action>, end: State)
    requires Inv(s) && p in s.daemons && s.daemons[p].pc.Listening?
    ensures Runs(false, s, steps, end) && Own(p, steps)
    ensures end.daemons == s.daemons - {p} && end.lockFile == s.lockFile && end.socket == None
  {
    var closed := Next(false, s, Close(p));
    var free := Next(false, closed, Release(p));
    end := Next(false, free, Exit(p));
    RunsTwo(closed, Release(p), free, Exit(p), end);
    steps := [Close(p), Release(p), Exit(p)];
    assert steps[1..] == [Release(p), Exit(p)];
  }

  /** A daemon started while nobody holds the lock gets it and gets to listen, whatever dead ones left
      behind; it can then close, give the lock back and exit, and the lock file is still there. */
  lemma ServesAndStops(actions: seq<Action>, s: State, p: nat)
    returns (start: seq<Action>, up: State, stop: seq<Action>, down: State)
    requires Runs(false, EMPTY, actions, s) && p !in s.daemons
    requires forall q :: q in s.daemons ==> s.daemons[q].pc in {Opened, Left}
    ensures Runs(false, s, start, up) && Own(p, start)
    ensures p in up.daemons && up.daemons[p].pc.Listening? && up.socket == Some(p)
    ensures Runs(false, up, stop, down) && Own(p, stop)
    ensures down.daemons == s.daemons && down.lockFile == up.lockFile && down.socket == None
  {
    RunsKeep(EMPTY, actions, s);
    start, up := Starts(s, p);
    stop, down := Stops(up, p);
  }

  /** A killed daemon holds nothing and is in nobody's way. */
  lemma KillFrees(actions: seq<Action>, s: State, p: nat)
    requires Runs(false, EMPTY, actions, s) && p in s.daemons
    ensures Enabled(s, Exit(p))
    ensures var s' := Next(false, s, Exit(p));
            && s'.daemons == s.daemons - {p} && s'.lockFile == s.lockFile && s'.socket == s.socket
            && forall i :: i in s'.locks ==> s'.locks[i] != p
  {
    RunsKeep(EMPTY, actions, s);
  }

  /** A dead daemon never blocks the next: whenever nobody holds the lock, whoever tries it gets it. */
  lemma NoStaleLock(actions: seq<Action>, s: State, p: nat)
    requires Runs(false, EMPTY, actions, s) && Enabled(s, TryLock(p))
    ensures p in Next(false, s, TryLock(p)).daemons <==>
              forall q :: q in s.daemons ==> s.daemons[q].pc in {Opened, Left}
  {
    RunsKeep(EMPTY, actions, s);
    if s.daemons[p].inode in s.locks {
      assert Holds(s.daemons[s.locks[s.daemons[p].inode]].pc);
    }
  }

  // ---- why the lock file stays ----

  ghost predicate Leads(unlinks: bool, s: State, s': State) {
    exists actions :: Runs(unlinks, s, actions, s')
  }

  lemma Follows(unlinks: bool, s: State, a: Action, mid: State, end: State)
    requires Goes(unlinks, s, a, mid) && Leads(unlinks, mid, end)
    ensures Leads(unlinks, s, end)
  {
    var rest :| Runs(unlinks, mid, rest, end);
    assert ([a] + rest)[1..] == rest;
    assert Runs(unlinks, s, [a] + rest, end);
  }

  /** A daemon has the file open when the last holder removes it, gets the lock of that inode, and a third
      one creates another file and locks that. */
  lemma TwoLocks(s: State)
    requires s == State.State(None, 1, map[], None, map[0 := Daemon(0, Left), 1 := Daemon(0, Opened)], false)
    ensures var first, second := Daemon(0, Holding), Daemon(1, Holding);
            var daemons := map[0 := Daemon(0, Left), 1 := first, 2 := second];
            Leads(true, s, State.State(Some(1), 2, map[0 := 1, 1 := 2], None, daemons, false))
  {
    var s1 := SetPc(s, 1, Holding).(locks := map[0 := 1]);
    var s2 := s1.(lockFile := Some(1), inodes := 2, daemons := s1.daemons[2 := Daemon(1, Opened)]);
    var s3 := SetPc(s2, 2, Holding).(locks := map[0 := 1, 1 := 2]);
    assert s3.daemons == map[0 := Daemon(0, Left), 1 := Daemon(0, Holding), 2 := Daemon(1, Holding)];
    assert Runs(true, s3, [], s3);
    Follows(true, s2, TryLock(2), s3, s3);
    Follows(true, s1, Open(2), s2, s3);
    Follows(true, s, TryLock(1), s1, s3);
  }

  /** Removing the lock file on release would allow two holders: 1 has the file open when 0 releases and
      removes it, and 2 then creates another. */
  lemma UnlinkingAdmitsTwo() returns (s: State)
    ensures Leads(true, EMPTY, s)
    ensures 1 in s.daemons && 2 in s.daemons && s.daemons[1].pc.Holding? && s.daemons[2].pc.Holding?
  {
    var s1 := EMPTY.(lockFile := Some(0), inodes := 1, daemons := map[0 := Daemon(0, Opened)]);
    var s2 := SetPc(s1, 0, Holding).(locks := map[0 := 0]);
    var s3 := s2.(daemons := s2.daemons[1 := Daemon(0, Opened)]);
    var s4 := State.State(None, 1, map[], None, map[0 := Daemon(0, Left), 1 := Daemon(0, Opened)], false);
    s := State.State(Some(1), 2, map[0 := 1, 1 := 2], None,
                     map[0 := Daemon(0, Left), 1 := Daemon(0, Holding), 2 := Daemon(1, Holding)], false);
    TwoLocks(s4);
    Follows(true, s3, Release(0), s4, s);
    Follows(true, s2, Open(1), s3, s);
    Follows(true, s1, TryLock(0), s2, s);
    Follows(true, EMPTY, Open(0), s1, s);
  }

  // ---- what the lock does not cover ----

  /** Run gives the lock back without waiting for the executors it cancelled: any daemon that is about to
      try the lock when another releases it holds it, and starts recovering, while the other is still
      there. */
  lemma ReleaseBeforeExit(actions: seq<Action>, s: State, p: nat, q: nat) returns (end: State)
    requires Runs(false, EMPTY, actions, s) && Enabled(s, Release(p)) && Enabled(s, TryLock(q))
    ensures Runs(false, s, [Release(p), TryLock(q)], end)
    ensures p in end.daemons && end.daemons[p].pc.Left? && q in end.daemons && end.daemons[q].pc.Holding?
  {
    RunsKeep(EMPTY, actions, s);
    var mid := Next(false, s, Release(p));
    end := Next(false, mid, TryLock(q));
    assert [Release(p), TryLock(q)][1..] == [TryLock(q)] && [TryLock(q)][1..] == [];
    assert Runs(false, mid, [TryLock(q)], end);
  }
}
