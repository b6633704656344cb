/** The registry of repositories (internal/store/repos.go): any number of processes in SaveRepo at once,
    each killed or failing wherever it likes, and readers that take no lock. */
module RepoRegistry {
  import opened Text
  import opened Model
  import opened Lifecycle

  // ---- one upsert ----

  function Upserted(repos: seq<Repo>, r: Repo): seq<Repo> {
    if repos == [] then [r]
    else if repos[0].id == r.id then [r] + repos[1..]
    else [repos[0]] + Upserted(repos[1..], r)
  }

  lemma {:induction false} UpsertedSplit(before: seq<Repo>, after: seq<Repo>, r: Repo)
    requires forall x :: x in before ==> x.id != r.id
    ensures Upserted(before + after, r) == before + Upserted(after, r)
  {
    if before == [] {
      assert before + after == after;
    } else {
      assert (before + after)[1..] == before[1..] + after;
      UpsertedSplit(before[1..], after, r);
    }
  }

  /** The loop of SaveRepo: replace the entry of the same ID where it is, else append. */
  method Upsert(repos: array<Repo>, r: Repo) returns (out: array<Repo>)
    modifies repos
    ensures out[..] == Upserted(old(repos[..]), r)
    ensures out == repos || (fresh(out) && repos[..] == old(repos[..]))
  {
    var i := 0;
    while i < repos.Length
      invariant 0 <= i <= repos.Length
      invariant forall j :: 0 <= j < i ==> repos[j].id != r.id
      invariant repos[..] == old(repos[..])
    {
      if repos[i].id == r.id {
        UpsertedSplit(repos[..i], repos[i..], r);
        assert repos[..] == repos[..i] + repos[i..];
        repos[i] := r;
        return repos;
      }
      i := i + 1;
    }
    UpsertedSplit(repos[..], [], r);
    assert repos[..] + [] == repos[..];
    out := new Repo[repos.Length + 1](j requires 0 <= j <= repos.Length reads repos =>
      if j < repos.Length then repos[j] else r);
    assert out[..] == repos[..] + [r];
  }

  /** GetRepo: the first entry of that ID. */
  method GetRepo(repos: seq<Repo>, id: string) returns (found: Option<Repo>)
    ensures found == Entry(repos, id)
  {
    for i := 0 to |repos|
      invariant Entry(repos[i..], id) == Entry(repos, id)
    {
      if repos[i].id == id {
        return Some(repos[i]);
      }
      assert repos[i..][1..] == repos[i + 1..];
    }
    return None;
  }

  function Entry(repos: seq<Repo>, id: string): Option<Repo> {
    if repos == [] then None else if repos[0].id == id then Some(repos[0]) else Entry(repos[1..], id)
  }

  // ---- a history of upserts ----

  /** What repos.json holds after the upserts in order. */
  function Folded(h: seq<Repo>): seq<Repo> {
    if h == [] then [] else Upserted(Folded(h[..|h| - 1]), h[|h| - 1])
  }

  /** The latest upsert of an ID. */
  function LatestOf(h: seq<Repo>, id: string): Option<Repo> {
    if h == [] then None
    else if h[|h| - 1].id == id then Some(h[|h| - 1])
    else LatestOf(h[..|h| - 1], id)
  }

  function Ids(repos: seq<Repo>): seq<string> {
    seq(|repos|, i requires 0 <= i < |repos| => repos[i].id)
  }

  /** The IDs in the order they first appear. */
  function FirstSeen(ids: seq<string>): seq<string> {
    if ids == [] then []
    else
      var before := FirstSeen(ids[..|ids| - 1]);
      if ids[|ids| - 1] in before then before else before + [ids[|ids| - 1]]
  }

  predicate NoneTwice(ids: seq<string>) {
    forall i, j :: 0 <= i < j < |ids| ==> ids[i] != ids[j]
  }

  lemma {:induction false} UpsertedIds(repos: seq<Repo>, r: Repo)
    ensures Ids(Upserted(repos, r)) == if r.id in Ids(repos) then Ids(repos) else Ids(repos) + [r.id]
  {
    if repos == [] {
    } else {
      assert Ids(repos) == [repos[0].id] + Ids(repos[1..]);
      if repos[0].id != r.id {
        UpsertedIds(repos[1..], r);
        var rest := Upserted(repos[1..], r);
        assert Ids([repos[0]] + rest) == [repos[0].id] + Ids(rest);
      }
    }
  }

  lemma {:induction false} UpsertedEntry(repos: seq<Repo>, r: Repo, id: string)
    ensures Entry(Upserted(repos, r), id) == if id == r.id then Some(r) else Entry(repos, id)
  {
    if repos == [] {
    } else if repos[0].id != r.id {
      UpsertedEntry(repos[1..], r, id);
      assert ([repos[0]] + Upserted(repos[1..], r))[1..] == Upserted(repos[1..], r);
    } else {
      assert ([r] + repos[1..])[1..] == repos[1..];
    }
  }

  lemma {:induction false} FirstSeenOnce(ids: seq<string>)
    ensures NoneTwice(FirstSeen(ids))
  {
    if ids == [] {
    } else {
      FirstSeenOnce(ids[..|ids| - 1]);
    }
  }

  lemma {:induction false} FoldedIds(h: seq<Repo>)
    ensures Ids(Folded(h)) == FirstSeen(Ids(h))
  {
    if h == [] {
    } else {
      var n := |h| - 1;
      FoldedIds(h[..n]);
      UpsertedIds(Folded(h[..n]), h[n]);
      assert Ids(h)[..n] == Ids(h[..n]);
    }
  }

  /** IDs stay unique and keep the order in which they were first registered. */
  lemma UniqueInOrder(h: seq<Repo>)
    ensures Ids(Folded(h)) == FirstSeen(Ids(h)) && NoneTwice(Ids(Folded(h)))
  {
    FoldedIds(h);
    FirstSeenOnce(Ids(h));
  }

  /** No registration is lost: every ID reads as its latest upsert, and no other ID reads at all. */
  lemma {:induction false} NothingLost(h: seq<Repo>, id: string)
    ensures Entry(Folded(h), id) == LatestOf(h, id)
  {
    if h == [] {
    } else {
      NothingLost(h[..|h| - 1], id);
      UpsertedEntry(Folded(h[..|h| - 1]), h[|h| - 1], id);
    }
  }

  // ---- concurrent SaveRepo ----

  /** Where a SaveRepo call is: blocked in flock, holding the lock, writing what it computed, or about
      to give the lock back. */
  datatype Pc = Locking | Locked | Saving(data: seq<Repo>, stage: WStage) | Unlocking(saved: bool)

  datatype Save = Save(repo: Repo, pc: Pc)

  datatype State = State(
    file: Option<File<seq<Repo>>>,
    temps: map<nat, File<seq<Repo>>>,
    lock: Option<nat>,
    saves: map<nat, Save>,
    committed: seq<Repo>)

  datatype Action =
    | Call(p: nat, repo: Repo)
    | Lock(p: nat)
    | ReadFile(p: nat)
    | Write(p: nat, step: WStep)
    | Unlock(p: nat)
    | Kill(p: nat)

  const EMPTY := State.State(None, map[], None, map[], [])

  /** readRepos: a missing file is an empty registry, one that does not parse is an error. */
  function ReadRepos(file: Option<File<seq<Repo>>>): Option<seq<Repo>> {
    match file
    case None => Some([])
    case Some(Complete(repos)) => Some(repos)
    case Some(Torn) => None
  }

  predicate Enabled(s: State, a: Action) {
    match a
    case Call(p, _) => p !in s.saves
    case Lock(p) => p in s.saves && s.saves[p].pc.Locking? && s.lock == None
    case ReadFile(p) => p in s.saves && s.saves[p].pc.Locked?
    case Write(p, step) => p in s.saves && s.saves[p].pc.Saving? && StepEnabled(s.temps, s.saves[p].pc.stage, step)
    case Unlock(p) => p in s.saves && s.saves[p].pc.Unlocking?
    case Kill(p) => p in s.saves
  }

  function SetPc(s: State, p: nat, pc: Pc): State
    requires p in s.saves
  {
    s.(saves := s.saves[p := s.saves[p].(pc := pc)])
  }

  /** The process is gone, and the kernel drops its lock with it. */
  function Gone(s: State, p: nat): State {
    s.(saves := s.saves - {p}, lock := if s.lock == Some(p) then None else s.lock)
  }

  function Next(s: State, a: Action): State
    requires Enabled(s, a)
  {
    match a
    case Call(p, repo) => s.(saves := s.saves[p := Save(repo, Locking)])
    case Lock(p) => SetPc(s, p, Locked).(lock := Some(p))
    case ReadFile(p) =>
      (match ReadRepos(s.file)
       case None => SetPc(s, p, Unlocking(false))
       case Some(repos) => SetPc(s, p, Saving(Upserted(repos, s.saves[p].repo), Idle)))
    case Write(p, step) =>
      var pc := s.saves[p].pc;
      var s' := s.(temps := StepTemps(s.temps, pc.stage, step, pc.data));
      (match step
       case Rename =>
         SetPc(s', p, Unlocking(true))
           .(file := Some(s.temps[pc.stage.t]), committed := s.committed + [s.saves[p].repo])
       case Fail => SetPc(s', p, Unlocking(false))
       case _ => SetPc(s', p, Saving(pc.data, StepStage(pc.stage, step))))
    case Unlock(p) => Gone(s, p)
    case Kill(p) => Gone(s, p)
  }

  predicate Runs(s: State, actions: seq<Action>, end: State)
    decreases |actions|
  {
    if actions == [] then s == end else Enabled(s, actions[0]) && Runs(Next(s, actions[0]), actions[1..], end)
  }

  predicate TempOK(temps: map<nat, File<seq<Repo>>>, pc: Pc) {
    pc.Saving? ==> match pc.stage
      case Idle => true
      case Open(t) => t in temps
      case Full(t) => t in temps && temps[t] == Complete(pc.data)
  }

  /** The file is the fold of the committed upserts; only the lock holder is past the lock, and what it
      is about to commit is built on that fold. */
  ghost predicate Inv(s: State) {
    && ReadRepos(s.file) == Some(Folded(s.committed))
    && (s.lock.Some? ==> s.lock.value in s.saves && !s.saves[s.lock.value].pc.Locking?)
    && (forall p :: p in s.saves && !s.saves[p].pc.Locking? ==> s.lock == Some(p))
    && (forall p :: p in s.saves ==> SaveOK(s, s.saves[p]))
  }

  predicate SaveOK(s: State, save: Save) {
    && (save.pc.Saving? ==> save.pc.data == Upserted(Folded(s.committed), save.repo))
    && TempOK(s.temps, save.pc)
    && (save.pc.Unlocking? && save.pc.saved ==> save.repo in s.committed)
  }

  lemma PreservesWrite(s: State, p: nat, step: WStep)
    requires Inv(s) && Enabled(s, Action.Write(p, step))
    ensures Inv(Next(s, Action.Write(p, step)))
  {
    assert SaveOK(s, s.saves[p]);
    if step.Rename? {
      var s' := Next(s, Action.Write(p, step));
      assert s'.committed[..|s.committed|] == s.committed;
    }
  }

  lemma PreservesRest(s: State, a: Action)
    requires Inv(s) && Enabled(s, a) && !a.Write?
    ensures Inv(Next(s, a))
  {
    forall q | q in s.saves ensures SaveOK(Next(s, a), s.saves[q]) {
      assert SaveOK(s, s.saves[q]);
    }
  }

  lemma Preserves(s: State, a: Action)
    requires Inv(s) && Enabled(s, a)
    ensures Inv(Next(s, a))
  {
    if a.Write? {
      PreservesWrite(s, a.p, a.step);
    } else {
      PreservesRest(s, a);
    }
  }

  lemma {:induction false} RunsKeep(s: State, actions: seq<Action>, end: State)
    requires Inv(s) && Runs(s, actions, end)
    ensures Inv(end)
    decreases |actions|
  {
    if actions == [] {
    } else {
      Preserves(s, actions[0]);
      RunsKeep(Next(s, actions[0]), actions[1..], end);
    }
  }

  /** Whatever runs, fails or is killed where, a reader finds one complete version: the fold of the
      committed upserts in the order of their renames; and a SaveRepo about to return success is among
      them. */
  lemma Linearizable(actions: seq<Action>, s: State)
    requires Runs(EMPTY, actions, s)
    ensures ReadRepos(s.file) == Some(Folded(s.committed))
    ensures forall p :: p in s.saves && s.saves[p].pc == Unlocking(true) ==> s.saves[p].repo in s.committed
  {
    RunsKeep(EMPTY, actions, s);
    forall p | p in s.saves && s.saves[p].pc == Unlocking(true) ensures s.saves[p].repo in s.committed {
      assert SaveOK(s, s.saves[p]);
    }
  }

  /** So a lookup, at any moment, finds the latest committed upsert of the ID, or nothing if there is none. */
  lemma LookupsAreCurrent(actions: seq<Action>, s: State, id: string)
    requires Runs(EMPTY, actions, s)
    ensures ReadRepos(s.file).Some? && Entry(ReadRepos(s.file).value, id) == LatestOf(s.committed, id)
  {
    Linearizable(actions, s);
    NothingLost(s.committed, id);
  }

  /** Nobody waits for ever on account of a dead or idle holder: if the lock is held, its holder is
      alive and has a step to take that does not fail. */
  lemma HolderCanGoOn(actions: seq<Action>, s: State) returns (a: Action)
    requires Runs(EMPTY, actions, s) && s.lock.Some?
    ensures Enabled(s, a) && a.p == s.lock.value && !a.Kill? && (a.Write? ==> !a.step.Fail?)
  {
    RunsKeep(EMPTY, actions, s);
    var p := s.lock.value;
    assert SaveOK(s, s.saves[p]);
    match s.saves[p].pc {
      case Locked => a := ReadFile(p);
      case Unlocking(_) => a := Unlock(p);
      case Saving(_, Idle) =>
        var t := FreshName(s.temps.Keys);
        a := Action.Write(p, Create(t));
      case Saving(_, Open(_)) => a := Action.Write(p, Fill);
      case Saving(_, Full(_)) => a := Action.Write(p, Rename);
    }
  }

  // ---- what a call reports ----

  /** Only a rename commits, it commits its own call's upsert, and only then does that call report success;
      and no call reports a failure but for a failed write of its own. */
  lemma ReportsTheTruth(actions: seq<Action>, s: State, a: Action, p: nat)
    requires Runs(EMPTY, actions, s) && Enabled(s, a) && p in Next(s, a).saves
    ensures var s' := Next(s, a);
            && (s'.committed != s.committed ==>
                  a == Action.Write(a.p, Rename) && s'.committed == s.committed + [s.saves[a.p].repo])
            && (Became(s, s', p, Unlocking(true)) <==> a == Action.Write(p, Rename))
            && (Became(s, s', p, Unlocking(false)) <==> a == Action.Write(p, Fail))
  {
    RunsKeep(EMPTY, actions, s);
  }

  predicate Became(s: State, s': State, p: nat, pc: Pc) {
    p in s'.saves && s'.saves[p].pc == pc && !(p in s.saves && s.saves[p].pc == pc)
  }

  /** A killed process leaves the lock, and nothing else, behind for others. */
  lemma KillReleases(s: State, p: nat)
    requires p in s.saves
    ensures Enabled(s, Action.Kill(p))
    ensures var s' := Next(s, Action.Kill(p));
            && p !in s'.saves && s'.lock != Some(p) && s'.file == s.file && s'.committed == s.committed
            && forall q :: q != p && q in s.saves ==>
                 q in s'.saves && s'.saves[q] == s.saves[q] && (s.lock == Some(q) ==> s'.lock == Some(q))
  {
  }

  lemma Prepend(s: State, a: Action, rest: seq<Action>, end: State)
    requires Enabled(s, a) && Runs(Next(s, a), rest, end)
    ensures Runs(s, [a] + rest, end)
  {
    assert ([a] + rest)[1..] == rest;
  }

  /** A call that holds the lock gets its upsert committed by three steps of its write. */
  lemma WriteCommits(s: State, p: nat, data: seq<Repo>) returns (steps: seq<Action>, end: State)
    requires p in s.saves && s.saves[p].pc == Saving(data, Idle)
    ensures Runs(s, steps, end)
    ensures end.committed == s.committed + [s.saves[p].repo] && end.file == Some(Complete(data))
    ensures end.lock == s.lock && p in end.saves && end.saves[p].pc == Unlocking(true)
    ensures forall q :: q in end.saves <==> q in s.saves
    ensures forall q :: q in s.saves && q != p ==> end.saves[q] == s.saves[q]
  {
    var t := FreshName(s.temps.Keys);
    var created := Next(s, Action.Write(p, Create(t)));
    var filled := Next(created, Action.Write(p, Fill));
    end := Next(filled, Action.Write(p, Rename));
    Prepend(filled, Action.Write(p, Rename), [], end);
    Prepend(created, Action.Write(p, Fill), [Action.Write(p, Rename)] + [], end);
    steps := [Action.Write(p, Create(t))] + ([Action.Write(p, Fill)] + ([Action.Write(p, Rename)] + []));
    Prepend(s, Action.Write(p, Create(t)), [Action.Write(p, Fill)] + ([Action.Write(p, Rename)] + []), end);
  }

  lemma {:induction false} RunsOn(s: State, first: seq<Action>, mid: State, second: seq<Action>, end: State)
    requires Runs(s, first, mid) && Runs(mid, second, end)
    ensures Runs(s, first + second, end)
    decreases |first|
  {
    if first == [] {
      assert first + second == second;
    } else {
      assert (first + second)[1..] == first[1..] + second;
      RunsOn(Next(s, first[0]), first[1..], mid, second, end);
    }
  }

  lemma CallReads(s: State, p: nat, repo: Repo) returns (steps: seq<Action>, end: State)
    requires Inv(s) && s.lock == None && p !in s.saves
    ensures Runs(s, steps, end) && end.committed == s.committed && end.lock == Some(p)
    ensures end.saves == s.saves[p := Save(repo, Saving(Upserted(Folded(s.committed), repo), Idle))]
  {
    var called := Next(s, Call(p, repo));
    var locked := Next(called, Lock(p));
    end := Next(locked, ReadFile(p));
    steps := [Call(p, repo)] + ([Lock(p)] + ([ReadFile(p)] + []));
    Prepend(locked, ReadFile(p), [], end);
    Prepend(called, Lock(p), [ReadFile(p)] + [], end);
    Prepend(s, Call(p, repo), [Lock(p)] + ([ReadFile(p)] + []), end);
  }

  /** Whenever the lock is free, a call that nobody disturbs commits its upsert, reports success and leaves
      the lock free again. */
  lemma CallCommits(actions: seq<Action>, s: State, p: nat, repo: Repo) returns (steps: seq<Action>, end: State)
    requires Runs(EMPTY, actions, s) && s.lock == None && p !in s.saves
    ensures Runs(s, steps, end)
    ensures end.committed == s.committed + [repo] && end.lock == None && end.saves == s.saves
  {
    RunsKeep(EMPTY, actions, s);
    var read, reading := CallReads(s, p, repo);
    var write, written := WriteCommits(reading, p, Upserted(Folded(s.committed), repo));
    end := Next(written, Unlock(p));
    assert end.saves == s.saves;
    Prepend(written, Unlock(p), [], end);
    RunsOn(reading, write, written, [Unlock(p)] + [], end);
    RunsOn(s, read, reading, write + ([Unlock(p)] + []), end);
    steps := read + (write + ([Unlock(p)] + []));
  }
}
