/** The store of run records as recovery uses it (internal/store/runs.go, recoverInterruptedRuns of
    internal/daemon/daemon.go), in program order; Lifecycle takes the same steps one at a time. */
module RunStore {
  import opened Text
  import opened Model
  import opened Waiters
  import opened Lifecycle

  /** What recovery makes of a record file: an unfinished run becomes errored unless saving it fails. */
  function After<N>(file: File<Rec<N>>, touched: bool, fails: set<nat>): File<Rec<N>> {
    match file
    case Torn => file
    case Complete(r) => if touched && !r.state.Terminal() && r.id !in fails then Complete(Recovered(r)) else file
  }

  /** Exactly the unfinished ones it gets to and can write change, and keep all but their state and the mark
      of recovery. */
  lemma AfterMeaning<N>(file: File<Rec<N>>, touched: bool, fails: set<nat>)
    ensures After(file, touched, fails) ==
              if touched && file.Complete? && file.value.state in {Queued, Running} && file.value.id !in fails
              then Complete(file.value.(state := Errored, interrupted := true)) else file
  {
  }

  class Store<N(==, !new)> {
    const valid: N -> bool
    var runs: map<Dir<N>, File<Rec<N>>>

    /** Every record that can be read lies in its own directory, under valid names. */
    ghost predicate Valid()
      reads this
    {
      forall d :: d in runs ==> valid(d.repo) && valid(d.sha) && (runs[d].Complete? ==> runs[d].value.dir == d)
    }

    constructor (valid: N -> bool)
      ensures Valid() && runs == map[] && this.valid == valid
    {
      this.valid := valid;
      runs := map[];
    }

    /** Validates, then writes; writes says whether the atomic write goes through. */
    method SaveRun(r: Rec<N>, writes: bool) returns (saved: bool)
      requires Valid()
      modifies this`runs
      ensures Valid()
      ensures saved == (valid(r.dir.repo) && valid(r.dir.sha) && writes)
      ensures runs == if saved then old(runs)[r.dir := Complete(r)] else old(runs)
    {
      if !valid(r.dir.repo) || !valid(r.dir.sha) || !writes {
        return false;
      }
      runs := runs[r.dir := Complete(r)];
      return true;
    }

    method GetRun(repo: N, sha: N) returns (reply: Reply<N>)
      requires Valid()
      ensures reply.Verdict? <==> Dir(repo, sha) in runs && runs[Dir(repo, sha)].Complete?
      ensures reply.Verdict? ==> runs[Dir(repo, sha)] == Complete(reply.rec) && reply.rec.dir == Dir(repo, sha)
      ensures reply == NotFound <==> valid(repo) && valid(sha) && Dir(repo, sha) !in runs
      ensures !reply.TimedOut?
    {
      if !valid(repo) || !valid(sha) {
        return ReadError;
      }
      if Dir(repo, sha) !in runs {
        return NotFound;
      }
      match runs[Dir(repo, sha)]
      case Torn => return ReadError;
      case Complete(r) => return Verdict(r);
    }

    /** The directory entries cover the repository's runs, each once. */
    ghost predicate Covers(repo: N, entries: seq<N>)
      reads this
    {
      Distinct(entries) && forall d :: d in runs && d.repo == repo ==> d.sha in entries
    }

    ghost predicate Listable(repo: N, entries: seq<N>)
      reads this
    {
      valid(repo) && forall e :: e in entries ==> valid(e) && !(Dir(repo, e) in runs && runs[Dir(repo, e)].Torn?)
    }

    /** Every run of the repository, once each; or nothing if a single entry cannot be read. A directory
        without a record is not a run. */
    method ListRuns(repo: N, entries: seq<N>) returns (listed: Option<seq<Rec<N>>>)
      requires Valid() && Covers(repo, entries)
      ensures listed.Some? <==> Listable(repo, entries)
      ensures listed.Some? ==> Listing(runs, repo, listed.value)
      ensures listed.Some? ==>
                forall r :: r in listed.value ==> r.dir in runs && r.dir.repo == repo && runs[r.dir] == Complete(r)
    {
      if !valid(repo) {
        return None;
      }
      var out: seq<Rec<N>> := [];
      for i := 0 to |entries|
        invariant forall e :: e in entries[..i] ==> valid(e) && !(Dir(repo, e) in runs && runs[Dir(repo, e)].Torn?)
        invariant Distinct(out)
        invariant forall r :: r in out <==>
                    (r.dir.repo == repo && r.dir.sha in entries[..i] && r.dir in runs && runs[r.dir] == Complete(r))
      {
        assert entries[..i + 1] == entries[..i] + [entries[i]];
        var reply := GetRun(repo, entries[i]);
        match reply
        case NotFound =>
        case ReadError => return None;
        case Verdict(r) => out := out + [r];
      }
      assert entries[..|entries|] == entries;
      return Some(out);
    }

    /** One repository of the recovery loop: unfinished runs are saved as errored, and nothing else is
        touched; fails are the runs whose save fails. */
    method RecoverRepo(repo: N, entries: seq<N>, fails: set<nat>)
      requires Valid() && Covers(repo, entries)
      modifies this`runs
      ensures Valid() && runs.Keys == old(runs.Keys)
      ensures forall d :: d in runs ==>
                runs[d] == After(old(runs[d]), d.repo == repo && old(Listable(repo, entries)), fails)
    {
      var listed := ListRuns(repo, entries);
      if listed.None? {
        return;
      }
      var records := listed.value;
      ghost var was := runs;
      for i := 0 to |records|
        invariant Valid() && runs.Keys == was.Keys
        invariant forall d :: d in runs ==>
                    runs[d] == After(was[d], d.repo == repo && was[d].Complete? && was[d].value in records[..i], fails)
      {
        var r := records[i];
        assert records[..i + 1] == records[..i] + [r] && r in records;
        if r.state == Running || r.state == Queued {
          var _ := SaveRun(Recovered(r), r.id !in fails);
        }
      }
      assert records[..|records|] == records;
    }

    /** The whole of recoverInterruptedRuns: every unfinished run of a registered repository that can be
        listed ends errored unless its save fails; no finished run and no other file changes. */
    method RecoverInterruptedRuns(repos: seq<N>, entries: N -> seq<N>, fails: set<nat>)
      requires Valid() && forall repo :: repo in repos ==> Covers(repo, entries(repo))
      modifies this`runs
      ensures Valid() && runs.Keys == old(runs.Keys)
      ensures forall d :: d in runs ==>
                runs[d] == After(old(runs[d]), d.repo in repos && old(Listable(d.repo, entries(d.repo))), fails)
    {
      for i := 0 to |repos|
        invariant Valid() && runs.Keys == old(runs.Keys)
        invariant forall repo :: Listable(repo, entries(repo)) == old(Listable(repo, entries(repo)))
        invariant forall d :: d in runs ==>
                    runs[d] ==
                    After(old(runs[d]), d.repo in repos[..i] && old(Listable(d.repo, entries(d.repo))), fails)
      {
        assert repos[..i + 1] == repos[..i] + [repos[i]] && repos[i] in repos;
        RecoverRepo(repos[i], entries(repos[i]), fails);
      }
      assert repos[..|repos|] == repos;
    }
  }
}
