/** The whole gate: the lifecycle run on real evaluations, read by `slopgate wait` and `slopgate status`
    (cmd/slopgate/wait.go). */
module EndToEnd {
  import opened Text
  import opened Model
  import opened Paths
  import opened Envelope
  import opened Rules
  import opened Gate
  import opened Lifecycle
  import opened LifecycleInv
  import opened LifecycleVerdict
  import opened LifecycleTheorems
  import opened LifecycleLiveness
  import opened LifecycleFair
  import opened LifecycleStranded
  import Feedback

  /** A submitted run as the executor starts it. */
  function Submitted(id: string, d: Dir<string>): Run {
    Started(QueuedRun(id, d.repo, d.sha))
  }

  /** The evaluation a run goes through, for JSON decoders that consume what they decode. */
  ghost function Outcome(id: string, d: Dir<string>, e: Inputs): Run {
    if Consumes(e.codec) then Judged(Submitted(id, d), e) else Submitted(id, d).(state := Errored)
  }

  predicate Progresses(e: Inputs) {
    Prologue(Submitted("", Dir("", "")), e).1 == None
  }

  /** The lifecycle of gate runs: names are path segments, evidence is what execute reads. */
  ghost function Slopgate(): Sys<string, Inputs> {
    Sys(s => ValidSegment(s),
        e => Outcome("", Dir("", ""), e).state,
        e => Progresses(e) && e.drift.Ok? && e.drift.value != [],
        e => Progresses(e))
  }

  lemma SlopgateJudges()
    ensures Judges(Slopgate())
  {
    forall e: Inputs ensures Slopgate().verdict(e) in {Passed, Failed, Errored} {
      if Consumes(e.codec) {
        PassedMeansClean(Submitted("", Dir("", "")), e);
      }
    }
  }

  // ---- the lifecycle's record is the run's ----

  lemma PrologueAlike(a: Run, b: Run, e: Inputs)
    requires a.drift == b.drift
    ensures Prologue(a, e).1 == Prologue(b, e).1
    ensures Prologue(a, e).0.drift == Prologue(b, e).0.drift
    ensures Prologue(a, e).1 == None ==> Prologue(a, e).0.changedFiles == Prologue(b, e).0.changedFiles
  {
  }

  lemma BodyAlike(a: Run, b: Run, e: Inputs)
    requires Consumes(e.codec) && a.changedFiles == b.changedFiles && a.state == b.state
    ensures Body(a, e).1 == Body(b, e).1 && Body(a, e).0.state == Body(b, e).0.state
    ensures Body(a, e).0.drift == a.drift
  {
  }

  lemma ExecutedAlike(a: Run, b: Run, e: Inputs)
    requires Consumes(e.codec) && a.state == b.state && a.drift == b.drift
    ensures Executed(a, e).1 == Executed(b, e).1 && Executed(a, e).0.state == Executed(b, e).0.state
    ensures Executed(a, e).0.drift == Prologue(a, e).0.drift
  {
    PrologueAlike(a, b, e);
    PrologueMeaning(a, e);
    PrologueMeaning(b, e);
    if Prologue(a, e).1 == None {
      BodyAlike(Prologue(a, e).0, Prologue(b, e).0, e);
    }
  }

  lemma ConcludeAlike(a: Run, b: Run, err: Option<RunError>)
    requires a.state == b.state
    ensures Conclude(a, err).state == Conclude(b, err).state && Conclude(a, err).drift == a.drift
  {
  }

  lemma JudgedAlike(a: Run, b: Run, e: Inputs)
    requires Consumes(e.codec) && a.state == b.state && a.drift == b.drift
    ensures Judged(a, e).state == Judged(b, e).state && Judged(a, e).drift == Prologue(a, e).0.drift
  {
    ExecutedAlike(a, b, e);
    ConcludeAlike(Executed(a, e).0, Executed(b, e).0, Executed(a, e).1);
  }

  lemma PrologueDrift(a: Run, e: Inputs)
    requires a.drift == []
    ensures Prologue(a, e).0.drift != [] <==> Prologue(a, e).1 == None && e.drift.Ok? && e.drift.value != []
  {
  }

  /** What the lifecycle records of a run is what Execute leaves in it, whatever its identity: the
      terminal state, and whether drift was found. */
  lemma RecordsTheRun(id: string, d: Dir<string>, e: Inputs)
    requires Consumes(e.codec)
    ensures Judged(Submitted(id, d), e).state == Slopgate().verdict(e)
    ensures Judged(Submitted(id, d), e).drift != [] <==> Slopgate().drifts(e)
    ensures Judged(Submitted(id, d), e).repoID == d.repo && Judged(Submitted(id, d), e).sha == d.sha
  {
    var a, b := Submitted(id, d), Submitted("", Dir("", ""));
    PassedMeansClean(a, e);
    JudgedAlike(a, b, e);
    PrologueAlike(a, b, e);
    PrologueDrift(a, e);
  }

  /** The lifecycle owes feedback for a record exactly when writeFeedback writes it for the run. */
  lemma OwesWhatFeedbackWrites(id: string, d: Dir<string>, e: Inputs, rec: Rec<string>)
    requires Consumes(e.codec) && rec.state == Slopgate().verdict(e) && rec.drift == Slopgate().drifts(e)
    ensures NeedsNote(rec) <==> Feedback.Writes(Judged(Submitted(id, d), e))
  {
    RecordsTheRun(id, d, e);
  }

  // ---- exit codes ----

  /** verdictExit, with every error of the call itself exit code 2. */
  function ExitCode<N>(reply: Reply<N>): nat {
    match reply
    case Verdict(r) => (match r.state case Passed => 0 case Failed => 1 case _ => 2)
    case _ => 2
  }

  /** 0 for a passed record, 1 for a failed one, 2 for everything else: no record, an error, a timeout, a
      record that is errored, cancelled or unfinished. */
  lemma ExitCodes<N>(reply: Reply<N>)
    ensures ExitCode(reply) == 0 <==> reply.Verdict? && reply.rec.state == Passed
    ensures ExitCode(reply) == 1 <==> reply.Verdict? && reply.rec.state == Failed
    ensures ExitCode(reply) == 2 <==>
              reply == NotFound || reply == ReadError || reply == TimedOut || reply.rec.state !in {Passed, Failed}
  {
  }

  /** Some run submitted for the directory evaluated inputs on which it had to pass, and its verdict was
      saved. */
  ghost predicate PassedCleanly(s: State<string, Inputs>, d: Dir<string>, r: Rec<string>) {
    && r in s.log.history && r.dir == d && r.state == Passed
    && r.id in s.log.evidence && Consumes(s.log.evidence[r.id].codec) && Clean(s.log.evidence[r.id])
  }

  lemma SavedRecord(s: State<string, Inputs>, r: Rec<string>)
    requires Reachable(Slopgate(), s) && r in s.log.history
    ensures RecordOK(Slopgate(), s.log.evidence, r)
  {
    SlopgateJudges();
    Invariant(Slopgate(), s);
    var i :| 0 <= i < |s.log.history| && s.log.history[i] == r;
    assert RecordOK(Slopgate(), s.log.evidence, s.log.history[i]);
  }

  lemma SavedMeansClean(s: State<string, Inputs>, r: Rec<string>)
    requires Reachable(Slopgate(), s) && r in s.log.history && r.state.Terminal()
    ensures r.state == Passed <==> PassedCleanly(s, r.dir, r)
    ensures !r.interrupted ==> r.id in s.log.evidence
    ensures !r.interrupted && Consumes(s.log.evidence[r.id].codec) ==>
              (r.state == Passed <==> Clean(s.log.evidence[r.id]))
  {
    SavedRecord(s, r);
    if !r.interrupted && Consumes(s.log.evidence[r.id].codec) {
      PassedMeansClean(Submitted("", Dir("", "")), s.log.evidence[r.id]);
    }
  }

  lemma ReturnedSaved(s: State<string, Inputs>, w: nat)
    requires Reachable(Slopgate(), s) && w in s.board.waits && s.board.waits[w].pc.Returned?
    requires s.board.waits[w].pc.result.Verdict?
    ensures Saved(s.log.history, s.board.waits[w].key, s.board.waits[w].pc.result.rec)
  {
    SlopgateJudges();
    Invariant(Slopgate(), s);
    assert Announces(s.board.waits[w]) && Announced(s.board.waits[w]) == s.board.waits[w].pc.result.rec;
  }

  /** `slopgate wait` exits 0 only for a run whose setup, check and test scripts were all OK and each of
      whose selected rules had an agent that finished cleanly with a well-formed report, every finding
      of which cites nothing. */
  lemma WaitExitsZeroOnlyIfClean(s: State<string, Inputs>, w: nat)
    requires Reachable(Slopgate(), s) && w in s.board.waits && s.board.waits[w].pc.Returned?
    requires ExitCode(s.board.waits[w].pc.result) == 0
    ensures PassedCleanly(s, s.board.waits[w].key, s.board.waits[w].pc.result.rec)
    ensures var e := s.log.evidence[s.board.waits[w].pc.result.rec.id];
            forall r :: r in {e.setup, e.check, e.test} ==>
              r.skipped || (r.exitCode == 0 && !r.timedOut && r.error == "")
  {
    ReturnedSaved(s, w);
    SavedMeansClean(s, s.board.waits[w].pc.result.rec);
  }

  /** And so does `slopgate status`, at any moment. */
  lemma StatusExitsZeroOnlyIfClean(s: State<string, Inputs>, d: Dir<string>)
    requires Reachable(Slopgate(), s) && ExitCode(ReadRun(Slopgate(), s, d)) == 0
    ensures PassedCleanly(s, d, ReadRun(Slopgate(), s, d).rec)
    ensures var e := s.log.evidence[ReadRun(Slopgate(), s, d).rec.id];
            forall r :: r in {e.setup, e.check, e.test} ==>
              r.skipped || (r.exitCode == 0 && !r.timedOut && r.error == "")
  {
    SlopgateJudges();
    NoTornRecord(Slopgate(), s, d);
    SavedMeansClean(s, ReadRun(Slopgate(), s, d).rec);
  }

  lemma SavedVerdict(s: State<string, Inputs>, r: Rec<string>)
    requires Reachable(Slopgate(), s) && r in s.log.history && r.state.Terminal()
    ensures r.interrupted ==> r.state == Errored
    ensures !r.interrupted ==> r.id in s.log.evidence
    ensures !r.interrupted && Consumes(s.log.evidence[r.id].codec) ==>
              var input := s.log.evidence[r.id];
              && (r.state == Errored <==> !Evaluable(input))
              && (r.state == Failed <==> Evaluable(input) && !Clean(input))
              && (r.state == Passed <==> Clean(input))
  {
    SavedRecord(s, r);
    if !r.interrupted && Consumes(s.log.evidence[r.id].codec) {
      VerdictMeaning(Submitted("", Dir("", "")), s.log.evidence[r.id]);
    }
  }

  /** The exit codes of a wait that returns a record of a run the daemon completed: 0 if its inputs were
      clean, 2 if a step of the run itself went wrong, 1 if neither. */
  lemma ExitCodeMeaning(s: State<string, Inputs>, w: nat)
    requires Reachable(Slopgate(), s) && w in s.board.waits && s.board.waits[w].pc.Returned?
    requires s.board.waits[w].pc.result.Verdict? && !s.board.waits[w].pc.result.rec.interrupted
    ensures var id := s.board.waits[w].pc.result.rec.id; var code := ExitCode(s.board.waits[w].pc.result);
            && id in s.log.evidence
            && (Consumes(s.log.evidence[id].codec) ==>
                  code == if Clean(s.log.evidence[id]) then 0 else if Evaluable(s.log.evidence[id]) then 1 else 2)
  {
    ReturnedSaved(s, w);
    SavedVerdict(s, s.board.waits[w].pc.result.rec);
  }

  /** What the exit code would be if failed meant that the gate ran fully. */
  ghost function DocumentedExit(input: Inputs): nat {
    if Clean(input) then 0 else if RanFully(input) then 1 else 2
  }

  /** The exit code is that one exactly unless nothing went wrong but the running of check.sh or test.sh;
      then it is 1, not 2. */
  lemma ExitCodeDocumented(s: State<string, Inputs>, w: nat)
    requires Reachable(Slopgate(), s) && w in s.board.waits && s.board.waits[w].pc.Returned?
    requires s.board.waits[w].pc.result.Verdict? && !s.board.waits[w].pc.result.rec.interrupted
    ensures var id := s.board.waits[w].pc.result.rec.id; var code := ExitCode(s.board.waits[w].pc.result);
            && id in s.log.evidence
            && var input := s.log.evidence[id];
               Consumes(input.codec) ==>
                 && (code == DocumentedExit(input) <==>
                       (Evaluable(input) ==>
                          && (input.check.skipped || input.check.error == "")
                          && (input.test.skipped || input.test.error == "")))
                 && (code != DocumentedExit(input) ==> code == 1 && DocumentedExit(input) == 2)
  {
    ExitCodeMeaning(s, w);
    var input := s.log.evidence[s.board.waits[w].pc.result.rec.id];
    if Consumes(input.codec) {
      CleanRanFully(input);
    }
  }

  // ---- a stranded wait ----

  /** A run whose evaluation passes has got as far as the save after its prologue. */
  lemma PassedProgresses(e: Inputs)
    ensures Slopgate().verdict(e) == Passed ==> Slopgate().progresses(e)
  {
    if Slopgate().verdict(e) == Passed {
      PassedMeansClean(Submitted("", Dir("", "")), e);
      PrologueMeaning(Submitted("", Dir("", "")), e);
    }
  }

  const FINE := ScriptResult(false, 0, false, "")

  /** A commit with no changed file, no rule and scripts that pass. */
  function Uneventful(): Inputs {
    Inputs(None, None, "b", "", Ok([]), Ok([]), None, FINE, FINE, FINE, Ok([]), Absent, None,
           (rule: string) => Broken(""), (rule: string) => map[], (f: string, g: string) => false,
           Codec((s: string) => None, (s: string) => None, (s: string) => None))
  }

  lemma UneventfulPasses()
    ensures var sys := Slopgate();
            && sys.verdict(Uneventful()) == Passed && sys.progresses(Uneventful()) && !sys.drifts(Uneventful())
            && sys.validName("a")
  {
    PassedMeansClean(Submitted("", Dir("", "")), Uneventful());
    PassedProgresses(Uneventful());
    assert "a"[0] == 'a';
  }

  /** Bash cannot be started for check.sh, and all else is in order. */
  function Unstartable(): Inputs {
    Uneventful().(check := ScriptResult(false, 0, false, "exec: bash: not found"))
  }

  lemma UnstartableInputs()
    ensures Consumes(Unstartable().codec) && Evaluable(Unstartable())
    ensures !Clean(Unstartable()) && !RanFully(Unstartable())
  {
  }

  /** The gate could not run a script, and the verdict says failed: exit code 1 as for a fault in the code. */
  lemma UnstartableFails()
    ensures Slopgate().verdict(Unstartable()) == Failed
    ensures !RanFully(Unstartable()) && DocumentedExit(Unstartable()) == 2
  {
    UnstartableInputs();
    VerdictMeaning(Submitted("", Dir("", "")), Unstartable());
  }

  /** It happens to the gate itself: a passing run of an uneventful commit, all but the first of its saves
      failing, leaves a later wait blocked when the daemon has come to rest. */
  lemma GateStrands() returns (s: State<string, Inputs>)
    ensures Reachable(Slopgate(), s) && 0 in s.board.waits && s.board.waits[0].pc.Blocked? && s.log.lost == {0}
    ensures AtRest(Slopgate(), s)
  {
    UneventfulPasses();
    s := LostSaveStrands(Slopgate(), "a", Uneventful());
  }

  /** For good, under a fair schedule. */
  lemma GateStrandsForGood() returns (s: State<string, Inputs>)
    ensures Fair(Slopgate(), Still(s), OnlyInit("a"), Dir("a", "a"), 0) && StrandedFrom(Still(s), 0, Dir("a", "a"), 0)
  {
    SlopgateJudges();
    UneventfulPasses();
    s := LostSaveStrandsForGood(Slopgate(), "a", Uneventful());
  }
}
