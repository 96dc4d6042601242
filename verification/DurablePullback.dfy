/** When a durable run that has its finalization checkpoint can still be pulled back again: the exact
    condition over every continuation, and the runs that lead there. */
module DurablePullback {
  import opened Wrappers
  import opened DurableFinalize

  predicate PullsNext(w: World, p: nat) {
    Do(w, By(p, Closes(Pull(0)))).Some?
  }

  /** Some continuation, with any deaths, interrupts, resumes and resolutions, pulls outputs back. */
  ghost predicate PullsAgain(w: World) {
    exists acts, p :: After(w, acts).Some? && PullsNext(After(w, acts).value, p)
  }

  /** The summary shows the checkpoint. */
  predicate Shows(m: Mark) {
    m.FinalizationComplete? || m.Complete?
  }

  /** In possession of the target's result. */
  predicate Committed(pc: Pc) {
    pc.HasResult? || pc.Pulling?
  }

  /** Past the check of the fence, with one look at the summary to go. */
  predicate PastFence(pc: Pc) {
    pc.Checked? || pc.Locked? || pc.Polling? || pc.Finalizing?
  }

  /** Able to write something else over a complete summary. */
  predicate Spoils(pc: Pc) {
    pc.Checked? || pc.Locked? || pc.Polling? || pc.PulledBack? || pc.Proved? || pc.ProofLifted?
  }

  predicate LiveLauncher(pr: Proc) {
    pr.launcher && !pr.pc.Ended?
  }

  /** A process that can lead to a second pull-back as the files stand. Without the target's evidence only
      one that holds the result already can. */
  predicate Threat(pr: Proc, d: Disk) {
    || Committed(pr.pc)
    || (d.evidence &&
         (|| pr.pc.Asking?
          || (PastFence(pr.pc) && !d.mark.Complete?)
          || (pr.pc.Unfinished? && d.hazard.Mine?)
          || (LiveLauncher(pr) && d.hazard.Mine?)))
  }

  /** Two processes that can do so together: the first removes the complete summary, or dies in a handler
      that does, and the second no longer looks at the fence. */
  predicate ThreatTogether(a: Proc, b: Proc, d: Disk) {
    d.evidence && b.pc.Checked? && ((d.mark.Complete? && Spoils(a.pc)) || LiveLauncher(a))
  }

  /** The fence stands and the summary does not show the checkpoint: a resume that starts now will pull. */
  predicate Exposed(d: Disk) {
    d.evidence && d.hazard.Mine? && !Shows(d.mark)
  }

  /** The operator holds a copy that it will write back. */
  predicate Pending(o: Operator) {
    o.Copied? && !o.noted
  }

  /** An operator about to expose the run, or to mislead a process past the fence check. */
  predicate ThreatFromCopy(o: Operator, d: Disk) {
    d.evidence && Pending(o) && d.hazard.Mine? && !Shows(o.mark)
  }

  predicate Misleads(o: Operator, pr: Proc, d: Disk) {
    d.evidence && Pending(o) && !o.mark.Complete? && PastFence(pr.pc)
  }

  ghost predicate Threatened(w: World) {
    || Exposed(w.disk)
    || (exists p :: p in w.procs && Threat(w.procs[p], w.disk))
    || (exists p, q :: p in w.procs && q in w.procs && p != q && ThreatTogether(w.procs[p], w.procs[q], w.disk))
    || (exists k :: k in w.operators && ThreatFromCopy(w.operators[k], w.disk))
    || (exists k, p :: k in w.operators && p in w.procs && Misleads(w.operators[k], w.procs[p], w.disk))
  }

  // ---- nothing else leads there ----

  /** What a move of an unthreatened world's process can do to threats. */
  predicate Harmless(pr: Proc, d: Disk, pr': Proc, d': Disk) {
    && !Threat(pr', d') && !Exposed(d')
    && (d'.hazard.Mine? ==> d.hazard.Mine?) && (d'.evidence ==> d.evidence)
    && !pr'.pc.Checked?
    && (PastFence(pr'.pc) && d.evidence ==> PastFence(pr.pc))
    && (Spoils(pr'.pc) && d.mark.Complete? && d.evidence ==> Spoils(pr.pc))
    && (LiveLauncher(pr') ==> LiveLauncher(pr))
    && (d.mark.Complete? && !d'.mark.Complete? ==> pr.locked && (Spoils(pr.pc) || LiveLauncher(pr)))
  }

  predicate Unthreatening(p: nat, pr: Proc, d: Disk) {
    AllOk(p, pr, d) && d.past.checkpoint.Some? && !Threat(pr, d) && !Exposed(d) && !pr.pc.Ended?
  }

  lemma MoveIsHarmless(p: nat, pr: Proc, d: Disk, free: bool, m: Move)
    requires Unthreatening(p, pr, d) && Step(p, pr, d, free, m).Some?
    ensures !Pulls(m)
    ensures var e := Step(p, pr, d, free, m).value; Harmless(pr, d, e.proc, e.disk)
  {
    match m {
      case Opens(o) => OpeningIsHarmless(p, pr, d, o);
      case Answers(a) => AnsweringIsHarmless(p, pr, d, a);
      case Closes(c) => ClosingIsHarmless(p, pr, d, c);
      case Resumes(r) => ResumingIsHarmless(p, pr, d, free, r);
      case Exits(x) => ExitingIsHarmless(p, pr, d, x);
    }
  }

  lemma OpeningIsHarmless(p: nat, pr: Proc, d: Disk, o: Opening)
    requires Unthreatening(p, pr, d) && OpenStep(pr, d, o).Some?
    ensures var e := OpenStep(pr, d, o).value; Harmless(pr, d, e.proc, e.disk)
  {
    match o {
      case WriteHazard => case Announce => case LaunchOk => case LaunchRefused(_) => case LaunchLost =>
      case GiveUp(_, _) => case SeeComplete => case ReadExisting =>
    }
  }

  lemma AnsweringIsHarmless(p: nat, pr: Proc, d: Disk, a: Answering)
    requires Unthreatening(p, pr, d) && AnswerStep(pr, d, a).Some?
    ensures var e := AnswerStep(pr, d, a).value; Harmless(pr, d, e.proc, e.disk)
  {
    match a {
      case AnswerNotStarted => case AnswerResult => case LiftOnProof => case WriteNotStarted =>
      case CleanupNotStarted => case DeferNotStarted => case WriteCommandComplete =>
    }
  }

  lemma ClosingIsHarmless(p: nat, pr: Proc, d: Disk, c: Closing)
    requires Unthreatening(p, pr, d) && CloseStep(pr, d, c).Some?
    ensures !c.Pull?
    ensures var e := CloseStep(pr, d, c).value; Harmless(pr, d, e.proc, e.disk)
  {
    match c {
      case PullFails(_) => case Pull(_) => case Save => case Lift => case WriteComplete =>
      case Cleanup => case Flag => case Defer =>
    }
  }

  lemma ResumingIsHarmless(p: nat, pr: Proc, d: Disk, free: bool, r: Resuming)
    requires Unthreatening(p, pr, d) && ResumeStep(p, pr, d, free, r).Some?
    ensures var e := ResumeStep(p, pr, d, free, r).value; Harmless(pr, d, e.proc, e.disk)
  {
    match r { case ReadSummary => case CheckFence => case TakeLock => case LearnStatus => case CompareFence => case UnlinkFence => }
  }

  lemma ExitingIsHarmless(p: nat, pr: Proc, d: Disk, x: Exiting)
    requires Unthreatening(p, pr, d) && ExitStep(p, pr, d, x).Some?
    ensures var e := ExitStep(p, pr, d, x).value; Harmless(pr, d, e.proc, e.disk)
  {
    if x.Handle? {
      HandlingIsHarmless(p, pr, d, x.cause);
    } else {
      LeavingIsHarmless(p, pr, d, x);
    }
  }

  lemma HandlingIsHarmless(p: nat, pr: Proc, d: Disk, cause: Cause)
    requires Unthreatening(p, pr, d) && ExitStep(p, pr, d, Handle(cause)).Some?
    ensures var e := ExitStep(p, pr, d, Handle(cause)).value; Harmless(pr, d, e.proc, e.disk)
  {
  }

  lemma LeavingIsHarmless(p: nat, pr: Proc, d: Disk, x: Exiting)
    requires Unthreatening(p, pr, d) && !x.Handle? && ExitStep(p, pr, d, x).Some?
    ensures var e := ExitStep(p, pr, d, x).value; Harmless(pr, d, e.proc, e.disk)
  {
    LeavingOnlyUnlocks(p, pr, d, x);
    UnlockingIsHarmless(pr, d, ExitStep(p, pr, d, x).value);
  }

  predicate OnlyUnlocks(pr: Proc, d: Disk, e: Effect) {
    e.proc.pc.Ended? && e.disk == d.(lock := e.disk.lock)
  }

  lemma LeavingOnlyUnlocks(p: nat, pr: Proc, d: Disk, x: Exiting)
    requires !x.Handle? && ExitStep(p, pr, d, x).Some?
    ensures OnlyUnlocks(pr, d, ExitStep(p, pr, d, x).value)
  {
    match x { case Return => case Raise => case Handle(_) => case Die => }
  }

  lemma UnlockingIsHarmless(pr: Proc, d: Disk, e: Effect)
    requires !Exposed(d) && OnlyUnlocks(pr, d, e)
    ensures Harmless(pr, d, e.proc, e.disk)
  {
  }

  lemma ByStaysUnthreatened(w: World, p: nat, m: Move)
    requires Inv(w) && w.disk.past.checkpoint.Some? && !Threatened(w) && Do(w, By(p, m)).Some?
    ensures !Pulls(m) && !Threatened(Do(w, By(p, m)).value)
  {
    assert OneOk(w, p);
    EndedStays(p, w.procs[p], w.disk, LockFree(w), m);
    MoveIsHarmless(p, w.procs[p], w.disk, LockFree(w), m);
    HarmlessForOthers(w, p, Step(p, w.procs[p], w.disk, LockFree(w), m).value);
  }

  lemma HarmlessForOthers(w: World, p: nat, e: Effect)
    requires Inv(w) && !Threatened(w) && p in w.procs && !w.procs[p].pc.Ended?
    requires Harmless(w.procs[p], w.disk, e.proc, e.disk)
    ensures !Threatened(World(e.disk, w.procs[p := e.proc], w.operators))
  {
    var w' := World(e.disk, w.procs[p := e.proc], w.operators);
    assert OneOk(w, p);
    forall q | q in w'.procs ensures !Threat(w'.procs[q], w'.disk) {
      if q != p {
        assert OneOk(w, q);
        assert !Threat(w.procs[q], w.disk) && !ThreatTogether(w.procs[p], w.procs[q], w.disk);
      }
    }
    forall a, b | a in w'.procs && b in w'.procs && a != b ensures !ThreatTogether(w'.procs[a], w'.procs[b], w'.disk) {
      if b != p {
        assert !Threat(w.procs[b], w.disk) && !ThreatTogether(w.procs[a], w.procs[b], w.disk);
      }
    }
    forall k | k in w'.operators ensures !ThreatFromCopy(w'.operators[k], w'.disk) {
      assert !ThreatFromCopy(w.operators[k], w.disk);
    }
    forall k, q | k in w'.operators && q in w'.procs ensures !Misleads(w'.operators[k], w'.procs[q], w'.disk) {
      assert !Misleads(w.operators[k], w.procs[q], w.disk);
    }
  }

  lemma OtherActsStayUnthreatened(w: World, a: Act)
    requires Inv(w) && !Threatened(w) && !a.By? && Do(w, a).Some?
    ensures !Threatened(Do(w, a).value)
  {
    match a {
      case StartResume(p) => StartIsHarmless(w, p);
      case WriteBack(k) => WriteBackIsHarmless(w, k);
      case Copy(k, noted) => CopyIsHarmless(w, k, noted);
      case ForeignFence => LessIsHarmless(w, Do(w, a).value);
      case ForeignLift => LessIsHarmless(w, Do(w, a).value);
      case ForeignAim => LessIsHarmless(w, Do(w, a).value);
      case ForeignUnlink => LessIsHarmless(w, Do(w, a).value);
      case ForeignAbandon => LessIsHarmless(w, Do(w, a).value);
      case Look(_) => LessIsHarmless(w, Do(w, a).value);
      case SkipNote(_) => LessIsHarmless(w, Do(w, a).value);
      case Aim(_) => LessIsHarmless(w, Do(w, a).value);
      case Unlink(_) => LessIsHarmless(w, Do(w, a).value);
      case GiveUpResolving(_) => LessIsHarmless(w, Do(w, a).value);
    }
  }

  /** Neither a process nor the summary changed, no fence was written and no copy was taken. */
  lemma LessIsHarmless(w: World, w': World)
    requires !Threatened(w) && w'.procs == w.procs && w'.disk.mark == w.disk.mark
    requires (w'.disk.hazard.Mine? ==> w.disk.hazard.Mine?) && w'.disk.evidence == w.disk.evidence
    requires forall k :: k in w'.operators && w'.operators[k].Copied? ==> k in w.operators && w.operators[k] == w'.operators[k]
    ensures !Threatened(w')
  {
    forall q | q in w'.procs ensures !Threat(w'.procs[q], w'.disk) {
      assert !Threat(w.procs[q], w.disk);
    }
    forall p, q | p in w'.procs && q in w'.procs && p != q ensures !ThreatTogether(w'.procs[p], w'.procs[q], w'.disk) {
      assert !ThreatTogether(w.procs[p], w.procs[q], w.disk);
    }
    forall k | k in w'.operators ensures !ThreatFromCopy(w'.operators[k], w'.disk) {
      assert k in w.operators ==> !ThreatFromCopy(w.operators[k], w.disk);
    }
    forall k, q | k in w'.operators && q in w'.procs ensures !Misleads(w'.operators[k], w'.procs[q], w'.disk) {
      assert k in w.operators ==> !Misleads(w.operators[k], w.procs[q], w.disk);
    }
  }

  lemma StartIsHarmless(w: World, p: nat)
    requires !Threatened(w) && p !in w.procs
    ensures !Threatened(w.(procs := w.procs[p := Proc(false, false, Reading)]))
  {
    var w' := w.(procs := w.procs[p := Proc(false, false, Reading)]);
    forall q | q in w'.procs ensures !Threat(w'.procs[q], w'.disk) {
      assert q != p ==> !Threat(w.procs[q], w.disk);
    }
    forall a, b | a in w'.procs && b in w'.procs && a != b ensures !ThreatTogether(w'.procs[a], w'.procs[b], w'.disk) {
      assert a != p && b != p ==> !ThreatTogether(w.procs[a], w.procs[b], w.disk);
    }
    forall k | k in w'.operators ensures !ThreatFromCopy(w'.operators[k], w'.disk) {
      assert !ThreatFromCopy(w.operators[k], w.disk);
    }
    forall k, q | k in w'.operators && q in w'.procs ensures !Misleads(w'.operators[k], w'.procs[q], w'.disk) {
      assert q != p ==> !Misleads(w.operators[k], w.procs[q], w.disk);
    }
  }

  lemma CopyIsHarmless(w: World, k: nat, noted: bool)
    requires !Threatened(w)
    ensures !Threatened(w.(operators := w.operators[k := Copied(w.disk.mark, noted)]))
  {
    var w' := w.(operators := w.operators[k := Copied(w.disk.mark, noted)]);
    forall q | q in w'.procs ensures !Threat(w'.procs[q], w'.disk) {
      assert !Threat(w.procs[q], w.disk);
    }
    forall p, q | p in w'.procs && q in w'.procs && p != q ensures !ThreatTogether(w'.procs[p], w'.procs[q], w'.disk) {
      assert !ThreatTogether(w.procs[p], w.procs[q], w.disk);
    }
    forall j | j in w'.operators ensures !ThreatFromCopy(w'.operators[j], w'.disk) {
      assert j != k ==> !ThreatFromCopy(w.operators[j], w.disk);
    }
    forall j, q | j in w'.operators && q in w'.procs ensures !Misleads(w'.operators[j], w'.procs[q], w'.disk) {
      assert !Threat(w.procs[q], w.disk);
      assert j != k ==> !Misleads(w.operators[j], w.procs[q], w.disk);
    }
  }

  lemma WriteBackIsHarmless(w: World, k: nat)
    requires !Threatened(w) && Do(w, WriteBack(k)).Some?
    ensures !Threatened(Do(w, WriteBack(k)).value)
  {
    var w' := Do(w, WriteBack(k)).value;
    assert !ThreatFromCopy(w.operators[k], w.disk);
    forall q | q in w'.procs ensures !Threat(w'.procs[q], w'.disk) {
      assert !Threat(w.procs[q], w.disk) && !Misleads(w.operators[k], w.procs[q], w.disk);
    }
    forall p, q | p in w'.procs && q in w'.procs && p != q ensures !ThreatTogether(w'.procs[p], w'.procs[q], w'.disk) {
      assert !Threat(w.procs[q], w.disk) && !ThreatTogether(w.procs[p], w.procs[q], w.disk);
    }
    forall j | j in w'.operators ensures !ThreatFromCopy(w'.operators[j], w'.disk) {
      assert j != k ==> !ThreatFromCopy(w.operators[j], w.disk);
    }
    forall j, q | j in w'.operators && q in w'.procs ensures !Misleads(w'.operators[j], w'.procs[q], w'.disk) {
      assert j != k ==> !Misleads(w.operators[j], w.procs[q], w.disk);
    }
  }

  lemma {:induction false} StaysUnthreatened(w: World, acts: seq<Act>)
    requires Inv(w) && w.disk.past.checkpoint.Some? && !Threatened(w) && After(w, acts).Some?
    ensures Inv(After(w, acts).value) && After(w, acts).value.disk.past.checkpoint.Some? && !Threatened(After(w, acts).value)
  {
    if acts != [] {
      var n := |acts| - 1;
      StaysUnthreatened(w, acts[..n]);
      var v := After(w, acts[..n]).value;
      ActKeepsInv(v, acts[n]);
      CheckpointStays(v, acts[n]);
      if acts[n].By? {
        ByStaysUnthreatened(v, acts[n].p, acts[n].move);
      } else {
        OtherActsStayUnthreatened(v, acts[n]);
      }
    }
  }

  lemma CheckpointStays(w: World, a: Act)
    requires Inv(w) && w.disk.past.checkpoint.Some? && Do(w, a).Some?
    ensures Do(w, a).value.disk.past.checkpoint == w.disk.past.checkpoint
  {
    if a.By? {
      assert OneOk(w, a.p);
      StepOnShared(a.p, w.procs[a.p], w.disk, LockFree(w), a.move);
    }
  }

  // ---- every threat can come true ----

  lemma {:induction false} AfterPrepend(w: World, a: Act, acts: seq<Act>)
    requires Do(w, a).Some?
    ensures After(w, [a] + acts) == After(Do(w, a).value, acts)
  {
    if acts == [] {
      assert [a] + acts == [a] && [a][..0] == [];
      assert After(w, []) == Some(w);
    } else {
      var n := |acts| - 1;
      AfterPrepend(w, a, acts[..n]);
      assert ([a] + acts)[..n + 1] == [a] + acts[..n];
    }
  }

  /** What can happen after one more act can happen. */
  lemma Onwards(w: World, a: Act)
    requires Do(w, a).Some? && PullsAgain(Do(w, a).value)
    ensures PullsAgain(w)
  {
    var v := Do(w, a).value;
    var acts, p :| After(v, acts).Some? && PullsNext(After(v, acts).value, p);
    AfterPrepend(w, a, acts);
    assert After(w, [a] + acts).Some? && PullsNext(After(w, [a] + acts).value, p);
  }

  lemma PullsNow(w: World, p: nat)
    requires p in w.procs && w.procs[p].pc.Pulling?
    ensures PullsAgain(w)
  {
    assert After(w, []) == Some(w) && PullsNext(w, p);
  }

  lemma CommittedPulls(w: World, p: nat)
    requires p in w.procs && Committed(w.procs[p].pc)
    ensures PullsAgain(w)
  {
    if w.procs[p].pc.HasResult? {
      PullsNow(Do(w, By(p, Answers(WriteCommandComplete))).value, p);
      Onwards(w, By(p, Answers(WriteCommandComplete)));
    } else {
      PullsNow(w, p);
    }
  }

  lemma AskingPulls(w: World, p: nat)
    requires p in w.procs && w.procs[p].pc.Asking? && w.disk.evidence
    ensures PullsAgain(w)
  {
    CommittedPulls(Do(w, By(p, Answers(AnswerResult))).value, p);
    Onwards(w, By(p, Answers(AnswerResult)));
  }

  lemma WaitingPulls(w: World, p: nat)
    requires p in w.procs && (w.procs[p].pc.Locked? || w.procs[p].pc.Polling? || w.procs[p].pc.Finalizing?)
    requires !w.disk.mark.Complete? && w.disk.evidence
    ensures PullsAgain(w)
    decreases if w.procs[p].pc.Locked? then 2 else if w.procs[p].pc.Polling? then 1 else 0
  {
    if w.procs[p].pc.Locked? {
      WaitingPulls(Do(w, By(p, Resumes(LearnStatus))).value, p);
      Onwards(w, By(p, Resumes(LearnStatus)));
    } else if w.procs[p].pc.Polling? {
      WaitingPulls(Do(w, By(p, Opens(SeeComplete))).value, p);
      Onwards(w, By(p, Opens(SeeComplete)));
    } else {
      AskingPulls(Do(w, By(p, Opens(ReadExisting))).value, p);
      Onwards(w, By(p, Opens(ReadExisting)));
    }
  }

  /** A process that stands before the lock gets it, if need be after its holder's death. */
  lemma CheckedLocks(w: World, p: nat) returns (acts: seq<Act>, v: World)
    requires Inv(w) && p in w.procs && w.procs[p].pc.Checked?
    ensures After(w, acts) == Some(v) && p in v.procs && v.procs[p].pc.Locked?
    ensures v.disk.mark == w.disk.mark && v.disk.hazard == w.disk.hazard && v.disk.evidence == w.disk.evidence
    ensures forall q :: q in w.procs && q != p && w.disk.lock != Some(q) ==> q in v.procs && v.procs[q] == w.procs[q]
    ensures Inv(v)
  {
    var u;
    acts, u := LockFreed(w, p);
    v := Do(u, By(p, Resumes(TakeLock))).value;
    ActKeepsInv(u, By(p, Resumes(TakeLock)));
    var longer := acts + [By(p, Resumes(TakeLock))];
    assert longer[..|acts|] == acts;
    acts := longer;
  }

  lemma LockFreed(w: World, p: nat) returns (acts: seq<Act>, u: World)
    requires Inv(w) && p in w.procs && w.procs[p].pc.Checked?
    ensures After(w, acts) == Some(u) && LockFree(u) && Inv(u) && p in u.procs && u.procs[p] == w.procs[p] && u.disk == w.disk
    ensures forall q :: q in w.procs && w.disk.lock != Some(q) ==> q in u.procs && u.procs[q] == w.procs[q]
  {
    assert OneOk(w, p);
    assert After(w, []) == Some(w);
    if LockFree(w) {
      return [], w;
    }
    var a := By(w.disk.lock.value, Exits(Die));
    acts, u := [a], Do(w, a).value;
    assert acts[..0] == [];
    ActKeepsInv(w, a);
  }

  lemma {:induction false} OnwardsBy(w: World, acts: seq<Act>)
    requires After(w, acts).Some? && PullsAgain(After(w, acts).value)
    ensures PullsAgain(w)
  {
    if acts != [] {
      var n := |acts| - 1;
      Onwards(After(w, acts[..n]).value, acts[n]);
      OnwardsBy(w, acts[..n]);
    }
  }

  lemma PastFencePulls(w: World, p: nat)
    requires Inv(w) && p in w.procs && PastFence(w.procs[p].pc) && !w.disk.mark.Complete? && w.disk.evidence
    ensures PullsAgain(w)
  {
    if w.procs[p].pc.Checked? {
      var acts, v := CheckedLocks(w, p);
      WaitingPulls(v, p);
      OnwardsBy(w, acts);
    } else {
      WaitingPulls(w, p);
    }
  }

  lemma UnfinishedPulls(w: World, p: nat)
    requires Inv(w) && p in w.procs && w.procs[p].pc.Unfinished? && w.disk.hazard.Mine? && w.disk.evidence
    ensures PullsAgain(w)
  {
    var a := By(p, Resumes(CheckFence));
    ActKeepsInv(w, a);
    PastFencePulls(Do(w, a).value, p);
    Onwards(w, a);
  }

  lemma {:induction false} Unused(s: set<nat>) returns (n: nat)
    ensures forall x :: x in s ==> x < n
  {
    n := 0;
    if s != {} {
      assert exists x :: x in s by {
        assert (forall x :: x !in s) ==> s == {};
      }
      var x :| x in s;
      var m := Unused(s - {x});
      n := if x < m then m else x + 1;
      forall y | y in s ensures y < n {
        assert y == x || y in s - {x};
      }
    }
  }

  /** A resume that starts while the run is exposed pulls back. */
  lemma ExposedPulls(w: World)
    requires Inv(w) && Exposed(w.disk)
    ensures PullsAgain(w)
  {
    var p := Unused(w.procs.Keys);
    assert p !in w.procs;
    var a, b := StartResume(p), By(p, Resumes(ReadSummary));
    var u := Do(w, a).value;
    ActKeepsInv(w, a);
    ActKeepsInv(u, b);
    UnfinishedPulls(Do(u, b).value, p);
    Onwards(u, b);
    Onwards(w, a);
  }

  /** One process removes the complete summary, another is past the fence check. */
  lemma SpoilerPulls(w: World, p: nat, q: nat)
    requires Inv(w) && p in w.procs && q in w.procs && p != q && w.disk.evidence
    requires Spoils(w.procs[p].pc) && w.procs[q].pc.Checked?
    ensures PullsAgain(w)
  {
    match w.procs[p].pc {
      case Checked => LocksThenSpoils(w, p, q);
      case Locked => LockedSpoils(w, p, q);
      case Proved(_, _) => ProvedSpoils(w, p, q);
      case Polling => PollingSpoils(w, p, q);
      case PulledBack(_) => PulledBackSpoils(w, p, q);
      case ProofLifted(_, _) => ProofLiftedSpoils(w, p, q);
    }
  }

  lemma LockedSpoils(w: World, p: nat, q: nat)
    requires Inv(w) && p in w.procs && q in w.procs && p != q && w.disk.evidence
    requires w.procs[p].pc.Locked? && w.procs[q].pc.Checked?
    ensures PullsAgain(w)
  {
    var m := Resumes(LearnStatus);
    ActKeepsInv(w, By(p, m));
    PollingSpoils(Do(w, By(p, m)).value, p, q);
    Onwards(w, By(p, m));
  }

  lemma PollingSpoils(w: World, p: nat, q: nat)
    requires Inv(w) && p in w.procs && q in w.procs && p != q && w.disk.evidence
    requires w.procs[p].pc.Polling? && w.procs[q].pc.Checked?
    ensures PullsAgain(w)
  {
    OverwritesThenPulls(w, p, q, Opens(GiveUp(Unknown, InfraExit)));
  }

  lemma PulledBackSpoils(w: World, p: nat, q: nat)
    requires Inv(w) && p in w.procs && q in w.procs && p != q && w.disk.evidence
    requires w.procs[p].pc.PulledBack? && w.procs[q].pc.Checked?
    ensures PullsAgain(w)
  {
    OverwritesThenPulls(w, p, q, Closes(Save));
  }

  lemma ProvedSpoils(w: World, p: nat, q: nat)
    requires Inv(w) && p in w.procs && q in w.procs && p != q && w.disk.evidence
    requires w.procs[p].pc.Proved? && w.procs[q].pc.Checked?
    ensures PullsAgain(w)
  {
    var m := Answers(LiftOnProof);
    ActKeepsInv(w, By(p, m));
    ProofLiftedSpoils(Do(w, By(p, m)).value, p, q);
    Onwards(w, By(p, m));
  }

  lemma ProofLiftedSpoils(w: World, p: nat, q: nat)
    requires Inv(w) && p in w.procs && q in w.procs && p != q && w.disk.evidence
    requires w.procs[p].pc.ProofLifted? && w.procs[q].pc.Checked?
    ensures PullsAgain(w)
  {
    OverwritesThenPulls(w, p, q, Answers(WriteNotStarted));
  }

  lemma LocksThenSpoils(w: World, p: nat, q: nat)
    requires Inv(w) && p in w.procs && q in w.procs && p != q && w.disk.evidence
    requires w.procs[p].pc.Checked? && w.procs[q].pc.Checked?
    ensures PullsAgain(w)
  {
    assert OneOk(w, q);
    var acts, v := CheckedLocks(w, p);
    LockedSpoils(v, p, q);
    OnwardsBy(w, acts);
  }

  lemma OverwritesThenPulls(w: World, p: nat, q: nat, m: Move)
    requires Inv(w) && q in w.procs && p != q && w.procs[q].pc.Checked?
    requires Do(w, By(p, m)).Some? && !Do(w, By(p, m)).value.disk.mark.Complete? && Do(w, By(p, m)).value.disk.evidence
    ensures PullsAgain(w)
  {
    ActKeepsInv(w, By(p, m));
    PastFencePulls(Do(w, By(p, m)).value, q);
    Onwards(w, By(p, m));
  }

  /** The launching controller is interrupted and its handler rewrites the summary. */
  lemma LauncherPulls(w: World, p: nat)
    requires Inv(w) && p in w.procs && LiveLauncher(w.procs[p]) && w.disk.evidence
    requires w.disk.hazard.Mine? || exists q :: q in w.procs && q != p && w.procs[q].pc.Checked?
    ensures PullsAgain(w)
  {
    var a := By(p, Exits(Handle(Interrupted)));
    var v := Do(w, a).value;
    ActKeepsInv(w, a);
    assert !Shows(v.disk.mark);
    if w.disk.hazard.Mine? {
      ExposedPulls(v);
    } else {
      var q :| q in w.procs && q != p && w.procs[q].pc.Checked?;
      PastFencePulls(v, q);
    }
    Onwards(w, a);
  }

  lemma CopyPulls(w: World, k: nat)
    requires Inv(w) && k in w.operators
    requires ThreatFromCopy(w.operators[k], w.disk) || exists p :: p in w.procs && Misleads(w.operators[k], w.procs[p], w.disk)
    ensures PullsAgain(w)
  {
    var a := WriteBack(k);
    var v := Do(w, a).value;
    ActKeepsInv(w, a);
    if ThreatFromCopy(w.operators[k], w.disk) {
      ExposedPulls(v);
    } else {
      var p :| p in w.procs && Misleads(w.operators[k], w.procs[p], w.disk);
      PastFencePulls(v, p);
    }
    Onwards(w, a);
  }

  lemma ThreatPulls(w: World, p: nat)
    requires Inv(w) && p in w.procs && Threat(w.procs[p], w.disk)
    ensures PullsAgain(w)
  {
    var pr := w.procs[p];
    if Committed(pr.pc) {
      CommittedPulls(w, p);
    } else if pr.pc.Asking? {
      AskingPulls(w, p);
    } else if PastFence(pr.pc) && !w.disk.mark.Complete? {
      PastFencePulls(w, p);
    } else if pr.pc.Unfinished? && w.disk.hazard.Mine? {
      UnfinishedPulls(w, p);
    } else {
      LauncherPulls(w, p);
    }
  }

  lemma ThreatenedPulls(w: World)
    requires Inv(w) && Threatened(w)
    ensures PullsAgain(w)
  {
    if Exposed(w.disk) {
      ExposedPulls(w);
    } else if p :| p in w.procs && Threat(w.procs[p], w.disk) {
      ThreatPulls(w, p);
    } else if p, q :| p in w.procs && q in w.procs && p != q && ThreatTogether(w.procs[p], w.procs[q], w.disk) {
      if LiveLauncher(w.procs[p]) {
        LauncherPulls(w, p);
      } else {
        SpoilerPulls(w, p, q);
      }
    } else if k :| k in w.operators && ThreatFromCopy(w.operators[k], w.disk) {
      CopyPulls(w, k);
    } else {
      var k, p :| k in w.operators && p in w.procs && Misleads(w.operators[k], w.procs[p], w.disk);
      CopyPulls(w, k);
    }
  }

  /** In a reachable world with a checkpoint, outputs can be pulled back again if and only if the world is
      threatened; and a world that is not stays so for good. */
  lemma PullsAgainIffThreatened(hazard: Hazard, acts: seq<Act>)
    requires !hazard.Mine? && After(Initial(hazard), acts).Some? && After(Initial(hazard), acts).value.disk.past.checkpoint.Some?
    ensures var w := After(Initial(hazard), acts).value; PullsAgain(w) <==> Threatened(w)
  {
    Reachable(hazard, acts);
    var w := After(Initial(hazard), acts).value;
    if Threatened(w) {
      ThreatenedPulls(w);
    } else {
      forall more, p | After(w, more).Some? ensures !PullsNext(After(w, more).value, p) {
        NoPullAfter(w, more, p);
      }
    }
  }

  lemma NoPullAfter(w: World, more: seq<Act>, p: nat)
    requires Inv(w) && w.disk.past.checkpoint.Some? && !Threatened(w) && After(w, more).Some?
    ensures !PullsNext(After(w, more).value, p)
  {
    StaysUnthreatened(w, more);
    var v := After(w, more).value;
    if PullsNext(v, p) {
      ByStaysUnthreatened(v, p, Closes(Pull(0)));
      assert false;
    }
  }

  /** A resume has written its checkpoint, no other process is alive, and no operator holds a copy that it
      will write back. */
  predicate Lone(w: World, p: nat) {
    && p in w.procs && !w.procs[p].launcher && w.procs[p].pc.Saved? && w.disk.mark.FinalizationComplete?
    && (forall q :: q in w.procs && q != p ==> w.procs[q].pc.Ended?)
    && (forall k :: k in w.operators ==> !Pending(w.operators[k]))
  }

  lemma LoneIsUnthreatened(w: World, p: nat)
    requires Lone(w, p)
    ensures !Threatened(w)
  {
    forall q | q in w.procs ensures !Threat(w.procs[q], w.disk) && !w.procs[q].pc.Checked? {
      assert q == p || w.procs[q].pc.Ended?;
    }
  }

  /** It has pulled back for the last time, whatever happens next. */
  lemma LoneResumeIsLast(hazard: Hazard, acts: seq<Act>, p: nat)
    requires !hazard.Mine? && After(Initial(hazard), acts).Some? && Lone(After(Initial(hazard), acts).value, p)
    ensures !PullsAgain(After(Initial(hazard), acts).value)
  {
    Reachable(hazard, acts);
    var w := After(Initial(hazard), acts).value;
    assert OneOk(w, p);
    LoneIsUnthreatened(w, p);
    PullsAgainIffThreatened(hazard, acts);
  }

  // ---- three ways into the threat ----

  /** `acts` lead to the world in which process `p` stands as `pr` and the others as `procs` has them. */
  ghost predicate Stands(acts: seq<Act>, procs: map<nat, Proc>, p: nat, pr: Proc, d: Disk, ops: map<nat, Operator>) {
    After(Initial(NoHazard), acts) == Some(World(d, procs[p := pr], ops))
  }

  lemma Then(acts: seq<Act>, w: World, a: Act, next: World) returns (longer: seq<Act>)
    requires After(Initial(NoHazard), acts) == Some(w) && Do(w, a) == Some(next)
    ensures After(Initial(NoHazard), longer) == Some(next)
  {
    longer := acts + [a];
    assert longer[..|acts|] == acts;
  }

  /** One more move of process `p`, other than taking the lock. */
  lemma ThenBy(acts: seq<Act>, procs: map<nat, Proc>, p: nat, pr: Proc, d: Disk, ops: map<nat, Operator>, m: Move, pr': Proc, d': Disk)
    returns (longer: seq<Act>)
    requires Stands(acts, procs, p, pr, d, ops) && !m.Resumes? && Step(p, pr, d, false, m) == Some(Effect(pr', d'))
    ensures Stands(longer, procs, p, pr', d', ops)
  {
    var w := World(d, procs[p := pr], ops);
    assert w.procs[p := pr'] == procs[p := pr'];
    longer := Then(acts, w, By(p, m), World(d', procs[p := pr'], ops));
  }

  const Launcher := Proc(true, true, Starting)
  const Resumer := Proc(false, false, Reading)

  function Waiting(): Disk { Initial(NoHazard).disk.(mark := Unknown, hazard := Mine, past := Initial(NoHazard).disk.past.(fenced := true)) }

  function Kept(): Disk { Waiting().(mark := FinalizationComplete(0), past := Waiting().past.(checkpoint := Some(0))) }

  /** The launching controller waits for its target. */
  lemma Launches() returns (acts: seq<Act>)
    ensures Stands(acts, map[], 0, Launcher.(pc := Polling), Waiting(), map[])
  {
    var d := Initial(NoHazard).disk;
    var d1 := d.(hazard := Mine, past := d.past.(fenced := true));
    assert map[][0 := Launcher] == map[0 := Launcher];
    acts := ThenBy([], map[], 0, Launcher, d, map[], Opens(WriteHazard), Launcher.(pc := Fenced), d1);
    acts := ThenBy(acts, map[], 0, Launcher.(pc := Fenced), d1, map[], Opens(Announce), Launcher.(pc := Announced), Waiting());
    acts := ThenBy(acts, map[], 0, Launcher.(pc := Announced), Waiting(), map[], Opens(LaunchOk), Launcher.(pc := Polling), Waiting());
  }

  /** It gets the result, pulls back and writes its checkpoint. */
  lemma Checkpoints(acts0: seq<Act>, procs: map<nat, Proc>, ops: map<nat, Operator>) returns (acts: seq<Act>)
    requires Stands(acts0, procs, 0, Launcher.(pc := Polling), Waiting(), ops)
    ensures Stands(acts, procs, 0, Launcher.(pc := Saved(0)), Kept(), ops)
  {
    var d := Waiting().(mark := CommandComplete);
    acts := GetsResult(acts0, procs, ops);
    acts := ThenBy(acts, procs, 0, Launcher.(pc := HasResult), Waiting(), ops, Answers(WriteCommandComplete), Launcher.(pc := Pulling), d);
    acts := ThenBy(acts, procs, 0, Launcher.(pc := Pulling), d, ops, Closes(Pull(0)), Launcher.(pc := PulledBack(0)), d);
    acts := ThenBy(acts, procs, 0, Launcher.(pc := PulledBack(0)), d, ops, Closes(Save), Launcher.(pc := Saved(0)), Kept());
  }

  lemma GetsResult(acts0: seq<Act>, procs: map<nat, Proc>, ops: map<nat, Operator>) returns (acts: seq<Act>)
    requires Stands(acts0, procs, 0, Launcher.(pc := Polling), Waiting(), ops)
    ensures Stands(acts, procs, 0, Launcher.(pc := HasResult), Waiting(), ops)
  {
    acts := ThenBy(acts0, procs, 0, Launcher.(pc := Polling), Waiting(), ops, Opens(SeeComplete), Launcher.(pc := Finalizing), Waiting());
    acts := ThenBy(acts, procs, 0, Launcher.(pc := Finalizing), Waiting(), ops, Opens(ReadExisting), Launcher.(pc := Asking), Waiting());
    acts := ThenBy(acts, procs, 0, Launcher.(pc := Asking), Waiting(), ops, Answers(AnswerResult), Launcher.(pc := HasResult), Waiting());
  }

  /** Handlers: the launching controller is interrupted between its checkpoint and the lifting of the
      fence. Its handler writes cancelled over the checkpoint, and a resume will pull back again. */
  lemma InterruptedAfterCheckpoint() returns (acts: seq<Act>, w: World)
    ensures After(Initial(NoHazard), acts) == Some(w)
    ensures w.disk.past.checkpoint.Some? && w.disk.past.rewritten && !w.disk.past.late && !w.disk.past.overwritten && PullsAgain(w)
  {
    acts := Launches();
    acts := Checkpoints(acts, map[], map[]);
    var d := Kept().(mark := Cancelled, lock := None, past := Kept().past.(rewritten := true));
    acts := ThenBy(acts, map[], 0, Launcher.(pc := Saved(0)), Kept(), map[], Exits(Handle(Interrupted)), Launcher.(pc := Ended(None)), d);
    w := World(d, map[][0 := Launcher.(pc := Ended(None))], map[]);
    PullsAgainIffThreatened(NoHazard, acts);
  }

  /** Overlap: a resume looks at summary and fence while the launching controller still waits. The
      controller checkpoints and dies, and the resume will adopt its lock and pull back again. */
  lemma OverlappingResume() returns (acts: seq<Act>, w: World)
    ensures After(Initial(NoHazard), acts) == Some(w)
    ensures w.disk.past.checkpoint.Some? && Orderly(w.disk) && PullsAgain(w)
  {
    var others := map[1 := Resumer.(pc := Checked)];
    acts := ResumeOverlaps();
    acts := Checkpoints(acts, others, map[]);
    acts := ThenBy(acts, others, 0, Launcher.(pc := Saved(0)), Kept(), map[], Exits(Die), Launcher.(pc := Ended(None)), Kept());
    w := World(Kept(), others[0 := Launcher.(pc := Ended(None))], map[]);
    assert 1 in w.procs && Threat(w.procs[1], w.disk);
    PullsAgainIffThreatened(NoHazard, acts);
  }

  lemma ResumeOverlaps() returns (acts: seq<Act>)
    ensures Stands(acts, map[1 := Resumer.(pc := Checked)], 0, Launcher.(pc := Polling), Waiting(), map[])
  {
    var l := Launcher.(pc := Polling);
    var d := Waiting();
    acts := Launches();
    assert map[][0 := l] == map[0 := l];
    acts := Then(acts, World(d, map[0 := l], map[]), StartResume(1), World(d, map[0 := l, 1 := Resumer], map[]));
    assert map[0 := l, 1 := Resumer][1 := Resumer.(pc := Unfinished)] == map[0 := l, 1 := Resumer.(pc := Unfinished)];
    acts := Then(acts, World(d, map[0 := l, 1 := Resumer], map[]), By(1, Resumes(ReadSummary)),
                 World(d, map[0 := l, 1 := Resumer.(pc := Unfinished)], map[]));
    assert map[0 := l, 1 := Resumer.(pc := Unfinished)][1 := Resumer.(pc := Checked)] == map[1 := Resumer.(pc := Checked)][0 := l];
    acts := Then(acts, World(d, map[0 := l, 1 := Resumer.(pc := Unfinished)], map[]), By(1, Resumes(CheckFence)),
                 World(d, map[1 := Resumer.(pc := Checked)][0 := l], map[]));
  }

  /** Resolution: an operator copies the summary while the launching controller still waits, and writes the
      copy back over the checkpoint. Both die, and a later resume will pull back again: no handler was
      involved, and no resume overlapped. */
  lemma StaleResolution() returns (acts: seq<Act>, w: World)
    ensures After(Initial(NoHazard), acts) == Some(w)
    ensures w.disk.past.checkpoint.Some? && w.disk.past.overwritten && !w.disk.past.rewritten && !w.disk.past.late && w.disk.mark.Unknown?
    ensures Quiet(w) && PullsAgain(w)
  {
    var l := map[][0 := Launcher.(pc := Ended(None))];
    var d := Kept().(mark := Unknown, past := Kept().past.(overwritten := true));
    var none: map<nat, Operator> := map[];
    acts := WritesBack();
    assert map[0 := Noted] - {0} == none;
    w := World(d, l, none);
    acts := Then(acts, World(d, l, map[0 := Noted]), GiveUpResolving(0), w);
    PullsAgainIffThreatened(NoHazard, acts);
  }

  lemma WritesBack() returns (acts: seq<Act>)
    ensures After(Initial(NoHazard), acts)
         == Some(World(Kept().(mark := Unknown, past := Kept().past.(overwritten := true)), map[][0 := Launcher.(pc := Ended(None))], map[0 := Noted]))
  {
    var copied: map<nat, Operator> := map[0 := Copied(Unknown, false)];
    var l := Launcher.(pc := Ended(None));
    acts := Copies();
    acts := Checkpoints(acts, map[], copied);
    acts := ThenBy(acts, map[], 0, Launcher.(pc := Saved(0)), Kept(), copied, Exits(Die), l, Kept());
    assert copied[0 := Noted] == map[0 := Noted];
    acts := Then(acts, World(Kept(), map[][0 := l], copied), WriteBack(0),
                 World(Kept().(mark := Unknown, past := Kept().past.(overwritten := true)), map[][0 := l], map[0 := Noted]));
  }

  lemma Copies() returns (acts: seq<Act>)
    ensures Stands(acts, map[], 0, Launcher.(pc := Polling), Waiting(), map[0 := Copied(Unknown, false)])
  {
    var procs := map[][0 := Launcher.(pc := Polling)];
    var none: map<nat, Operator> := map[];
    acts := Launches();
    assert none[0 := Looked] == map[0 := Looked] && map[0 := Looked][0 := Copied(Unknown, false)] == map[0 := Copied(Unknown, false)];
    acts := Then(acts, World(Waiting(), procs, none), Look(0), World(Waiting(), procs, map[0 := Looked]));
    acts := Then(acts, World(Waiting(), procs, map[0 := Looked]), Copy(0, false), World(Waiting(), procs, map[0 := Copied(Unknown, false)]));
  }
}
