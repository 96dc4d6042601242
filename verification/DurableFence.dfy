/** The fence of a durable run and those of the project's other runs. Resolving a hazard and recovering a
    finalized run compare the hazard file and unlink it in two steps without a lock
    (src/remrun/state.py, src/remrun/cli.py): when a fence can be taken that was not meant. */
module DurableFence {
  import opened Wrappers
  import opened DurableFinalize

  /** Before a finalization checkpoint, a proof that nothing started or an operator's resolution, the run's
      fence stands if and only if no command that meant another run's hazard has taken it. */
  lemma FenceLiftedOnProof(hazard: Hazard, acts: seq<Act>)
    requires !hazard.Mine? && After(Initial(hazard), acts).Some?
    ensures var d := After(Initial(hazard), acts).value.disk;
      d.past.fenced && d.past.checkpoint.None? && !d.past.proof && !d.past.resolved ==> (d.hazard.Mine? <==> !d.past.robbed)
  {
    Reachable(hazard, acts);
  }

  /** The disk accounts for the run: the fence stands, or the summary shows the checkpoint or says that
      nothing started. */
  predicate OnRecord(d: Disk) {
    d.hazard.Mine? || d.mark.FinalizationComplete? || d.mark.Complete? || (d.past.rejected && d.mark.NotStarted?)
  }

  /** In an orderly run that nobody resolved or robbed, the disk accounts for a fenced run if and only if
      its fence was not cleared on a proof of non-start that has not been written yet, and by a process
      that died in between never will be. */
  lemma OnlyAProofIsLost(hazard: Hazard, acts: seq<Act>)
    requires !hazard.Mine? && After(Initial(hazard), acts).Some?
    ensures var d := After(Initial(hazard), acts).value.disk;
      d.past.fenced && !d.past.resolved && !d.past.robbed && Orderly(d) ==>
        (OnRecord(d) <==> !(d.past.lifted && !d.past.rejected && d.past.checkpoint.None?))
  {
    Reachable(hazard, acts);
  }

  predicate Unlinks(a: Act) {
    a.Unlink? || (a.By? && a.move == Resumes(UnlinkFence))
  }

  /** Nothing done for this run takes another run's fence, except that a recovering resume or an operator
      unlinks the file after comparing it; and that always does. */
  lemma ForeignFenceTakenOnlyByUnlinking(hazard: Hazard, acts: seq<Act>, a: Act)
    requires !hazard.Mine? && After(Initial(hazard), acts).Some? && !IsForeign(a)
    requires var w := After(Initial(hazard), acts).value; w.disk.hazard.Foreign? && Do(w, a).Some?
    ensures var next := Do(After(Initial(hazard), acts).value, a).value.disk;
      && (!next.hazard.Foreign? <==> Unlinks(a))
      && (Unlinks(a) ==> next.hazard.NoHazard? && next.past.robbedOther)
  {
    Reachable(hazard, acts);
    var w := After(Initial(hazard), acts).value;
    match a {
      case By(p, m) => ForeignFenceBy(w, p, m);
      case _ => ForeignFenceByOthers(w, a);
    }
  }

  lemma ForeignFenceBy(w: World, p: nat, m: Move)
    requires Inv(w) && w.disk.hazard.Foreign? && Do(w, By(p, m)).Some?
    ensures var next := Do(w, By(p, m)).value.disk;
      && (!next.hazard.Foreign? <==> m == Resumes(UnlinkFence))
      && (m == Resumes(UnlinkFence) ==> next.hazard.NoHazard? && next.past.robbedOther)
  {
    assert OneOk(w, p);
    StepOnFence(p, w.procs[p], w.disk, LockFree(w), m);
    if m == Resumes(UnlinkFence) {
      UnlinkingRobs(p, w.procs[p], w.disk, LockFree(w));
    }
  }

  lemma UnlinkingRobs(p: nat, pr: Proc, d: Disk, free: bool)
    requires d.hazard.Foreign? && ResumeStep(p, pr, d, free, UnlinkFence).Some?
    ensures var d' := ResumeStep(p, pr, d, free, UnlinkFence).value.disk; d'.hazard.NoHazard? && d'.past.robbedOther
  {
  }

  lemma ForeignFenceByOthers(w: World, a: Act)
    requires w.disk.hazard.Foreign? && !a.By? && !IsForeign(a) && Do(w, a).Some?
    ensures var next := Do(w, a).value.disk;
      && (!next.hazard.Foreign? <==> a.Unlink?)
      && (a.Unlink? ==> next.hazard.NoHazard? && next.past.robbedOther)
  {
    match a {
      case StartResume(_) => case Look(_) => case Copy(_, _) => case WriteBack(_) => case SkipNote(_) =>
      case Aim(_) => case Unlink(_) => case GiveUpResolving(_) => case _ =>
    }
  }

  // ---- who can take a fence ----

  /** When the run writes its fence, no command of another run is about to unlink one. */
  ghost predicate Unaimed(w: World, acts: seq<Act>) {
    acts != [] ==>
      var n := |acts| - 1;
      && Unaimed(w, acts[..n])
      && (acts[n].By? && acts[n].move == Opens(WriteHazard) && After(w, acts[..n]).Some? ==> After(w, acts[..n]).value.disk.strays == 0)
  }

  predicate NotStalked(d: Disk) {
    !d.past.robbed && (d.hazard.Mine? ==> d.strays == 0)
  }

  lemma UnaimedStep(w: World, a: Act)
    requires Inv(w) && NotStalked(w.disk) && Do(w, a).Some?
    requires a.By? && a.move == Opens(WriteHazard) ==> w.disk.strays == 0
    ensures NotStalked(Do(w, a).value.disk)
  {
    match a {
      case By(p, m) =>
        assert OneOk(w, p);
        StepOnShared(p, w.procs[p], w.disk, LockFree(w), m);
        StepOnFence(p, w.procs[p], w.disk, LockFree(w), m);
      case StartResume(_) => case ForeignFence => case ForeignLift => case ForeignAim => case ForeignUnlink => case ForeignAbandon =>
      case Look(_) => case Copy(_, _) => case WriteBack(_) => case SkipNote(_) => case Aim(_) => case Unlink(_) => case GiveUpResolving(_) =>
    }
  }

  /** The run is robbed of its fence only by a command that was about to unlink another run's when this
      run wrote its own. */
  lemma {:induction false} RobbedOnlyUnderAim(hazard: Hazard, acts: seq<Act>)
    requires !hazard.Mine? && After(Initial(hazard), acts).Some? && Unaimed(Initial(hazard), acts)
    ensures NotStalked(After(Initial(hazard), acts).value.disk)
  {
    if acts != [] {
      var n := |acts| - 1;
      RobbedOnlyUnderAim(hazard, acts[..n]);
      Reachable(hazard, acts[..n]);
      UnaimedStep(After(Initial(hazard), acts[..n]).value, acts[n]);
    }
  }

  /** Whoever of this run is about to unlink the hazard still finds its own there. */
  predicate AimsTrue(w: World) {
    && !w.disk.past.robbedOther
    && (forall p :: p in w.procs && w.procs[p].pc.Aiming? ==> w.disk.hazard.Mine?)
    && (forall k :: k in w.operators && w.operators[k].Aimed? ==> w.disk.hazard.Mine?)
  }

  lemma AimsStayTrue(w: World, a: Act)
    requires Inv(w) && SeqInv(w) && AimsTrue(w) && NotStalked(w.disk) && Do(w, a).Some?
    ensures AimsTrue(Do(w, a).value)
  {
    match a {
      case By(p, m) => AimsStayTrueBy(w, p, m);
      case _ => AimsStayTrueOtherwise(w, a);
    }
  }

  lemma AimsStayTrueBy(w: World, p: nat, m: Move)
    requires Inv(w) && SeqInv(w) && AimsTrue(w) && Do(w, By(p, m)).Some?
    ensures AimsTrue(Do(w, By(p, m)).value)
  {
    var w' := Do(w, By(p, m)).value;
    assert OneOk(w, p);
    EndedStays(p, w.procs[p], w.disk, LockFree(w), m);
    StepOnShared(p, w.procs[p], w.disk, LockFree(w), m);
    StepOnFence(p, w.procs[p], w.disk, LockFree(w), m);
    assert w.operators == map[];
    forall q | q in w'.procs && w'.procs[q].pc.Aiming? ensures w'.disk.hazard.Mine? {
      assert q != p ==> w.procs[q].pc.Ended?;
    }
  }

  lemma AimsStayTrueOtherwise(w: World, a: Act)
    requires Inv(w) && SeqInv(w) && AimsTrue(w) && NotStalked(w.disk) && !a.By? && Do(w, a).Some?
    ensures AimsTrue(Do(w, a).value)
  {
    match a {
      case StartResume(_) => case ForeignFence => case ForeignLift => case ForeignAim => case ForeignUnlink => case ForeignAbandon =>
      case Look(_) => case Copy(_, _) => case WriteBack(_) => case SkipNote(_) => case Aim(_) => case Unlink(_) => case GiveUpResolving(_) =>
      case _ =>
    }
  }

  /** Resumes and resolutions that follow one another never take another run's fence, and lose their own
      to nobody, if no command of another run was about to unlink when the fence was written. */
  lemma {:induction false} OneAtATimeRobsNobody(hazard: Hazard, acts: seq<Act>)
    requires !hazard.Mine? && After(Initial(hazard), acts).Some?
    requires OneAtATime(Initial(hazard), acts) && Unaimed(Initial(hazard), acts)
    ensures var w := After(Initial(hazard), acts).value; AimsTrue(w) && NotStalked(w.disk)
  {
    RobbedOnlyUnderAim(hazard, acts);
    if acts != [] {
      var n := |acts| - 1;
      OneAtATimeRobsNobody(hazard, acts[..n]);
      Reachable(hazard, acts[..n]);
      SeqRun(hazard, acts[..n]);
      AimsStayTrue(After(Initial(hazard), acts[..n]).value, acts[n]);
    }
  }

  // ---- such runs exist ----

  ghost predicate Leads(hazard: Hazard, acts: seq<Act>, w: World)
    requires !hazard.Mine?
  {
    After(Initial(hazard), acts) == Some(w)
  }

  lemma Then(hazard: Hazard, acts: seq<Act>, w: World, a: Act, next: World) returns (longer: seq<Act>)
    requires !hazard.Mine? && Leads(hazard, acts, w) && Do(w, a) == Some(next)
    ensures Leads(hazard, longer, next)
  {
    longer := acts + [a];
    assert longer[..|acts|] == acts;
  }

  /** Two operators of another run have compared its hazard; the first unlinks it, this run writes its own,
      and the second unlinks that. */
  lemma FenceTaken() returns (acts: seq<Act>, w: World)
    ensures Leads(Foreign, acts, w)
    ensures w.disk.past.fenced && w.disk.past.checkpoint.None? && !w.disk.past.proof && !w.disk.past.resolved && w.disk.past.robbed && w.disk.hazard.NoHazard?
  {
    var start := Initial(Foreign);
    var d := start.disk;
    acts := Then(Foreign, [], start, ForeignAim, start.(disk := d.(strays := 1)));
    acts := Then(Foreign, acts, start.(disk := d.(strays := 1)), ForeignAim, start.(disk := d.(strays := 2)));
    var free := d.(hazard := NoHazard, strays := 1);
    acts := Then(Foreign, acts, start.(disk := d.(strays := 2)), ForeignUnlink, start.(disk := free));
    var fenced := World(free.(hazard := Mine, past := free.past.(fenced := true)), start.procs[0 := Proc(true, true, Fenced)], map[]);
    acts := Then(Foreign, acts, start.(disk := free), By(0, Opens(WriteHazard)), fenced);
    w := fenced.(disk := fenced.disk.(hazard := NoHazard, strays := 0, past := fenced.disk.past.(robbed := true)));
    acts := Then(Foreign, acts, fenced, ForeignUnlink, w);
  }

  /** The run is in doubt and its controller gone; two operators have compared its hazard. */
  function InDoubt(a: Operator, b: Operator): World {
    World(Left(), Gone(), map[0 := a, 1 := b])
  }

  function Left(): Disk {
    Initial(NoHazard).disk.(mark := Unknown, hazard := Mine, lock := None, past := Initial(NoHazard).disk.past.(fenced := true))
  }

  function Gone(): map<nat, Proc> {
    map[0 := Proc(true, true, Ended(Some(InfraExit)))]
  }

  lemma LaunchIsLost() returns (acts: seq<Act>)
    ensures Leads(NoHazard, acts, World(Left(), Gone(), map[]))
  {
    var held := Left().(lock := Some(0));
    var d := Initial(NoHazard).disk.(hazard := Mine, past := Initial(NoHazard).disk.past.(fenced := true));
    acts := ThenLaunching([], Starting, Initial(NoHazard).disk, Opens(WriteHazard), Fenced, d);
    acts := ThenLaunching(acts, Fenced, d, Opens(Announce), Announced, held);
    acts := ThenLaunching(acts, Announced, held, Opens(LaunchLost), Leaving(InfraExit), held);
    acts := ThenLaunching(acts, Leaving(InfraExit), held, Exits(Return), Ended(Some(InfraExit)), Left());
  }

  lemma ThenLaunching(acts: seq<Act>, pc: Pc, d: Disk, m: Move, pc': Pc, d': Disk) returns (longer: seq<Act>)
    requires Leads(NoHazard, acts, World(d, map[0 := Proc(true, true, pc)], map[]))
    requires !m.Resumes? && Step(0, Proc(true, true, pc), d, false, m) == Some(Effect(Proc(true, true, pc'), d'))
    ensures Leads(NoHazard, longer, World(d', map[0 := Proc(true, true, pc')], map[]))
  {
    assert map[0 := Proc(true, true, pc)][0 := Proc(true, true, pc')] == map[0 := Proc(true, true, pc')];
    longer := Then(NoHazard, acts, World(d, map[0 := Proc(true, true, pc)], map[]), By(0, m), World(d', map[0 := Proc(true, true, pc')], map[]));
  }

  /** The launching controller clears its fence on a refusal and dies before it has written so. */
  lemma ProofLost() returns (acts: seq<Act>, w: World)
    ensures Leads(NoHazard, acts, w) && Orderly(w.disk) && w.disk.past.lifted && w.disk.mark.Unknown? && w.disk.hazard.NoHazard?
    ensures Alone(w) && !OnRecord(w.disk)
  {
    var held := Left().(lock := Some(0));
    var d := Initial(NoHazard).disk.(hazard := Mine, past := Initial(NoHazard).disk.past.(fenced := true));
    acts := ThenLaunching([], Starting, Initial(NoHazard).disk, Opens(WriteHazard), Fenced, d);
    acts := ThenLaunching(acts, Fenced, d, Opens(Announce), Announced, held);
    var proved := held.(past := held.past.(proof := true));
    acts := ThenLaunching(acts, Announced, held, Opens(LaunchRefused(InfraExit)), Proved(InfraExit, false), proved);
    acts := ProofLifts(acts, proved);
    var lifted := proved.(hazard := NoHazard, past := proved.past.(lifted := true));
    w := World(lifted, map[0 := Proc(true, true, Ended(None))], map[]);
  }

  lemma ProofLifts(acts0: seq<Act>, proved: Disk) returns (acts: seq<Act>)
    requires Leads(NoHazard, acts0, World(proved, map[0 := Proc(true, true, Proved(InfraExit, false))], map[])) && proved.hazard.Mine?
    ensures Leads(NoHazard, acts, World(proved.(hazard := NoHazard, past := proved.past.(lifted := true)), map[0 := Proc(true, true, Ended(None))], map[]))
  {
    var lifted := proved.(hazard := NoHazard, past := proved.past.(lifted := true));
    acts := ThenLaunching(acts0, Proved(InfraExit, false), proved, Answers(LiftOnProof), ProofLifted(InfraExit, false), lifted);
    acts := ThenLaunching(acts, ProofLifted(InfraExit, false), lifted, Exits(Die), Ended(None), lifted);
  }

  lemma OneOperatorMoves(a: Operator, b: Operator, o: Operator)
    ensures map[0 := a, 1 := b][0 := o] == map[0 := o, 1 := b]
    ensures map[0 := a, 1 := b][1 := o] == map[0 := a, 1 := o]
  {
  }

  lemma BothLook() returns (acts: seq<Act>)
    ensures Leads(NoHazard, acts, InDoubt(Looked, Looked))
  {
    var none: map<nat, Operator> := map[];
    assert none[0 := Looked] == map[0 := Looked];
    assert map[0 := Looked][1 := Looked] == map[0 := Looked, 1 := Looked];
    acts := LaunchIsLost();
    acts := Then(NoHazard, acts, World(Left(), Gone(), none), Look(0), World(Left(), Gone(), map[0 := Looked]));
    acts := Then(NoHazard, acts, World(Left(), Gone(), map[0 := Looked]), Look(1), InDoubt(Looked, Looked));
  }

  lemma BothCopy() returns (acts: seq<Act>)
    ensures Leads(NoHazard, acts, InDoubt(Copied(Unknown, true), Copied(Unknown, true)))
  {
    var copied := Copied(Unknown, true);
    acts := BothLook();
    OneOperatorMoves(Looked, Looked, copied);
    acts := Then(NoHazard, acts, InDoubt(Looked, Looked), Copy(0, true), InDoubt(copied, Looked));
    OneOperatorMoves(copied, Looked, copied);
    acts := Then(NoHazard, acts, InDoubt(copied, Looked), Copy(1, true), InDoubt(copied, copied));
  }

  lemma BothSkip() returns (acts: seq<Act>)
    ensures Leads(NoHazard, acts, InDoubt(Noted, Noted))
  {
    var copied := Copied(Unknown, true);
    acts := BothCopy();
    OneOperatorMoves(copied, copied, Noted);
    acts := Then(NoHazard, acts, InDoubt(copied, copied), SkipNote(0), InDoubt(Noted, copied));
    OneOperatorMoves(Noted, copied, Noted);
    acts := Then(NoHazard, acts, InDoubt(Noted, copied), SkipNote(1), InDoubt(Noted, Noted));
  }

  lemma BothAim() returns (acts: seq<Act>)
    ensures Leads(NoHazard, acts, InDoubt(Aimed, Aimed))
  {
    acts := BothSkip();
    OneOperatorMoves(Noted, Noted, Aimed);
    acts := Then(NoHazard, acts, InDoubt(Noted, Noted), Aim(0), InDoubt(Aimed, Noted));
    OneOperatorMoves(Aimed, Noted, Aimed);
    acts := Then(NoHazard, acts, InDoubt(Aimed, Noted), Aim(1), InDoubt(Aimed, Aimed));
  }

  /** The first of two operators resolves this run, another run writes its fence, and the second operator
      unlinks that. */
  lemma ForeignFenceTaken() returns (acts: seq<Act>, w: World)
    ensures Leads(NoHazard, acts, w) && w.disk.past.robbedOther && w.disk.hazard.NoHazard?
  {
    var resolved := Left().(hazard := NoHazard, past := Left().past.(resolved := true));
    acts := BothAim();
    assert map[0 := Aimed, 1 := Aimed] - {1} == map[0 := Aimed];
    acts := Then(NoHazard, acts, InDoubt(Aimed, Aimed), Unlink(1), World(resolved, Gone(), map[0 := Aimed]));
    var fenced := World(resolved.(hazard := Foreign), Gone(), map[0 := Aimed]);
    acts := Then(NoHazard, acts, World(resolved, Gone(), map[0 := Aimed]), ForeignFence, fenced);
    w := World(resolved.(past := resolved.past.(robbedOther := true)), Gone(), fenced.operators - {0});
    acts := Then(NoHazard, acts, fenced, Unlink(0), w);
  }
}
