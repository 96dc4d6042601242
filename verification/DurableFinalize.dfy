/** Finalizing a durable run from its controller (src/remrun/cli.py). The launching controller, any
    number of resumes and any number of operators who resolve the run's hazard share the run's summary,
    the project's hazard file and its lock, and each of them may die between any two steps. What the
    target answers is arbitrary. */
module DurableFinalize {
  import opened Wrappers

  /** `completion_state` of the summary, with the exit code where the run is finalized. */
  datatype Mark =
    | NotStarted | Unknown | Detached | CommandComplete | FinalizationFailed | Cancelled | FailedEarly
    | FinalizationComplete(code: int) | Complete(code: int)

  datatype Hazard = NoHazard | Mine | Foreign

  /** History: the run's hazard was written; the exit code of the first finalization checkpoint; a proof
      of non-start arrived; a rejected or a complete summary was written; a resume took the lock after one
      of those; a handler of the launching controller rewrote the summary after one of those; outputs were
      pulled back after the checkpoint; an operator resolved the hazard; an operator's copy replaced
      another summary after one of those; the run's hazard was unlinked by a command that meant another
      run's; a hazard of another run was unlinked by a command that meant this one's; the run's hazard was
      cleared on a proof of non-start. */
  datatype Past = Past(
    fenced: bool, checkpoint: Option<int>, proof: bool, rejected: bool, completed: bool,
    late: bool, rewritten: bool, pulledLate: bool, resolved: bool, overwritten: bool,
    robbed: bool, robbedOther: bool, lifted: bool)

  /** What is on disk and on the target. `strays` counts the commands of other runs that have compared a
      hazard and not unlinked it yet. */
  datatype Disk = Disk(mark: Mark, hazard: Hazard, lock: Option<nat>, evidence: bool, strays: nat, past: Past)

  datatype Pc =
    // launching
    | Starting | Fenced | Announced
    // waiting for the target, under the lock
    | Polling | Finalizing | Asking
    // proof that nothing started; `clean` if the target holds evidence
    | Proved(code: int, clean: bool) | ProofLifted(code: int, clean: bool) | ProofWritten(code: int, clean: bool)
    // a result
    | HasResult | Pulling | PulledBack(code: int) | Saved(code: int) | Lifted(code: int)
    // the summary is complete
    | Finished(code: int) | CleanedUp(code: int)
    // resuming
    | Reading | Unfinished | Checked | Locked | Recovering(code: int) | Aiming(code: int)
    | Leaving(code: int)
    | Ended(result: Option<int>)

  datatype Proc = Proc(launcher: bool, locked: bool, pc: Pc)

  datatype Cause = Interrupted | Failed

  /** Up to the target's answer. */
  datatype Opening =
    | WriteHazard | Announce | LaunchOk | LaunchRefused(code: int) | LaunchLost
    | GiveUp(mark: Mark, code: int) | SeeComplete | ReadExisting

  /** From the answer to the checkpoint of the outcome or to the rejected summary. */
  datatype Answering =
    | AnswerNotStarted | AnswerResult
    | LiftOnProof | WriteNotStarted | CleanupNotStarted | DeferNotStarted | WriteCommandComplete

  /** From there to the complete summary. */
  datatype Closing = PullFails(code: int) | Pull(code: int) | Save | Lift | WriteComplete | Cleanup | Flag | Defer

  datatype Resuming = ReadSummary | CheckFence | TakeLock | LearnStatus | CompareFence | UnlinkFence

  datatype Exiting = Return | Raise | Handle(cause: Cause) | Die

  datatype Move = Opens(o: Opening) | Answers(a: Answering) | Closes(c: Closing) | Resumes(r: Resuming) | Exits(x: Exiting)

  const InfraExit := 4

  function Handled(m: Mark, cause: Cause): Mark {
    match m
    case CommandComplete => FinalizationFailed
    case Unknown => Unknown
    case _ => if cause.Interrupted? then Cancelled else FailedEarly
  }

  /** The run is over as far as its summary goes. */
  predicate Decided(d: Disk) {
    d.past.checkpoint.Some? || d.past.rejected
  }

  datatype Effect = Effect(proc: Proc, disk: Disk)

  function At(pr: Proc, pc: Pc, d: Disk): Option<Effect> { Some(Effect(pr.(pc := pc), d)) }

  function LockAfter(p: nat, d: Disk): Option<nat> {
    if d.lock == Some(p) then None else d.lock
  }

  function LiftMine(h: Hazard): Hazard {
    if h.Mine? then NoHazard else h
  }

  function OpenStep(pr: Proc, d: Disk, o: Opening): (e: Option<Effect>) {
    match o
    case WriteHazard => if pr.pc.Starting? && d.hazard.NoHazard? then At(pr, Fenced, d.(hazard := Mine, past := d.past.(fenced := true))) else None
    case Announce => if pr.pc.Fenced? then At(pr, Announced, d.(mark := Unknown)) else None
    case LaunchOk => if pr.pc.Announced? then At(pr, Polling, d) else None
    case LaunchRefused(code) => if pr.pc.Announced? then At(pr, Proved(code, false), d.(past := d.past.(proof := true))) else None
    case LaunchLost => if pr.pc.Announced? then At(pr, Leaving(InfraExit), d.(mark := Unknown)) else None
    case GiveUp(mark, code) =>
      if pr.pc.Polling? && (mark.Unknown? || mark.Detached?) then At(pr, Leaving(code), d.(mark := mark)) else None
    case SeeComplete => if pr.pc.Polling? then At(pr, Finalizing, d) else None
    case ReadExisting =>
      if pr.pc.Finalizing? then At(pr, if d.mark.Complete? then Leaving(d.mark.code) else Asking, d) else None
  }

  function AnswerStep(pr: Proc, d: Disk, a: Answering): (e: Option<Effect>) {
    match a
    case AnswerNotStarted => if pr.pc.Asking? && d.evidence then At(pr, Proved(InfraExit, true), d.(past := d.past.(proof := true))) else None
    case AnswerResult => if pr.pc.Asking? && d.evidence then At(pr, HasResult, d) else None
    case LiftOnProof =>
      if pr.pc.Proved? then At(pr, ProofLifted(pr.pc.code, pr.pc.clean), d.(hazard := LiftMine(d.hazard), past := d.past.(lifted := d.past.lifted || d.hazard.Mine?))) else None
    case WriteNotStarted =>
      if pr.pc.ProofLifted? then At(pr, ProofWritten(pr.pc.code, pr.pc.clean), d.(mark := NotStarted, past := d.past.(rejected := true))) else None
    case CleanupNotStarted =>
      if pr.pc.ProofWritten? && pr.pc.clean then At(pr, Leaving(pr.pc.code), d.(evidence := false)) else None
    case DeferNotStarted => if pr.pc.ProofWritten? then At(pr, Leaving(pr.pc.code), d) else None
    case WriteCommandComplete => if pr.pc.HasResult? then At(pr, Pulling, d.(mark := CommandComplete)) else None
  }

  function CloseStep(pr: Proc, d: Disk, c: Closing): (e: Option<Effect>) {
    match c
    case PullFails(code) => if pr.pc.Pulling? then At(pr, Leaving(code), d.(mark := FinalizationFailed)) else None
    case Pull(code) =>
      if pr.pc.Pulling? then At(pr, PulledBack(code), d.(past := d.past.(pulledLate := d.past.pulledLate || d.past.checkpoint.Some?))) else None
    case Save =>
      if pr.pc.PulledBack? then
        At(pr, Saved(pr.pc.code),
           d.(mark := FinalizationComplete(pr.pc.code), past := d.past.(checkpoint := if d.past.checkpoint.Some? then d.past.checkpoint else Some(pr.pc.code))))
      else None
    case Lift => if pr.pc.Saved? && d.hazard.Mine? then At(pr, Lifted(pr.pc.code), d.(hazard := NoHazard)) else None
    case WriteComplete =>
      if pr.pc.Lifted? then At(pr, Finished(pr.pc.code), d.(mark := Complete(pr.pc.code), past := d.past.(completed := true))) else None
    case Cleanup => if pr.pc.Finished? then At(pr, CleanedUp(pr.pc.code), d.(evidence := false)) else None
    case Flag => if pr.pc.CleanedUp? then At(pr, Leaving(pr.pc.code), d.(mark := Complete(pr.pc.code))) else None
    case Defer => if pr.pc.Finished? then At(pr, Leaving(pr.pc.code), d) else None
  }

  /** `lockFree` says that the lock is free or its holder is gone. */
  function ResumeStep(p: nat, pr: Proc, d: Disk, lockFree: bool, r: Resuming): (e: Option<Effect>) {
    match r
    case ReadSummary =>
      if pr.pc.Reading? then
        At(pr, match d.mark {
             case Complete(code) => Finished(code)
             case FinalizationComplete(code) => Recovering(code)
             case _ => Unfinished
           }, d)
      else None
    case CheckFence => if pr.pc.Unfinished? && d.hazard.Mine? then At(pr, Checked, d) else None
    case TakeLock =>
      if pr.pc.Checked? && lockFree then At(pr.(locked := true), Locked, d.(lock := Some(p), past := d.past.(late := d.past.late || Decided(d)))) else None
    case LearnStatus => if pr.pc.Locked? && d.evidence then At(pr, Polling, d) else None
    case CompareFence =>
      if !pr.pc.Recovering? || d.hazard.Foreign? then None
      else At(pr, if d.hazard.Mine? then Aiming(pr.pc.code) else Lifted(pr.pc.code), d)
    case UnlinkFence =>
      if pr.pc.Aiming? && !d.hazard.NoHazard? then
        At(pr, Lifted(pr.pc.code), d.(hazard := NoHazard, past := d.past.(robbedOther := d.past.robbedOther || d.hazard.Foreign?)))
      else None
  }

  function ExitStep(p: nat, pr: Proc, d: Disk, x: Exiting): (e: Option<Effect>) {
    match x
    case Return => if pr.pc.Leaving? then At(pr, Ended(Some(pr.pc.code)), d.(lock := LockAfter(p, d))) else None
    case Raise => if !pr.launcher && !pr.pc.Ended? then At(pr, Ended(None), d.(lock := LockAfter(p, d))) else None
    case Handle(cause) =>
      if pr.launcher && !pr.pc.Ended? then
        At(pr, Ended(None), d.(mark := Handled(d.mark, cause), lock := LockAfter(p, d), past := d.past.(rewritten := d.past.rewritten || Decided(d))))
      else None
    case Die => if !pr.pc.Ended? then At(pr, Ended(None), d) else None
  }

  /** One step of process `p`. */
  function Step(p: nat, pr: Proc, d: Disk, lockFree: bool, m: Move): (e: Option<Effect>) {
    match m
    case Opens(o) => OpenStep(pr, d, o)
    case Answers(a) => AnswerStep(pr, d, a)
    case Closes(c) => CloseStep(pr, d, c)
    case Resumes(r) => ResumeStep(p, pr, d, lockFree, r)
    case Exits(x) => ExitStep(p, pr, d, x)
  }

  // ---- one process ----

  /** Steps before the summary is decided; all of them are taken under the lock. */
  predicate Working(pc: Pc) {
    match pc
    case Starting => true case Fenced => true case Announced => true
    case Locked => true case Polling => true case Finalizing => true case Asking => true
    case Proved(_, _) => true case ProofLifted(_, _) => true
    case HasResult => true case Pulling => true case PulledBack(_) => true
    case _ => false
  }

  /** Steps that carry the exit code of a checkpoint. */
  predicate Carries(pc: Pc) {
    pc.Saved? || pc.Lifted? || pc.Finished? || pc.CleanedUp? || pc.Recovering? || pc.Aiming?
  }

  /** No accident but process death, and neither a resume nor a resolution that overlapped a finalization. */
  predicate Orderly(d: Disk) {
    !d.past.late && !d.past.rewritten && !d.past.overwritten
  }

  /** Steps that come after the fence was written. */
  predicate BehindFence(pc: Pc) {
    (Working(pc) && !pc.Starting?) || pc.ProofWritten? || Carries(pc) || pc.Checked?
  }

  /** Steps that come after the fence was lifted. */
  predicate FenceGone(pc: Pc) {
    pc.ProofLifted? || pc.ProofWritten? || pc.Lifted? || pc.Finished? || pc.CleanedUp?
  }

  /** Where a process stands towards lock and fence, in every run. */
  predicate Placed(p: nat, pr: Proc, d: Disk) {
    && (pr.pc.Starting? || pr.pc.Fenced? || pr.pc.Announced? ==> pr.launcher && d.past.checkpoint.None?)
    && (pr.pc.Reading? || pr.pc.Unfinished? || pr.pc.Checked? || pr.pc.Recovering? || pr.pc.Aiming? ==> !pr.launcher && !pr.locked)
    && (!pr.locked && !pr.pc.Ended? ==> d.lock != Some(p))
    && (BehindFence(pr.pc) ==> d.past.fenced)
    && (FenceGone(pr.pc) ==> !d.hazard.Mine?)
  }

  predicate FenceOnce(d: Disk) {
    && (d.past.completed || d.past.rejected ==> !d.hazard.Mine?)
    && (d.past.checkpoint.Some? || d.past.rejected ==> d.past.fenced)
  }

  /** What holds of a process in every run. */
  predicate ProcOk(p: nat, pr: Proc, d: Disk) {
    && (pr.locked && !pr.pc.Ended? ==> d.lock == Some(p))
    && (Working(pr.pc) || pr.pc.ProofWritten? || pr.launcher ==> pr.locked)
    && (Carries(pr.pc) ==> d.past.checkpoint.Some?)
    && (pr.pc.Proved? || pr.pc.ProofLifted? ==> d.past.proof)
    && (pr.pc.ProofWritten? ==> d.past.rejected)
    && (pr.pc.Finished? || pr.pc.CleanedUp? ==> d.past.completed)
    && (pr.pc.Starting? ==> !d.past.fenced)
  }

  /** What holds of it besides in orderly runs. */
  predicate OrderlyProc(pr: Proc, d: Disk) {
    && (Working(pr.pc) ==> !Decided(d))
    && (Carries(pr.pc) ==> d.past.checkpoint == Some(pr.pc.code))
    && (pr.pc.Finished? || pr.pc.CleanedUp? ==> d.mark == Complete(pr.pc.code))
    && (pr.pc.ProofWritten? ==> d.mark.NotStarted? && d.past.checkpoint.None?)
    && (pr.pc.Leaving? ==> (pr.locked || d.past.checkpoint == Some(pr.pc.code)) && (d.past.checkpoint.Some? ==> d.past.checkpoint.value == pr.pc.code))
  }

  /** What holds of the disk in every run. */
  predicate DiskOk(d: Disk) {
    && (d.mark.FinalizationComplete? || d.mark.Complete? ==> d.past.checkpoint.Some?)
    && (d.mark.Complete? ==> d.past.completed)
    && (d.past.completed ==> d.past.checkpoint.Some?)
    && (d.past.rejected ==> d.past.proof)
    && (d.past.fenced && !d.hazard.Mine? ==> d.past.checkpoint.Some? || d.past.lifted || d.past.resolved || d.past.robbed)
    && (d.past.lifted ==> d.past.fenced && !d.hazard.Mine? && d.past.proof)
    && (d.past.robbed ==> d.past.fenced && !d.hazard.Mine?)
    && (!d.evidence ==> d.past.completed || d.past.rejected)
    && (d.hazard.Mine? ==> d.past.fenced)
  }

  /** What holds of the disk besides in orderly runs: the checkpoint is in the summary to stay. */
  predicate OrderlyDisk(d: Disk) {
    && (d.past.checkpoint.Some? ==>
        (d.mark == FinalizationComplete(d.past.checkpoint.value) || d.mark == Complete(d.past.checkpoint.value)) && !d.past.rejected)
    && (!d.evidence && d.past.checkpoint.Some? ==> d.mark.Complete?)
    && (d.past.rejected ==> d.mark.NotStarted?)
    && !d.past.pulledLate
  }

  predicate AllOk(p: nat, pr: Proc, d: Disk) {
    ProcOk(p, pr, d) && DiskOk(d) && Placed(p, pr, d) && FenceOnce(d) && (Orderly(d) ==> OrderlyProc(pr, d) && OrderlyDisk(d))
  }

  lemma StepKeepsProc(p: nat, pr: Proc, d: Disk, free: bool, m: Move)
    requires AllOk(p, pr, d) && Step(p, pr, d, free, m).Some?
    ensures var e := Step(p, pr, d, free, m).value; ProcOk(p, e.proc, e.disk) && DiskOk(e.disk) && Placed(p, e.proc, e.disk) && FenceOnce(e.disk)
  {
    match m {
      case Opens(o) => StepKeepsProcOpening(p, pr, d, o);
      case Answers(a) => StepKeepsProcAnswering(p, pr, d, a);
      case Closes(c) => StepKeepsProcClosing(p, pr, d, c);
      case Resumes(r) => StepKeepsProcResuming(p, pr, d, free, r);
      case Exits(x) => StepKeepsProcExiting(p, pr, d, x);
    }
  }

  lemma StepKeepsProcOpening(p: nat, pr: Proc, d: Disk, o: Opening)
    requires AllOk(p, pr, d) && OpenStep(pr, d, o).Some?
    ensures var e := OpenStep(pr, d, o).value; ProcOk(p, e.proc, e.disk) && DiskOk(e.disk) && Placed(p, e.proc, e.disk) && FenceOnce(e.disk)
  {
    match o {
      case WriteHazard => case Announce => case LaunchOk => case LaunchRefused(_) => case LaunchLost =>
      case GiveUp(_, _) => case SeeComplete => case ReadExisting =>
    }
  }

  lemma StepKeepsProcAnswering(p: nat, pr: Proc, d: Disk, a: Answering)
    requires AllOk(p, pr, d) && AnswerStep(pr, d, a).Some?
    ensures var e := AnswerStep(pr, d, a).value; ProcOk(p, e.proc, e.disk) && DiskOk(e.disk) && Placed(p, e.proc, e.disk) && FenceOnce(e.disk)
  {
    match a {
      case AnswerNotStarted => case AnswerResult => case LiftOnProof => case WriteNotStarted =>
      case CleanupNotStarted => case DeferNotStarted => case WriteCommandComplete =>
    }
  }

  lemma StepKeepsProcClosing(p: nat, pr: Proc, d: Disk, c: Closing)
    requires AllOk(p, pr, d) && CloseStep(pr, d, c).Some?
    ensures var e := CloseStep(pr, d, c).value; ProcOk(p, e.proc, e.disk) && DiskOk(e.disk) && Placed(p, e.proc, e.disk) && FenceOnce(e.disk)
  {
    match c {
      case PullFails(_) => case Pull(_) => case Save => case Lift => case WriteComplete =>
      case Cleanup => case Flag => case Defer =>
    }
  }

  lemma StepKeepsProcResuming(p: nat, pr: Proc, d: Disk, free: bool, r: Resuming)
    requires AllOk(p, pr, d) && ResumeStep(p, pr, d, free, r).Some?
    ensures var e := ResumeStep(p, pr, d, free, r).value; ProcOk(p, e.proc, e.disk) && DiskOk(e.disk) && Placed(p, e.proc, e.disk) && FenceOnce(e.disk)
  {
    match r { case ReadSummary => case CheckFence => case TakeLock => case LearnStatus => case CompareFence => case UnlinkFence => }
  }

  lemma StepKeepsProcExiting(p: nat, pr: Proc, d: Disk, x: Exiting)
    requires AllOk(p, pr, d) && ExitStep(p, pr, d, x).Some?
    ensures var e := ExitStep(p, pr, d, x).value; ProcOk(p, e.proc, e.disk) && DiskOk(e.disk) && Placed(p, e.proc, e.disk) && FenceOnce(e.disk)
  {
    match x { case Return => case Raise => case Handle(_) => case Die => }
  }

  /** Once the summary is decided an orderly run only moves it to complete. */
  predicate MarkStays(d: Disk, d': Disk) {
    Decided(d) ==> d'.mark == d.mark || (d.past.checkpoint.Some? && d'.mark == Complete(d.past.checkpoint.value))
  }

  lemma StepKeepsOrder(p: nat, pr: Proc, d: Disk, free: bool, m: Move)
    requires AllOk(p, pr, d) && Step(p, pr, d, free, m).Some? && Orderly(Step(p, pr, d, free, m).value.disk)
    ensures var e := Step(p, pr, d, free, m).value; OrderlyProc(e.proc, e.disk) && OrderlyDisk(e.disk) && MarkStays(d, e.disk)
  {
    match m {
      case Opens(o) => StepKeepsOrderOpening(p, pr, d, o);
      case Answers(a) => StepKeepsOrderAnswering(p, pr, d, a);
      case Closes(c) => StepKeepsOrderClosing(p, pr, d, c);
      case Resumes(r) => StepKeepsOrderResuming(p, pr, d, free, r);
      case Exits(x) => StepKeepsOrderExiting(p, pr, d, x);
    }
  }

  lemma StepKeepsOrderOpening(p: nat, pr: Proc, d: Disk, o: Opening)
    requires AllOk(p, pr, d) && OpenStep(pr, d, o).Some? && Orderly(OpenStep(pr, d, o).value.disk)
    ensures var e := OpenStep(pr, d, o).value; OrderlyProc(e.proc, e.disk) && OrderlyDisk(e.disk) && MarkStays(d, e.disk)
  {
    match o {
      case WriteHazard => case Announce => case LaunchOk => case LaunchRefused(_) => case LaunchLost =>
      case GiveUp(_, _) => case SeeComplete => case ReadExisting =>
    }
  }

  lemma StepKeepsOrderAnswering(p: nat, pr: Proc, d: Disk, a: Answering)
    requires AllOk(p, pr, d) && AnswerStep(pr, d, a).Some? && Orderly(AnswerStep(pr, d, a).value.disk)
    ensures var e := AnswerStep(pr, d, a).value; OrderlyProc(e.proc, e.disk) && OrderlyDisk(e.disk) && MarkStays(d, e.disk)
  {
    match a {
      case AnswerNotStarted => case AnswerResult => case LiftOnProof => case WriteNotStarted =>
      case CleanupNotStarted => case DeferNotStarted => case WriteCommandComplete =>
    }
  }

  lemma StepKeepsOrderClosing(p: nat, pr: Proc, d: Disk, c: Closing)
    requires AllOk(p, pr, d) && CloseStep(pr, d, c).Some? && Orderly(CloseStep(pr, d, c).value.disk)
    ensures var e := CloseStep(pr, d, c).value; OrderlyProc(e.proc, e.disk) && OrderlyDisk(e.disk) && MarkStays(d, e.disk)
  {
    match c {
      case PullFails(_) => case Pull(_) => case Save => case Lift => case WriteComplete =>
      case Cleanup => case Flag => case Defer =>
    }
  }

  lemma StepKeepsOrderResuming(p: nat, pr: Proc, d: Disk, free: bool, r: Resuming)
    requires AllOk(p, pr, d) && ResumeStep(p, pr, d, free, r).Some? && Orderly(ResumeStep(p, pr, d, free, r).value.disk)
    ensures var e := ResumeStep(p, pr, d, free, r).value; OrderlyProc(e.proc, e.disk) && OrderlyDisk(e.disk) && MarkStays(d, e.disk)
  {
    match r { case ReadSummary => case CheckFence => case TakeLock => case LearnStatus => case CompareFence => case UnlinkFence => }
  }

  lemma StepKeepsOrderExiting(p: nat, pr: Proc, d: Disk, x: Exiting)
    requires AllOk(p, pr, d) && ExitStep(p, pr, d, x).Some? && Orderly(ExitStep(p, pr, d, x).value.disk)
    ensures var e := ExitStep(p, pr, d, x).value; OrderlyProc(e.proc, e.disk) && OrderlyDisk(e.disk) && MarkStays(d, e.disk)
  {
    match x { case Return => case Raise => case Handle(_) => case Die => }
  }

  /** The history only grows, and the first checkpoint stays the first. */
  predicate Grows(d: Disk, d': Disk) {
    && (d.past.checkpoint.Some? ==> d'.past.checkpoint == d.past.checkpoint)
    && (d.past.proof ==> d'.past.proof) && (d.past.rejected ==> d'.past.rejected) && (d.past.completed ==> d'.past.completed)
    && (d.past.late ==> d'.past.late) && (d.past.rewritten ==> d'.past.rewritten) && (d.past.overwritten ==> d'.past.overwritten) && (d.past.fenced ==> d'.past.fenced)
  }

  /** What process `p` can do to the shared files: it fences once, and decides the summary only
      under its lock. */
  predicate OnlyOwn(p: nat, pr: Proc, d: Disk, d': Disk) {
    && Grows(d, d')
    && (d'.lock == d.lock || d'.lock == Some(p) || (d.lock == Some(p) && d'.lock.None?))
    && (d'.hazard.Mine? ==> d.hazard.Mine? || !d.past.fenced)
    && (d.past.checkpoint.None? && d'.past.checkpoint.Some? ==> d.lock == Some(p))
    && (!d.past.rejected && d'.past.rejected ==> d.lock == Some(p))
    && (d'.past.fenced != d.past.fenced ==> d.lock == Some(p))
  }

  predicate IsHandle(m: Move) {
    m.Exits? && m.x.Handle?
  }

  lemma StepOnShared(p: nat, pr: Proc, d: Disk, free: bool, m: Move)
    requires AllOk(p, pr, d) && Step(p, pr, d, free, m).Some?
    ensures var e := Step(p, pr, d, free, m).value;
      && OnlyOwn(p, pr, d, e.disk) && (e.disk.past.rewritten ==> d.past.rewritten || IsHandle(m)) && (e.disk.lock != d.lock ==> d.lock == Some(p) || free)
  {
    match m {
      case Opens(o) => StepOnSharedOpening(p, pr, d, o);
      case Answers(a) => StepOnSharedAnswering(p, pr, d, a);
      case Closes(c) => StepOnSharedClosing(p, pr, d, c);
      case Resumes(r) => StepOnSharedResuming(p, pr, d, free, r);
      case Exits(x) => StepOnSharedExiting(p, pr, d, x);
    }
  }

  lemma StepOnSharedOpening(p: nat, pr: Proc, d: Disk, o: Opening)
    requires AllOk(p, pr, d) && OpenStep(pr, d, o).Some?
    ensures var e := OpenStep(pr, d, o).value;
      && OnlyOwn(p, pr, d, e.disk) && (e.disk.past.rewritten ==> d.past.rewritten) && (e.disk.lock != d.lock ==> d.lock == Some(p))
  {
    match o {
      case WriteHazard => case Announce => case LaunchOk => case LaunchRefused(_) => case LaunchLost =>
      case GiveUp(_, _) => case SeeComplete => case ReadExisting =>
    }
  }

  lemma StepOnSharedAnswering(p: nat, pr: Proc, d: Disk, a: Answering)
    requires AllOk(p, pr, d) && AnswerStep(pr, d, a).Some?
    ensures var e := AnswerStep(pr, d, a).value;
      && OnlyOwn(p, pr, d, e.disk) && (e.disk.past.rewritten ==> d.past.rewritten) && (e.disk.lock != d.lock ==> d.lock == Some(p))
  {
    match a {
      case AnswerNotStarted => case AnswerResult => case LiftOnProof => case WriteNotStarted =>
      case CleanupNotStarted => case DeferNotStarted => case WriteCommandComplete =>
    }
  }

  lemma StepOnSharedClosing(p: nat, pr: Proc, d: Disk, c: Closing)
    requires AllOk(p, pr, d) && CloseStep(pr, d, c).Some?
    ensures var e := CloseStep(pr, d, c).value;
      && OnlyOwn(p, pr, d, e.disk) && (e.disk.past.rewritten ==> d.past.rewritten) && (e.disk.lock != d.lock ==> d.lock == Some(p))
  {
    match c {
      case PullFails(_) => case Pull(_) => case Save => case Lift => case WriteComplete =>
      case Cleanup => case Flag => case Defer =>
    }
  }

  lemma StepOnSharedResuming(p: nat, pr: Proc, d: Disk, free: bool, r: Resuming)
    requires AllOk(p, pr, d) && ResumeStep(p, pr, d, free, r).Some?
    ensures var e := ResumeStep(p, pr, d, free, r).value;
      && OnlyOwn(p, pr, d, e.disk) && (e.disk.past.rewritten ==> d.past.rewritten) && (e.disk.lock != d.lock ==> d.lock == Some(p) || free)
  {
    match r { case ReadSummary => case CheckFence => case TakeLock => case LearnStatus => case CompareFence => case UnlinkFence => }
  }

  lemma StepOnSharedExiting(p: nat, pr: Proc, d: Disk, x: Exiting)
    requires AllOk(p, pr, d) && ExitStep(p, pr, d, x).Some?
    ensures var e := ExitStep(p, pr, d, x).value;
      && OnlyOwn(p, pr, d, e.disk) && (e.disk.past.rewritten ==> d.past.rewritten || x.Handle?) && (e.disk.lock != d.lock ==> d.lock == Some(p))
  {
    match x { case Return => case Raise => case Handle(_) => case Die => }
  }

  /** What a move does to the fence: only one move writes it, and only one takes whatever stands there,
      after having compared it. */
  predicate OnFence(d: Disk, e: Effect, writes: bool, unlinks: bool) {
    && (e.disk.hazard.Mine? ==> d.hazard.Mine? || writes)
    && (d.hazard.Foreign? ==> (e.disk.hazard.Foreign? <==> !unlinks))
    && (e.proc.pc.Aiming? ==> e.disk.hazard.Mine?)
    && e.disk.strays == d.strays && e.disk.past.robbed == d.past.robbed
    && (e.disk.past.robbedOther ==> d.past.robbedOther || (unlinks && d.hazard.Foreign?))
  }

  lemma StepOnFence(p: nat, pr: Proc, d: Disk, free: bool, m: Move)
    requires Placed(p, pr, d) && Step(p, pr, d, free, m).Some?
    ensures OnFence(d, Step(p, pr, d, free, m).value, m == Opens(WriteHazard), m == Resumes(UnlinkFence))
  {
    match m {
      case Opens(o) => OpeningOnFence(p, pr, d, o);
      case Answers(a) => AnsweringOnFence(p, pr, d, a);
      case Closes(c) => ClosingOnFence(p, pr, d, c);
      case Resumes(r) => ResumingOnFence(p, pr, d, free, r);
      case Exits(x) => ExitingOnFence(p, pr, d, x);
    }
  }

  lemma OpeningOnFence(p: nat, pr: Proc, d: Disk, o: Opening)
    requires Placed(p, pr, d) && OpenStep(pr, d, o).Some?
    ensures OnFence(d, OpenStep(pr, d, o).value, o == WriteHazard, false)
  {
    match o {
      case WriteHazard => case Announce => case LaunchOk => case LaunchRefused(_) => case LaunchLost =>
      case GiveUp(_, _) => case SeeComplete => case ReadExisting =>
    }
  }

  lemma AnsweringOnFence(p: nat, pr: Proc, d: Disk, a: Answering)
    requires Placed(p, pr, d) && AnswerStep(pr, d, a).Some?
    ensures OnFence(d, AnswerStep(pr, d, a).value, false, false)
  {
    match a {
      case AnswerNotStarted => case AnswerResult => case LiftOnProof => case WriteNotStarted =>
      case CleanupNotStarted => case DeferNotStarted => case WriteCommandComplete =>
    }
  }

  lemma ClosingOnFence(p: nat, pr: Proc, d: Disk, c: Closing)
    requires Placed(p, pr, d) && CloseStep(pr, d, c).Some?
    ensures OnFence(d, CloseStep(pr, d, c).value, false, false)
  {
    match c {
      case PullFails(_) => case Pull(_) => case Save => case Lift => case WriteComplete =>
      case Cleanup => case Flag => case Defer =>
    }
  }

  lemma ResumingOnFence(p: nat, pr: Proc, d: Disk, free: bool, r: Resuming)
    requires Placed(p, pr, d) && ResumeStep(p, pr, d, free, r).Some?
    ensures OnFence(d, ResumeStep(p, pr, d, free, r).value, false, r == UnlinkFence)
  {
    match r { case ReadSummary => case CheckFence => case TakeLock => case LearnStatus => case CompareFence => case UnlinkFence => }
  }

  lemma ExitingOnFence(p: nat, pr: Proc, d: Disk, x: Exiting)
    requires Placed(p, pr, d) && ExitStep(p, pr, d, x).Some?
    ensures OnFence(d, ExitStep(p, pr, d, x).value, false, false)
  {
    match x { case Return => case Raise => case Handle(_) => case Die => }
  }

  lemma OthersKeepOk(q: nat, other: Proc, p: nat, pr: Proc, d: Disk, d': Disk)
    requires p != q && ProcOk(q, other, d) && Placed(q, other, d) && OnlyOwn(p, pr, d, d')
    requires other.locked && !other.pc.Ended? ==> d'.lock == d.lock
    requires (Orderly(d) ==> OrderlyProc(other, d)) && (Orderly(d') ==> MarkStays(d, d'))
    ensures ProcOk(q, other, d') && Placed(q, other, d')
    ensures Orderly(d') ==> OrderlyProc(other, d')
  {
  }

  // ---- all processes ----

  /** How far a command that resolves the run's hazard has got: it looks at the hazard, copies the
      summary, which may carry the note of a resolution already, writes its copy back if it does not,
      reads the hazard once more, and then unlinks the file, whatever is in it by then. It takes no lock. */
  datatype Operator = Looked | Copied(mark: Mark, noted: bool) | Noted | Aimed

  datatype World = World(disk: Disk, procs: map<nat, Proc>, operators: map<nat, Operator>)

  datatype Act =
    | StartResume(p: nat)
    | By(p: nat, move: Move)
    | ForeignFence            // another run of the project writes its hazard
    | ForeignLift             // and clears it
    | ForeignAim              // an operator of the other run compares it,
    | ForeignUnlink           // and unlinks the file
    | ForeignAbandon
    | Look(k: nat)
    | Copy(k: nat, noted: bool)
    | WriteBack(k: nat)
    | SkipNote(k: nat)
    | Aim(k: nat)
    | Unlink(k: nat)
    | GiveUpResolving(k: nat) // the operator's command fails or dies

  /** The launching controller is process 0 and holds the lock; the preflight receipt is on disk. */
  function Initial(hazard: Hazard): World
    requires !hazard.Mine?
  {
    World(Disk(NotStarted, hazard, Some(0), true, 0,
               Past(false, None, false, false, false, false, false, false, false, false, false, false, false)),
          map[0 := Proc(true, true, Starting)], map[])
  }

  predicate LockFree(w: World) {
    w.disk.lock.None? || (w.disk.lock.value in w.procs && w.procs[w.disk.lock.value].pc.Ended?)
  }

  /** What writing a copy back does to the disk. */
  function Backdated(d: Disk, copy: Mark): Disk {
    d.(mark := copy, past := d.past.(overwritten := d.past.overwritten || (Decided(d) && copy != d.mark)))
  }

  function Do(w: World, a: Act): (r: Option<World>) {
    match a
    case StartResume(p) =>
      if p !in w.procs then Some(w.(procs := w.procs[p := Proc(false, false, Reading)])) else None
    case By(p, m) =>
      if p !in w.procs then None
      else
        var e := Step(p, w.procs[p], w.disk, LockFree(w), m);
        if e.Some? then Some(World(e.value.disk, w.procs[p := e.value.proc], w.operators)) else None
    case ForeignFence => if w.disk.hazard.NoHazard? && w.disk.lock.None? then Some(w.(disk := w.disk.(hazard := Foreign))) else None
    case ForeignLift => if w.disk.hazard.Foreign? then Some(w.(disk := w.disk.(hazard := NoHazard))) else None
    case ForeignAim => if w.disk.hazard.Foreign? then Some(w.(disk := w.disk.(strays := w.disk.strays + 1))) else None
    case ForeignUnlink =>
      if w.disk.strays > 0 && !w.disk.hazard.NoHazard? then
        Some(w.(disk := w.disk.(hazard := NoHazard, strays := w.disk.strays - 1, past := w.disk.past.(robbed := w.disk.past.robbed || w.disk.hazard.Mine?))))
      else None
    case ForeignAbandon => if w.disk.strays > 0 then Some(w.(disk := w.disk.(strays := w.disk.strays - 1))) else None
    case Look(k) =>
      if k !in w.operators && w.disk.hazard.Mine? then Some(w.(operators := w.operators[k := Looked])) else None
    case Copy(k, noted) =>
      if k in w.operators && w.operators[k].Looked? then Some(w.(operators := w.operators[k := Copied(w.disk.mark, noted)])) else None
    case WriteBack(k) =>
      if k in w.operators && w.operators[k].Copied? && !w.operators[k].noted then
        Some(World(Backdated(w.disk, w.operators[k].mark), w.procs, w.operators[k := Noted]))
      else None
    case SkipNote(k) =>
      if k in w.operators && w.operators[k].Copied? && w.operators[k].noted then Some(w.(operators := w.operators[k := Noted])) else None
    case Aim(k) =>
      if k in w.operators && w.operators[k].Noted? && w.disk.hazard.Mine? then Some(w.(operators := w.operators[k := Aimed])) else None
    case Unlink(k) =>
      if k in w.operators && w.operators[k].Aimed? && !w.disk.hazard.NoHazard? then
        Some(World(Unfenced(w.disk), w.procs, w.operators - {k}))
      else None
    case GiveUpResolving(k) => if k in w.operators then Some(w.(operators := w.operators - {k})) else None
  }

  /** What an operator of this run does to the disk by unlinking the hazard. */
  function Unfenced(d: Disk): Disk {
    d.(hazard := NoHazard, past := d.past.(resolved := d.past.resolved || d.hazard.Mine?, robbedOther := d.past.robbedOther || d.hazard.Foreign?))
  }

  predicate OneOk(w: World, p: nat)
    requires p in w.procs
  {
    && ProcOk(p, w.procs[p], w.disk) && Placed(p, w.procs[p], w.disk)
    && (Orderly(w.disk) ==> OrderlyProc(w.procs[p], w.disk))
  }

  predicate DisksOk(d: Disk) {
    DiskOk(d) && FenceOnce(d) && (Orderly(d) ==> OrderlyDisk(d))
  }

  /** A copy of a checkpoint proves the checkpoint. */
  predicate CopyOk(o: Operator, d: Disk) {
    o.Copied? ==>
      && (o.mark.FinalizationComplete? || o.mark.Complete? ==> d.past.checkpoint.Some?)
      && (o.mark.Complete? ==> d.past.completed)
  }

  predicate Inv(w: World) {
    && DisksOk(w.disk)
    && (forall p :: p in w.procs ==> OneOk(w, p))
    && (forall k :: k in w.operators ==> CopyOk(w.operators[k], w.disk))
    && (w.disk.lock.Some? ==> w.disk.lock.value in w.procs)
  }

  lemma StepKeepsInv(w: World, p: nat, m: Move, e: Effect)
    requires Inv(w) && p in w.procs && Step(p, w.procs[p], w.disk, LockFree(w), m) == Some(e)
    ensures Inv(World(e.disk, w.procs[p := e.proc], w.operators))
  {
    var pr, d, free := w.procs[p], w.disk, LockFree(w);
    assert OneOk(w, p);
    StepKeepsProc(p, pr, d, free, m);
    StepOnShared(p, pr, d, free, m);
    if Orderly(e.disk) {
      StepKeepsOrder(p, pr, d, free, m);
    }
    OneChanged(w, p, e);
  }

  lemma OneChanged(w: World, p: nat, e: Effect)
    requires Inv(w) && p in w.procs && OnlyOwn(p, w.procs[p], w.disk, e.disk)
    requires e.disk.lock != w.disk.lock ==> w.disk.lock == Some(p) || LockFree(w)
    requires ProcOk(p, e.proc, e.disk) && Placed(p, e.proc, e.disk) && DisksOk(e.disk) && (Orderly(e.disk) ==> OrderlyProc(e.proc, e.disk) && MarkStays(w.disk, e.disk))
    ensures Inv(World(e.disk, w.procs[p := e.proc], w.operators))
  {
    var w' := World(e.disk, w.procs[p := e.proc], w.operators);
    forall q | q in w'.procs ensures OneOk(w', q) {
      if q != p {
        OtherUnchanged(w, p, q, e.disk);
      }
    }
    forall k | k in w'.operators ensures CopyOk(w'.operators[k], w'.disk) {
      assert CopyOk(w.operators[k], w.disk);
    }
  }

  lemma OtherUnchanged(w: World, p: nat, q: nat, d': Disk)
    requires Inv(w) && p in w.procs && q in w.procs && p != q && OnlyOwn(p, w.procs[p], w.disk, d')
    requires (d'.lock != w.disk.lock ==> w.disk.lock == Some(p) || LockFree(w)) && (Orderly(d') ==> MarkStays(w.disk, d'))
    ensures ProcOk(q, w.procs[q], d') && Placed(q, w.procs[q], d') && (Orderly(d') ==> OrderlyProc(w.procs[q], d'))
  {
    assert OneOk(w, q);
    OthersKeepOk(q, w.procs[q], p, w.procs[p], w.disk, d');
  }

  /** A change of the disk by no process at all. */
  lemma DiskChanged(w: World, d': Disk, operators': map<nat, Operator>)
    requires Inv(w) && DisksOk(d') && d'.lock == w.disk.lock && Grows(w.disk, d')
    requires d'.past.checkpoint == w.disk.past.checkpoint && d'.past.rejected == w.disk.past.rejected && d'.past.fenced == w.disk.past.fenced
    requires d'.hazard.Mine? ==> w.disk.hazard.Mine?
    requires Orderly(d') && Decided(w.disk) ==> d'.mark == w.disk.mark
    requires forall k :: k in operators' ==> k in w.operators && (operators'[k] == w.operators[k] || !operators'[k].Copied?)
    ensures Inv(World(d', w.procs, operators'))
  {
    var w' := World(d', w.procs, operators');
    forall q | q in w'.procs ensures OneOk(w', q) {
      assert OneOk(w, q);
    }
    forall k | k in w'.operators ensures CopyOk(w'.operators[k], w'.disk) {
      assert CopyOk(w.operators[k], w.disk);
    }
  }

  /** A change of the operators alone. */
  lemma OperatorChanged(w: World, k: nat, o: Operator)
    requires Inv(w) && (o.Copied? ==> o.mark == w.disk.mark)
    ensures Inv(w.(operators := w.operators[k := o]))
  {
    var w' := w.(operators := w.operators[k := o]);
    forall q | q in w'.procs ensures OneOk(w', q) {
      assert OneOk(w, q);
    }
    forall j | j in w'.operators ensures CopyOk(w'.operators[j], w'.disk) {
      assert j != k ==> CopyOk(w.operators[j], w.disk);
    }
  }

  lemma WriteBackKeepsDisk(d: Disk, o: Operator)
    requires DisksOk(d) && o.Copied? && CopyOk(o, d)
    ensures DisksOk(Backdated(d, o.mark))
  {
  }

  lemma ResumeStarted(w: World, p: nat)
    requires Inv(w) && p !in w.procs
    ensures Inv(w.(procs := w.procs[p := Proc(false, false, Reading)]))
  {
    var w' := w.(procs := w.procs[p := Proc(false, false, Reading)]);
    forall q | q in w'.procs ensures OneOk(w', q) {
      assert q in w.procs ==> OneOk(w, q);
    }
  }

  lemma ActKeepsInv(w: World, a: Act)
    requires Inv(w) && Do(w, a).Some?
    ensures Inv(Do(w, a).value)
  {
    match a {
      case By(p, m) => ByKeepsInv(w, p, m);
      case StartResume(p) => ResumeStarted(w, p);
      case ForeignFence => ForeignKeepsInv(w, a);
      case ForeignLift => ForeignKeepsInv(w, a);
      case ForeignAim => ForeignKeepsInv(w, a);
      case ForeignUnlink => ForeignKeepsInv(w, a);
      case ForeignAbandon => ForeignKeepsInv(w, a);
      case Look(_) => OperatorKeepsInv(w, a);
      case Copy(_, _) => OperatorKeepsInv(w, a);
      case SkipNote(_) => OperatorKeepsInv(w, a);
      case Aim(_) => OperatorKeepsInv(w, a);
      case WriteBack(k) => WriteBackKeepsInv(w, k);
      case Unlink(k) => UnlinkKeepsInv(w, k);
      case GiveUpResolving(k) => DiskChanged(w, w.disk, w.operators - {k});
    }
  }

  lemma ByKeepsInv(w: World, p: nat, m: Move)
    requires Inv(w) && Do(w, By(p, m)).Some?
    ensures Inv(Do(w, By(p, m)).value)
  {
    StepKeepsInv(w, p, m, Step(p, w.procs[p], w.disk, LockFree(w), m).value);
  }

  predicate IsForeign(a: Act) {
    a.ForeignFence? || a.ForeignLift? || a.ForeignAim? || a.ForeignUnlink? || a.ForeignAbandon?
  }

  lemma ForeignKeepsInv(w: World, a: Act)
    requires Inv(w) && IsForeign(a) && Do(w, a).Some?
    ensures Inv(Do(w, a).value)
  {
    DiskChanged(w, Do(w, a).value.disk, w.operators);
  }

  lemma OperatorKeepsInv(w: World, a: Act)
    requires Inv(w) && (a.Look? || a.Copy? || a.SkipNote? || a.Aim?) && Do(w, a).Some?
    ensures Inv(Do(w, a).value)
  {
    OperatorChanged(w, a.k, Do(w, a).value.operators[a.k]);
  }

  lemma WriteBackKeepsInv(w: World, k: nat)
    requires Inv(w) && Do(w, WriteBack(k)).Some?
    ensures Inv(Do(w, WriteBack(k)).value)
  {
    WriteBackKeepsDisk(w.disk, w.operators[k]);
    DiskChanged(w, Backdated(w.disk, w.operators[k].mark), w.operators[k := Noted]);
  }

  lemma UnlinkKeepsInv(w: World, k: nat)
    requires Inv(w) && Do(w, Unlink(k)).Some?
    ensures Inv(Do(w, Unlink(k)).value)
  {
    DiskChanged(w, Unfenced(w.disk), w.operators - {k});
  }

  function After(w: World, acts: seq<Act>): Option<World> {
    if acts == [] then Some(w)
    else
      var n := |acts| - 1;
      var before := After(w, acts[..n]);
      if before.Some? then Do(before.value, acts[n]) else None
  }

  lemma {:induction false} RunKeepsInv(w: World, acts: seq<Act>)
    requires Inv(w) && After(w, acts).Some?
    ensures Inv(After(w, acts).value)
  {
    if acts != [] {
      var n := |acts| - 1;
      RunKeepsInv(w, acts[..n]);
      ActKeepsInv(After(w, acts[..n]).value, acts[n]);
    }
  }

  lemma Reachable(hazard: Hazard, acts: seq<Act>)
    requires !hazard.Mine? && After(Initial(hazard), acts).Some?
    ensures Inv(After(Initial(hazard), acts).value)
  {
    assert OneOk(Initial(hazard), 0);
    RunKeepsInv(Initial(hazard), acts);
  }

  // ---- what holds under every interleaving ----

  /** Target evidence goes only after a complete or a rejected summary was written; in an orderly run
      that summary is still the one on disk. */
  lemma EvidenceKept(hazard: Hazard, acts: seq<Act>)
    requires !hazard.Mine? && After(Initial(hazard), acts).Some?
    ensures var d := After(Initial(hazard), acts).value.disk; !d.evidence ==>
      && (d.past.completed || d.past.rejected)
      && (Orderly(d) ==> d.mark.Complete? || d.mark.NotStarted?)
  {
    Reachable(hazard, acts);
  }

  // ---- what holds in orderly runs ----

  /** Once a checkpoint exists in an orderly run it is what the summary says, no process is left that could
      pull back, and whoever returns returns its exit code. */
  lemma CheckpointIsFinal(hazard: Hazard, acts: seq<Act>, p: nat, m: Move)
    requires !hazard.Mine? && After(Initial(hazard), acts).Some?
    requires var w := After(Initial(hazard), acts).value;
      Orderly(w.disk) && w.disk.past.checkpoint.Some? && Do(w, By(p, m)).Some?
    ensures var w := After(Initial(hazard), acts).value; var code := w.disk.past.checkpoint.value;
      && (w.disk.mark == FinalizationComplete(code) || w.disk.mark == Complete(code))
      && !w.disk.past.pulledLate && !Pulls(m) && m != Answers(WriteCommandComplete)
      && (m == Exits(Return) ==> Do(w, By(p, m)).value.procs[p].pc == Ended(Some(code)))
  {
    Reachable(hazard, acts);
    var w := After(Initial(hazard), acts).value;
    assert OneOk(w, p);
    OnlyCheckpointedMoves(p, w.procs[p], w.disk, LockFree(w), m);
  }

  predicate Pulls(m: Move) {
    m.Closes? && m.c.Pull?
  }

  lemma OnlyCheckpointedMoves(p: nat, pr: Proc, d: Disk, free: bool, m: Move)
    requires OrderlyProc(pr, d) && d.past.checkpoint.Some? && Step(p, pr, d, free, m).Some?
    ensures !Pulls(m) && m != Answers(WriteCommandComplete)
    ensures m == Exits(Return) ==> Step(p, pr, d, free, m).value.proc.pc == Ended(Some(d.past.checkpoint.value))
  {
  }

  // ---- resumes one after another ----

  predicate Alone(w: World) {
    forall p :: p in w.procs ==> w.procs[p].pc.Ended?
  }

  /** A resume or a resolution starts only when every earlier one has returned, failed or died. */
  ghost predicate OneAtATime(w: World, acts: seq<Act>) {
    acts != [] ==>
      var n := |acts| - 1;
      && OneAtATime(w, acts[..n])
      && ((acts[n].StartResume? || acts[n].Look?) && After(w, acts[..n]).Some? ==> Quiet(After(w, acts[..n]).value))
  }

  predicate Quiet(w: World) {
    Alone(w) && w.operators == map[]
  }

  predicate SeqDisk(d: Disk) {
    !d.past.rewritten ==> !d.past.late && !d.past.overwritten
  }

  predicate SeqProc(pr: Proc, d: Disk) {
    !d.past.rewritten ==> (pr.pc.Unfinished? ==> d.past.checkpoint.None?) && (pr.pc.Checked? ==> !Decided(d))
  }

  lemma SeqStep(p: nat, pr: Proc, d: Disk, free: bool, m: Move)
    requires AllOk(p, pr, d) && SeqDisk(d) && SeqProc(pr, d) && Step(p, pr, d, free, m).Some?
    ensures var e := Step(p, pr, d, free, m).value; SeqDisk(e.disk) && SeqProc(e.proc, e.disk)
  {
    match m {
      case Opens(o) => SeqStepOpening(p, pr, d, o);
      case Answers(a) => SeqStepAnswering(p, pr, d, a);
      case Closes(c) => SeqStepClosing(p, pr, d, c);
      case Resumes(r) => SeqStepResuming(p, pr, d, free, r);
      case Exits(x) => SeqStepExiting(p, pr, d, x);
    }
  }

  lemma SeqStepOpening(p: nat, pr: Proc, d: Disk, o: Opening)
    requires AllOk(p, pr, d) && SeqDisk(d) && SeqProc(pr, d) && OpenStep(pr, d, o).Some?
    ensures var e := OpenStep(pr, d, o).value; SeqDisk(e.disk) && SeqProc(e.proc, e.disk)
  {
    match o {
      case WriteHazard => case Announce => case LaunchOk => case LaunchRefused(_) => case LaunchLost =>
      case GiveUp(_, _) => case SeeComplete => case ReadExisting =>
    }
  }

  lemma SeqStepAnswering(p: nat, pr: Proc, d: Disk, a: Answering)
    requires AllOk(p, pr, d) && SeqDisk(d) && SeqProc(pr, d) && AnswerStep(pr, d, a).Some?
    ensures var e := AnswerStep(pr, d, a).value; SeqDisk(e.disk) && SeqProc(e.proc, e.disk)
  {
    match a {
      case AnswerNotStarted => case AnswerResult => case LiftOnProof => case WriteNotStarted =>
      case CleanupNotStarted => case DeferNotStarted => case WriteCommandComplete =>
    }
  }

  lemma SeqStepClosing(p: nat, pr: Proc, d: Disk, c: Closing)
    requires AllOk(p, pr, d) && SeqDisk(d) && SeqProc(pr, d) && CloseStep(pr, d, c).Some?
    ensures var e := CloseStep(pr, d, c).value; SeqDisk(e.disk) && SeqProc(e.proc, e.disk)
  {
    match c {
      case PullFails(_) => case Pull(_) => case Save => case Lift => case WriteComplete =>
      case Cleanup => case Flag => case Defer =>
    }
  }

  lemma SeqStepResuming(p: nat, pr: Proc, d: Disk, free: bool, r: Resuming)
    requires AllOk(p, pr, d) && SeqDisk(d) && SeqProc(pr, d) && ResumeStep(p, pr, d, free, r).Some?
    ensures var e := ResumeStep(p, pr, d, free, r).value; SeqDisk(e.disk) && SeqProc(e.proc, e.disk)
  {
    match r { case ReadSummary => case CheckFence => case TakeLock => case LearnStatus => case CompareFence => case UnlinkFence => }
  }

  lemma SeqStepExiting(p: nat, pr: Proc, d: Disk, x: Exiting)
    requires AllOk(p, pr, d) && SeqDisk(d) && SeqProc(pr, d) && ExitStep(p, pr, d, x).Some?
    ensures var e := ExitStep(p, pr, d, x).value; SeqDisk(e.disk) && SeqProc(e.proc, e.disk)
  {
    match x { case Return => case Raise => case Handle(_) => case Die => }
  }

  predicate OneLive(w: World) {
    forall p, q :: p in w.procs && q in w.procs && !w.procs[p].pc.Ended? && !w.procs[q].pc.Ended? ==> p == q
  }

  /** An operator works alone, so its copy is what is on disk. */
  predicate OneOperator(w: World) {
    && (w.operators != map[] ==> Alone(w))
    && (forall k, j :: k in w.operators && j in w.operators ==> k == j)
    && (forall k :: k in w.operators && w.operators[k].Copied? ==> w.operators[k].mark == w.disk.mark)
  }

  predicate SeqInv(w: World) {
    && SeqDisk(w.disk) && OneLive(w) && OneOperator(w)
    && (forall p :: p in w.procs ==> SeqProc(w.procs[p], w.disk))
  }

  lemma SeqAct(w: World, a: Act)
    requires Inv(w) && SeqInv(w) && Do(w, a).Some? && (a.StartResume? || a.Look? ==> Quiet(w))
    ensures SeqInv(Do(w, a).value)
  {
    match a {
      case By(p, m) => SeqBy(w, p, m);
      case StartResume(p) => SeqStart(w, p);
      case _ => SeqOther(w, a);
    }
  }

  lemma SeqBy(w: World, p: nat, m: Move)
    requires Inv(w) && SeqInv(w) && Do(w, By(p, m)).Some?
    ensures SeqInv(Do(w, By(p, m)).value)
  {
    assert OneOk(w, p) && SeqProc(w.procs[p], w.disk);
    SeqStep(p, w.procs[p], w.disk, LockFree(w), m);
    EndedStays(p, w.procs[p], w.disk, LockFree(w), m);
    SeqChange(w, p, Step(p, w.procs[p], w.disk, LockFree(w), m).value);
  }

  lemma EndedStays(p: nat, pr: Proc, d: Disk, free: bool, m: Move)
    requires Step(p, pr, d, free, m).Some?
    ensures !pr.pc.Ended?
  {
  }

  lemma SeqChange(w: World, p: nat, e: Effect)
    requires SeqInv(w) && p in w.procs && !w.procs[p].pc.Ended? && SeqDisk(e.disk) && SeqProc(e.proc, e.disk)
    ensures SeqInv(World(e.disk, w.procs[p := e.proc], w.operators))
  {
    var w' := World(e.disk, w.procs[p := e.proc], w.operators);
    forall q | q in w'.procs ensures SeqProc(w'.procs[q], w'.disk) {
      assert q != p ==> w.procs[q].pc.Ended?;
    }
    assert w.operators == map[];
  }

  lemma SeqStart(w: World, p: nat)
    requires SeqInv(w) && Quiet(w) && p !in w.procs
    ensures SeqInv(w.(procs := w.procs[p := Proc(false, false, Reading)]))
  {
    var w' := w.(procs := w.procs[p := Proc(false, false, Reading)]);
    forall q | q in w'.procs ensures SeqProc(w'.procs[q], w'.disk) {
      assert q in w.procs ==> SeqProc(w.procs[q], w.disk);
    }
  }

  lemma SeqOther(w: World, a: Act)
    requires Inv(w) && SeqInv(w) && Do(w, a).Some? && !a.By? && !a.StartResume? && (a.Look? ==> Quiet(w))
    ensures SeqInv(Do(w, a).value)
  {
    var w' := Do(w, a).value;
    assert w'.procs == w.procs && SeqDisk(w'.disk) && OneLive(w');
    forall q | q in w'.procs ensures SeqProc(w'.procs[q], w'.disk) {
      assert SeqProc(w.procs[q], w.disk);
    }
  }

  lemma {:induction false} SeqRun(hazard: Hazard, acts: seq<Act>)
    requires !hazard.Mine? && After(Initial(hazard), acts).Some? && OneAtATime(Initial(hazard), acts)
    ensures SeqInv(After(Initial(hazard), acts).value)
  {
    if acts != [] {
      var n := |acts| - 1;
      SeqRun(hazard, acts[..n]);
      Reachable(hazard, acts[..n]);
      SeqAct(After(Initial(hazard), acts[..n]).value, acts[n]);
    }
  }

  predicate Handles(a: Act) {
    a.By? && IsHandle(a.move)
  }

  lemma {:induction false} DeathRewritesNothing(hazard: Hazard, acts: seq<Act>)
    requires !hazard.Mine? && After(Initial(hazard), acts).Some?
    requires forall i :: 0 <= i < |acts| ==> !Handles(acts[i])
    ensures !After(Initial(hazard), acts).value.disk.past.rewritten
  {
    if acts != [] {
      var n := |acts| - 1;
      DeathRewritesNothing(hazard, acts[..n]);
      Reachable(hazard, acts[..n]);
      StepRewritesNothing(After(Initial(hazard), acts[..n]).value, acts[n]);
    }
  }

  lemma StepRewritesNothing(w: World, a: Act)
    requires Inv(w) && !w.disk.past.rewritten && Do(w, a).Some? && !Handles(a)
    ensures !Do(w, a).value.disk.past.rewritten
  {
    match a {
      case By(p, m) =>
        assert OneOk(w, p);
        StepOnShared(p, w.procs[p], w.disk, LockFree(w), m);
      case StartResume(_) => case ForeignFence => case ForeignLift => case ForeignAim => case ForeignUnlink => case ForeignAbandon =>
      case Look(_) => case Copy(_, _) => case WriteBack(_) => case SkipNote(_) => case Aim(_) => case Unlink(_) => case GiveUpResolving(_) =>
    }
  }

  /** With process death as the only accident, any series of resumes and resolutions is orderly: so the
      checkpoint is final, and evidence goes only when the summary on disk is complete or says not started. */
  lemma DeathsAndResumesAreOrderly(hazard: Hazard, acts: seq<Act>)
    requires !hazard.Mine? && After(Initial(hazard), acts).Some? && OneAtATime(Initial(hazard), acts)
    requires forall i :: 0 <= i < |acts| ==> !Handles(acts[i])
    ensures Orderly(After(Initial(hazard), acts).value.disk)
  {
    SeqRun(hazard, acts);
    DeathRewritesNothing(hazard, acts);
  }

  // ---- a controller that nobody disturbs ----

  /** The moves of one process, one after another, while nobody else holds the lock. */
  function Follow(p: nat, e: Effect, moves: seq<Move>): Option<Effect>
    decreases |moves|
  {
    if moves == [] then Some(e)
    else
      match Step(p, e.proc, e.disk, true, moves[0])
      case None => None
      case Some(next) => Follow(p, next, moves[1..])
  }

  lemma FollowFirst(p: nat, e: Effect, m: Move, rest: seq<Move>, next: Effect)
    requires Step(p, e.proc, e.disk, true, m) == Some(next)
    ensures Follow(p, e, [m] + rest) == Follow(p, next, rest)
  {
    assert ([m] + rest)[1..] == rest;
  }

  lemma UndisturbedReturn(p: nat, pr: Proc, d: Disk)
    requires pr.pc.Leaving?
    ensures Follow(p, Effect(pr, d), [Exits(Return)]) == Some(Effect(pr.(pc := Ended(Some(pr.pc.code))), d.(lock := LockAfter(p, d))))
  {
    FollowFirst(p, Effect(pr, d), Exits(Return), [], Effect(pr.(pc := Ended(Some(pr.pc.code))), d.(lock := LockAfter(p, d))));
  }

  /** The launching controller puts its hazard and its doubt on disk before it hands anything to the target. */
  lemma UndisturbedLaunch(p: nat, pr: Proc, d: Disk)
    requires pr.pc == Starting && d.hazard == NoHazard
    ensures Follow(p, Effect(pr, d), [Opens(WriteHazard), Opens(Announce), Opens(LaunchOk), Opens(SeeComplete)])
         == Some(Effect(pr.(pc := Finalizing), d.(hazard := Mine, mark := Unknown, past := d.past.(fenced := true))))
  {
    var d1 := d.(hazard := Mine, past := d.past.(fenced := true));
    var d2 := d1.(mark := Unknown);
    FollowFirst(p, Effect(pr, d), Opens(WriteHazard), [Opens(Announce), Opens(LaunchOk), Opens(SeeComplete)], Effect(pr.(pc := Fenced), d1));
    FollowFirst(p, Effect(pr.(pc := Fenced), d1), Opens(Announce), [Opens(LaunchOk), Opens(SeeComplete)], Effect(pr.(pc := Announced), d2));
    FollowFirst(p, Effect(pr.(pc := Announced), d2), Opens(LaunchOk), [Opens(SeeComplete)], Effect(pr.(pc := Polling), d2));
    FollowFirst(p, Effect(pr.(pc := Polling), d2), Opens(SeeComplete), [], Effect(pr.(pc := Finalizing), d2));
  }

  /** A result is marked, pulled back and checkpointed while the hazard stands. */
  lemma UndisturbedCheckpoint(p: nat, pr: Proc, d: Disk, code: int)
    requires pr.pc == Finalizing && d.evidence && !d.mark.Complete? && d.past.checkpoint == None
    ensures Follow(p, Effect(pr, d), [Opens(ReadExisting), Answers(AnswerResult), Answers(WriteCommandComplete), Closes(Pull(code)), Closes(Save)])
         == Some(Effect(pr.(pc := Saved(code)), d.(mark := FinalizationComplete(code), past := d.past.(checkpoint := Some(code)))))
  {
    var d1 := d.(mark := CommandComplete);
    FollowFirst(p, Effect(pr, d), Opens(ReadExisting), [Answers(AnswerResult), Answers(WriteCommandComplete), Closes(Pull(code)), Closes(Save)],
                Effect(pr.(pc := Asking), d));
    FollowFirst(p, Effect(pr.(pc := Asking), d), Answers(AnswerResult), [Answers(WriteCommandComplete), Closes(Pull(code)), Closes(Save)],
                Effect(pr.(pc := HasResult), d));
    FollowFirst(p, Effect(pr.(pc := HasResult), d), Answers(WriteCommandComplete), [Closes(Pull(code)), Closes(Save)], Effect(pr.(pc := Pulling), d1));
    UndisturbedPull(p, pr.(pc := Pulling), d1, code);
  }

  lemma UndisturbedPull(p: nat, pr: Proc, d: Disk, code: int)
    requires pr.pc == Pulling && d.past.checkpoint == None
    ensures Follow(p, Effect(pr, d), [Closes(Pull(code)), Closes(Save)])
         == Some(Effect(pr.(pc := Saved(code)), d.(mark := FinalizationComplete(code), past := d.past.(checkpoint := Some(code)))))
  {
    FollowFirst(p, Effect(pr, d), Closes(Pull(code)), [Closes(Save)], Effect(pr.(pc := PulledBack(code)), d));
    FollowFirst(p, Effect(pr.(pc := PulledBack(code)), d), Closes(Save), [],
                Effect(pr.(pc := Saved(code)), d.(mark := FinalizationComplete(code), past := d.past.(checkpoint := Some(code)))));
  }

  /** From the checkpoint on the hazard is lifted, the summary completed, the evidence removed and the
      checkpointed exit code returned. */
  lemma UndisturbedEnd(p: nat, pr: Proc, d: Disk, code: int)
    requires pr.pc == Saved(code) && d.hazard == Mine && d.lock == Some(p)
    ensures Follow(p, Effect(pr, d), [Closes(Lift), Closes(WriteComplete), Closes(Cleanup), Closes(Flag), Exits(Return)])
         == Some(Effect(pr.(pc := Ended(Some(code))),
                        d.(hazard := NoHazard, mark := Complete(code), evidence := false, lock := None, past := d.past.(completed := true))))
  {
    var d1 := d.(hazard := NoHazard);
    FollowFirst(p, Effect(pr, d), Closes(Lift), [Closes(WriteComplete), Closes(Cleanup), Closes(Flag), Exits(Return)], Effect(pr.(pc := Lifted(code)), d1));
    UndisturbedCompletion(p, pr.(pc := Lifted(code)), d1, code);
  }

  lemma UndisturbedCompletion(p: nat, pr: Proc, d: Disk, code: int)
    requires pr.pc == Lifted(code)
    ensures Follow(p, Effect(pr, d), [Closes(WriteComplete), Closes(Cleanup), Closes(Flag), Exits(Return)])
         == Some(Effect(pr.(pc := Ended(Some(code))),
                        d.(mark := Complete(code), evidence := false, lock := LockAfter(p, d), past := d.past.(completed := true))))
  {
    var d2 := d.(mark := Complete(code), past := d.past.(completed := true));
    var d3 := d2.(evidence := false);
    FollowFirst(p, Effect(pr, d), Closes(WriteComplete), [Closes(Cleanup), Closes(Flag), Exits(Return)], Effect(pr.(pc := Finished(code)), d2));
    FollowFirst(p, Effect(pr.(pc := Finished(code)), d2), Closes(Cleanup), [Closes(Flag), Exits(Return)], Effect(pr.(pc := CleanedUp(code)), d3));
    FollowFirst(p, Effect(pr.(pc := CleanedUp(code)), d3), Closes(Flag), [Exits(Return)], Effect(pr.(pc := Leaving(code)), d3));
    UndisturbedReturn(p, pr.(pc := Leaving(code)), d3);
  }

  /** A resume that finds a checkpoint behind the run's hazard pulls nothing back: it lifts the hazard and
      completes the summary with the checkpointed exit code. */
  lemma UndisturbedRecovery(p: nat, pr: Proc, d: Disk, code: int)
    requires pr.pc == Reading && d.mark == FinalizationComplete(code) && d.hazard == Mine
    ensures Follow(p, Effect(pr, d), [Resumes(ReadSummary), Resumes(CompareFence), Resumes(UnlinkFence), Closes(WriteComplete)])
         == Some(Effect(pr.(pc := Finished(code)),
                        d.(hazard := NoHazard, mark := Complete(code), past := d.past.(completed := true))))
  {
    var d1 := d.(hazard := NoHazard);
    FollowFirst(p, Effect(pr, d), Resumes(ReadSummary), [Resumes(CompareFence), Resumes(UnlinkFence), Closes(WriteComplete)], Effect(pr.(pc := Recovering(code)), d));
    FollowFirst(p, Effect(pr.(pc := Recovering(code)), d), Resumes(CompareFence), [Resumes(UnlinkFence), Closes(WriteComplete)], Effect(pr.(pc := Aiming(code)), d));
    UndisturbedUnlink(p, pr.(pc := Aiming(code)), d, code);
  }

  lemma UndisturbedUnlink(p: nat, pr: Proc, d: Disk, code: int)
    requires pr.pc == Aiming(code) && d.hazard == Mine
    ensures Follow(p, Effect(pr, d), [Resumes(UnlinkFence), Closes(WriteComplete)])
         == Some(Effect(pr.(pc := Finished(code)), d.(hazard := NoHazard, mark := Complete(code), past := d.past.(completed := true))))
  {
    var d1 := d.(hazard := NoHazard);
    FollowFirst(p, Effect(pr, d), Resumes(UnlinkFence), [Closes(WriteComplete)], Effect(pr.(pc := Lifted(code)), d1));
    FollowFirst(p, Effect(pr.(pc := Lifted(code)), d1), Closes(WriteComplete), [],
                Effect(pr.(pc := Finished(code)), d1.(mark := Complete(code), past := d1.past.(completed := true))));
  }

  /** A controller that stops waiting leaves the state it was told, and one whose pull fails a failed
      finalization; either way hazard and evidence stay. */
  lemma UndisturbedStop(p: nat, pr: Proc, d: Disk, mark: Mark, code: int)
    requires d.lock == Some(p) && (mark == Unknown || mark == Detached)
    ensures pr.pc == Polling ==>
      Follow(p, Effect(pr, d), [Opens(GiveUp(mark, code)), Exits(Return)])
      == Some(Effect(pr.(pc := Ended(Some(code))), d.(mark := mark, lock := None)))
    ensures pr.pc == Pulling ==>
      Follow(p, Effect(pr, d), [Closes(PullFails(code)), Exits(Return)])
      == Some(Effect(pr.(pc := Ended(Some(code))), d.(mark := FinalizationFailed, lock := None)))
  {
    if pr.pc == Polling {
      FollowFirst(p, Effect(pr, d), Opens(GiveUp(mark, code)), [Exits(Return)], Effect(pr.(pc := Leaving(code)), d.(mark := mark)));
      UndisturbedReturn(p, pr.(pc := Leaving(code)), d.(mark := mark));
    }
    if pr.pc == Pulling {
      FollowFirst(p, Effect(pr, d), Closes(PullFails(code)), [Exits(Return)], Effect(pr.(pc := Leaving(code)), d.(mark := FinalizationFailed)));
      UndisturbedReturn(p, pr.(pc := Leaving(code)), d.(mark := FinalizationFailed));
    }
  }

  /** What a proof of non-start leaves on disk. */
  function Denied(d: Disk): Disk {
    d.(hazard := NoHazard, mark := NotStarted, past := d.past.(lifted := true, rejected := true))
  }

  lemma UndisturbedLift(p: nat, pr: Proc, d: Disk, rest: seq<Move>)
    requires pr.pc.Proved? && d.hazard == Mine
    ensures Follow(p, Effect(pr, d), [Answers(LiftOnProof)] + ([Answers(WriteNotStarted)] + rest))
         == Follow(p, Effect(pr.(pc := ProofWritten(pr.pc.code, pr.pc.clean)), Denied(d)), rest)
  {
    var lifted := Effect(pr.(pc := ProofLifted(pr.pc.code, pr.pc.clean)), d.(hazard := NoHazard, past := d.past.(lifted := true)));
    FollowFirst(p, Effect(pr, d), Answers(LiftOnProof), [Answers(WriteNotStarted)] + rest, lifted);
    FollowFirst(p, lifted, Answers(WriteNotStarted), rest, Effect(pr.(pc := ProofWritten(pr.pc.code, pr.pc.clean)), Denied(d)));
  }

  /** A proof of non-start lifts the hazard, says that nothing started and returns its code; where the target
      holds evidence it is removed, or left for later. */
  lemma UndisturbedProof(p: nat, pr: Proc, d: Disk, code: int, clean: bool)
    requires pr.pc == Proved(code, clean) && d.hazard == Mine && d.lock == Some(p)
    ensures Follow(p, Effect(pr, d), [Answers(LiftOnProof), Answers(WriteNotStarted), Answers(DeferNotStarted), Exits(Return)])
         == Some(Effect(pr.(pc := Ended(Some(code))), Denied(d).(lock := None)))
    ensures clean ==>
      Follow(p, Effect(pr, d), [Answers(LiftOnProof), Answers(WriteNotStarted), Answers(CleanupNotStarted), Exits(Return)])
      == Some(Effect(pr.(pc := Ended(Some(code))), Denied(d).(lock := None, evidence := false)))
  {
    var written := Effect(pr.(pc := ProofWritten(code, clean)), Denied(d));
    var deferring, cleaning := [Answers(DeferNotStarted), Exits(Return)], [Answers(CleanupNotStarted), Exits(Return)];
    UndisturbedLift(p, pr, d, deferring);
    assert [Answers(LiftOnProof)] + ([Answers(WriteNotStarted)] + deferring)
        == [Answers(LiftOnProof), Answers(WriteNotStarted), Answers(DeferNotStarted), Exits(Return)];
    FollowFirst(p, written, Answers(DeferNotStarted), [Exits(Return)], written.(proc := pr.(pc := Leaving(code))));
    UndisturbedReturn(p, pr.(pc := Leaving(code)), Denied(d));
    if clean {
      UndisturbedLift(p, pr, d, cleaning);
      assert [Answers(LiftOnProof)] + ([Answers(WriteNotStarted)] + cleaning)
          == [Answers(LiftOnProof), Answers(WriteNotStarted), Answers(CleanupNotStarted), Exits(Return)];
      FollowFirst(p, written, Answers(CleanupNotStarted), [Exits(Return)], Effect(pr.(pc := Leaving(code)), Denied(d).(evidence := false)));
      UndisturbedReturn(p, pr.(pc := Leaving(code)), Denied(d).(evidence := false));
    }
  }

  /** Such a proof comes from a refused launch, or from the target, which holds evidence; its code is then 4. */
  lemma WhereProofsComeFrom(p: nat, pr: Proc, d: Disk, free: bool, code: int)
    ensures pr.pc == Announced ==>
      Step(p, pr, d, free, Opens(LaunchRefused(code))) == Some(Effect(pr.(pc := Proved(code, false)), d.(past := d.past.(proof := true))))
    ensures pr.pc == Asking && d.evidence ==>
      Step(p, pr, d, free, Answers(AnswerNotStarted)) == Some(Effect(pr.(pc := Proved(4, true)), d.(past := d.past.(proof := true))))
  {
  }

  /** A lost launch leaves the hazard, says unknown and returns 4. */
  lemma UndisturbedLoss(p: nat, pr: Proc, d: Disk)
    requires pr.pc == Announced && d.lock == Some(p)
    ensures Follow(p, Effect(pr, d), [Opens(LaunchLost), Exits(Return)])
         == Some(Effect(pr.(pc := Ended(Some(4))), d.(mark := Unknown, lock := None)))
  {
    FollowFirst(p, Effect(pr, d), Opens(LaunchLost), [Exits(Return)], Effect(pr.(pc := Leaving(4)), d.(mark := Unknown)));
    UndisturbedReturn(p, pr.(pc := Leaving(4)), d.(mark := Unknown));
  }

  /** A resume of an unfinished run behind its hazard takes the lock and goes on where the launch waits. */
  lemma UndisturbedResume(p: nat, pr: Proc, d: Disk)
    requires pr.pc == Reading && d.hazard == Mine && d.evidence && !d.mark.Complete? && !d.mark.FinalizationComplete?
    ensures Follow(p, Effect(pr, d), [Resumes(ReadSummary), Resumes(CheckFence), Resumes(TakeLock), Resumes(LearnStatus)])
         == Some(Effect(Proc(pr.launcher, true, Polling),
                        d.(lock := Some(p), past := d.past.(late := d.past.late || d.past.checkpoint.Some? || d.past.rejected))))
  {
    FollowFirst(p, Effect(pr, d), Resumes(ReadSummary), [Resumes(CheckFence), Resumes(TakeLock), Resumes(LearnStatus)], Effect(pr.(pc := Unfinished), d));
    FollowFirst(p, Effect(pr.(pc := Unfinished), d), Resumes(CheckFence), [Resumes(TakeLock), Resumes(LearnStatus)], Effect(pr.(pc := Checked), d));
    UndisturbedLocking(p, pr.(pc := Checked), d);
  }

  lemma UndisturbedLocking(p: nat, pr: Proc, d: Disk)
    requires pr.pc == Checked && d.evidence
    ensures Follow(p, Effect(pr, d), [Resumes(TakeLock), Resumes(LearnStatus)])
         == Some(Effect(Proc(pr.launcher, true, Polling),
                        d.(lock := Some(p), past := d.past.(late := d.past.late || d.past.checkpoint.Some? || d.past.rejected))))
  {
    var d1 := d.(lock := Some(p), past := d.past.(late := d.past.late || Decided(d)));
    FollowFirst(p, Effect(pr, d), Resumes(TakeLock), [Resumes(LearnStatus)], Effect(Proc(pr.launcher, true, Locked), d1));
    FollowFirst(p, Effect(Proc(pr.launcher, true, Locked), d1), Resumes(LearnStatus), [], Effect(Proc(pr.launcher, true, Polling), d1));
  }

  /** What the handlers of the launching controller leave behind; a resume has none. */
  lemma HandlerLeaves(p: nat, pr: Proc, d: Disk, free: bool, cause: Cause)
    requires !pr.pc.Ended? && d.lock == Some(p)
    ensures
      var e := Step(p, pr, d, free, Exits(Handle(cause)));
      && (e.Some? <==> pr.launcher)
      && (e.Some? ==>
            && e.value.disk.hazard == d.hazard && e.value.disk.lock == None && e.value.disk.evidence == d.evidence
            && e.value.proc.pc == Ended(None)
            && e.value.disk.mark ==
               if d.mark == CommandComplete then FinalizationFailed
               else if d.mark == Unknown then Unknown
               else if cause == Interrupted then Cancelled
               else FailedEarly)
  {
  }
}
