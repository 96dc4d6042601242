/** The unknown-completion fence of an ordinary run (src/remrun/cli.py, src/remrun/state.py).
    Controller processes share one project's hazard file, lock and run summaries. Any of them may
    die, be interrupted or fail between any two steps. */
module Fence {
  import opened Wrappers

  /** Each candidate a controller process tries is a run of its own. */
  datatype RunId = RunId(process: nat, attempt: nat)

  /** `completion_state` of a summary; `Plain` is a summary without one. */
  datatype Mark = Plain | NotStarted | Unknown | CommandComplete | Complete | FinalizationFailed | Cancelled | FailedEarly

  datatype Pc =
    | Admitted          // passed the check of the hazard file
    | Received          // the preflight receipt is on disk
    | Locked
    | SawNoOther        // no other run's hazard was found, under the lock
    | Fenced            // the hazard is on disk
    | Announced         // so is the summary that says unknown
    | Sent              // the command is with the transport
    | Refused           // the transport proved that nothing started
    | RefusedCleared
    | Lost              // cancelled, or the transport failed
    | Concluded         // a conclusive exit status arrived
    | Checkpointed
    | Cleared
    | Finalized         // last summary written, handlers still in force
    | Skipped           // admission refusal or retryable conflict, another candidate follows
    | Over              // returned, raised or died

  /** When the contents of a summary were first written: before the fence was announced; with unknown
      completion; after a proof of non-start; as the checkpoint of the outcome; as the last summary; by
      a handler over the last summary or over that proof. A copy that is written back keeps the era of its contents. */
  datatype Era = Draft | Doubt | Denial | Outcome | Last | Cut

  datatype Summary = Summary(mark: Mark, era: Era)

  /** What a run has on disk and in memory. The fields from `sent` on are history: the command was
      handed to the transport; non-start was proved; the outcome was checkpointed; an operator
      resolved the hazard; a handler rewrote the last summary; an operator wrote back a copy of other
      contents than were on disk by then; the hazard was removed by a command that meant another run's;
      the run ended after clearing its hazard on a proof of non-start and before writing so. */
  datatype Run = Run(
    pc: Pc, summary: Summary, sent: bool, proved: bool, checkpointed: bool, resolved: bool, rewritten: bool, overwritten: bool,
    robbed: bool, cutShort: bool)

  /** How far a command that resolves the hazard of run `id` has got: it looks at the hazard, copies the
      summary, writes its copy back with a note, reads the hazard once more, and then unlinks the file,
      whatever is in it by then. It takes no lock. (A resume that recovers a finalized durable run removes
      its hazard in the same two steps.) */
  datatype Operator = Looked(id: RunId) | Copied(id: RunId, copy: Summary) | Noted(id: RunId) | Aimed(id: RunId)

  datatype Project = Project(hazard: Option<RunId>, lock: Option<RunId>, runs: map<RunId, Run>, operators: map<nat, Operator>)

  datatype Cause = Interrupted | Failed

  /** Up to the announcement of the fence. */
  datatype Preparing =
    | WriteReceipt
    | Skip                      // memory admission refused before locking
    | Quit                      // return before locking
    | TakeLock
    | SkipConflict              // retryable preflight conflict
    | QuitLocked(mark: Mark)    // return, conflict or rejection before the fence
    | ReadHazard
    | WriteHazard
    | Announce

  /** From the dispatch to the last summary. */
  datatype Settling =
    | Send
    | LearnRefused | ClearRefused | WriteRefused
    | LearnLost | WriteLost
    | LearnResult | Checkpoint | Clear | Finalize(mark: Mark)

  datatype Exiting =
    | Return
    | Handle(cause: Cause)      // an exception reaches the handlers around the locked part
    | Die

  datatype Move = Prepares(p: Preparing) | Settles(s: Settling) | Exits(x: Exiting)

  /** The locked part of a run, where the handlers are in force. */
  predicate UnderLock(pc: Pc) {
    !pc.Admitted? && !pc.Received? && !pc.Skipped? && !pc.Over?
  }

  /** What the exception handlers leave in the summary. */
  function Handled(m: Mark, cause: Cause): Mark {
    match m
    case CommandComplete => FinalizationFailed
    case Unknown => Unknown
    case _ => if cause.Interrupted? then Cancelled else FailedEarly
  }

  /** A handler reads the summary, changes its state and writes it again. */
  function Rehandled(s: Summary, cause: Cause): Summary {
    Summary(Handled(s.mark, cause), if s.era.Last? || s.era.Denial? then Cut else if s.era.Outcome? then Last else s.era)
  }

  predicate ShowsOutcome(m: Mark) {
    m.CommandComplete? || m.Complete? || m.FinalizationFailed?
  }

  predicate OutcomeEra(e: Era) {
    e.Outcome? || e.Last?
  }

  datatype Effect = Effect(run: Run, hazard: Option<RunId>, lock: Option<RunId>)

  function Unlocked(id: RunId, lock: Option<RunId>): Option<RunId> {
    if lock == Some(id) then None else lock
  }

  /** A run clears its hazard under the lock, so nobody can put another one in its place between the
      comparison and the removal. */
  function WithoutHazard(id: RunId, hazard: Option<RunId>): Option<RunId> {
    if hazard == Some(id) then None else hazard
  }

  function PrepareStep(id: RunId, r: Run, h: Option<RunId>, l: Option<RunId>, p: Preparing): (e: Option<Effect>) {
    match p
    case WriteReceipt => if r.pc.Admitted? then Some(Effect(r.(pc := Received, summary := Summary(NotStarted, Draft)), h, l)) else None
    case Skip => if r.pc.Received? then Some(Effect(r.(pc := Skipped, summary := Summary(Plain, Draft)), h, l)) else None
    case Quit => if r.pc.Received? then Some(Effect(r.(pc := Over, summary := Summary(Plain, Draft)), h, l)) else None
    case TakeLock => if r.pc.Received? && l == None then Some(Effect(r.(pc := Locked), h, Some(id))) else None
    case SkipConflict => if r.pc.Locked? then Some(Effect(r.(pc := Skipped, summary := Summary(Plain, Draft)), h, Unlocked(id, l))) else None
    case QuitLocked(mark) =>
      if r.pc.Locked? && (mark.Plain? || mark.NotStarted? || mark.Unknown?) then
        Some(Effect(r.(pc := Over, summary := Summary(mark, if mark.Unknown? then Doubt else Draft)), h, Unlocked(id, l)))
      else None
    case ReadHazard => if r.pc.Locked? && (h == None || h == Some(id)) then Some(Effect(r.(pc := SawNoOther), h, l)) else None
    case WriteHazard => if r.pc.SawNoOther? then Some(Effect(r.(pc := Fenced), Some(id), l)) else None
    case Announce => if r.pc.Fenced? then Some(Effect(r.(pc := Announced, summary := Summary(Unknown, Doubt)), h, l)) else None
  }

  function SettleStep(id: RunId, r: Run, h: Option<RunId>, l: Option<RunId>, s: Settling): (e: Option<Effect>) {
    match s
    case Send => if r.pc.Announced? then Some(Effect(r.(pc := Sent, sent := true), h, l)) else None
    case LearnRefused => if r.pc.Sent? then Some(Effect(r.(pc := Refused, proved := true), h, l)) else None
    case ClearRefused => if r.pc.Refused? then Some(Effect(r.(pc := RefusedCleared), WithoutHazard(id, h), l)) else None
    case WriteRefused => if r.pc.RefusedCleared? then Some(Effect(r.(pc := Finalized, summary := Summary(NotStarted, Denial)), h, l)) else None
    case LearnLost => if r.pc.Sent? then Some(Effect(r.(pc := Lost), h, l)) else None
    case WriteLost => if r.pc.Lost? then Some(Effect(r.(pc := Finalized, summary := Summary(Unknown, Doubt)), h, l)) else None
    case LearnResult => if r.pc.Sent? then Some(Effect(r.(pc := Concluded), h, l)) else None
    case Checkpoint =>
      if r.pc.Concluded? then Some(Effect(r.(pc := Checkpointed, summary := Summary(CommandComplete, Outcome), checkpointed := true), h, l)) else None
    case Clear => if r.pc.Checkpointed? then Some(Effect(r.(pc := Cleared), WithoutHazard(id, h), l)) else None
    case Finalize(mark) =>
      if r.pc.Cleared? && (mark.Complete? || mark.FinalizationFailed?) then Some(Effect(r.(pc := Finalized, summary := Summary(mark, Last)), h, l)) else None
  }

  function HandledRun(r: Run, cause: Cause): Run {
    r.(pc := Over, summary := Rehandled(r.summary, cause),
       rewritten := r.rewritten || r.summary.era.Last? || r.summary.era.Denial?, cutShort := r.pc.RefusedCleared?)
  }

  function ExitStep(id: RunId, r: Run, h: Option<RunId>, l: Option<RunId>, x: Exiting): (e: Option<Effect>) {
    match x
    case Return => if r.pc.Finalized? then Some(Effect(r.(pc := Over), h, Unlocked(id, l))) else None
    case Handle(cause) => if UnderLock(r.pc) then Some(Effect(HandledRun(r, cause), h, Unlocked(id, l))) else None
    case Die => if !r.pc.Skipped? && !r.pc.Over? then Some(Effect(r.(pc := Over, cutShort := r.pc.RefusedCleared?), h, l)) else None
  }

  /** One step of run `id`, where it is possible. */
  function Step(id: RunId, r: Run, h: Option<RunId>, l: Option<RunId>, m: Move): (e: Option<Effect>) {
    match m
    case Prepares(p) => PrepareStep(id, r, h, l, p)
    case Settles(s) => SettleStep(id, r, h, l, s)
    case Exits(x) => ExitStep(id, r, h, l, x)
  }

  datatype Act =
    | First(process: nat)                 // a new controller process finds no hazard
    | Fallback(process: nat, attempt: nat) // it goes on to the next candidate
    | Move(id: RunId, move: Move)
    | BreakLock                           // the lock of a run that is over is taken away
    | Look(k: nat, id: RunId)             // the operator confirms that run `id` has ended
    | Copy(k: nat)
    | WriteBack(k: nat)
    | SkipNote(k: nat)                    // the copy has the note already
    | Aim(k: nat)                         // the hazard still names the operator's run
    | Unlink(k: nat)
    | Abandon(k: nat)                     // the operator's command fails or dies

  function Started(): Run { Run(Admitted, Summary(Plain, Draft), false, false, false, false, false, false, false, false) }

  /** What it does to a run that its hazard is unlinked on behalf of run `aim`. */
  function Unfenced(r: Run, id: RunId, aim: RunId): Run {
    if id == aim then r.(resolved := true) else r.(robbed := true)
  }

  /** What writing a copy back does to the run. */
  function Backdated(r: Run, copy: Summary): Run {
    r.(summary := copy, overwritten := r.overwritten || copy.era != r.summary.era)
  }

  function Do(s: Project, a: Act): (t: Option<Project>) {
    match a
    case First(p) =>
      if s.hazard == None && RunId(p, 0) !in s.runs then Some(s.(runs := s.runs[RunId(p, 0) := Started()])) else None
    case Fallback(p, n) =>
      if RunId(p, n) in s.runs && s.runs[RunId(p, n)].pc.Skipped? && RunId(p, n + 1) !in s.runs
      then Some(s.(runs := s.runs[RunId(p, n + 1) := Started()]))
      else None
    case Move(id, m) =>
      if id !in s.runs then None
      else
        (match Step(id, s.runs[id], s.hazard, s.lock, m)
         case None => None
         case Some(e) => Some(Project(e.hazard, e.lock, s.runs[id := e.run], s.operators)))
    case BreakLock =>
      if s.lock.Some? && s.lock.value in s.runs && s.runs[s.lock.value].pc.Over? then Some(s.(lock := None)) else None
    case Look(k, id) =>
      if k !in s.operators && s.hazard == Some(id) && id in s.runs then Some(s.(operators := s.operators[k := Looked(id)])) else None
    case Copy(k) =>
      if k in s.operators && s.operators[k].Looked? && s.operators[k].id in s.runs then
        Some(s.(operators := s.operators[k := Copied(s.operators[k].id, s.runs[s.operators[k].id].summary)]))
      else None
    case WriteBack(k) =>
      if k in s.operators && s.operators[k].Copied? && s.operators[k].id in s.runs then
        var id := s.operators[k].id;
        Some(s.(runs := s.runs[id := Backdated(s.runs[id], s.operators[k].copy)], operators := s.operators[k := Noted(id)]))
      else None
    case SkipNote(k) =>
      if k in s.operators && s.operators[k].Copied? then Some(s.(operators := s.operators[k := Noted(s.operators[k].id)])) else None
    case Aim(k) =>
      if k in s.operators && s.operators[k].Noted? && s.hazard == Some(s.operators[k].id) then
        Some(s.(operators := s.operators[k := Aimed(s.operators[k].id)]))
      else None
    case Unlink(k) =>
      if k in s.operators && s.operators[k].Aimed? && s.hazard.Some? && s.hazard.value in s.runs then
        var id := s.hazard.value;
        Some(Project(None, s.lock, s.runs[id := Unfenced(s.runs[id], id, s.operators[k].id)], s.operators - {k}))
      else None
    case Abandon(k) => if k in s.operators then Some(s.(operators := s.operators - {k})) else None
  }

  // ---- what every run keeps ----

  /** The command may have started, and nothing on record settles it. */
  predicate Unsettled(r: Run) {
    r.sent && !r.checkpointed && !r.proved && !r.resolved
  }

  predicate BeforeFence(pc: Pc) {
    pc.Admitted? || pc.Received? || pc.Locked? || pc.SawNoOther? || pc.Skipped?
  }

  predicate HoldsHazard(pc: Pc) {
    pc.Fenced? || pc.Announced? || pc.Sent? || pc.Refused? || pc.Lost? || pc.Concluded? || pc.Checkpointed?
  }

  /** The hazard goes only with the run's own clearing, an operator's resolution or a theft. */
  predicate FenceOk(id: RunId, r: Run, h: Option<RunId>, l: Option<RunId>) {
    && (UnderLock(r.pc) ==> l == Some(id))
    && (BeforeFence(r.pc) ==> h != Some(id) && !r.robbed && !r.resolved)
    && (r.pc.SawNoOther? ==> h == None)
    && (HoldsHazard(r.pc) ==> h == Some(id) || ((r.resolved || r.robbed) && h == None))
    && (r.robbed || r.resolved || r.pc.RefusedCleared? || r.cutShort ==> h != Some(id))
    && (Unsettled(r) ==> h == Some(id) || r.robbed)
  }

  /** A proof of non-start leaves the hazard in place, or ends up in the summary. */
  predicate RefusalOk(id: RunId, r: Run, h: Option<RunId>) {
    r.proved && !r.resolved && !r.robbed && !r.overwritten ==>
      h == Some(id) || r.pc.RefusedCleared? || r.cutShort || r.summary.era.Denial? || r.summary.era.Cut?
  }

  /** The state in a summary fits the era of its contents: only contents written at the checkpoint or
      after it, and not by a handler over the last summary, show an outcome. */
  predicate ContentsOk(s: Summary) {
    && (ShowsOutcome(s.mark) <==> OutcomeEra(s.era))
    && (s.mark.Unknown? <==> s.era.Doubt?)
    && (s.mark.CommandComplete? <==> s.era.Outcome?)
    && (s.era.Denial? ==> s.mark.NotStarted?)
    && (s.era.Cut? ==> !s.mark.NotStarted?)
  }

  /** The history flags and the summary agree with how far the run got. */
  predicate HistoryOk(r: Run) {
    && (BeforeFence(r.pc) || r.pc.Fenced? || r.pc.Announced? ==> !r.sent && !r.cutShort)
    && (r.pc.Sent? || r.pc.Lost? || r.pc.Concluded? ==> r.sent && !r.proved && !r.checkpointed)
    && (r.pc.Refused? || r.pc.RefusedCleared? ==> r.sent && r.proved && !r.checkpointed)
    && (r.pc.Checkpointed? || r.pc.Cleared? ==> r.checkpointed)
    && (r.checkpointed ==> r.sent && !r.proved)
    && (r.proved ==> r.sent)
    && (r.rewritten ==> (r.checkpointed || r.proved) && r.pc.Over?)
    && (r.cutShort ==> r.proved && r.pc.Over? && !r.rewritten)
  }

  /** What the era of a summary, on disk or in a copy, tells about the run. */
  predicate EraOk(r: Run, e: Era) {
    && (OutcomeEra(e) ==> r.checkpointed)
    && (e.Denial? ==> r.proved && (r.pc.Finalized? || r.pc.Over?))
    && (e.Cut? ==> r.rewritten)
  }

  /** The contents on disk are those that the run wrote last, unless an operator interfered. */
  predicate SummaryOk(r: Run) {
    && ContentsOk(r.summary) && EraOk(r, r.summary.era)
    && (!r.overwritten ==>
          && (r.pc.Announced? ==> r.summary.era.Doubt?)
          && (r.pc.Checkpointed? || r.pc.Cleared? ==> r.summary.era.Outcome?)
          && (r.sent && !r.checkpointed && !r.proved ==> r.summary.era.Doubt?)
          && (r.pc.Refused? || r.pc.RefusedCleared? || r.cutShort ==> r.summary.era.Doubt?)
          && (r.checkpointed ==> OutcomeEra(r.summary.era) || r.summary.era.Cut?)
          && (r.rewritten ==> r.summary.era.Cut?))
  }

  predicate RunHolds(id: RunId, r: Run, h: Option<RunId>, l: Option<RunId>) {
    FenceOk(id, r, h, l) && RefusalOk(id, r, h) && HistoryOk(r) && SummaryOk(r)
  }

  lemma StepKeepsRun(id: RunId, r: Run, h: Option<RunId>, l: Option<RunId>, m: Move)
    requires RunHolds(id, r, h, l) && Step(id, r, h, l, m).Some?
    ensures var e := Step(id, r, h, l, m).value; RunHolds(id, e.run, e.hazard, e.lock)
  {
    match m {
      case Prepares(p) => PreparingKeepsRun(id, r, h, l, p);
      case Settles(s) => SettlingKeepsRun(id, r, h, l, s);
      case Exits(x) => ExitingKeepsRun(id, r, h, l, x);
    }
  }

  lemma PreparingKeepsRun(id: RunId, r: Run, h: Option<RunId>, l: Option<RunId>, p: Preparing)
    requires RunHolds(id, r, h, l) && PrepareStep(id, r, h, l, p).Some?
    ensures var e := PrepareStep(id, r, h, l, p).value; RunHolds(id, e.run, e.hazard, e.lock)
  {
    match p {
      case WriteReceipt => case Skip => case Quit => case TakeLock => case SkipConflict => case QuitLocked(_) =>
      case ReadHazard => case WriteHazard => case Announce =>
    }
  }

  lemma SettlingKeepsRun(id: RunId, r: Run, h: Option<RunId>, l: Option<RunId>, s: Settling)
    requires RunHolds(id, r, h, l) && SettleStep(id, r, h, l, s).Some?
    ensures var e := SettleStep(id, r, h, l, s).value; RunHolds(id, e.run, e.hazard, e.lock)
  {
    match s {
      case Send => case LearnRefused => case ClearRefused => case WriteRefused => case LearnLost => case WriteLost =>
      case LearnResult => case Checkpoint => case Clear => case Finalize(_) =>
    }
  }

  lemma ExitingKeepsRun(id: RunId, r: Run, h: Option<RunId>, l: Option<RunId>, x: Exiting)
    requires RunHolds(id, r, h, l) && ExitStep(id, r, h, l, x).Some?
    ensures var e := ExitStep(id, r, h, l, x).value; RunHolds(id, e.run, e.hazard, e.lock)
  {
    match x {
      case Return =>
      case Handle(cause) => HandlerKeepsRun(id, r, h, l, cause);
      case Die =>
    }
  }

  lemma HandlerKeepsRun(id: RunId, r: Run, h: Option<RunId>, l: Option<RunId>, cause: Cause)
    requires RunHolds(id, r, h, l) && UnderLock(r.pc)
    ensures RunHolds(id, HandledRun(r, cause), h, Unlocked(id, l))
  {
    HandlerKeepsContents(r.summary, cause);
  }

  lemma HandlerKeepsContents(s: Summary, cause: Cause)
    requires ContentsOk(s)
    ensures ContentsOk(Rehandled(s, cause))
    ensures Rehandled(s, cause).era.Doubt? <==> s.era.Doubt?
    ensures Rehandled(s, cause).era.Draft? <==> s.era.Draft?
  {
    match s.mark {
      case Plain => case NotStarted => case Unknown => case CommandComplete =>
      case Complete => case FinalizationFailed => case Cancelled => case FailedEarly =>
    }
  }

  /** What a step of `id` can do to the files it shares: it fences only under its own lock and
      where no hazard stands, and removes only its own hazard and lock. */
  predicate OnlyOwn(id: RunId, h: Option<RunId>, l: Option<RunId>, h': Option<RunId>, l': Option<RunId>) {
    && (h' == h || (h' == Some(id) && l == Some(id) && h == None) || (h' == None && h == Some(id)))
    && (l' == l || (l == None && l' == Some(id)) || (l == Some(id) && l' == None))
  }

  /** The facts about a run that operators rely on only grow. */
  predicate Grows(r: Run, r': Run) {
    && (r.checkpointed ==> r'.checkpointed) && (r.proved ==> r'.proved) && (r.rewritten ==> r'.rewritten)
    && (r.pc.Over? ==> r'.pc.Over?) && (r.pc.Finalized? ==> r'.pc.Finalized? || r'.pc.Over?)
    && (r.overwritten <==> r'.overwritten) && (r.robbed <==> r'.robbed) && (r.sent ==> r'.sent)
  }

  /** Behind another run's hazard a run can neither fence nor send nor clear. */
  predicate HeldBack(id: RunId, r: Run, h: Option<RunId>, e: Effect) {
    h.Some? && h != Some(id) ==> e.hazard == h && (e.run.sent ==> r.sent)
  }

  lemma StepOnShared(id: RunId, r: Run, h: Option<RunId>, l: Option<RunId>, m: Move)
    requires RunHolds(id, r, h, l) && Step(id, r, h, l, m).Some?
    ensures var e := Step(id, r, h, l, m).value; OnlyOwn(id, h, l, e.hazard, e.lock) && Grows(r, e.run) && HeldBack(id, r, h, e)
    ensures !r.pc.Skipped? && !r.pc.Over? && (Step(id, r, h, l, m).value.run.rewritten ==> r.rewritten || (m.Exits? && m.x.Handle?))
  {
    match m {
      case Prepares(p) => PreparingOnShared(id, r, h, l, p);
      case Settles(s) => SettlingOnShared(id, r, h, l, s);
      case Exits(x) => ExitingOnShared(id, r, h, l, x);
    }
  }

  lemma PreparingOnShared(id: RunId, r: Run, h: Option<RunId>, l: Option<RunId>, p: Preparing)
    requires RunHolds(id, r, h, l) && PrepareStep(id, r, h, l, p).Some?
    ensures var e := PrepareStep(id, r, h, l, p).value; OnlyOwn(id, h, l, e.hazard, e.lock) && Grows(r, e.run) && HeldBack(id, r, h, e)
    ensures !r.pc.Skipped? && !r.pc.Over? && (PrepareStep(id, r, h, l, p).value.run.rewritten ==> r.rewritten)
  {
    match p {
      case WriteReceipt => case Skip => case Quit => case TakeLock => case SkipConflict => case QuitLocked(_) =>
      case ReadHazard => case WriteHazard => case Announce =>
    }
  }

  lemma SettlingOnShared(id: RunId, r: Run, h: Option<RunId>, l: Option<RunId>, s: Settling)
    requires RunHolds(id, r, h, l) && SettleStep(id, r, h, l, s).Some?
    ensures var e := SettleStep(id, r, h, l, s).value; OnlyOwn(id, h, l, e.hazard, e.lock) && Grows(r, e.run) && HeldBack(id, r, h, e)
    ensures !r.pc.Skipped? && !r.pc.Over? && (SettleStep(id, r, h, l, s).value.run.rewritten ==> r.rewritten)
  {
    match s {
      case Send => case LearnRefused => case ClearRefused => case WriteRefused => case LearnLost => case WriteLost =>
      case LearnResult => case Checkpoint => case Clear => case Finalize(_) =>
    }
  }

  lemma ExitingOnShared(id: RunId, r: Run, h: Option<RunId>, l: Option<RunId>, x: Exiting)
    requires RunHolds(id, r, h, l) && ExitStep(id, r, h, l, x).Some?
    ensures var e := ExitStep(id, r, h, l, x).value; OnlyOwn(id, h, l, e.hazard, e.lock) && Grows(r, e.run) && HeldBack(id, r, h, e)
    ensures !r.pc.Skipped? && !r.pc.Over? && (ExitStep(id, r, h, l, x).value.run.rewritten ==> r.rewritten || x.Handle?)
  {
    match x { case Return => case Handle(_) => case Die => }
  }

  /** Another run does not notice such a change. */
  lemma OthersKeepFence(other: RunId, o: Run, id: RunId, h: Option<RunId>, l: Option<RunId>, h': Option<RunId>, l': Option<RunId>)
    requires other != id && RunHolds(other, o, h, l) && OnlyOwn(id, h, l, h', l')
    ensures RunHolds(other, o, h', l')
  {
  }

  predicate RunOk(s: Project, id: RunId)
    requires id in s.runs
  {
    RunHolds(id, s.runs[id], s.hazard, s.lock)
  }

  /** What an operator's copy says about the run it was taken from. */
  predicate CopyOk(s: Project, o: Operator) {
    && o.id in s.runs
    && (o.Copied? ==> ContentsOk(o.copy) && EraOk(s.runs[o.id], o.copy.era))
  }

  /** Every earlier candidate of a process was skipped. */
  predicate EarlierSkipped(s: Project, id: RunId) {
    id.attempt > 0 ==>
      var before := RunId(id.process, id.attempt - 1);
      before in s.runs && s.runs[before].pc.Skipped?
  }

  predicate Inv(s: Project) {
    && (forall id :: id in s.runs ==> RunOk(s, id) && EarlierSkipped(s, id))
    && (s.hazard.Some? ==> s.hazard.value in s.runs)
    && (s.lock.Some? ==> s.lock.value in s.runs)
    && (forall k :: k in s.operators ==> CopyOk(s, s.operators[k]))
  }

  lemma EffectKeepsInv(s: Project, id: RunId, m: Move, t: Project)
    requires Inv(s) && id in s.runs && Step(id, s.runs[id], s.hazard, s.lock, m).Some?
    requires var e := Step(id, s.runs[id], s.hazard, s.lock, m).value; t == Project(e.hazard, e.lock, s.runs[id := e.run], s.operators)
    ensures Inv(t)
  {
    assert RunOk(s, id);
    StepKeepsRun(id, s.runs[id], s.hazard, s.lock, m);
    StepOnShared(id, s.runs[id], s.hazard, s.lock, m);
    OneRunChanged(s, id, t);
  }

  /** A change of one run and of what it owns keeps the invariant of the project. */
  lemma OneRunChanged(s: Project, id: RunId, t: Project)
    requires Inv(s) && id in s.runs && id in t.runs && t.runs == s.runs[id := t.runs[id]] && t.operators == s.operators
    requires OnlyOwn(id, s.hazard, s.lock, t.hazard, t.lock) && RunOk(t, id) && !s.runs[id].pc.Skipped?
    requires Grows(s.runs[id], t.runs[id])
    ensures Inv(t)
  {
    forall other | other in t.runs ensures RunOk(t, other) && EarlierSkipped(t, other) {
      assert RunOk(s, other) && EarlierSkipped(s, other);
      if other != id {
        OthersKeepFence(other, s.runs[other], id, s.hazard, s.lock, t.hazard, t.lock);
      }
    }
    forall k | k in t.operators ensures CopyOk(t, t.operators[k]) {
      assert CopyOk(s, s.operators[k]);
    }
  }

  lemma ActKeepsInv(s: Project, a: Act)
    requires Inv(s) && Do(s, a).Some?
    ensures Inv(Do(s, a).value)
  {
    var t := Do(s, a).value;
    match a {
      case Move(id, m) => EffectKeepsInv(s, id, m, t);
      case First(p) => RunAdded(s, RunId(p, 0), t);
      case Fallback(p, n) => RunAdded(s, RunId(p, n + 1), t);
      case BreakLock => LockBroken(s, t);
      case Look(k, id) => LookKeepsInv(s, k, id, t);
      case Copy(k) => CopyKeepsInv(s, k, t);
      case SkipNote(k) => SkipNoteKeepsInv(s, k, t);
      case Aim(k) => AimKeepsInv(s, k, t);
      case WriteBack(k) => CopyWrittenBack(s, k, t);
      case Unlink(k) => HazardUnlinked(s, k, t);
      case Abandon(k) => OperatorGone(s, k, t);
    }
  }

  lemma RunAdded(s: Project, id: RunId, t: Project)
    requires Inv(s) && id !in s.runs && t == s.(runs := s.runs[id := Started()])
    requires EarlierSkipped(s, id)
    ensures Inv(t)
  {
    forall other | other in t.runs ensures RunOk(t, other) && EarlierSkipped(t, other) {
      assert other in s.runs ==> RunOk(s, other) && EarlierSkipped(s, other);
    }
    forall k | k in t.operators ensures CopyOk(t, t.operators[k]) {
      assert CopyOk(s, s.operators[k]);
    }
  }

  lemma LockBroken(s: Project, t: Project)
    requires Inv(s) && t == s.(lock := None) && s.lock.Some? && s.lock.value in s.runs && s.runs[s.lock.value].pc.Over?
    ensures Inv(t)
  {
    forall other | other in t.runs ensures RunOk(t, other) && EarlierSkipped(t, other) {
      assert RunOk(s, other) && EarlierSkipped(s, other);
    }
    forall k | k in t.operators ensures CopyOk(t, t.operators[k]) {
      assert CopyOk(s, s.operators[k]);
    }
  }

  /** An operator got further without touching the runs. */
  lemma OperatorMoved(s: Project, k: nat, t: Project)
    requires Inv(s) && k in t.operators && t == s.(operators := s.operators[k := t.operators[k]])
    requires t.operators[k].id in s.runs
    requires t.operators[k].Copied? ==> t.operators[k].copy == s.runs[t.operators[k].id].summary
    ensures Inv(t)
  {
    forall other | other in t.runs ensures RunOk(t, other) && EarlierSkipped(t, other) {
      assert RunOk(s, other) && EarlierSkipped(s, other);
    }
    assert RunOk(s, t.operators[k].id);
    forall j | j in t.operators ensures CopyOk(t, t.operators[j]) {
      assert j != k ==> CopyOk(s, s.operators[j]);
    }
  }

  lemma LookKeepsInv(s: Project, k: nat, id: RunId, t: Project)
    requires Inv(s) && Do(s, Look(k, id)) == Some(t)
    ensures Inv(t)
  {
    OperatorMoved(s, k, t);
  }

  lemma CopyKeepsInv(s: Project, k: nat, t: Project)
    requires Inv(s) && Do(s, Copy(k)) == Some(t)
    ensures Inv(t)
  {
    OperatorMoved(s, k, t);
  }

  lemma SkipNoteKeepsInv(s: Project, k: nat, t: Project)
    requires Inv(s) && Do(s, SkipNote(k)) == Some(t)
    ensures Inv(t)
  {
    assert CopyOk(s, s.operators[k]);
    OperatorMoved(s, k, t);
  }

  lemma AimKeepsInv(s: Project, k: nat, t: Project)
    requires Inv(s) && Do(s, Aim(k)) == Some(t)
    ensures Inv(t)
  {
    assert CopyOk(s, s.operators[k]);
    OperatorMoved(s, k, t);
  }

  lemma OperatorGone(s: Project, k: nat, t: Project)
    requires Inv(s) && t == s.(operators := s.operators - {k})
    ensures Inv(t)
  {
    forall other | other in t.runs ensures RunOk(t, other) && EarlierSkipped(t, other) {
      assert RunOk(s, other) && EarlierSkipped(s, other);
    }
    forall j | j in t.operators ensures CopyOk(t, t.operators[j]) {
      assert CopyOk(s, s.operators[j]);
    }
  }

  lemma CopyWrittenBack(s: Project, k: nat, t: Project)
    requires Inv(s) && Do(s, WriteBack(k)) == Some(t)
    ensures Inv(t)
  {
    assert CopyOk(s, s.operators[k]);
    var id := s.operators[k].id;
    assert RunOk(s, id);
    BackdatedIsOk(id, s.runs[id], s.operators[k].copy, s.hazard, s.lock);
    forall other | other in t.runs ensures RunOk(t, other) && EarlierSkipped(t, other) {
      assert RunOk(s, other) && EarlierSkipped(s, other);
    }
    forall j | j in t.operators ensures CopyOk(t, t.operators[j]) {
      assert j in s.operators && CopyOk(s, s.operators[j]);
    }
  }

  lemma BackdatedIsOk(id: RunId, r: Run, copy: Summary, h: Option<RunId>, l: Option<RunId>)
    requires RunHolds(id, r, h, l) && ContentsOk(copy) && EraOk(r, copy.era)
    ensures RunHolds(id, Backdated(r, copy), h, l)
  {
  }

  /** Whoever's hazard the file holds when it is unlinked loses it. */
  lemma HazardUnlinked(s: Project, k: nat, t: Project)
    requires Inv(s) && Do(s, Unlink(k)) == Some(t)
    ensures Inv(t)
  {
    var id := s.hazard.value;
    forall other | other in t.runs ensures RunOk(t, other) && EarlierSkipped(t, other) {
      assert RunOk(s, other) && EarlierSkipped(s, other);
      if other == id {
        UnfencedIsOk(id, s.runs[id], s.operators[k].id, s.lock);
      }
    }
    forall j | j in t.operators ensures CopyOk(t, t.operators[j]) {
      assert CopyOk(s, s.operators[j]);
    }
  }

  lemma UnfencedIsOk(id: RunId, r: Run, aim: RunId, l: Option<RunId>)
    requires RunHolds(id, r, Some(id), l)
    ensures RunHolds(id, Unfenced(r, id, aim), None, l)
  {
  }

  function Empty(): Project { Project(None, None, map[], map[]) }

  /** The state after a series of acts, each of them possible when it happens. */
  function After(s: Project, acts: seq<Act>): Option<Project> {
    if acts == [] then Some(s)
    else
      var n := |acts| - 1;
      match After(s, acts[..n])
      case None => None
      case Some(t) => Do(t, acts[n])
  }

  lemma {:induction false} RunKeepsInv(s: Project, acts: seq<Act>)
    requires Inv(s) && After(s, acts).Some?
    ensures Inv(After(s, acts).value)
  {
    if acts != [] {
      var n := |acts| - 1;
      RunKeepsInv(s, acts[..n]);
      ActKeepsInv(After(s, acts[..n]).value, acts[n]);
    }
  }

  // ---- the fence ----

  /** After any acts, a run that may have started and is not settled has its hazard on disk if and only if
      no command that meant another run's hazard has taken it. Its summary says unknown unless an operator
      wrote back contents from before the fence was announced. */
  lemma UnsettledIsFenced(acts: seq<Act>, id: RunId)
    requires After(Empty(), acts).Some? && id in After(Empty(), acts).value.runs
    requires Unsettled(After(Empty(), acts).value.runs[id])
    ensures var s := After(Empty(), acts).value;
      && (s.hazard == Some(id) <==> !s.runs[id].robbed)
      && (s.runs[id].summary.mark.Unknown? <==> s.runs[id].summary.era.Doubt?)
      && (!s.runs[id].overwritten ==> s.runs[id].summary.mark.Unknown?)
  {
    RunKeepsInv(Empty(), acts);
    assert RunOk(After(Empty(), acts).value, id);
  }

  /** While a hazard stands and its run is over, nothing is sent, whatever the other controllers do;
      only a command that unlinks the file can lift it. */
  lemma {:induction false} FenceBlocks(s: Project, acts: seq<Act>, id: RunId)
    requires Inv(s) && s.hazard == Some(id) && s.runs[id].pc.Over?
    requires After(s, acts).Some? && forall i :: 0 <= i < |acts| ==> !acts[i].Unlink?
    ensures var t := After(s, acts).value;
      && t.hazard == Some(id) && id in t.runs && t.runs[id].pc.Over?
      && forall other :: other in t.runs && t.runs[other].sent ==> other in s.runs && s.runs[other].sent
  {
    if acts != [] {
      var n := |acts| - 1;
      RunKeepsInv(s, acts[..n]);
      FenceBlocks(s, acts[..n], id);
      ActBehindFence(After(s, acts[..n]).value, acts[n], id);
    }
  }

  lemma ActBehindFence(s: Project, a: Act, id: RunId)
    requires Inv(s) && s.hazard == Some(id) && s.runs[id].pc.Over?
    requires Do(s, a).Some? && !a.Unlink?
    ensures var t := Do(s, a).value;
      && t.hazard == Some(id) && id in t.runs && t.runs[id].pc.Over?
      && forall other :: other in t.runs && t.runs[other].sent ==> other in s.runs && s.runs[other].sent
  {
    match a {
      case Move(other, m) =>
        assert RunOk(s, other);
        StepOnShared(other, s.runs[other], s.hazard, s.lock, m);
      case First(_) => case Fallback(_, _) => case BreakLock => case Look(_, _) => case Copy(_) =>
      case WriteBack(_) => case SkipNote(_) => case Aim(_) => case Unlink(_) => case Abandon(_) =>
    }
  }

  /** A command is sent only behind its own hazard, unless an operator lifted or took that very hazard; it
      is never sent behind another run's. */
  lemma SentBehindOwnHazard(acts: seq<Act>, id: RunId)
    requires After(Empty(), acts).Some? && Do(After(Empty(), acts).value, Act.Move(id, Settles(Send))).Some?
    ensures var s := After(Empty(), acts).value;
      && id in s.runs
      && (s.hazard == Some(id) <==> !s.runs[id].resolved && !s.runs[id].robbed)
      && (s.hazard != Some(id) ==> s.hazard == None)
  {
    RunKeepsInv(Empty(), acts);
    assert RunOk(After(Empty(), acts).value, id);
  }

  // ---- the summary ----

  /** Once the outcome was checkpointed, the summary shows it if and only if its contents date from the
      checkpoint or later and no handler wrote them over the last summary. Contents from before the
      checkpoint come back only by an operator's hand. */
  lemma OutcomeStaysOnDisk(acts: seq<Act>, id: RunId)
    requires After(Empty(), acts).Some? && id in After(Empty(), acts).value.runs
    ensures var r := After(Empty(), acts).value.runs[id]; r.checkpointed ==>
      && (ShowsOutcome(r.summary.mark) <==> OutcomeEra(r.summary.era))
      && (!OutcomeEra(r.summary.era) ==> (r.summary.era.Cut? && r.rewritten) || r.overwritten)
  {
    RunKeepsInv(Empty(), acts);
    assert RunOk(After(Empty(), acts).value, id);
  }

  // ---- who can take another run's hazard ----

  /** When run `id` writes its hazard, no command stands between comparing and unlinking another one. */
  ghost predicate Unaimed(acts: seq<Act>, id: RunId) {
    acts != [] ==>
      var n := |acts| - 1;
      && Unaimed(acts[..n], id)
      && (acts[n] == Act.Move(id, Prepares(WriteHazard)) && After(Empty(), acts[..n]).Some? ==>
            NoneAimedElsewhere(After(Empty(), acts[..n]).value, id))
  }

  predicate NoneAimedElsewhere(s: Project, id: RunId) {
    forall k :: k in s.operators && s.operators[k].Aimed? ==> s.operators[k].id == id
  }

  predicate Safe(s: Project, id: RunId) {
    && (id in s.runs ==> !s.runs[id].robbed)
    && (s.hazard == Some(id) ==> NoneAimedElsewhere(s, id))
  }

  lemma SafeStep(s: Project, a: Act, id: RunId)
    requires Inv(s) && Safe(s, id) && Do(s, a).Some?
    requires a == Act.Move(id, Prepares(WriteHazard)) ==> NoneAimedElsewhere(s, id)
    ensures Safe(Do(s, a).value, id)
  {
    match a {
      case Move(other, m) => MoveIsSafe(s, other, m, id);
      case Aim(k) => AimIsSafe(s, k, id);
      case Unlink(k) => UnlinkIsSafe(s, k, id);
      case WriteBack(k) => WriteBackIsSafe(s, k, id);
      case First(_) => case Fallback(_, _) => case BreakLock => case Look(_, _) => case Copy(_) =>
      case SkipNote(_) => case Abandon(_) =>
    }
  }

  lemma AimIsSafe(s: Project, k: nat, id: RunId)
    requires Safe(s, id) && Do(s, Aim(k)).Some?
    ensures Safe(Do(s, Aim(k)).value, id)
  {
  }

  lemma UnlinkIsSafe(s: Project, k: nat, id: RunId)
    requires Safe(s, id) && Do(s, Unlink(k)).Some?
    ensures Safe(Do(s, Unlink(k)).value, id)
  {
  }

  lemma WriteBackIsSafe(s: Project, k: nat, id: RunId)
    requires Safe(s, id) && Do(s, WriteBack(k)).Some?
    ensures Safe(Do(s, WriteBack(k)).value, id)
  {
  }

  lemma MoveIsSafe(s: Project, other: RunId, m: Move, id: RunId)
    requires Inv(s) && Safe(s, id) && Do(s, Act.Move(other, m)).Some?
    requires other == id && m == Prepares(WriteHazard) ==> NoneAimedElsewhere(s, id)
    ensures Safe(Do(s, Act.Move(other, m)).value, id)
  {
    assert RunOk(s, other);
    StepOnShared(other, s.runs[other], s.hazard, s.lock, m);
    FencesOnlyByWriting(other, s.runs[other], s.hazard, s.lock, m);
  }

  lemma FencesOnlyByWriting(id: RunId, r: Run, h: Option<RunId>, l: Option<RunId>, m: Move)
    requires RunHolds(id, r, h, l) && Step(id, r, h, l, m).Some?
    ensures Step(id, r, h, l, m).value.hazard in {h, None} || m == Prepares(WriteHazard)
  {
    match m {
      case Prepares(_) =>
      case Settles(_) =>
      case Exits(_) =>
    }
  }

  /** A run is robbed of its hazard only by a command that was between comparing and unlinking another
      run's hazard when this run wrote its own. */
  lemma {:induction false} RobbedOnlyUnderAim(acts: seq<Act>, id: RunId)
    requires After(Empty(), acts).Some? && Unaimed(acts, id)
    ensures Safe(After(Empty(), acts).value, id)
  {
    if acts != [] {
      var n := |acts| - 1;
      RobbedOnlyUnderAim(acts[..n], id);
      RunKeepsInv(Empty(), acts[..n]);
      SafeStep(After(Empty(), acts[..n]).value, acts[n], id);
    }
  }

  // ---- resolving one ended run at a time ----

  /** An operator starts only when the run is over and no other operator is at work. */
  ghost predicate Patient(acts: seq<Act>) {
    acts != [] ==>
      var n := |acts| - 1;
      && Patient(acts[..n])
      && (acts[n].Look? && After(Empty(), acts[..n]).Some? && acts[n].id in After(Empty(), acts[..n]).value.runs ==>
            MayLook(After(Empty(), acts[..n]).value, acts[n].id))
  }

  predicate MayLook(s: Project, id: RunId) {
    s.operators == map[] && id in s.runs && s.runs[id].pc.Over?
  }

  predicate Undisturbed(s: Project) {
    && (forall id :: id in s.runs ==> !s.runs[id].overwritten && !s.runs[id].robbed)
    && (forall k, j :: k in s.operators && j in s.operators ==> k == j)
    && (forall k :: k in s.operators ==> Careful(s, s.operators[k]))
  }

  /** The run has ended, so the operator's copy is what is on disk, and the hazard it compared still stands. */
  predicate Careful(s: Project, o: Operator) {
    && o.id in s.runs && s.runs[o.id].pc.Over?
    && (o.Copied? ==> o.copy == s.runs[o.id].summary)
    && (o.Aimed? ==> s.hazard == Some(o.id))
  }

  lemma PatientStep(s: Project, a: Act)
    requires Inv(s) && Undisturbed(s) && Do(s, a).Some?
    requires a.Look? && a.id in s.runs ==> MayLook(s, a.id)
    ensures Undisturbed(Do(s, a).value)
  {
    match a {
      case Move(id, m) => PatientMove(s, id, m);
      case WriteBack(k) => PatientOperator(s, a, k);
      case Unlink(k) => PatientOperator(s, a, k);
      case Copy(k) => PatientOperator(s, a, k);
      case SkipNote(k) => PatientOperator(s, a, k);
      case Aim(k) => PatientOperator(s, a, k);
      case Abandon(k) => PatientOperator(s, a, k);
      case First(_) => PatientOthers(s, a);
      case Fallback(_, _) => PatientOthers(s, a);
      case BreakLock => PatientOthers(s, a);
      case Look(_, _) => PatientOthers(s, a);
    }
  }

  lemma PatientMove(s: Project, id: RunId, m: Move)
    requires Inv(s) && Undisturbed(s) && Do(s, Act.Move(id, m)).Some?
    ensures Undisturbed(Do(s, Act.Move(id, m)).value)
  {
    var t := Do(s, Act.Move(id, m)).value;
    assert RunOk(s, id);
    StepOnShared(id, s.runs[id], s.hazard, s.lock, m);
    forall k | k in t.operators ensures Careful(t, t.operators[k]) {
      assert Careful(s, s.operators[k]);
    }
  }

  lemma PatientOperator(s: Project, a: Act, k: nat)
    requires Inv(s) && Undisturbed(s) && Do(s, a).Some? && k in s.operators
    requires a in {WriteBack(k), Unlink(k), Copy(k), SkipNote(k), Aim(k), Abandon(k)}
    ensures Undisturbed(Do(s, a).value)
  {
    var t := Do(s, a).value;
    assert Careful(s, s.operators[k]);
    forall j | j in t.operators ensures Careful(t, t.operators[j]) {
      assert j == k;
    }
  }

  lemma PatientOthers(s: Project, a: Act)
    requires Inv(s) && Undisturbed(s) && Do(s, a).Some? && (a.First? || a.Fallback? || a.BreakLock? || a.Look?)
    requires a.Look? && a.id in s.runs ==> MayLook(s, a.id)
    ensures Undisturbed(Do(s, a).value)
  {
    var t := Do(s, a).value;
    forall k | k in t.operators ensures Careful(t, t.operators[k]) {
      assert k in s.operators ==> Careful(s, s.operators[k]);
    }
  }

  lemma {:induction false} PatientRun(acts: seq<Act>)
    requires After(Empty(), acts).Some? && Patient(acts)
    ensures Undisturbed(After(Empty(), acts).value)
  {
    if acts != [] {
      var n := |acts| - 1;
      PatientRun(acts[..n]);
      RunKeepsInv(Empty(), acts[..n]);
      PatientStep(After(Empty(), acts[..n]).value, acts[n]);
    }
  }

  /** If hazards are resolved one at a time and only for runs that are over, every unsettled run has its
      hazard and a summary that says unknown, and a handler that rewrote the last summary is the only way
      to lose a checkpointed outcome, and it always does. */
  lemma PatientResolutionKeepsFenceAndOutcome(acts: seq<Act>, id: RunId)
    requires After(Empty(), acts).Some? && Patient(acts) && id in After(Empty(), acts).value.runs
    ensures var s := After(Empty(), acts).value; var r := s.runs[id];
      && (Unsettled(r) ==> s.hazard == Some(id) && r.summary.mark.Unknown?)
      && (r.checkpointed ==> (ShowsOutcome(r.summary.mark) <==> !r.rewritten))
  {
    RunKeepsInv(Empty(), acts);
    PatientRun(acts);
    assert RunOk(After(Empty(), acts).value, id);
  }

  predicate Handles(a: Act, id: RunId) {
    a.Move? && a.id == id && a.move.Exits? && a.move.x.Handle?
  }

  /** The disk settles what became of the command: the fence stands, or the summary shows the outcome or
      says that nothing started. */
  predicate OnRecord(s: Project, id: RunId)
    requires id in s.runs
  {
    s.hazard == Some(id) || ShowsOutcome(s.runs[id].summary.mark) || s.runs[id].summary.mark.NotStarted?
  }

  /** With process death as the only accident, and patient resolution, the disk settles what became of a
      command that was sent, if and only if its run is not between clearing its hazard on a proof of
      non-start and writing so, and did not end there. */
  lemma DeathLosesOneProof(acts: seq<Act>, id: RunId)
    requires After(Empty(), acts).Some? && Patient(acts) && id in After(Empty(), acts).value.runs
    requires forall i :: 0 <= i < |acts| ==> !Handles(acts[i], id)
    ensures var s := After(Empty(), acts).value; var r := s.runs[id];
      r.sent && !r.resolved ==> (OnRecord(s, id) <==> !r.pc.RefusedCleared? && !r.cutShort)
  {
    RunKeepsInv(Empty(), acts);
    PatientRun(acts);
    assert RunOk(After(Empty(), acts).value, id);
    NeverRewritten(acts, id);
  }

  lemma {:induction false} NeverRewritten(acts: seq<Act>, id: RunId)
    requires After(Empty(), acts).Some?
    requires forall i :: 0 <= i < |acts| ==> !Handles(acts[i], id)
    ensures var t := After(Empty(), acts).value; id in t.runs ==> !t.runs[id].rewritten
  {
    if acts != [] {
      var n := |acts| - 1;
      NeverRewritten(acts[..n], id);
      RunKeepsInv(Empty(), acts[..n]);
      OneNotRewritten(After(Empty(), acts[..n]).value, acts[n], id);
    }
  }

  lemma OneNotRewritten(s: Project, a: Act, id: RunId)
    requires Inv(s) && (id in s.runs ==> !s.runs[id].rewritten)
    requires Do(s, a).Some? && !Handles(a, id)
    ensures var t := Do(s, a).value; id in t.runs ==> !t.runs[id].rewritten
  {
    match a {
      case Move(other, m) => MoveRewritesNothing(s, other, m, id);
      case Unlink(k) => UnlinkRewritesNothing(s, k, id);
      case WriteBack(k) => WriteBackRewritesNothing(s, k, id);
      case First(_) => case Fallback(_, _) => case BreakLock => case Look(_, _) => case Copy(_) =>
      case SkipNote(_) => case Aim(_) => case Abandon(_) =>
    }
  }

  lemma UnlinkRewritesNothing(s: Project, k: nat, id: RunId)
    requires Do(s, Unlink(k)).Some? && (id in s.runs ==> !s.runs[id].rewritten)
    ensures var t := Do(s, Unlink(k)).value; id in t.runs ==> !t.runs[id].rewritten
  {
  }

  lemma WriteBackRewritesNothing(s: Project, k: nat, id: RunId)
    requires Do(s, WriteBack(k)).Some? && (id in s.runs ==> !s.runs[id].rewritten)
    ensures var t := Do(s, WriteBack(k)).value; id in t.runs ==> !t.runs[id].rewritten
  {
  }

  lemma MoveRewritesNothing(s: Project, other: RunId, m: Move, id: RunId)
    requires Inv(s) && (id in s.runs ==> !s.runs[id].rewritten)
    requires Do(s, Act.Move(other, m)).Some? && !Handles(Act.Move(other, m), id)
    ensures var t := Do(s, Act.Move(other, m)).value; id in t.runs ==> !t.runs[id].rewritten
  {
    if other == id {
      assert RunOk(s, id);
      StepOnShared(id, s.runs[id], s.hazard, s.lock, m);
    }
  }

  // ---- a run that nobody disturbs ----

  /** The moves of one run, one after another. */
  function Follow(id: RunId, e: Effect, moves: seq<Move>): Option<Effect>
    decreases |moves|
  {
    if moves == [] then Some(e)
    else
      match Step(id, e.run, e.hazard, e.lock, moves[0])
      case None => None
      case Some(next) => Follow(id, next, moves[1..])
  }

  lemma FollowFirst(id: RunId, e: Effect, m: Move, rest: seq<Move>, next: Effect)
    requires Step(id, e.run, e.hazard, e.lock, m) == Some(next)
    ensures Follow(id, e, [m] + rest) == Follow(id, next, rest)
  {
    assert ([m] + rest)[1..] == rest;
  }

  lemma UndisturbedReturn(id: RunId, r: Run, h: Option<RunId>)
    requires r.pc == Finalized
    ensures Follow(id, Effect(r, h, Some(id)), [Exits(Return)]) == Some(Effect(r.(pc := Over), h, None))
  {
    FollowFirst(id, Effect(r, h, Some(id)), Exits(Return), [], Effect(r.(pc := Over), h, None));
  }

  /** From its start to the dispatch a run puts its receipt, its lock, its hazard and its doubt on disk. */
  lemma UndisturbedDispatch(id: RunId, r: Run)
    requires r == Started()
    ensures Follow(id, Effect(r, None, None),
                   [Prepares(WriteReceipt), Prepares(TakeLock), Prepares(ReadHazard), Prepares(WriteHazard), Prepares(Announce), Settles(Send)])
         == Some(Effect(r.(pc := Sent, summary := Summary(Unknown, Doubt), sent := true), Some(id), Some(id)))
  {
    var h := Some(id);
    var locked := r.(pc := Locked, summary := Summary(NotStarted, Draft));
    var announced := r.(pc := Announced, summary := Summary(Unknown, Doubt));
    FollowFirst(id, Effect(r, None, None), Prepares(WriteReceipt),
                [Prepares(TakeLock), Prepares(ReadHazard), Prepares(WriteHazard), Prepares(Announce), Settles(Send)],
                Effect(locked.(pc := Received), None, None));
    FollowFirst(id, Effect(locked.(pc := Received), None, None), Prepares(TakeLock),
                [Prepares(ReadHazard), Prepares(WriteHazard), Prepares(Announce), Settles(Send)], Effect(locked, None, h));
    FollowFirst(id, Effect(locked, None, h), Prepares(ReadHazard), [Prepares(WriteHazard), Prepares(Announce), Settles(Send)],
                Effect(locked.(pc := SawNoOther), None, h));
    FollowFirst(id, Effect(locked.(pc := SawNoOther), None, h), Prepares(WriteHazard), [Prepares(Announce), Settles(Send)],
                Effect(locked.(pc := Fenced), h, h));
    FollowFirst(id, Effect(locked.(pc := Fenced), h, h), Prepares(Announce), [Settles(Send)], Effect(announced, h, h));
    FollowFirst(id, Effect(announced, h, h), Settles(Send), [], Effect(announced.(pc := Sent, sent := true), h, h));
  }

  /** A conclusive result ends with the last summary, and neither hazard nor lock. */
  lemma UndisturbedResult(id: RunId, r: Run, mark: Mark)
    requires r.pc == Sent && (mark == Complete || mark == FinalizationFailed)
    ensures Follow(id, Effect(r, Some(id), Some(id)),
                   [Settles(LearnResult), Settles(Checkpoint), Settles(Clear), Settles(Finalize(mark)), Exits(Return)])
         == Some(Effect(r.(pc := Over, summary := Summary(mark, Last), checkpointed := true), None, None))
  {
    var h := Some(id);
    var saved := r.(pc := Checkpointed, summary := Summary(CommandComplete, Outcome), checkpointed := true);
    FollowFirst(id, Effect(r, h, h), Settles(LearnResult), [Settles(Checkpoint), Settles(Clear), Settles(Finalize(mark)), Exits(Return)],
                Effect(r.(pc := Concluded), h, h));
    FollowFirst(id, Effect(r.(pc := Concluded), h, h), Settles(Checkpoint), [Settles(Clear), Settles(Finalize(mark)), Exits(Return)],
                Effect(saved, h, h));
    UndisturbedClosing(id, saved, mark);
  }

  lemma UndisturbedClosing(id: RunId, saved: Run, mark: Mark)
    requires saved.pc == Checkpointed && (mark == Complete || mark == FinalizationFailed)
    ensures Follow(id, Effect(saved, Some(id), Some(id)), [Settles(Clear), Settles(Finalize(mark)), Exits(Return)])
         == Some(Effect(saved.(pc := Over, summary := Summary(mark, Last)), None, None))
  {
    var h := Some(id);
    var final := saved.(pc := Finalized, summary := Summary(mark, Last));
    FollowFirst(id, Effect(saved, h, h), Settles(Clear), [Settles(Finalize(mark)), Exits(Return)], Effect(saved.(pc := Cleared), None, h));
    FollowFirst(id, Effect(saved.(pc := Cleared), None, h), Settles(Finalize(mark)), [Exits(Return)], Effect(final, None, h));
    UndisturbedReturn(id, final, None);
  }

  /** A proof of non-start ends with a summary that says so, and neither hazard nor lock. */
  lemma UndisturbedRefusal(id: RunId, r: Run)
    requires r.pc == Sent
    ensures Follow(id, Effect(r, Some(id), Some(id)), [Settles(LearnRefused), Settles(ClearRefused), Settles(WriteRefused), Exits(Return)])
         == Some(Effect(r.(pc := Over, summary := Summary(NotStarted, Denial), proved := true), None, None))
  {
    var h := Some(id);
    var refused := r.(pc := Refused, proved := true);
    FollowFirst(id, Effect(r, h, h), Settles(LearnRefused), [Settles(ClearRefused), Settles(WriteRefused), Exits(Return)], Effect(refused, h, h));
    FollowFirst(id, Effect(refused, h, h), Settles(ClearRefused), [Settles(WriteRefused), Exits(Return)],
                Effect(refused.(pc := RefusedCleared), None, h));
    UndisturbedDenial(id, refused.(pc := RefusedCleared));
  }

  lemma UndisturbedDenial(id: RunId, r: Run)
    requires r.pc == RefusedCleared
    ensures Follow(id, Effect(r, None, Some(id)), [Settles(WriteRefused), Exits(Return)])
         == Some(Effect(r.(pc := Over, summary := Summary(NotStarted, Denial)), None, None))
  {
    var final := r.(pc := Finalized, summary := Summary(NotStarted, Denial));
    FollowFirst(id, Effect(r, None, Some(id)), Settles(WriteRefused), [Exits(Return)], Effect(final, None, Some(id)));
    UndisturbedReturn(id, final, None);
  }

  /** A lost transport ends with a summary that says unknown, and the hazard stays. */
  lemma UndisturbedLoss(id: RunId, r: Run)
    requires r.pc == Sent
    ensures Follow(id, Effect(r, Some(id), Some(id)), [Settles(LearnLost), Settles(WriteLost), Exits(Return)])
         == Some(Effect(r.(pc := Over, summary := Summary(Unknown, Doubt)), Some(id), None))
  {
    var h := Some(id);
    FollowFirst(id, Effect(r, h, h), Settles(LearnLost), [Settles(WriteLost), Exits(Return)], Effect(r.(pc := Lost), h, h));
    UndisturbedDoubt(id, r.(pc := Lost));
  }

  lemma UndisturbedDoubt(id: RunId, r: Run)
    requires r.pc == Lost
    ensures Follow(id, Effect(r, Some(id), Some(id)), [Settles(WriteLost), Exits(Return)])
         == Some(Effect(r.(pc := Over, summary := Summary(Unknown, Doubt)), Some(id), None))
  {
    var final := r.(pc := Finalized, summary := Summary(Unknown, Doubt));
    FollowFirst(id, Effect(r, Some(id), Some(id)), Settles(WriteLost), [Exits(Return)], Effect(final, Some(id), Some(id)));
    UndisturbedReturn(id, final, Some(id));
  }

  /** A run that ends before its fence leaves the hazard file and a free lock as they are: skipped, or ended
      with a plain summary, or after locking with the state that stopped it. */
  lemma EarlyEnds(id: RunId, r: Run, h: Option<RunId>, mark: Mark)
    ensures r.pc == Received ==>
      && Follow(id, Effect(r, h, None), [Prepares(Skip)]) == Some(Effect(r.(pc := Skipped, summary := Summary(Plain, Draft)), h, None))
      && Follow(id, Effect(r, h, None), [Prepares(Quit)]) == Some(Effect(r.(pc := Over, summary := Summary(Plain, Draft)), h, None))
    ensures r.pc == Locked ==>
      Follow(id, Effect(r, h, Some(id)), [Prepares(SkipConflict)]) == Some(Effect(r.(pc := Skipped, summary := Summary(Plain, Draft)), h, None))
    ensures r.pc == Locked && (mark == Plain || mark == NotStarted || mark == Unknown) ==>
      Follow(id, Effect(r, h, Some(id)), [Prepares(QuitLocked(mark))])
      == Some(Effect(r.(pc := Over, summary := Summary(mark, if mark == Unknown then Doubt else Draft)), h, None))
  {
    if r.pc == Received {
      FollowFirst(id, Effect(r, h, None), Prepares(Skip), [], Effect(r.(pc := Skipped, summary := Summary(Plain, Draft)), h, None));
      FollowFirst(id, Effect(r, h, None), Prepares(Quit), [], Effect(r.(pc := Over, summary := Summary(Plain, Draft)), h, None));
    }
    if r.pc == Locked {
      EarlyEndsLocked(id, r, h, mark);
    }
  }

  lemma EarlyEndsLocked(id: RunId, r: Run, h: Option<RunId>, mark: Mark)
    requires r.pc == Locked
    ensures Follow(id, Effect(r, h, Some(id)), [Prepares(SkipConflict)]) == Some(Effect(r.(pc := Skipped, summary := Summary(Plain, Draft)), h, None))
    ensures mark == Plain || mark == NotStarted || mark == Unknown ==>
      Follow(id, Effect(r, h, Some(id)), [Prepares(QuitLocked(mark))])
      == Some(Effect(r.(pc := Over, summary := Summary(mark, if mark == Unknown then Doubt else Draft)), h, None))
  {
    FollowFirst(id, Effect(r, h, Some(id)), Prepares(SkipConflict), [], Effect(r.(pc := Skipped, summary := Summary(Plain, Draft)), h, None));
    if mark == Plain || mark == NotStarted || mark == Unknown {
      FollowFirst(id, Effect(r, h, Some(id)), Prepares(QuitLocked(mark)), [],
                  Effect(r.(pc := Over, summary := Summary(mark, if mark == Unknown then Doubt else Draft)), h, None));
    }
  }

  /** What a handler leaves behind: a checkpointed outcome becomes a failed finalization, unknown completion
      stays unknown, and any other summary is cancelled by an interrupt and failed by an error; the hazard
      stays as it is, and the lock goes. */
  lemma HandlerLeaves(id: RunId, r: Run, h: Option<RunId>, cause: Cause)
    requires UnderLock(r.pc)
    ensures
      var e := Step(id, r, h, Some(id), Exits(Handle(cause)));
      && e.Some? && e.value.hazard == h && e.value.lock == None && e.value.run.pc == Over
      && e.value.run.summary.mark ==
         if r.summary.mark == CommandComplete then FinalizationFailed
         else if r.summary.mark == Unknown then Unknown
         else if cause == Interrupted then Cancelled
         else FailedEarly
  {
  }

  // ---- what is excluded ----

  const Only := RunId(0, 0)

  /** `acts` lead to a project with one run, as `e` has it, and at most one operator. */
  ghost predicate Reaches(acts: seq<Act>, e: Effect, operators: map<nat, Operator>) {
    After(Empty(), acts) == Some(Project(e.hazard, e.lock, map[Only := e.run], operators))
  }

  lemma Then(acts: seq<Act>, e: Effect, ops: map<nat, Operator>, m: Move, next: Effect) returns (longer: seq<Act>)
    requires Reaches(acts, e, ops) && Step(Only, e.run, e.hazard, e.lock, m) == Some(next)
    ensures Reaches(longer, next, ops)
  {
    longer := acts + [Act.Move(Only, m)];
    assert longer[..|acts|] == acts;
    MovesOnly(e, ops, m, next);
  }

  lemma MovesOnly(e: Effect, ops: map<nat, Operator>, m: Move, next: Effect)
    requires Step(Only, e.run, e.hazard, e.lock, m) == Some(next)
    ensures Do(Project(e.hazard, e.lock, map[Only := e.run], ops), Act.Move(Only, m))
         == Some(Project(next.hazard, next.lock, map[Only := next.run], ops))
  {
    assert map[Only := e.run][Only := next.run] == map[Only := next.run];
  }

  function InDoubt(pc: Pc): Run { Run(pc, Summary(Unknown, Doubt), true, false, false, false, false, false, false, false) }

  function Known(pc: Pc, mark: Mark, era: Era): Run { Run(pc, Summary(mark, era), true, false, true, false, false, false, false, false) }

  /** An interrupt that arrives after the last summary was written turns a completed run into a
      cancelled one, with no hazard left to tell. */
  lemma InterruptAfterCompletion() returns (acts: seq<Act>)
    ensures Reaches(acts, Effect(Known(Over, Cancelled, Cut).(rewritten := true), None, None), map[])
  {
    var sent := ReachSent();
    acts := Completes(sent, map[]);
    acts := Then(acts, Effect(Known(Finalized, Complete, Last), None, Some(Only)), map[], Exits(Handle(Interrupted)),
                 Effect(Known(Over, Cancelled, Cut).(rewritten := true), None, None));
  }

  /** A run that was sent learns its result, checkpoints it, lifts its fence and writes its last summary. */
  lemma Completes(acts0: seq<Act>, ops: map<nat, Operator>) returns (acts: seq<Act>)
    requires Reaches(acts0, Effect(InDoubt(Sent), Some(Only), Some(Only)), ops)
    ensures Reaches(acts, Effect(Known(Finalized, Complete, Last), None, Some(Only)), ops)
  {
    var h := Some(Only);
    acts := Then(acts0, Effect(InDoubt(Sent), h, h), ops, Settles(LearnResult), Effect(InDoubt(Concluded), h, h));
    acts := Then(acts, Effect(InDoubt(Concluded), h, h), ops, Settles(Checkpoint), Effect(Known(Checkpointed, CommandComplete, Outcome), h, h));
    acts := ClearsAndFinalizes(acts, ops);
  }

  lemma ClearsAndFinalizes(acts0: seq<Act>, ops: map<nat, Operator>) returns (acts: seq<Act>)
    requires Reaches(acts0, Effect(Known(Checkpointed, CommandComplete, Outcome), Some(Only), Some(Only)), ops)
    ensures Reaches(acts, Effect(Known(Finalized, Complete, Last), None, Some(Only)), ops)
  {
    var h := Some(Only);
    acts := Then(acts0, Effect(Known(Checkpointed, CommandComplete, Outcome), h, h), ops, Settles(Clear), Effect(Known(Cleared, CommandComplete, Outcome), None, h));
    acts := Then(acts, Effect(Known(Cleared, CommandComplete, Outcome), None, h), ops, Settles(Finalize(Complete)), Effect(Known(Finalized, Complete, Last), None, h));
  }

  lemma ReachSent() returns (acts: seq<Act>)
    ensures Reaches(acts, Effect(InDoubt(Sent), Some(Only), Some(Only)), map[])
  {
    var h := Some(Only);
    var locked := Started().(pc := Locked, summary := Summary(NotStarted, Draft));
    acts := ReachLocked();
    acts := Then(acts, Effect(locked, None, h), map[], Prepares(ReadHazard), Effect(locked.(pc := SawNoOther), None, h));
    acts := Then(acts, Effect(locked.(pc := SawNoOther), None, h), map[], Prepares(WriteHazard), Effect(locked.(pc := Fenced), h, h));
    acts := Then(acts, Effect(locked.(pc := Fenced), h, h), map[], Prepares(Announce), Effect(InDoubt(Announced).(sent := false), h, h));
    acts := Then(acts, Effect(InDoubt(Announced).(sent := false), h, h), map[], Settles(Send), Effect(InDoubt(Sent), h, h));
  }

  lemma ReachLocked() returns (acts: seq<Act>)
    ensures Reaches(acts, Effect(Started().(pc := Locked, summary := Summary(NotStarted, Draft)), None, Some(Only)), map[])
  {
    var first := Effect(Started(), None, None);
    acts := [Act.First(0)];
    assert acts[..0] == [];
    assert map[][Only := Started()] == map[Only := Started()];
    var received := Started().(pc := Received, summary := Summary(NotStarted, Draft));
    acts := Then(acts, first, map[], Prepares(WriteReceipt), Effect(received, None, None));
    acts := Then(acts, Effect(received, None, None), map[], Prepares(TakeLock), Effect(received.(pc := Locked), None, Some(Only)));
  }

  /** An operator who copies the summary of a run that is still in flight, and writes the copy back after
      it has completed: the result was checkpointed, no handler was involved, and the disk holds neither
      hazard nor outcome. */
  lemma StaleResolution() returns (acts: seq<Act>)
    ensures Reaches(acts, Effect(Known(Over, Unknown, Doubt).(overwritten := true), None, None), map[0 := Noted(Only)])
  {
    var looked: map<nat, Operator> := map[0 := Looked(Only)];
    var copied: map<nat, Operator> := map[0 := Copied(Only, Summary(Unknown, Doubt))];
    acts := LooksAndCopies();
    acts := Completes(acts, copied);
    acts := Then(acts, Effect(Known(Finalized, Complete, Last), None, Some(Only)), copied, Exits(Return), Effect(Known(Over, Complete, Last), None, None));
    acts := WritesBack(acts);
  }

  lemma LooksAndCopies() returns (acts: seq<Act>)
    ensures Reaches(acts, Effect(InDoubt(Sent), Some(Only), Some(Only)), map[0 := Copied(Only, Summary(Unknown, Doubt))])
  {
    var sent := ReachSent();
    var looked := sent + [Look(0, Only)];
    assert looked[..|sent|] == sent;
    OneLook(InDoubt(Sent));
    assert Reaches(looked, Effect(InDoubt(Sent), Some(Only), Some(Only)), map[0 := Looked(Only)]);
    acts := looked + [Copy(0)];
    assert acts[..|looked|] == looked;
  }

  lemma OneLook(r: Run)
    ensures Do(Project(Some(Only), Some(Only), map[Only := r], map[]), Look(0, Only))
         == Some(Project(Some(Only), Some(Only), map[Only := r], map[0 := Looked(Only)]))
    ensures Do(Project(Some(Only), Some(Only), map[Only := r], map[0 := Looked(Only)]), Copy(0))
         == Some(Project(Some(Only), Some(Only), map[Only := r], map[0 := Copied(Only, r.summary)]))
  {
    var none: map<nat, Operator> := map[];
    assert none[0 := Looked(Only)] == map[0 := Looked(Only)];
    assert map[0 := Looked(Only)][0 := Copied(Only, r.summary)] == map[0 := Copied(Only, r.summary)];
  }

  lemma WritesBack(acts0: seq<Act>) returns (acts: seq<Act>)
    requires Reaches(acts0, Effect(Known(Over, Complete, Last), None, None), map[0 := Copied(Only, Summary(Unknown, Doubt))])
    ensures Reaches(acts, Effect(Known(Over, Unknown, Doubt).(overwritten := true), None, None), map[0 := Noted(Only)])
  {
    acts := acts0 + [WriteBack(0)];
    assert acts[..|acts0|] == acts0;
    OneWriteBack(Known(Over, Complete, Last), Summary(Unknown, Doubt));
  }

  lemma OneWriteBack(r: Run, copy: Summary)
    ensures Do(Project(None, None, map[Only := r], map[0 := Copied(Only, copy)]), WriteBack(0))
         == Some(Project(None, None, map[Only := Backdated(r, copy)], map[0 := Noted(Only)]))
  {
    assert map[Only := r][Only := Backdated(r, copy)] == map[Only := Backdated(r, copy)];
    assert map[0 := Copied(Only, copy)][0 := Noted(Only)] == map[0 := Noted(Only)];
  }

  /** Death between clearing the hazard on a proof of non-start and writing the summary: the disk says
      unknown, and nothing stops a later run. */
  lemma DeathAfterRefusal() returns (acts: seq<Act>)
    ensures Reaches(acts, Effect(InDoubt(Over).(proved := true, cutShort := true), None, Some(Only)), map[])
  {
    var h := Some(Only);
    var refused := InDoubt(Refused).(proved := true);
    acts := ReachSent();
    acts := Then(acts, Effect(InDoubt(Sent), h, h), map[], Settles(LearnRefused), Effect(refused, h, h));
    acts := Then(acts, Effect(refused, h, h), map[], Settles(ClearRefused), Effect(refused.(pc := RefusedCleared), None, h));
    acts := Then(acts, Effect(refused.(pc := RefusedCleared), None, h), map[], Exits(Die), Effect(refused.(pc := Over, cutShort := true), None, h));
  }

  // Two operators resolve the same ended run, and the slower one takes the hazard of the next run.

  const Next := RunId(1, 0)

  function Leads(acts: seq<Act>, s: Project): bool {
    After(Empty(), acts) == Some(s)
  }

  lemma ThenAct(acts: seq<Act>, s: Project, a: Act, t: Project) returns (longer: seq<Act>)
    requires Leads(acts, s) && Do(s, a) == Some(t)
    ensures Leads(longer, t)
  {
    longer := acts + [a];
    assert longer[..|acts|] == acts;
  }

  /** The run that ended in doubt, and both operators on the way to its hazard. */
  function Doubted(a: Operator, b: Operator): Project {
    Project(Some(Only), None, map[Only := InDoubt(Over)], map[0 := a, 1 := b])
  }

  lemma ReachDoubted() returns (acts: seq<Act>)
    ensures Leads(acts, Project(Some(Only), None, map[Only := InDoubt(Over)], map[]))
  {
    var h := Some(Only);
    acts := ReachSent();
    acts := Then(acts, Effect(InDoubt(Sent), h, h), map[], Exits(Die), Effect(InDoubt(Over), h, h));
    acts := ThenAct(acts, Project(h, h, map[Only := InDoubt(Over)], map[]), BreakLock, Project(h, None, map[Only := InDoubt(Over)], map[]));
  }

  lemma BothLook() returns (acts: seq<Act>)
    ensures Leads(acts, Doubted(Looked(Only), Looked(Only)))
  {
    var runs := map[Only := InDoubt(Over)];
    var none: map<nat, Operator> := map[];
    assert none[0 := Looked(Only)] == map[0 := Looked(Only)];
    assert map[0 := Looked(Only)][1 := Looked(Only)] == map[0 := Looked(Only), 1 := Looked(Only)];
    acts := ReachDoubted();
    acts := ThenAct(acts, Project(Some(Only), None, runs, none), Look(0, Only), Project(Some(Only), None, runs, map[0 := Looked(Only)]));
    acts := ThenAct(acts, Project(Some(Only), None, runs, map[0 := Looked(Only)]), Look(1, Only), Doubted(Looked(Only), Looked(Only)));
  }

  /** One operator's next act, which leaves the runs alone. */
  lemma ThenOperator(acts: seq<Act>, a: Operator, b: Operator, k: nat, act: Act, o: Operator) returns (longer: seq<Act>)
    requires Leads(acts, Doubted(a, b)) && k < 2
    requires Do(Doubted(a, b), act) == Some(Doubted(a, b).(operators := Doubted(a, b).operators[k := o]))
    ensures Leads(longer, if k == 0 then Doubted(o, b) else Doubted(a, o))
  {
    assert map[0 := a, 1 := b][k := o] == if k == 0 then map[0 := o, 1 := b] else map[0 := a, 1 := o];
    longer := ThenAct(acts, Doubted(a, b), act, if k == 0 then Doubted(o, b) else Doubted(a, o));
  }

  lemma BothAim() returns (acts: seq<Act>)
    ensures Leads(acts, Doubted(Aimed(Only), Aimed(Only)))
  {
    var copied := Copied(Only, InDoubt(Over).summary);
    acts := BothLook();
    acts := ThenOperator(acts, Looked(Only), Looked(Only), 0, Copy(0), copied);
    acts := ThenOperator(acts, copied, Looked(Only), 1, Copy(1), copied);
    acts := ThenOperator(acts, copied, copied, 0, SkipNote(0), Noted(Only));
    acts := ThenOperator(acts, Noted(Only), copied, 1, SkipNote(1), Noted(Only));
    acts := ThenOperator(acts, Noted(Only), Noted(Only), 0, Aim(0), Aimed(Only));
    acts := ThenOperator(acts, Aimed(Only), Noted(Only), 1, Aim(1), Aimed(Only));
  }

  /** The next run beside the resolved one, with the slower operator about to unlink. */
  function Beside(e: Effect): Project {
    Project(e.hazard, e.lock, map[Only := InDoubt(Over).(resolved := true), Next := e.run], map[0 := Aimed(Only)])
  }

  lemma ThenNext(acts: seq<Act>, e: Effect, m: Move, next: Effect) returns (longer: seq<Act>)
    requires Leads(acts, Beside(e)) && Step(Next, e.run, e.hazard, e.lock, m) == Some(next)
    ensures Leads(longer, Beside(next))
  {
    assert Beside(e).runs[Next := next.run] == Beside(next).runs;
    longer := ThenAct(acts, Beside(e), Act.Move(Next, m), Beside(next));
  }

  lemma NextStarts() returns (acts: seq<Act>)
    ensures Leads(acts, Beside(Effect(Started(), None, None)))
  {
    var resolved := map[Only := InDoubt(Over).(resolved := true)];
    acts := BothAim();
    assert map[Only := InDoubt(Over)][Only := InDoubt(Over).(resolved := true)] == resolved;
    assert map[0 := Aimed(Only), 1 := Aimed(Only)] - {1} == map[0 := Aimed(Only)];
    acts := ThenAct(acts, Doubted(Aimed(Only), Aimed(Only)), Unlink(1), Project(None, None, resolved, map[0 := Aimed(Only)]));
    assert resolved[Next := Started()] == Beside(Effect(Started(), None, None)).runs;
    acts := ThenAct(acts, Project(None, None, resolved, map[0 := Aimed(Only)]), First(1), Beside(Effect(Started(), None, None)));
  }

  lemma NextSent() returns (acts: seq<Act>)
    ensures Leads(acts, Beside(Effect(InDoubt(Sent), Some(Next), Some(Next))))
  {
    var n := Some(Next);
    var received := Started().(pc := Received, summary := Summary(NotStarted, Draft));
    acts := NextStarts();
    acts := ThenNext(acts, Effect(Started(), None, None), Prepares(WriteReceipt), Effect(received, None, None));
    acts := ThenNext(acts, Effect(received, None, None), Prepares(TakeLock), Effect(received.(pc := Locked), None, n));
    acts := ThenNext(acts, Effect(received.(pc := Locked), None, n), Prepares(ReadHazard), Effect(received.(pc := SawNoOther), None, n));
    acts := ThenNext(acts, Effect(received.(pc := SawNoOther), None, n), Prepares(WriteHazard), Effect(received.(pc := Fenced), n, n));
    acts := ThenNext(acts, Effect(received.(pc := Fenced), n, n), Prepares(Announce), Effect(InDoubt(Announced).(sent := false), n, n));
    acts := ThenNext(acts, Effect(InDoubt(Announced).(sent := false), n, n), Settles(Send), Effect(InDoubt(Sent), n, n));
  }

  /** The slower operator unlinks the hazard of a command that has been sent and is not settled. */
  lemma HazardTaken() returns (acts: seq<Act>, s: Project)
    ensures Leads(acts, s) && Next in s.runs && Unsettled(s.runs[Next]) && s.runs[Next].robbed && s.hazard == None
  {
    var n := Some(Next);
    acts := NextSent();
    var before := Beside(Effect(InDoubt(Sent), n, n));
    s := Project(None, n, before.runs[Next := InDoubt(Sent).(robbed := true)], before.operators - {0});
    acts := ThenAct(acts, before, Unlink(0), s);
  }

  // ---- failover ----

  /** Whatever happens, a controller process sends at most one of its candidates. */
  lemma AtMostOneSent(acts: seq<Act>, a: RunId, b: RunId)
    requires After(Empty(), acts).Some? && a.process == b.process
    requires var s := After(Empty(), acts).value; a in s.runs && b in s.runs && s.runs[a].sent && s.runs[b].sent
    ensures a == b
  {
    RunKeepsInv(Empty(), acts);
    var s := After(Empty(), acts).value;
    assert RunOk(s, a) && RunOk(s, b);
    if a.attempt < b.attempt {
      AllEarlierSkipped(s, b, a.attempt);
    } else if b.attempt < a.attempt {
      AllEarlierSkipped(s, a, b.attempt);
    }
  }

  lemma {:induction false} AllEarlierSkipped(s: Project, id: RunId, n: nat)
    requires Inv(s) && id in s.runs && n < id.attempt
    ensures RunId(id.process, n) in s.runs && s.runs[RunId(id.process, n)].pc.Skipped?
    decreases id.attempt
  {
    assert EarlierSkipped(s, id);
    if n < id.attempt - 1 {
      AllEarlierSkipped(s, RunId(id.process, id.attempt - 1), n);
    }
  }

  /** How one candidate ends for the loop over candidates. `Ran` covers every return and every exception
      other than a preflight conflict, `sent` says whether its command may have started. */
  datatype Ending =
    | AdmissionRefused
    | Conflict(retryable: bool, code: int)
    | Ran(code: int, sent: bool)

  const GuardExit := 5
  const InfraExit := 4

  /** The loop goes on only after an ending that sent nothing. */
  predicate Retryable(e: Ending) {
    e.AdmissionRefused? || (e.Conflict? && e.retryable)
  }

  function ExitOf(e: Ending): int {
    match e
    case AdmissionRefused => GuardExit
    case Conflict(_, code) => code
    case Ran(code, _) => code
  }

  /** The candidate that decides the command: the first that is not retryable, else the last. */
  function Decisive(endings: seq<Ending>): (k: nat)
    requires endings != []
    ensures k < |endings|
    ensures forall i :: 0 <= i < k ==> Retryable(endings[i])
    ensures k < |endings| - 1 ==> !Retryable(endings[k])
  {
    if |endings| == 1 || !Retryable(endings[0]) then 0 else 1 + Decisive(endings[1..])
  }

  /** The candidate loop: `tried` candidates are attempted, the last of them decides the exit code,
      and it alone can have been sent. */
  method TryCandidates(endings: seq<Ending>) returns (code: int, tried: nat, sent: nat)
    ensures endings == [] ==> code == InfraExit && tried == 0 && sent == 0
    ensures endings != [] ==>
      && tried == Decisive(endings) + 1 && code == ExitOf(endings[tried - 1])
      && sent == if endings[tried - 1].Ran? && endings[tried - 1].sent then 1 else 0
    ensures endings == [] ==> code == 4
    ensures endings != [] ==>
      && 1 <= tried <= |endings|
      && (forall i :: 0 <= i < tried - 1 ==> endings[i] == AdmissionRefused || (endings[i].Conflict? && endings[i].retryable))
      && (tried < |endings| ==> endings[tried - 1].Ran? || (endings[tried - 1].Conflict? && !endings[tried - 1].retryable))
      && code == if endings[tried - 1] == AdmissionRefused then 5 else endings[tried - 1].code
  {
    tried, sent := 0, 0;
    if endings == [] {
      return InfraExit, tried, sent;
    }
    while tried < |endings|
      invariant tried < |endings|
      invariant Decisive(endings) == tried + Decisive(endings[tried..])
      invariant sent == 0
      decreases |endings| - tried
    {
      var e := endings[tried];
      var remaining := |endings| - tried - 1;
      assert endings[tried..][1..] == endings[tried + 1..];
      tried := tried + 1;
      match e {
        case AdmissionRefused =>
          if remaining == 0 {
            return GuardExit, tried, sent;
          }
        case Conflict(retryable, exit) =>
          if !retryable || remaining == 0 {
            return exit, tried, sent;
          }
        case Ran(exit, started) =>
          return exit, tried, if started then sent + 1 else sent;
      }
    }
    assert false;
  }
}
