/** The guarded launch: claim the lease, emit READY, write the gate byte, wait for the
    exec proof.

    Three processes run concurrently: the guard helper, the control process that waits
    behind the closed gate, and the user child that the control process forks. `Act`
    performs one atomic action of one of them or of the outside world (a signal, a kill, a
    failing pipe); an action that is not enabled does nothing, so a run is any sequence of
    actions. */
module GuardedLaunch {

  /** Where the helper stands in its guarded section. */
  datatype Helper =
    | Entering          // initial checks passed, nothing spawned
    | Spawned           // the control process waits behind the closed gate
    | ClaimReturned     // the ledger holds the claim, the helper has not noted it yet
    | ClaimRefused      // the gate is closed again, the refusal is not out yet
    | Noted             // lease_claimed is set
    | ReadyOut          // READY has been emitted
    | Attempting        // gate_release_attempted is set
    | Written           // the gate byte is in the pipe
    | LaunchFailed      // the status pipe proved that exec failed
    | Supervising       // the status pipe proved that exec succeeded
    | Returning         // a result is out, the function has not returned yet
    | Handling          // the exception handler
    | Gone              // returned, killed or unwound

  datatype Control =
    | NotSpawned
    | Waiting           // blocked on the gate
    | Opened            // read the gate byte, about to spawn
    | Spawning          // forked, waits for the end of the child's error pipe
    | SpawnReturned     // the spawn call returned and is about to be reported
    | SpawnRaised       // the spawn call raised and is about to be reported
    | Finished

  /** The user child. User argv has started exactly in `Execed`. */
  datatype Child = NoChild | Forked | Execed | ExecFailed | KilledEarly

  datatype Proof = NoProof | Confirmed | Failed | Garbled

  /** `raisedInFlight`: the spawn call raised while the child was forked and had not failed.
      `returnedEarly`: it returned because the child had been killed before its exec. */
  datatype Launch = Launch(
    helper: Helper,
    control: Control,
    child: Child,
    ledgerClaimed: bool,
    leaseNoted: bool,
    ready: bool,
    attempted: bool,
    gateWritten: bool,
    gateClosed: bool,
    pipe: Proof,
    received: Proof,
    raisedInFlight: bool,
    returnedEarly: bool,
    results: seq<bool>)

  const START := Launch(
    Entering, NotSpawned, NoChild, false, false, false, false, false, false, NoProof, NoProof, false, false, [])

  datatype Preparing =
    | Refuse | Spawn | SpawnFails(created: bool) | ClaimAdmits | ClaimRefuses | EmitRefusal | NoteClaim | EmitReady | MarkAttempt

  datatype Launching = WriteGate | ReadProof | ProofTimesOut | EmitLaunchFailure | EmitOutcome | Return

  datatype Leaving = Signal | Handle | KillHelper

  datatype Controlling =
    | ReadGate | ForkFails | Fork | SeeExec | SeeFailure | SeeEarlyEnd | Interrupt | Report(written: bool) | Garble | KillControl

  datatype Starting = ChildExecs | ChildFails | ChildKilled

  datatype Action = Prepares(p: Preparing) | Launches(l: Launching) | Leaves(e: Leaving) | Controls(c: Controlling) | Starts(u: Starting)

  predicate ArgvStarted(s: Launch) {
    s.child.Execed?
  }

  /** Emits one result carrying `command_started`. */
  function Emit(s: Launch, started: bool): Launch {
    s.(results := s.results + [started])
  }

  function Prepare(s: Launch, p: Preparing): Launch {
    match p
    case Refuse => if s.helper.Entering? then Emit(s, false).(helper := Gone) else s
    case Spawn => if s.helper.Entering? then s.(helper := Spawned, control := Waiting) else s
    case SpawnFails(created) =>
      if s.helper.Entering? then s.(helper := Handling, control := if created then Waiting else NotSpawned) else s
    case ClaimAdmits => if s.helper.Spawned? then s.(helper := ClaimReturned, ledgerClaimed := true) else s
    case ClaimRefuses => if s.helper.Spawned? then s.(helper := ClaimRefused, gateClosed := true) else s
    case EmitRefusal => if s.helper.ClaimRefused? then Emit(s, false).(helper := Returning) else s
    case NoteClaim => if s.helper.ClaimReturned? then s.(helper := Noted, leaseNoted := true) else s
    case EmitReady => if s.helper.Noted? then s.(helper := ReadyOut, ready := true) else s
    case MarkAttempt => if s.helper.ReadyOut? then s.(helper := Attempting, attempted := true) else s
  }

  function LaunchOn(s: Launch, l: Launching): Launch {
    match l
    case WriteGate => if s.helper.Attempting? then s.(helper := Written, gateWritten := true) else s
    case ReadProof =>
      if !s.helper.Written? then s
      else
        (match s.pipe
         case NoProof => s
         case Confirmed => s.(helper := Supervising, received := Confirmed)
         case Failed => s.(helper := LaunchFailed, received := Failed)
         case Garbled => s.(helper := Handling))
    case ProofTimesOut => if s.helper.Written? then s.(helper := Handling) else s
    case EmitLaunchFailure => if s.helper.LaunchFailed? then Emit(s, false).(helper := Returning) else s
    case EmitOutcome => if s.helper.Supervising? then Emit(s, true).(helper := Returning) else s
    case Return => if s.helper.Returning? then s.(helper := Gone, gateClosed := true) else s
  }

  /** The handler stays silent after a gate attempt without a confirmed exec. */
  function HandleNow(s: Launch): Launch {
    var closed := s.(helper := Gone, gateClosed := true);
    if s.attempted && !s.received.Confirmed? then closed else Emit(closed, s.received.Confirmed?)
  }

  function Leave(s: Launch, e: Leaving): (t: Launch)
    ensures t == s || t == s.(helper := Handling) || (t.helper.Gone? && t.gateClosed)
  {
    match e
    case Signal =>
      if s.helper.Gone? then s
      else if s.helper.Handling? then s.(helper := Gone, gateClosed := true)
      else s.(helper := Handling)
    case Handle => if s.helper.Handling? then HandleNow(s) else s
    case KillHelper => s.(helper := Gone, gateClosed := true)
  }

  /** The control process and the child do not touch what the helper knows. */
  predicate SameHelper(s: Launch, t: Launch) {
    && t.helper == s.helper && t.attempted == s.attempted && t.received == s.received && t.results == s.results
    && t.gateClosed == s.gateClosed && (t.control.NotSpawned? <==> s.control.NotSpawned?)
  }

  /** The spawn call returns when the child's error pipe ends without a message: on exec, but also
      when the child was killed before it. It raises on the message of a failed exec, and whenever
      the control process is interrupted, with the child going its own way. */
  function ControlAct(s: Launch, c: Controlling): (t: Launch)
    ensures SameHelper(s, t)
  {
    match c
    case ReadGate =>
      if !s.control.Waiting? then s
      else if s.gateWritten then s.(control := Opened)
      else if s.gateClosed then s.(control := Finished)
      else s
    case ForkFails => if s.control.Opened? then s.(control := SpawnRaised) else s
    case Fork => if s.control.Opened? && s.child.NoChild? then s.(control := Spawning, child := Forked) else s
    case SeeExec => if s.control.Spawning? && s.child.Execed? then s.(control := SpawnReturned) else s
    case SeeFailure => if s.control.Spawning? && s.child.ExecFailed? then s.(control := SpawnRaised) else s
    case SeeEarlyEnd =>
      if s.control.Spawning? && s.child.KilledEarly? then s.(control := SpawnReturned, returnedEarly := true) else s
    case Interrupt =>
      if s.control.Spawning? then
        s.(control := SpawnRaised, raisedInFlight := s.child.Forked? || s.child.Execed?)
      else s
    case Report(written) =>
      if s.control.SpawnReturned? then s.(control := Finished, pipe := if written then Confirmed else s.pipe)
      else if s.control.SpawnRaised? then s.(control := Finished, pipe := if written then Failed else s.pipe)
      else s
    case Garble => if s.control.Finished? && !s.pipe.NoProof? then s.(pipe := Garbled) else s
    case KillControl => if s.control.NotSpawned? then s else s.(control := Finished)
  }

  /** The child goes on whatever becomes of the control process. */
  function Start(s: Launch, u: Starting): Launch {
    if !s.child.Forked? then s
    else
      match u
      case ChildExecs => s.(child := Execed)
      case ChildFails => s.(child := ExecFailed)
      case ChildKilled => s.(child := KilledEarly)
  }

  function Act(s: Launch, a: Action): Launch {
    match a
    case Prepares(p) => Prepare(s, p)
    case Launches(l) => LaunchOn(s, l)
    case Leaves(e) => Leave(s, e)
    case Controls(c) => ControlAct(s, c)
    case Starts(u) => Start(s, u)
  }

  function Run(s: Launch, actions: seq<Action>): Launch
    decreases |actions|
  {
    if actions == [] then s
    else Act(Run(s, actions[..|actions| - 1]), actions[|actions| - 1])
  }

  // ---------- the protocol invariant ----------

  /** The helper's stages in the order of the straight path; 9 is off that path. */
  function Stage(h: Helper): nat {
    match h
    case Entering => 0
    case Spawned => 1
    case ClaimRefused => 1
    case ClaimReturned => 2
    case Noted => 3
    case ReadyOut => 4
    case Attempting => 5
    case Written => 6
    case LaunchFailed => 7
    case Supervising => 7
    case _ => 9
  }

  /** The flags are set in order, each at its stage. */
  ghost predicate Ordered(s: Launch) {
    && (s.gateWritten ==> s.attempted)
    && (s.attempted ==> s.ready)
    && (s.ready ==> s.leaseNoted)
    && (s.leaseNoted ==> s.ledgerClaimed)
    && (Stage(s.helper) < 9 ==>
          && (s.ledgerClaimed <==> Stage(s.helper) >= 2)
          && (s.leaseNoted <==> Stage(s.helper) >= 3)
          && (s.ready <==> Stage(s.helper) >= 4)
          && (s.attempted <==> Stage(s.helper) >= 5)
          && (s.gateWritten <==> Stage(s.helper) >= 6)
          && (s.received.NoProof? <==> Stage(s.helper) < 7)
          && s.results == [])
    && (s.helper.LaunchFailed? ==> s.received.Failed?)
    && (s.helper.Supervising? ==> s.received.Confirmed?)
  }

  predicate Tells(s: Launch, p: Proof) {
    s.pipe == p || s.received == p
  }

  /** A child exists only behind an opened gate, and the pipe tells no more than the spawn call did. */
  ghost predicate Gated(s: Launch) {
    && (s.helper.Entering? ==> s.control.NotSpawned?)
    && (!s.control.NotSpawned? && !s.control.Waiting? && !s.control.Finished? ==> s.gateWritten)
    && (s.control.NotSpawned? || s.control.Waiting? || s.control.Opened? ==> s.child.NoChild? && !s.raisedInFlight && !s.returnedEarly)
    && (s.control.Spawning? ==> !s.child.NoChild? && !s.raisedInFlight && !s.returnedEarly)
    && (!s.child.NoChild? ==> s.gateWritten)
    && (!s.pipe.NoProof? ==> s.control.Finished? && s.gateWritten)
    && (!s.received.NoProof? ==> s.control.Finished? && s.gateWritten && !s.received.Garbled?)
    && !(Tells(s, Confirmed) && Tells(s, Failed))
    && (s.control.SpawnReturned? || Tells(s, Confirmed) ==> s.child.Execed? || (s.child.KilledEarly? && s.returnedEarly))
    && (s.returnedEarly ==> s.child.KilledEarly?)
    && (s.control.SpawnRaised? || Tells(s, Failed) ==> s.raisedInFlight || s.child.NoChild? || s.child.ExecFailed? || s.child.KilledEarly?)
  }

  /** What has been reported so far. */
  ghost predicate Reported(s: Launch) {
    && (s.attempted && s.received.NoProof? ==> s.results == [])
    && (true in s.results ==> s.received.Confirmed?)
    && (false in s.results ==> s.received.Failed? || (!s.attempted && Stage(s.helper) == 9))
  }

  ghost predicate Inv(s: Launch) {
    Ordered(s) && Gated(s) && Reported(s)
  }

  /** The helper's own actions leave the control process's side of the history alone. */
  predicate SameEvents(s: Launch, t: Launch) {
    t.child == s.child && t.raisedInFlight == s.raisedInFlight
  }

  lemma PrepareKeepsInv(s: Launch, p: Preparing)
    requires Inv(s)
    ensures Inv(Prepare(s, p)) && SameEvents(s, Prepare(s, p))
  {
    match p {
      case Refuse => case Spawn => case SpawnFails(_) => case ClaimAdmits => case ClaimRefuses => case EmitRefusal =>
      case NoteClaim => case EmitReady => case MarkAttempt =>
    }
  }

  lemma LaunchKeepsInv(s: Launch, l: Launching)
    requires Inv(s)
    ensures Inv(LaunchOn(s, l)) && SameEvents(s, LaunchOn(s, l))
  {
    LaunchKeepsOrder(s, l);
    LaunchKeepsGate(s, l);
  }

  lemma LaunchKeepsOrder(s: Launch, l: Launching)
    requires Ordered(s) && Reported(s) && (!s.received.NoProof? ==> !s.received.Garbled?)
    ensures Ordered(LaunchOn(s, l)) && Reported(LaunchOn(s, l))
  {
    LaunchStaysOrdered(s, l);
    LaunchStaysReported(s, l);
  }

  lemma LaunchStaysReported(s: Launch, l: Launching)
    requires Ordered(s) && Reported(s)
    ensures Reported(LaunchOn(s, l))
  {
    match l {
      case WriteGate => case ReadProof => case ProofTimesOut => case EmitLaunchFailure => case EmitOutcome => case Return =>
    }
  }

  lemma LaunchStaysOrdered(s: Launch, l: Launching)
    requires Ordered(s) && (!s.received.NoProof? ==> !s.received.Garbled?)
    ensures Ordered(LaunchOn(s, l))
  {
    match l {
      case WriteGate => case ReadProof => case ProofTimesOut => case EmitLaunchFailure => case EmitOutcome => case Return =>
    }
  }

  lemma LaunchKeepsGate(s: Launch, l: Launching)
    requires Inv(s)
    ensures Gated(LaunchOn(s, l)) && SameEvents(s, LaunchOn(s, l))
  {
    match l {
      case WriteGate => case ReadProof => case ProofTimesOut => case EmitLaunchFailure => case EmitOutcome => case Return =>
    }
  }

  lemma LeaveKeepsInv(s: Launch, e: Leaving)
    requires Inv(s)
    ensures Inv(Leave(s, e)) && SameEvents(s, Leave(s, e))
  {
    LeaveKeepsOrder(s, e);
    LeaveKeepsGate(s, e);
  }

  /** `t` is `s` with the helper off its straight path, perhaps with one more result. */
  predicate OffPath(s: Launch, t: Launch) {
    && t == s.(helper := t.helper, gateClosed := t.gateClosed, results := t.results)
    && (t.helper.Handling? || t.helper.Gone?)
  }

  lemma LeaveIsOffPath(s: Launch, e: Leaving)
    ensures
      var t := Leave(s, e);
      t == s || (OffPath(s, t) && (t.results == s.results || (s.helper.Handling? && t == HandleNow(s))))
  {
    match e {
      case Signal =>
      case Handle =>
      case KillHelper =>
    }
  }

  lemma LeaveKeepsOrder(s: Launch, e: Leaving)
    requires Ordered(s) && Reported(s)
    ensures Ordered(Leave(s, e)) && Reported(Leave(s, e))
  {
    LeaveIsOffPath(s, e);
    OffPathIsOrdered(s, Leave(s, e));
  }

  lemma OffPathIsOrdered(s: Launch, t: Launch)
    requires Ordered(s) && Reported(s)
    requires t == s || (OffPath(s, t) && (t.results == s.results || (s.helper.Handling? && t == HandleNow(s))))
    ensures Ordered(t) && Reported(t)
  {
    if t != s && t.results != s.results {
      assert t.results == s.results + [s.received.Confirmed?];
    }
  }

  lemma LeaveKeepsGate(s: Launch, e: Leaving)
    requires Gated(s)
    ensures Gated(Leave(s, e)) && SameEvents(s, Leave(s, e))
  {
    LeaveIsOffPath(s, e);
    OffPathIsGated(s, Leave(s, e));
  }

  lemma OffPathIsGated(s: Launch, t: Launch)
    requires Gated(s) && (t == s || OffPath(s, t))
    ensures Gated(t) && SameEvents(s, t)
  {
  }

  lemma ControlKeepsInv(s: Launch, c: Controlling)
    requires Inv(s)
    ensures Inv(ControlAct(s, c))
  {
    match c {
      case ReadGate => case ForkFails => case Fork => case SeeExec => case SeeFailure => case SeeEarlyEnd => case Interrupt =>
      case Report(_) => case Garble => case KillControl =>
    }
  }

  lemma StartKeepsInv(s: Launch, u: Starting)
    requires Inv(s)
    ensures Inv(Start(s, u))
  {
  }

  lemma ActKeepsInv(s: Launch, a: Action)
    requires Inv(s)
    ensures Inv(Act(s, a))
  {
    match a {
      case Prepares(p) => PrepareKeepsInv(s, p);
      case Launches(l) => LaunchKeepsInv(s, l);
      case Leaves(e) => LeaveKeepsInv(s, e);
      case Controls(c) => ControlKeepsInv(s, c);
      case Starts(u) => StartKeepsInv(s, u);
    }
  }

  lemma {:induction false} RunKeepsInv(actions: seq<Action>)
    ensures Inv(Run(START, actions))
    decreases |actions|
  {
    if actions != [] {
      var n := |actions| - 1;
      RunKeepsInv(actions[..n]);
      ActKeepsInv(Run(START, actions[..n]), actions[n]);
    }
  }

  // ---------- what every run guarantees ----------

  /** User argv starts only after the ledger claim, READY and the gate byte. */
  lemma StartsOnlyBehindTheGate(actions: seq<Action>)
    requires ArgvStarted(Run(START, actions))
    ensures
      var s := Run(START, actions);
      s.ledgerClaimed && s.leaseNoted && s.ready && s.attempted && s.gateWritten
  {
    RunKeepsInv(actions);
  }

  /** A gate attempt without exec proof emits no result at all. */
  lemma NoProofNoResult(actions: seq<Action>)
    ensures
      var s := Run(START, actions);
      s.attempted && s.received.NoProof? ==> s.results == []
  {
    RunKeepsInv(actions);
  }

  // ---------- every orderly end is answered ----------

  /** The handler adds exactly one result, whether exec was confirmed, unless a gate attempt was made
      without that confirmation; then it adds none. It changes nothing else but the gate and its own end. */
  lemma HandlerAnswers(s: Launch)
    requires s.helper == Handling
    ensures
      var t := Act(s, Leaves(Handle));
      && t == s.(helper := Gone, gateClosed := true, results := t.results)
      && (!s.attempted || s.received == Confirmed ==> t.results == s.results + [s.received == Confirmed])
      && (s.attempted && s.received != Confirmed ==> t.results == s.results)
  {
  }

  /** What the helper makes of the status pipe once the gate byte is written: it supervises only on a proof of
      exec, reports only a proof of failure, and leaves anything else, a timeout included, to the handler. */
  lemma PipeDecides(s: Launch)
    requires s.helper == Written
    ensures
      var t := Act(s, Launches(ReadProof));
      && (s.pipe == NoProof ==> t == s)
      && (s.pipe == Confirmed ==> t == s.(helper := Supervising, received := Confirmed))
      && (s.pipe == Failed ==> t == s.(helper := LaunchFailed, received := Failed))
      && (s.pipe == Garbled ==> t == s.(helper := Handling))
    ensures Act(s, Launches(ProofTimesOut)) == s.(helper := Handling)
  {
  }

  /** The helper is killed, or interrupted again while it handles an interruption. */
  predicate CutNow(s: Launch, a: Action) {
    (a == Leaves(KillHelper) && s.helper != Gone) || (a == Leaves(Signal) && s.helper == Handling)
  }

  /** The helper reports the launch failure that it has read. */
  predicate PassesOnNow(s: Launch, a: Action) {
    a == Launches(EmitLaunchFailure) && s.helper == LaunchFailed
  }

  ghost predicate CutShort(actions: seq<Action>, i: nat) {
    i < |actions| && CutNow(Run(START, actions[..i]), actions[i])
  }

  ghost predicate PassesOn(actions: seq<Action>, i: nat) {
    i < |actions| && PassesOnNow(Run(START, actions[..i]), actions[i])
  }

  ghost predicate NeverCut(actions: seq<Action>) {
    forall i :: !CutShort(actions, i)
  }

  ghost predicate Told(actions: seq<Action>) {
    exists i :: PassesOn(actions, i)
  }

  /** Where the results stand in a run that is not cut short; `told`: the launch failure was reported. */
  predicate Answers(s: Launch, told: bool) {
    && (told ==> s.received.Failed? && s.results != [])
    && (s.helper.Returning? ==> s.results != [])
    && (s.results != [] ==> !s.attempted || s.received.Confirmed? || told)
    && (s.helper.Gone? && (!s.attempted || s.received.Confirmed?) ==> s.results != [])
    && forall i :: 0 <= i < |s.results| ==> s.results[i] == s.received.Confirmed?
  }

  lemma PrepareAnswers(s: Launch, p: Preparing, told: bool)
    requires Ordered(s) && Answers(s, told)
    ensures Answers(Prepare(s, p), told)
  {
    match p {
      case Refuse => case Spawn => case SpawnFails(_) => case ClaimAdmits => case ClaimRefuses => case EmitRefusal =>
      case NoteClaim => case EmitReady => case MarkAttempt =>
    }
  }

  lemma LaunchAnswers(s: Launch, l: Launching, told: bool)
    requires Ordered(s) && Answers(s, told)
    ensures Answers(LaunchOn(s, l), told || PassesOnNow(s, Launches(l)))
  {
    match l {
      case WriteGate => case ReadProof => case ProofTimesOut => case EmitLaunchFailure => case EmitOutcome => case Return =>
    }
  }

  lemma HandleAnswers(s: Launch, told: bool)
    requires s.helper.Handling? && Answers(s, told)
    ensures Answers(HandleNow(s), told)
  {
    HandlerAnswers(s);
  }

  lemma LeaveAnswers(s: Launch, e: Leaving, told: bool)
    requires Answers(s, told) && !CutNow(s, Leaves(e))
    ensures Answers(Leave(s, e), told)
  {
    if e.Handle? && s.helper.Handling? {
      HandleAnswers(s, told);
    } else {
      LeaveIsOffPath(s, e);
    }
  }

  lemma SameHelperAnswers(s: Launch, t: Launch, told: bool)
    requires SameHelper(s, t) && Answers(s, told)
    ensures Answers(t, told)
  {
  }

  lemma ActAnswers(s: Launch, a: Action, told: bool)
    requires Ordered(s) && Answers(s, told) && !CutNow(s, a)
    ensures Answers(Act(s, a), told || PassesOnNow(s, a))
  {
    match a {
      case Prepares(p) => PrepareAnswers(s, p, told);
      case Launches(l) => LaunchAnswers(s, l, told);
      case Leaves(e) => LeaveAnswers(s, e, told);
      case Controls(c) =>
        SameHelperAnswers(s, ControlAct(s, c), told);
      case Starts(u) => SameHelperAnswers(s, Start(s, u), told);
    }
  }

  lemma UncutPrefix(actions: seq<Action>)
    requires actions != [] && NeverCut(actions)
    ensures
      var n := |actions| - 1;
      NeverCut(actions[..n]) && !CutNow(Run(START, actions[..n]), actions[n])
  {
    var n := |actions| - 1;
    forall i: nat | i < n ensures CutShort(actions[..n], i) == CutShort(actions, i) {
      assert actions[..n][..i] == actions[..i];
    }
    assert !CutShort(actions, n);
  }

  lemma ToldSplit(actions: seq<Action>)
    requires actions != []
    ensures
      var n := |actions| - 1;
      Told(actions) <==> Told(actions[..n]) || PassesOnNow(Run(START, actions[..n]), actions[n])
  {
    var n := |actions| - 1;
    forall i: nat | i < n ensures PassesOn(actions[..n], i) == PassesOn(actions, i) {
      assert actions[..n][..i] == actions[..i];
    }
    assert PassesOn(actions, n) <==> PassesOnNow(Run(START, actions[..n]), actions[n]);
  }

  lemma {:induction false} UncutRunAnswers(actions: seq<Action>)
    requires NeverCut(actions)
    ensures Answers(Run(START, actions), Told(actions))
    decreases |actions|
  {
    if actions != [] {
      var n := |actions| - 1;
      UncutPrefix(actions);
      UncutRunAnswers(actions[..n]);
      RunKeepsInv(actions[..n]);
      ActAnswers(Run(START, actions[..n]), actions[n], Told(actions[..n]));
      ToldSplit(actions);
    }
  }

  /** A helper that has ended without being cut short has emitted a result if and only if it did not
      attempt the gate, or read that exec succeeded, or reported the failure that it read; and every
      result says whether it read that exec succeeded. */
  lemma UncutEndIsAnswered(actions: seq<Action>)
    requires Run(START, actions).helper == Gone && NeverCut(actions)
    ensures
      var s := Run(START, actions);
      && (s.results != [] <==> !s.attempted || s.received == Confirmed || Told(actions))
      && forall i :: 0 <= i < |s.results| ==> s.results[i] == (s.received == Confirmed)
  {
    UncutRunAnswers(actions);
  }

  // ---------- the gate shuts ----------

  /** A refused claim shuts the gate, a result that comes before any gate attempt comes after that or before
      anything was spawned, and so does the end of the helper. */
  predicate Shut(s: Launch) {
    && (s.helper.ClaimRefused? ==> s.gateClosed)
    && ((s.results != [] && !s.attempted) || s.helper.Gone? ==> s.gateClosed || s.control.NotSpawned?)
    && (s.control.NotSpawned? ==> s.helper.Entering? || s.helper.Handling? || s.helper.Gone?)
  }

  lemma PrepareKeepsShut(s: Launch, p: Preparing)
    requires Ordered(s) && Gated(s) && Shut(s)
    ensures Shut(Prepare(s, p))
  {
    match p {
      case Refuse => case Spawn => case SpawnFails(_) => case ClaimAdmits => case ClaimRefuses => case EmitRefusal =>
      case NoteClaim => case EmitReady => case MarkAttempt =>
    }
  }

  lemma LaunchKeepsShut(s: Launch, l: Launching)
    requires Ordered(s) && Shut(s)
    ensures Shut(LaunchOn(s, l))
  {
    match l {
      case WriteGate => case ReadProof => case ProofTimesOut => case EmitLaunchFailure => case EmitOutcome => case Return =>
    }
  }

  lemma LeaveKeepsShut(s: Launch, e: Leaving)
    requires Shut(s)
    ensures Shut(Leave(s, e))
  {
    var t := Leave(s, e);
    if t.helper.Gone? && t.gateClosed {
      EndIsShut(t);
    }
  }

  lemma EndIsShut(t: Launch)
    requires t.helper.Gone? && t.gateClosed
    ensures Shut(t)
  {
  }

  lemma SameHelperStaysShut(s: Launch, t: Launch)
    requires SameHelper(s, t) && Shut(s)
    ensures Shut(t)
  {
  }

  lemma ActKeepsShut(s: Launch, a: Action)
    requires Inv(s) && Shut(s)
    ensures Shut(Act(s, a))
  {
    match a {
      case Prepares(p) => PrepareKeepsShut(s, p);
      case Launches(l) => LaunchKeepsShut(s, l);
      case Leaves(e) => LeaveKeepsShut(s, e);
      case Controls(c) => SameHelperStaysShut(s, ControlAct(s, c));
      case Starts(u) => SameHelperStaysShut(s, Start(s, u));
    }
  }

  /** In every run: once a result is out although no gate attempt was made, or the helper is gone, the gate is
      shut, unless nothing was spawned; so a control process that still waits behind it ends. */
  lemma {:induction false} GateShuts(actions: seq<Action>)
    ensures
      var s := Run(START, actions);
      && Shut(s)
      && (s.helper == Gone && !s.gateWritten && s.control == Waiting ==> Act(s, Controls(ReadGate)).control == Finished)
    decreases |actions|
  {
    if actions != [] {
      var n := |actions| - 1;
      GateShuts(actions[..n]);
      RunKeepsInv(actions[..n]);
      ActKeepsShut(Run(START, actions[..n]), actions[n]);
    }
  }

  // ---------- the results, in terms of the actions ----------

  /** The spawn call raises while the child is on its way to exec, or past it. */
  predicate RaisesNow(s: Launch, a: Action) {
    a == Controls(Interrupt) && s.control.Spawning? && (s.child.Forked? || s.child.Execed?)
  }

  predicate ExecsNow(s: Launch, a: Action) {
    a == Starts(ChildExecs) && s.child.Forked?
  }

  /** The child is killed between fork and exec. */
  predicate KilledNow(s: Launch, a: Action) {
    a == Starts(ChildKilled) && s.child.Forked?
  }

  ghost predicate RaisesInFlight(actions: seq<Action>, i: nat) {
    i < |actions| && RaisesNow(Run(START, actions[..i]), actions[i])
  }

  ghost predicate Execs(actions: seq<Action>, i: nat) {
    i < |actions| && ExecsNow(Run(START, actions[..i]), actions[i])
  }

  ghost predicate KilledBeforeExec(actions: seq<Action>, i: nat) {
    i < |actions| && KilledNow(Run(START, actions[..i]), actions[i])
  }

  lemma PrefixEvents(actions: seq<Action>, n: nat, i: nat)
    requires i < n <= |actions|
    ensures RaisesInFlight(actions[..n], i) == RaisesInFlight(actions, i)
    ensures Execs(actions[..n], i) == Execs(actions, i)
    ensures KilledBeforeExec(actions[..n], i) == KilledBeforeExec(actions, i)
  {
    assert actions[..n][..i] == actions[..i];
  }

  /** The history that the state records is that of the actions. */
  lemma {:induction false} StateIsHistory(actions: seq<Action>)
    ensures
      var s := Run(START, actions);
      && (s.raisedInFlight <==> exists i :: RaisesInFlight(actions, i))
      && (ArgvStarted(s) <==> exists i :: Execs(actions, i))
      && (s.child.KilledEarly? <==> exists i :: KilledBeforeExec(actions, i))
    decreases |actions|
  {
    if actions != [] {
      var n := |actions| - 1;
      StateIsHistory(actions[..n]);
      RunKeepsInv(actions[..n]);
      LastEvent(Run(START, actions[..n]), actions[n]);
      RaisesSplit(actions);
      ExecsSplit(actions);
      KillsSplit(actions);
    }
  }

  // What happened in a run happened before its last action, or in it.

  lemma RaisesSplit(actions: seq<Action>)
    requires actions != []
    ensures
      var n := |actions| - 1;
      (exists i :: RaisesInFlight(actions, i)) <==> (exists i :: RaisesInFlight(actions[..n], i)) || RaisesNow(Run(START, actions[..n]), actions[n])
  {
    var n := |actions| - 1;
    forall i: nat | i < n ensures RaisesInFlight(actions[..n], i) == RaisesInFlight(actions, i) {
      PrefixEvents(actions, n, i);
    }
    assert RaisesInFlight(actions, n) <==> RaisesNow(Run(START, actions[..n]), actions[n]);
  }

  lemma ExecsSplit(actions: seq<Action>)
    requires actions != []
    ensures
      var n := |actions| - 1;
      (exists i :: Execs(actions, i)) <==> (exists i :: Execs(actions[..n], i)) || ExecsNow(Run(START, actions[..n]), actions[n])
  {
    var n := |actions| - 1;
    forall i: nat | i < n ensures Execs(actions[..n], i) == Execs(actions, i) {
      PrefixEvents(actions, n, i);
    }
    assert Execs(actions, n) <==> ExecsNow(Run(START, actions[..n]), actions[n]);
  }

  lemma KillsSplit(actions: seq<Action>)
    requires actions != []
    ensures
      var n := |actions| - 1;
      (exists i :: KilledBeforeExec(actions, i)) <==> (exists i :: KilledBeforeExec(actions[..n], i)) || KilledNow(Run(START, actions[..n]), actions[n])
  {
    var n := |actions| - 1;
    forall i: nat | i < n ensures KilledBeforeExec(actions[..n], i) == KilledBeforeExec(actions, i) {
      PrefixEvents(actions, n, i);
    }
    assert KilledBeforeExec(actions, n) <==> KilledNow(Run(START, actions[..n]), actions[n]);
  }

  lemma LastEvent(s: Launch, a: Action)
    requires Inv(s)
    ensures
      var t := Act(s, a);
      && (t.raisedInFlight <==> s.raisedInFlight || RaisesNow(s, a))
      && (ArgvStarted(t) <==> ArgvStarted(s) || ExecsNow(s, a))
      && (t.child.KilledEarly? <==> s.child.KilledEarly? || KilledNow(s, a))
  {
    match a {
      case Prepares(p) => PrepareKeepsInv(s, p);
      case Launches(l) => LaunchKeepsInv(s, l);
      case Leaves(e) => LeaveKeepsInv(s, e);
      case Controls(c) => ControlEvent(s, c);
      case Starts(u) =>
    }
  }

  lemma ControlEvent(s: Launch, c: Controlling)
    requires Gated(s)
    ensures
      var t := ControlAct(s, c);
      && (t.raisedInFlight <==> s.raisedInFlight || RaisesNow(s, Controls(c)))
      && (ArgvStarted(t) <==> ArgvStarted(s)) && (t.child.KilledEarly? <==> s.child.KilledEarly?)
  {
    match c {
      case ReadGate => case ForkFails => case Fork => case SeeExec => case SeeFailure => case SeeEarlyEnd => case Interrupt =>
      case Report(_) => case Garble => case KillControl =>
    }
  }

  /** In a run with a result that says the command did not start, user argv has not started, unless a
      spawn call raised with the child in flight. */
  lemma FalseResultIsTruthful(actions: seq<Action>)
    requires false in Run(START, actions).results
    ensures ArgvStarted(Run(START, actions)) ==> exists i :: RaisesInFlight(actions, i)
  {
    RunKeepsInv(actions);
    StateIsHistory(actions);
  }

  /** In a run with a result that says the command started, user argv has started if and only if the
      child was not killed between fork and exec. */
  lemma TrueResultIsTruthful(actions: seq<Action>)
    requires true in Run(START, actions).results
    ensures ArgvStarted(Run(START, actions)) <==> !exists i :: KilledBeforeExec(actions, i)
  {
    RunKeepsInv(actions);
    StateIsHistory(actions);
  }

  // ---------- such runs exist ----------

  lemma Then(actions: seq<Action>, s: Launch, a: Action, t: Launch) returns (longer: seq<Action>)
    requires Run(START, actions) == s && Act(s, a) == t
    ensures Run(START, longer) == t
  {
    longer := actions + [a];
    assert longer[..|actions|] == actions;
  }

  function GateOpen(): Launch {
    START.(helper := Written, control := Opened, ledgerClaimed := true, leaseNoted := true, ready := true, attempted := true, gateWritten := true)
  }

  lemma ReachGateOpen() returns (r: seq<Action>)
    ensures Run(START, r) == GateOpen()
  {
    var ready := GateOpen().(helper := ReadyOut, control := Waiting, attempted := false, gateWritten := false);
    r := ReachReady();
    r := Then(r, ready, Prepares(MarkAttempt), ready.(helper := Attempting, attempted := true));
    r := Then(r, ready.(helper := Attempting, attempted := true), Launches(WriteGate), GateOpen().(control := Waiting));
    r := Then(r, GateOpen().(control := Waiting), Controls(ReadGate), GateOpen());
  }

  lemma ReachReady() returns (r: seq<Action>)
    ensures Run(START, r) == GateOpen().(helper := ReadyOut, control := Waiting, attempted := false, gateWritten := false)
  {
    var spawned := START.(helper := Spawned, control := Waiting);
    r := Then([], START, Prepares(Spawn), spawned);
    r := Then(r, spawned, Prepares(ClaimAdmits), spawned.(helper := ClaimReturned, ledgerClaimed := true));
    r := Then(r, spawned.(helper := ClaimReturned, ledgerClaimed := true), Prepares(NoteClaim), spawned.(helper := Noted, ledgerClaimed := true, leaseNoted := true));
    r := Then(r, spawned.(helper := Noted, ledgerClaimed := true, leaseNoted := true), Prepares(EmitReady),
              GateOpen().(helper := ReadyOut, control := Waiting, attempted := false, gateWritten := false));
  }

  /** The spawn call is interrupted while the child is in flight, the control process reports
      exec_failed, the helper passes that on, and the child execs in the end. */
  lemma SpawnInterruptedInFlight() returns (r: seq<Action>)
    ensures Run(START, r).results == [false] && ArgvStarted(Run(START, r))
  {
    var forked := GateOpen().(control := Spawning, child := Forked);
    var raised := forked.(control := SpawnRaised, raisedInFlight := true);
    r := ReachGateOpen();
    r := Then(r, GateOpen(), Controls(Fork), forked);
    r := Then(r, forked, Controls(Interrupt), raised);
    r := FailurePassedOn(r, raised);
    var told := raised.(control := Finished, pipe := Failed, helper := Returning, received := Failed, results := [false]);
    r := Then(r, told, Starts(ChildExecs), told.(child := Execed));
  }

  lemma FailurePassedOn(r0: seq<Action>, s: Launch) returns (r: seq<Action>)
    requires Run(START, r0) == s && s.control.SpawnRaised? && s.helper.Written? && s.results == []
    ensures Run(START, r) == s.(control := Finished, pipe := Failed, helper := Returning, received := Failed, results := [false])
  {
    var reported := s.(control := Finished, pipe := Failed);
    var read := reported.(helper := LaunchFailed, received := Failed);
    r := Then(r0, s, Controls(Report(true)), reported);
    r := Then(r, reported, Launches(ReadProof), read);
    r := Then(r, read, Launches(EmitLaunchFailure), read.(helper := Returning, results := [false]));
  }

  /** The straight path: the child execs, the control process reports it, and so does the helper. */
  lemma CommandRuns() returns (r: seq<Action>)
    ensures
      var s := Run(START, r);
      s.helper == Gone && s.results == [true] && ArgvStarted(s) && s.gateClosed
  {
    var forked := GateOpen().(control := Spawning, child := Forked);
    var execed := forked.(child := Execed);
    var returned := execed.(control := SpawnReturned);
    r := ReachGateOpen();
    r := Then(r, GateOpen(), Controls(Fork), forked);
    r := Then(r, forked, Starts(ChildExecs), execed);
    r := Then(r, execed, Controls(SeeExec), returned);
    r := SuccessPassedOn(r, returned);
    var told := returned.(control := Finished, pipe := Confirmed, helper := Returning, received := Confirmed, results := [true]);
    r := Then(r, told, Launches(Return), told.(helper := Gone, gateClosed := true));
  }

  /** The child is killed between fork and exec: its error pipe ends without a message, the spawn call
      returns, and the result says that the command started. */
  lemma ChildKilledBeforeExec() returns (r: seq<Action>)
    ensures Run(START, r).results == [true] && !ArgvStarted(Run(START, r))
  {
    var forked := GateOpen().(control := Spawning, child := Forked);
    var killed := forked.(child := KilledEarly);
    var returned := killed.(control := SpawnReturned, returnedEarly := true);
    r := ReachGateOpen();
    r := Then(r, GateOpen(), Controls(Fork), forked);
    r := Then(r, forked, Starts(ChildKilled), killed);
    r := Then(r, killed, Controls(SeeEarlyEnd), returned);
    r := SuccessPassedOn(r, returned);
  }

  lemma SuccessPassedOn(r0: seq<Action>, s: Launch) returns (r: seq<Action>)
    requires Run(START, r0) == s && s.control.SpawnReturned? && s.helper.Written? && s.results == []
    ensures Run(START, r) == s.(control := Finished, pipe := Confirmed, helper := Returning, received := Confirmed, results := [true])
  {
    var reported := s.(control := Finished, pipe := Confirmed);
    var read := reported.(helper := Supervising, received := Confirmed);
    r := Then(r0, s, Controls(Report(true)), reported);
    r := Then(r, reported, Launches(ReadProof), read);
    r := Then(r, read, Launches(EmitOutcome), read.(helper := Returning, results := [true]));
  }
}
