/** The start gate of a durable run with target acceptance: the supervisor
    (src/remrun/_durable_runner.py, `_supervise`) and the observer that launches the user
    command (src/remrun/_job_observer.py) run concurrently and meet only through files and
    the target resource ledger. `Act` performs one atomic action of either process or of
    the outside world; a run is any sequence of actions. */
module DurableGate {
  import opened Wrappers

  /** How a fallible step of the supervisor ends: an exception may come before or after
      its effect. */
  datatype Outcome = Succeeds | RaisesBefore | RaisesAfter

  /** Certainty that the command has started, as the ledger records it. It only grows. */
  datatype StartState = NO | MAYBE | YES

  datatype GateFile = Absent | Matching | Foreign

  datatype Supervisor =
    | Writing           // base status about to be written
    | Launching         // wrapper about to be spawned and its pid recorded
    | AwaitReady        // polling for the observer's readiness
    | Claiming          // resource claim
    | RecordClaim       // status with command_started=false
    | StartMaybe        // resource start, state MAYBE
    | RecordMaybe       // status with command_started=null
    | OpenGate          // start gate file
    | AwaitStarted      // polling for the started receipt
    | ConfirmExec       // resource exec_confirm
    | RecordRunning     // status with command_started=true
    | Finishing         // wrapper exited, resource finish
    | RecordComplete    // terminal status
    | Failing           // exception handler
    | Ended             // returned or died

  datatype Observer =
    | NotLaunched
    | Registering       // on Windows the command is created suspended here
    | WriteReady
    | AwaitGate
    | Start             // posix: spawn; Windows: resume
    | WriteStarted
    | Supervising
    | Exited

  datatype Record = Record(terminal: bool, started: Option<bool>, afterGate: bool, confirmed: bool)

  datatype Durable = Durable(
    windows: bool,
    supervisor: Supervisor,
    observer: Observer,
    ready: bool,
    gate: GateFile,
    startedFile: bool,
    claimed: bool,
    start: StartState,
    gateOpened: bool,
    suspended: bool,
    userStarted: bool,
    dictStarted: Option<bool>,
    localStarted: Option<bool>)

  function Initial(windows: bool): Durable {
    Durable(windows, Writing, NotLaunched, false, Absent, false, false, NO, false, false, false, None, Some(false))
  }

  datatype Action =
    | SuperviseStep(outcome: Outcome)
    | WrapperExitSeen
    | KillSupervisor
    | ObserveStep(succeeds: bool)
    | KillObserver
    | PlantForeignGate

  /** The supervisor launches the observer and leaves the command to it. */
  predicate SameCommand(s: Durable, t: Durable) {
    && t.windows == s.windows && t.suspended == s.suspended && t.userStarted == s.userStarted
    && (t.observer == s.observer || (s.observer.NotLaunched? && t.observer.Registering?))
  }

  /** The effect of the supervisor's current step, and where it goes on success. */
  function StepEffect(s: Durable): (t: Durable)
    ensures SameCommand(s, t)
  {
    match s.supervisor
    case Writing => s.(supervisor := Launching)
    case Launching =>
      s.(supervisor := AwaitReady, observer := if s.observer.NotLaunched? then Registering else s.observer)
    case AwaitReady => if s.ready then s.(supervisor := Claiming) else s
    case Claiming => s.(claimed := true, supervisor := RecordClaim)
    case RecordClaim => s.(dictStarted := Some(false), supervisor := StartMaybe)
    case StartMaybe => s.(start := if s.start.NO? then MAYBE else s.start, supervisor := RecordMaybe)
    case RecordMaybe => s.(localStarted := None, dictStarted := None, supervisor := OpenGate)
    case OpenGate => s.(gate := Matching, gateOpened := true, supervisor := AwaitStarted)
    case AwaitStarted => if s.startedFile then s.(supervisor := ConfirmExec) else s
    case ConfirmExec => s.(start := YES, supervisor := RecordRunning)
    case RecordRunning => s.(localStarted := Some(true), dictStarted := Some(true), supervisor := Finishing)
    case Finishing => if s.observer.Exited? then s.(supervisor := RecordComplete) else s
    case RecordComplete => s.(dictStarted := s.localStarted, supervisor := Ended)
    case Failing => s.(supervisor := Ended)
    case Ended => s
  }

  /** Updates of the status dictionary happen before the write that may raise. */
  function DictionaryEffect(s: Durable): (t: Durable)
    ensures SameCommand(s, t)
  {
    match s.supervisor
    case RecordClaim => s.(dictStarted := Some(false))
    case RecordMaybe => s.(localStarted := None, dictStarted := None)
    case RecordRunning => s.(localStarted := Some(true), dictStarted := Some(true))
    case RecordComplete => s.(dictStarted := s.localStarted)
    case _ => s
  }

  function Supervise(s: Durable, outcome: Outcome): (t: Durable)
    ensures SameCommand(s, t)
  {
    if s.supervisor.Ended? then s
    else
      match outcome
      case Succeeds => StepEffect(s)
      case RaisesBefore =>
        if s.supervisor.Failing? then s.(supervisor := Ended) else DictionaryEffect(s).(supervisor := Failing)
      case RaisesAfter =>
        var after := StepEffect(s);
        if s.supervisor.Failing? then after else after.(supervisor := Failing)
  }

  predicate WritesStatus(step: Supervisor) {
    || step.Writing? || step.Launching? || step.RecordClaim? || step.RecordMaybe?
    || step.RecordRunning? || step.RecordComplete? || step.Failing?
  }

  /** The status record that an action puts on disk: the dictionary as just updated. */
  function WrittenBy(s: Durable, a: Action): Option<Record> {
    if a.SuperviseStep? && !a.outcome.RaisesBefore? && WritesStatus(s.supervisor) then
      Some(Record(s.supervisor.RecordComplete? || s.supervisor.Failing?,
                  DictionaryEffect(s).dictStarted, s.gateOpened, s.start.YES?))
    else None
  }

  function Observe(s: Durable, succeeds: bool): (t: Durable)
    ensures t.supervisor == s.supervisor && t.localStarted == s.localStarted && t.start == s.start && t.gateOpened == s.gateOpened
  {
    match s.observer
    case NotLaunched => s
    case Registering =>
      if succeeds then s.(observer := WriteReady, suspended := s.windows) else s.(observer := Exited)
    case WriteReady =>
      if succeeds then s.(observer := AwaitGate, ready := true) else s.(observer := Exited, suspended := false)
    case AwaitGate =>
      if !succeeds || s.gate.Foreign? then s.(observer := Exited, suspended := false)
      else if s.gate.Matching? then s.(observer := Start)
      else s
    case Start =>
      if succeeds then s.(observer := WriteStarted, suspended := false, userStarted := true)
      else s.(observer := Exited, suspended := false)
    case WriteStarted =>
      if succeeds then s.(observer := Supervising, startedFile := true) else s.(observer := Exited)
    case Supervising => s.(observer := Exited)
    case Exited => s
  }

  function Act(s: Durable, a: Action): Durable {
    match a
    case SuperviseStep(outcome) => Supervise(s, outcome)
    case WrapperExitSeen =>
      if s.observer.Exited? && (s.supervisor.AwaitReady? || s.supervisor.AwaitStarted?) then
        s.(supervisor := Finishing)
      else s
    case KillSupervisor => s.(supervisor := Ended)
    case ObserveStep(succeeds) => Observe(s, succeeds)
    case KillObserver => if s.observer.NotLaunched? then s else s.(observer := Exited)
    case PlantForeignGate => s.(gate := Foreign)
  }

  function Run(s: Durable, actions: seq<Action>): Durable
    decreases |actions|
  {
    if actions == [] then s
    else Act(Run(s, actions[..|actions| - 1]), actions[|actions| - 1])
  }

  // ---------- the invariant ----------

  ghost predicate Ordered(s: Durable) {
    && (s.gateOpened ==> s.claimed && !s.start.NO?)
    && (s.gate.Matching? ==> s.gateOpened)
    && (s.observer.Start? || s.userStarted || s.startedFile ==> s.gateOpened)
    && (s.observer.WriteStarted? || s.startedFile || s.start.YES? || s.supervisor.ConfirmExec? ==> s.userStarted)
    && (!s.start.NO? ==> s.claimed)
    && (s.supervisor.RecordClaim? || s.supervisor.StartMaybe? ==> s.claimed && !s.gateOpened)
    && (s.supervisor.RecordMaybe? || s.supervisor.OpenGate? ==> s.claimed && s.start.MAYBE? && !s.gateOpened)
    && (s.supervisor.Writing? || s.supervisor.Launching? || s.supervisor.AwaitReady? || s.supervisor.Claiming? ==>
          !s.gateOpened)
    && (s.supervisor.AwaitStarted? || s.supervisor.ConfirmExec? || s.supervisor.RecordRunning? ==> s.gateOpened)
    && (s.supervisor.RecordRunning? ==> s.start.YES?)
  }

  /** The supervisor's two copies of the start certainty never claim too much. */
  ghost predicate Honest(s: Durable) {
    && (s.supervisor.OpenGate? ==> s.dictStarted == None && s.localStarted == None)
    && (s.gateOpened ==> s.dictStarted != Some(false) && s.localStarted != Some(false))
    && (s.dictStarted == Some(true) || s.localStarted == Some(true) ==> s.start.YES? && s.gateOpened)
  }

  ghost predicate Inv(s: Durable) {
    Ordered(s) && Honest(s)
  }

  lemma ObserverKeepsInv(s: Durable, succeeds: bool)
    requires Inv(s)
    ensures Inv(Observe(s, succeeds))
    ensures Observe(s, succeeds).gateOpened == s.gateOpened && Observe(s, succeeds).supervisor == s.supervisor
  {
    match s.observer {
      case NotLaunched => case Registering => case WriteReady => case AwaitGate =>
      case Start => case WriteStarted => case Supervising => case Exited =>
    }
  }

  lemma StepKeepsInv(s: Durable)
    requires Inv(s)
    ensures Inv(StepEffect(s))
  {
    match s.supervisor {
      case Writing => case Launching => case AwaitReady => case Claiming => case RecordClaim =>
      case StartMaybe => case RecordMaybe => case OpenGate => case AwaitStarted => case ConfirmExec =>
      case RecordRunning => case Finishing => case RecordComplete => case Failing => case Ended =>
    }
  }

  /** Falling into the exception handler, or dying, gives up nothing. */
  lemma LeavingKeepsInv(s: Durable, next: Supervisor)
    requires Inv(s) && (next.Failing? || next.Ended?)
    ensures Inv(s.(supervisor := next))
  {
  }

  lemma DictionaryKeepsInv(s: Durable)
    requires Inv(s)
    ensures Inv(DictionaryEffect(s).(supervisor := Failing))
  {
    DictionaryStaysHonest(s);
    var t := DictionaryEffect(s).(supervisor := Failing);
    assert Ordered(t);
  }

  lemma DictionaryStaysHonest(s: Durable)
    requires Inv(s)
    ensures
      var t := DictionaryEffect(s);
      && t == s.(dictStarted := t.dictStarted, localStarted := t.localStarted)
      && Honest(t.(supervisor := Failing))
  {
    match s.supervisor {
      case Writing => case Launching => case AwaitReady => case Claiming => case RecordClaim =>
      case StartMaybe => case RecordMaybe => case OpenGate => case AwaitStarted => case ConfirmExec =>
      case RecordRunning => case Finishing => case RecordComplete => case Failing => case Ended =>
    }
  }

  lemma SupervisorKeepsInv(s: Durable, outcome: Outcome)
    requires Inv(s)
    ensures Inv(Supervise(s, outcome))
  {
    StepKeepsInv(s);
    LeavingKeepsInv(StepEffect(s), Failing);
    LeavingKeepsInv(s, Ended);
    DictionaryKeepsInv(s);
  }

  lemma ActKeepsInv(s: Durable, a: Action)
    requires Inv(s)
    ensures Inv(Act(s, a))
  {
    match a
    case SuperviseStep(outcome) => SupervisorKeepsInv(s, outcome);
    case ObserveStep(succeeds) => ObserverKeepsInv(s, succeeds);
    case KillSupervisor => LeavingKeepsInv(s, Ended);
    case _ =>
  }

  lemma {:induction false} RunKeepsInv(windows: bool, actions: seq<Action>)
    ensures Inv(Run(Initial(windows), actions))
    decreases |actions|
  {
    if actions != [] {
      var n := |actions| - 1;
      RunKeepsInv(windows, actions[..n]);
      ActKeepsInv(Run(Initial(windows), actions[..n]), actions[n]);
    }
  }

  // ---------- what every run guarantees ----------

  /** User code runs only if the supervisor wrote the matching gate file, and that happens
      only after the resource claim and the transition to MAYBE. A Windows command created
      before that is still suspended. */
  lemma UserStartsBehindTheGate(windows: bool, actions: seq<Action>)
    requires Run(Initial(windows), actions).userStarted
    ensures
      var s := Run(Initial(windows), actions);
      s.gateOpened && s.claimed && !s.start.NO?
  {
    RunKeepsInv(windows, actions);
  }

  /** Every status written after the gate was opened says null or true, and true only
      after the exec confirmation reached the ledger. */
  lemma StatusesAreHonest(windows: bool, actions: seq<Action>, a: Action)
    requires WrittenBy(Run(Initial(windows), actions), a).Some?
    ensures
      var r := WrittenBy(Run(Initial(windows), actions), a).value;
      && (r.afterGate ==> r.started != Some(false))
      && (r.started == Some(true) ==> r.afterGate && r.confirmed)
  {
    RunKeepsInv(windows, actions);
    DictionaryKeepsInv(Run(Initial(windows), actions));
  }

  /** How far the supervisor has come, in terms of its certainty: it says no until it has noted MAYBE,
      null from then on, and true once the confirmation is in the ledger. */
  ghost predicate Dated(s: Durable) {
    && (s.supervisor.Writing? || s.supervisor.Launching? || s.supervisor.AwaitReady? || s.supervisor.Claiming?
        || s.supervisor.RecordClaim? || s.supervisor.StartMaybe? || s.supervisor.RecordMaybe? ==>
          s.localStarted == Some(false) && !s.gateOpened)
    && (s.supervisor.Writing? || s.supervisor.Launching? || s.supervisor.AwaitReady? || s.supervisor.Claiming?
        || s.supervisor.RecordClaim? || s.supervisor.StartMaybe? ==>
          s.start.NO?)
    && (s.supervisor.OpenGate? || s.supervisor.AwaitStarted? || s.supervisor.ConfirmExec? ==>
          s.localStarted == None && s.start.MAYBE?)
    && (s.supervisor.Finishing? || s.supervisor.RecordComplete? ==>
          s.localStarted == if s.start.YES? then Some(true) else if s.gateOpened then None else Some(false))
  }

  lemma StepKeepsDated(s: Durable)
    requires Inv(s) && Dated(s)
    ensures Dated(StepEffect(s))
  {
    match s.supervisor {
      case Writing => case Launching => case AwaitReady => case Claiming => case RecordClaim =>
      case StartMaybe => case RecordMaybe => case OpenGate => case AwaitStarted => case ConfirmExec =>
      case RecordRunning => case Finishing => case RecordComplete => case Failing => case Ended =>
    }
  }

  lemma ActKeepsDated(s: Durable, a: Action)
    requires Inv(s) && Dated(s)
    ensures Dated(Act(s, a))
  {
    match a
    case SuperviseStep(outcome) =>
      StepKeepsDated(s);
      assert !outcome.Succeeds? && !s.supervisor.Ended? ==> Supervise(s, outcome).supervisor.Failing? || Supervise(s, outcome).supervisor.Ended?;
    case _ =>
  }

  lemma {:induction false} RunKeepsDated(windows: bool, actions: seq<Action>)
    ensures Dated(Run(Initial(windows), actions))
    decreases |actions|
  {
    if actions != [] {
      var n := |actions| - 1;
      RunKeepsDated(windows, actions[..n]);
      RunKeepsInv(windows, actions[..n]);
      ActKeepsDated(Run(Initial(windows), actions[..n]), actions[n]);
    }
  }

  /** What each status says, exactly: no after the claim, null after the transition to MAYBE, true after
      the exec confirmation; and the record of a finished run says true if and only if the confirmation
      reached the ledger, no if and only if the gate was never opened, and null otherwise. */
  lemma StatusesAreExact(windows: bool, actions: seq<Action>, a: Action)
    requires WrittenBy(Run(Initial(windows), actions), a).Some?
    ensures
      var s := Run(Initial(windows), actions);
      var r := WrittenBy(s, a).value;
      && (s.supervisor == RecordClaim ==> r.started == Some(false) && !r.terminal)
      && (s.supervisor == RecordMaybe ==> r.started == None && !r.terminal)
      && (s.supervisor == RecordRunning ==> r.started == Some(true) && !r.terminal)
      && (s.supervisor == RecordComplete ==>
            r.terminal && r.started == if r.confirmed then Some(true) else if r.afterGate then None else Some(false))
      && (s.supervisor == Failing ==> r.terminal)
  {
    RunKeepsDated(windows, actions);
  }

  predicate SuspensionOk(s: Durable) {
    && (s.observer.WriteReady? || s.observer.AwaitGate? || s.observer.Start? ==> s.suspended == s.windows)
    && (s.observer.NotLaunched? || s.observer.Registering? ==> !s.suspended)
    && (s.observer.NotLaunched? || s.observer.Registering? || s.observer.WriteReady? || s.observer.AwaitGate? || s.observer.Start? ==>
          !s.userStarted)
    && (s.userStarted ==> !s.suspended)
  }

  lemma ActKeepsSuspension(s: Durable, a: Action)
    requires Inv(s) && SuspensionOk(s)
    ensures SuspensionOk(Act(s, a)) && Act(s, a).windows == s.windows
  {
    match a
    case SuperviseStep(outcome) => assert SameCommand(s, Supervise(s, outcome));
    case ObserveStep(succeeds) => ObserverKeepsSuspension(s, succeeds);
    case _ =>
  }

  lemma ObserverKeepsSuspension(s: Durable, succeeds: bool)
    requires SuspensionOk(s)
    ensures SuspensionOk(Observe(s, succeeds)) && Observe(s, succeeds).windows == s.windows
  {
    match s.observer {
      case NotLaunched => case Registering => case WriteReady => case AwaitGate =>
      case Start => case WriteStarted => case Supervising => case Exited =>
    }
  }

  /** On Windows the command exists, suspended, for as long as the observer prepares and waits; elsewhere nothing
      is suspended. A command whose code has started is not. */
  lemma {:induction false} SuspendedUntilStart(windows: bool, actions: seq<Action>)
    ensures
      var s := Run(Initial(windows), actions);
      && s.windows == windows
      && (s.observer == WriteReady || s.observer == AwaitGate || s.observer == Start ==> s.suspended == windows)
      && (s.userStarted ==> !s.suspended)
      && SuspensionOk(s)
    decreases |actions|
  {
    if actions != [] {
      var n := |actions| - 1;
      SuspendedUntilStart(windows, actions[..n]);
      RunKeepsInv(windows, actions[..n]);
      ActKeepsSuspension(Run(Initial(windows), actions[..n]), actions[n]);
    }
  }

  /** What the observer makes of the gate file: it waits for one, starts behind a matching one, and gives up
      on a foreign one without starting anything. */
  lemma GateFileDecides(s: Durable)
    requires s.observer == AwaitGate
    ensures
      var t := Act(s, ObserveStep(true));
      && (s.gate == Absent ==> t == s)
      && (s.gate == Matching ==> t == s.(observer := Start))
      && (s.gate == Foreign ==> t == s.(observer := Exited, suspended := false))
  {
  }

  // ---------- a run that completes ----------

  lemma Then(actions: seq<Action>, s: Durable, a: Action, t: Durable) returns (longer: seq<Action>)
    requires Run(Initial(false), actions) == s && Act(s, a) == t
    ensures Run(Initial(false), longer) == t
  {
    longer := actions + [a];
    assert longer[..|actions|] == actions;
  }

  const Go := SuperviseStep(Succeeds)

  /** The observer is ready before the claim. */
  function Early(supervisor: Supervisor, observer: Observer, ready: bool): Durable {
    Durable(false, supervisor, observer, ready, Absent, false, false, NO, false, false, false, None, Some(false))
  }

  lemma ReachReady() returns (r: seq<Action>)
    ensures Run(Initial(false), r) == Early(Claiming, AwaitGate, true)
  {
    r := Then([], Early(Writing, NotLaunched, false), Go, Early(Launching, NotLaunched, false));
    r := Then(r, Early(Launching, NotLaunched, false), Go, Early(AwaitReady, Registering, false));
    r := Then(r, Early(AwaitReady, Registering, false), ObserveStep(true), Early(AwaitReady, WriteReady, false));
    r := Then(r, Early(AwaitReady, WriteReady, false), ObserveStep(true), Early(AwaitReady, AwaitGate, true));
    r := Then(r, Early(AwaitReady, AwaitGate, true), Go, Early(Claiming, AwaitGate, true));
  }

  /** The capacity is claimed and the gate is still closed. */
  function Waiting(supervisor: Supervisor, start: StartState, dict: Option<bool>, local: Option<bool>): Durable {
    Durable(false, supervisor, AwaitGate, true, Absent, false, true, start, false, false, false, dict, local)
  }

  lemma ReachMaybe() returns (r: seq<Action>)
    ensures Run(Initial(false), r) == Waiting(OpenGate, MAYBE, None, None)
  {
    r := ReachReady();
    r := Then(r, Early(Claiming, AwaitGate, true), Go, Waiting(RecordClaim, NO, None, Some(false)));
    r := Then(r, Waiting(RecordClaim, NO, None, Some(false)), Go, Waiting(StartMaybe, NO, Some(false), Some(false)));
    r := Then(r, Waiting(StartMaybe, NO, Some(false), Some(false)), Go, Waiting(RecordMaybe, MAYBE, Some(false), Some(false)));
    r := Then(r, Waiting(RecordMaybe, MAYBE, Some(false), Some(false)), Go, Waiting(OpenGate, MAYBE, None, None));
  }

  /** The gate is open. */
  function Opened(supervisor: Supervisor, observer: Observer, told: bool, user: bool): Durable {
    Durable(false, supervisor, observer, true, Matching, told, true, MAYBE, true, false, user, None, None)
  }

  lemma ReachOpened() returns (r: seq<Action>)
    ensures Run(Initial(false), r) == Opened(AwaitStarted, AwaitGate, false, false)
  {
    r := ReachMaybe();
    r := Then(r, Waiting(OpenGate, MAYBE, None, None), Go, Opened(AwaitStarted, AwaitGate, false, false));
  }

  lemma ReachStarted() returns (r: seq<Action>)
    ensures Run(Initial(false), r) == Opened(AwaitStarted, Supervising, true, true)
  {
    r := ReachOpened();
    r := Then(r, Opened(AwaitStarted, AwaitGate, false, false), ObserveStep(true), Opened(AwaitStarted, Start, false, false));
    r := Then(r, Opened(AwaitStarted, Start, false, false), ObserveStep(true), Opened(AwaitStarted, WriteStarted, false, true));
    r := Then(r, Opened(AwaitStarted, WriteStarted, false, true), ObserveStep(true), Opened(AwaitStarted, Supervising, true, true));
  }

  /** The start is confirmed. */
  function Known(supervisor: Supervisor, observer: Observer, certain: Option<bool>): Durable {
    Durable(false, supervisor, observer, true, Matching, true, true, YES, true, false, true, certain, certain)
  }

  lemma ReachConfirmed() returns (r: seq<Action>)
    ensures Run(Initial(false), r) == Known(RecordRunning, Supervising, None)
  {
    r := ReachStarted();
    r := Then(r, Opened(AwaitStarted, Supervising, true, true), Go, Opened(ConfirmExec, Supervising, true, true));
    r := Then(r, Opened(ConfirmExec, Supervising, true, true), Go, Known(RecordRunning, Supervising, None));
  }

  lemma ReachFinishing() returns (r: seq<Action>)
    ensures Run(Initial(false), r) == Known(Finishing, Supervising, Some(true))
  {
    r := ReachConfirmed();
    r := Then(r, Known(RecordRunning, Supervising, None), Go, Known(Finishing, Supervising, Some(true)));
  }

  lemma ReachComplete() returns (r: seq<Action>)
    ensures Run(Initial(false), r) == Known(RecordComplete, Exited, Some(true))
  {
    r := ReachFinishing();
    r := Then(r, Known(Finishing, Supervising, Some(true)), ObserveStep(true), Known(Finishing, Exited, Some(true)));
    r := Then(r, Known(Finishing, Exited, Some(true)), Go, Known(RecordComplete, Exited, Some(true)));
  }

  /** The straight path ends with user code started and a terminal record that says so. */
  lemma CommandCompletes() returns (r: seq<Action>, a: Action)
    ensures Run(Initial(false), r).userStarted
    ensures WrittenBy(Run(Initial(false), r), a) == Some(Record(true, Some(true), true, true))
  {
    a := Go;
    r := ReachComplete();
    assert WrittenBy(Known(RecordComplete, Exited, Some(true)), Go) == Some(Record(true, Some(true), true, true));
  }

  /** The supervisor is on its way out and never opened the gate. */
  ghost predicate NeverOpening(s: Durable) {
    Inv(s) && !s.gateOpened && (s.supervisor.Failing? || s.supervisor.Ended?)
  }

  lemma NeverOpeningStep(s: Durable, a: Action)
    requires NeverOpening(s)
    ensures NeverOpening(Act(s, a))
  {
    ActKeepsInv(s, a);
    match a
    case ObserveStep(succeeds) => ObserverKeepsInv(s, succeeds);
    case SuperviseStep(_) => assert StepEffect(s).gateOpened == s.gateOpened;
    case _ =>
  }

  lemma {:induction false} NeverOpeningStays(s: Durable, more: seq<Action>)
    requires NeverOpening(s)
    ensures NeverOpening(Run(s, more))
    decreases |more|
  {
    if more != [] {
      var n := |more| - 1;
      NeverOpeningStays(s, more[..n]);
      NeverOpeningStep(Run(s, more[..n]), more[n]);
    }
  }

  /** A terminal status that says the command did not start is final: in no continuation
      of the run does user code start. */
  lemma NotStartedIsFinal(windows: bool, actions: seq<Action>, a: Action, more: seq<Action>)
    requires
      var written := WrittenBy(Run(Initial(windows), actions), a);
      written.Some? && written.value.terminal && written.value.started == Some(false)
    ensures !Run(Act(Run(Initial(windows), actions), a), more).userStarted
  {
    var s := Run(Initial(windows), actions);
    RunKeepsInv(windows, actions);
    ActKeepsInv(s, a);
    NeverOpeningStays(Act(s, a), more);
  }
}
