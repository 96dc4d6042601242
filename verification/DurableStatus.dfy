/** Who may change a durable run's status record, and when its directory may go
    (src/remrun/_durable_runner.py). The supervisor writes the record blindly; any number
    of status and cleanup callers read it, ask the target ledger, and write back through a
    compare-and-set under the file lock. `Act` interleaves their atomic steps. */
module DurableStatus {
  import opened Wrappers

  datatype RunState = Launching | Pending | Running | Complete | Failed

  /** A target-cleanup receipt: whether its state is terminal, and the start certainty it
      carries, if any. */
  datatype Receipt = NoReceipt | Receipt(terminal: bool, certainty: Option<Option<bool>>)

  /** `ambiguous` marks a failure that a caller recorded because it found no supervisor. */
  datatype Status = Status(state: RunState, cleanup: Receipt, started: Option<bool>, ambiguous: bool)

  predicate Terminal(state: RunState) {
    state.Complete? || state.Failed?
  }

  predicate Cleaned(r: Receipt) {
    r.Receipt? && r.terminal
  }

  // ---------- the locked read-modify-write ----------

  datatype Fields = Fields(state: Option<RunState>, cleanup: Option<Receipt>, started: Option<Option<bool>>, ambiguous: bool)

  datatype Expected = Expected(cleanup: Option<Receipt>, started: Option<Option<bool>>)

  predicate Meets(s: Status, e: Expected) {
    (e.cleanup.Some? ==> s.cleanup == e.cleanup.value) && (e.started.Some? ==> s.started == e.started.value)
  }

  function Refreshed(s: Status, f: Fields): Status {
    Status(if f.state.Some? then f.state.value else s.state,
           if f.cleanup.Some? then f.cleanup.value else s.cleanup,
           if f.started.Some? then f.started.value else s.started,
           s.ambiguous || f.ambiguous)
  }

  function CompareAndSet(s: Status, f: Fields, e: Expected, requireNonterminal: bool): Status {
    if (requireNonterminal && Terminal(s.state)) || !Meets(s, e) then s else Refreshed(s, f)
  }

  class StatusFile {
    var current: Status

    constructor (initial: Status)
      ensures current == initial
    {
      current := initial;
    }

    /** Updates the latest record if it is still what the caller decided on; the caller
        gets back whatever the file now holds. */
    method UpdateStatusFields(fields: Fields, expected: Expected, requireNonterminal: bool) returns (r: Status)
      modifies this
      ensures r == current == CompareAndSet(old(current), fields, expected, requireNonterminal)
      ensures requireNonterminal && Terminal(old(current).state) ==> current == old(current)
      ensures fields.state.None? ==> current.state == old(current).state
      ensures
        (&& (requireNonterminal ==> old(current).state != Complete && old(current).state != Failed)
         && (expected.cleanup == None || expected.cleanup == Some(old(current).cleanup))
         && (expected.started == None || expected.started == Some(old(current).started))) ==>
          && current.state == (if fields.state == None then old(current).state else fields.state.value)
          && current.cleanup == (if fields.cleanup == None then old(current).cleanup else fields.cleanup.value)
          && current.started == (if fields.started == None then old(current).started else fields.started.value)
          && current.ambiguous == (old(current).ambiguous || fields.ambiguous)
      ensures
        || (requireNonterminal && (old(current).state == Complete || old(current).state == Failed))
        || (expected.cleanup != None && expected.cleanup != Some(old(current).cleanup))
        || (expected.started != None && expected.started != Some(old(current).started)) ==>
          current == old(current)
    {
      if requireNonterminal && Terminal(current.state) {
        return current;
      }
      if expected.cleanup.Some? && current.cleanup != expected.cleanup.value {
        return current;
      }
      if expected.started.Some? && current.started != expected.started.value {
        return current;
      }
      current := Refreshed(current, fields);
      r := current;
    }
  }

  // ---------- callers ----------

  /** `read` is the record a caller decided on, `seen` the last record it was given, `at`
      the number of supervisor writes when it read the former. */
  datatype Caller =
    | Idle
    | Probing(seen: Status, at: nat)
    | Rechecking
    | MarkingFailed(seen: Status, at: nat)
    | Settled(read: Status, seen: Status, at: nat, cleaning: bool)
    | Answered(read: Status, seen: Status, at: nat, cleaning: bool, receipt: Receipt)
    | Certifying(seen: Status)
    | Removing(read: Status, seen: Status, at: nat)

  /** `wrote` is the state in the supervisor's last write; `failedSince` says that a caller has
      recorded a failure after it. */
  datatype World = World(
    accepted: bool, dir: Option<Status>, writes: nat, wrote: Option<RunState>, failedSince: bool, callers: seq<Caller>)

  /** The supervisor has written a terminal record. */
  predicate Ended(w: World) {
    w.wrote.Some? && Terminal(w.wrote.value)
  }

  datatype Action =
    | SupervisorWrites(status: Status)
    | ReadStatus(i: nat)
    | ProbeSupervisor(i: nat, alive: bool)
    | Reread(i: nat)
    | MarkFailed(i: nat, receipt: Receipt)
    | AskLedger(i: nat, answer: Option<Receipt>)
    | SetCleanup(i: nat)
    | SetCertainty(i: nat)
    | ReadForCleanup(i: nat)
    | RemoveDirectory(i: nat)

  /** What follows once the cleanup receipt is as good as the caller can make it. */
  function Proceed(accepted: bool, read: Status, seen: Status, at: nat, cleaning: bool): Caller {
    if !cleaning then Certifying(seen)
    else if !accepted || Cleaned(seen.cleanup) then Removing(read, seen, at)
    else Idle
  }

  /** One atomic step of one caller: its new local state and the new directory. */
  function CallerStep(w: World, c: Caller, a: Action): (Caller, Option<Status>) {
    match (a, c)
    case (ReadStatus(_), Idle) =>
      if w.dir.None? then (Idle, w.dir)
      else if Terminal(w.dir.value.state) then (Settled(w.dir.value, w.dir.value, w.writes, false), w.dir)
      else (Probing(w.dir.value, w.writes), w.dir)
    case (ProbeSupervisor(_, alive), Probing(seen, at)) =>
      (if alive then Settled(seen, seen, at, false) else Rechecking, w.dir)
    case (Reread(_), Rechecking) =>
      if w.dir.None? then (Idle, w.dir)
      else if Terminal(w.dir.value.state) then (Settled(w.dir.value, w.dir.value, w.writes, false), w.dir)
      else (MarkingFailed(w.dir.value, w.writes), w.dir)
    case (MarkFailed(_, receipt), MarkingFailed(seen, at)) =>
      if w.dir.None? then (Idle, w.dir)
      else
        var fields := Fields(Some(Failed), if w.accepted then Some(receipt) else None, None, true);
        var after := CompareAndSet(w.dir.value, fields, Expected(None, None), true);
        (Settled(after, after, w.writes, false), Some(after))
    case (AskLedger(_, answer), Settled(read, seen, at, cleaning)) =>
      if !w.accepted || Cleaned(seen.cleanup) || answer.None? || answer.value == seen.cleanup then
        (Proceed(w.accepted, read, seen, at, cleaning), w.dir)
      else (Answered(read, seen, at, cleaning, answer.value), w.dir)
    case (SetCleanup(_), Answered(read, seen, at, cleaning, receipt)) =>
      if w.dir.None? then (Idle, w.dir)
      else
        var after := CompareAndSet(
          w.dir.value, Fields(None, Some(receipt), None, false), Expected(Some(seen.cleanup), None), false);
        (Proceed(w.accepted, read, after, at, cleaning), Some(after))
    case (SetCertainty(_), Certifying(seen)) =>
      if w.dir.None? || !seen.cleanup.Receipt? || seen.cleanup.certainty.None?
         || seen.cleanup.certainty.value == seen.started then (Idle, w.dir)
      else
        (Idle, Some(CompareAndSet(w.dir.value, Fields(None, None, seen.cleanup.certainty, false),
                                  Expected(Some(seen.cleanup), Some(seen.started)), false)))
    case (ReadForCleanup(_), Idle) =>
      if w.dir.None? || !Terminal(w.dir.value.state) then (Idle, w.dir)
      else (Settled(w.dir.value, w.dir.value, w.writes, true), w.dir)
    case (RemoveDirectory(_), Removing(_, _, _)) => (Idle, None)
    case _ => (c, w.dir)
  }

  function Act(w: World, a: Action): World {
    match a
    case SupervisorWrites(status) => // recreates the directory if it is gone; after a terminal record only terminal ones
      if Ended(w) && !Terminal(status.state) then w
      else
        w.(dir := Some(status.(ambiguous := false)), writes := w.writes + 1, wrote := Some(status.state), failedSince := false)
    case _ =>
      if a.i >= |w.callers| then w
      else
        var (c, dir) := CallerStep(w, w.callers[a.i], a);
        w.(dir := dir, callers := w.callers[a.i := c],
           failedSince := w.failedSince || (w.dir.Some? && dir.Some? && dir.value.state != w.dir.value.state))
  }

  function Run(w: World, actions: seq<Action>): World
    decreases |actions|
  {
    if actions == [] then w
    else Act(Run(w, actions[..|actions| - 1]), actions[|actions| - 1])
  }

  /** The record as `_launch` leaves it, with any number of callers about to act. */
  function Initial(accepted: bool, callers: nat): World {
    World(accepted, Some(Status(Launching, NoReceipt, None, false)), 0, None, false, seq(callers, i => Idle))
  }

  // ---------- callers never change a terminal state ----------

  /** The changes a caller may make: none, removal, the receipt or the certainty of any
      record, or the failure of a record that is not terminal. */
  ghost predicate CallerChange(before: Option<Status>, after: Option<Status>) {
    || after == before
    || after.None?
    || (&& before.Some? && after.Some?
        && ((after.value.state == before.value.state && after.value.ambiguous == before.value.ambiguous)
            || (!Terminal(before.value.state) && after.value.state.Failed? && after.value.ambiguous))
        && (Terminal(before.value.state) && Cleaned(before.value.cleanup) ==>
              after.value.cleanup == before.value.cleanup))
  }

  predicate SameSupervisor(w: World, w': World) {
    w'.writes == w.writes && w'.accepted == w.accepted && w'.wrote == w.wrote
  }

  lemma CallersChangeLittle(w: World, a: Action)
    requires !a.SupervisorWrites?
    requires forall i :: 0 <= i < |w.callers| ==> AskedForReason(w.callers[i])
    ensures CallerChange(w.dir, Act(w, a).dir) && SameSupervisor(w, Act(w, a))
  {
    if a.i < |w.callers| {
      assert AskedForReason(w.callers[a.i]);
      CallerStepChangesLittle(w, w.callers[a.i], a);
    }
  }

  /** The ledger is asked only while the receipt at hand is not terminal. */
  ghost predicate AskedForReason(c: Caller) {
    c.Answered? ==> !Cleaned(c.seen.cleanup)
  }

  lemma CallerStepChangesLittle(w: World, c: Caller, a: Action)
    requires AskedForReason(c) && !a.SupervisorWrites?
    ensures CallerChange(w.dir, CallerStep(w, c, a).1)
    ensures AskedForReason(CallerStep(w, c, a).0)
  {
    match c {
      case Idle => case Probing(_, _) => case Rechecking => case MarkingFailed(_, _) =>
      case Settled(_, _, _, _) => case Answered(_, _, _, _, _) => case Certifying(_) => case Removing(_, _, _) =>
    }
  }

  // ---------- what a caller that means to remove the directory knows ----------

  /** As long as the supervisor has not written since, the record still has the terminal
      state the caller read, and a terminal receipt it saw is still there. */
  ghost predicate Informed(w: World, read: Status, seen: Status, at: nat) {
    && at <= w.writes
    && (Terminal(read.state) && !read.ambiguous ==> Ended(w))
    && (at == w.writes && w.dir.Some? && Terminal(read.state) ==>
          && w.dir.value.state == read.state
          && (Cleaned(seen.cleanup) ==> w.dir.value.cleanup == seen.cleanup))
  }

  ghost predicate CallerInv(w: World, c: Caller) {
    && AskedForReason(c)
    && (match c
        case Settled(read, seen, at, cleaning) => Informed(w, read, seen, at) && (cleaning ==> Terminal(read.state))
        case Answered(read, seen, at, cleaning, _) => Informed(w, read, seen, at) && (cleaning ==> Terminal(read.state))
        case Removing(read, seen, at) =>
          Informed(w, read, seen, at) && Terminal(read.state) && (w.accepted ==> Cleaned(seen.cleanup))
        case MarkingFailed(seen, at) => at <= w.writes && !Terminal(seen.state)
        case Probing(seen, at) => at <= w.writes && !Terminal(seen.state)
        case _ => true)
  }

  /** The record is terminal exactly if the supervisor's last write was, or a caller has failed it
      since; and without the mark of ambiguity a terminal record is the supervisor's own. */
  predicate DirOk(w: World) {
    && (w.writes > 0 <==> w.wrote.Some?)
    && (w.dir.Some? ==>
          && (Terminal(w.dir.value.state) <==> Ended(w) || w.failedSince)
          && (Terminal(w.dir.value.state) && !w.dir.value.ambiguous ==> Ended(w)))
  }

  ghost predicate Inv(w: World) {
    && DirOk(w)
    && forall i :: 0 <= i < |w.callers| ==> CallerInv(w, w.callers[i])
  }

  /** Other callers' steps do not invalidate what a caller knows. */
  lemma OthersStayInformed(w: World, w': World, c: Caller)
    requires CallerInv(w, c)
    requires CallerChange(w.dir, w'.dir) && SameSupervisor(w, w')
    ensures CallerInv(w', c)
  {
    match c {
      case Idle => case Probing(_, _) => case Rechecking => case MarkingFailed(_, _) =>
      case Settled(_, _, _, _) => case Answered(_, _, _, _, _) => case Certifying(_) => case Removing(_, _, _) =>
    }
  }

  lemma StepperStaysInformed(w: World, c: Caller, a: Action)
    requires CallerInv(w, c) && DirOk(w) && !a.SupervisorWrites?
    ensures
      var (c', dir) := CallerStep(w, c, a);
      CallerInv(w.(dir := dir), c')
  {
    CallerStepChangesLittle(w, c, a);
    match c {
      case Idle => case Probing(_, _) => case Rechecking => case MarkingFailed(_, _) =>
      case Settled(_, _, _, _) => case Answered(_, _, _, _, _) => case Certifying(_) => case Removing(_, _, _) =>
    }
  }

  lemma CallerInvIgnoresOthers(w: World, w': World, c: Caller)
    requires CallerInv(w, c) && w'.dir == w.dir && SameSupervisor(w, w')
    ensures CallerInv(w', c)
  {
  }

  lemma ActKeepsInv(w: World, a: Action)
    requires Inv(w)
    ensures Inv(Act(w, a))
  {
    var w' := Act(w, a);
    if a.SupervisorWrites? {
      forall i | 0 <= i < |w'.callers| ensures CallerInv(w', w'.callers[i]) {
        WritesKeepCallers(w, a, w.callers[i]);
      }
    } else {
      CallersChangeLittle(w, a);
      forall i | 0 <= i < |w'.callers| ensures CallerInv(w', w'.callers[i]) {
        if a.i < |w.callers| && i == a.i {
          StepperStaysInformed(w, w.callers[i], a);
          CallerInvIgnoresOthers(w.(dir := w'.dir), w', w'.callers[i]);
        } else {
          OthersStayInformed(w, w', w.callers[i]);
        }
      }
    }
  }

  lemma WritesKeepCallers(w: World, a: Action, c: Caller)
    requires CallerInv(w, c) && a.SupervisorWrites?
    ensures CallerInv(Act(w, a), c)
  {
    match c {
      case Idle => case Probing(_, _) => case Rechecking => case MarkingFailed(_, _) =>
      case Settled(_, _, _, _) => case Answered(_, _, _, _, _) => case Certifying(_) => case Removing(_, _, _) =>
    }
  }

  lemma {:induction false} RunKeepsInv(w: World, actions: seq<Action>)
    requires Inv(w)
    ensures Inv(Run(w, actions))
    decreases |actions|
  {
    if actions != [] {
      var n := |actions| - 1;
      RunKeepsInv(w, actions[..n]);
      ActKeepsInv(Run(w, actions[..n]), actions[n]);
    }
  }

  // ---------- what every run guarantees ----------

  ghost predicate NoSupervisor(actions: seq<Action>) {
    forall k :: 0 <= k < |actions| ==> !actions[k].SupervisorWrites?
  }

  /** From the supervisor's last write on, no interleaving of callers changes a terminal
      state; the record keeps it until the directory is removed. */
  lemma {:induction false} TerminalStateIsStable(w: World, actions: seq<Action>)
    requires Inv(w) && w.dir.Some? && Terminal(w.dir.value.state) && NoSupervisor(actions)
    ensures
      var after := Run(w, actions).dir;
      after.Some? ==> after.value.state == w.dir.value.state
    decreases |actions|
  {
    if actions != [] {
      var n := |actions| - 1;
      TerminalStateIsStable(w, actions[..n]);
      RunKeepsInv(w, actions[..n]);
      var before := Run(w, actions[..n]);
      assert forall i :: 0 <= i < |before.callers| ==> CallerInv(before, before.callers[i]);
      CallersChangeLittle(before, actions[n]);
    }
  }

  /** A caller turns a record into a failure only from a record that is not terminal, and
      only when its own second read showed one. */
  lemma FailureNeedsSecondRead(accepted: bool, callers: nat, actions: seq<Action>, a: Action)
    requires !a.SupervisorWrites?
    requires
      var w := Run(Initial(accepted, callers), actions);
      w.dir.Some? && Act(w, a).dir.Some? && Act(w, a).dir.value.state != w.dir.value.state
    ensures
      var w := Run(Initial(accepted, callers), actions);
      && !Terminal(w.dir.value.state) && Act(w, a).dir.value.state.Failed?
      && a.MarkFailed? && a.i < |w.callers|
      && w.callers[a.i].MarkingFailed? && !Terminal(w.callers[a.i].seen.state)
  {
    RunKeepsInv(Initial(accepted, callers), actions);
    var w := Run(Initial(accepted, callers), actions);
    if a.i < |w.callers| {
      assert CallerInv(w, w.callers[a.i]);
      CallerStepChangesLittle(w, w.callers[a.i], a);
    }
  }

  /** A directory is removed only by a caller that read a terminal record and, with target
      acceptance, saw a terminal cleanup receipt. The record that goes is not terminal if and only if
      what the caller read was another caller's mark, and since then the supervisor has written a
      record that is not terminal and that nobody has failed again. The receipt is still terminal if
      the supervisor has not written since. */
  lemma RemovalIsJustified(accepted: bool, callers: nat, actions: seq<Action>, a: Action)
    requires !a.SupervisorWrites?
    requires
      var w := Run(Initial(accepted, callers), actions);
      w.dir.Some? && Act(w, a).dir.None?
    ensures
      var w := Run(Initial(accepted, callers), actions);
      && a.RemoveDirectory? && a.i < |w.callers| && w.callers[a.i].Removing?
      && var c := w.callers[a.i];
      && Terminal(c.read.state) && (w.accepted ==> Cleaned(c.seen.cleanup))
      && (!Terminal(w.dir.value.state) <==>
            c.read.ambiguous && c.at < w.writes && w.wrote.Some? && !Terminal(w.wrote.value) && !w.failedSince)
      && (c.at == w.writes && w.accepted ==> Cleaned(w.dir.value.cleanup))
  {
    RunKeepsInv(Initial(accepted, callers), actions);
    var w := Run(Initial(accepted, callers), actions);
    if a.i < |w.callers| {
      assert CallerInv(w, w.callers[a.i]);
    }
  }

  /** What a caller can tell before it removes: a terminal record without the mark of ambiguity stays
      terminal until the directory goes. */
  lemma UnambiguousRemovalIsTerminal(accepted: bool, callers: nat, actions: seq<Action>, i: nat)
    requires
      var w := Run(Initial(accepted, callers), actions);
      w.dir.Some? && i < |w.callers| && w.callers[i].Removing? && !w.callers[i].read.ambiguous
    ensures Terminal(Run(Initial(accepted, callers), actions).dir.value.state)
  {
    RunKeepsInv(Initial(accepted, callers), actions);
    var w := Run(Initial(accepted, callers), actions);
    assert CallerInv(w, w.callers[i]);
  }

  /** The supervisor's own terminal record is the last word: from then on the record is terminal, and
      without the mark, whatever supervisor and callers still do. */
  lemma {:induction false} SettledStaysSettled(w: World, actions: seq<Action>)
    requires Inv(w) && Ended(w)
    ensures Ended(Run(w, actions)) && (Run(w, actions).dir.Some? ==> Terminal(Run(w, actions).dir.value.state))
    decreases |actions|
  {
    if actions != [] {
      var n := |actions| - 1;
      SettledStaysSettled(w, actions[..n]);
      RunKeepsInv(w, actions[..n]);
      var before := Run(w, actions[..n]);
      ActKeepsInv(before, actions[n]);
      if !actions[n].SupervisorWrites? {
        assert forall i :: 0 <= i < |before.callers| ==> CallerInv(before, before.callers[i]);
        CallersChangeLittle(before, actions[n]);
      }
    }
  }

  // ---------- an undisturbed caller gets its way ----------

  /** A status call that finds a record which is not terminal, and no supervisor, records the failure with
      the ledger's receipt; everything else in the record stays. */
  lemma DeadSupervisorIsFailed(accepted: bool, s: Status, writes: nat, receipt: Receipt)
    requires s.state != Complete && s.state != Failed
    ensures
      var w := World(accepted, Some(s), writes, if writes == 0 then None else Some(s.state), false, [Idle]);
      var w1 := Act(Act(Act(w, ReadStatus(0)), ProbeSupervisor(0, false)), Reread(0));
      Act(w1, MarkFailed(0, receipt)).dir == Some(Status(Failed, if accepted then receipt else s.cleanup, s.started, true))
  {
  }

  /** The ledger's newer answer to a caller reaches the record, and so does the start certainty it carries. */
  lemma LedgerAnswerIsRecorded(w: World, i: nat, read: Status, seen: Status, at: nat, answer: Receipt)
    requires i < |w.callers| && w.callers[i] == Settled(read, seen, at, false) && w.dir == Some(seen)
    requires w.accepted && !(seen.cleanup.Receipt? && seen.cleanup.terminal) && answer != seen.cleanup
    ensures
      var w1 := Act(Act(w, AskLedger(i, Some(answer))), SetCleanup(i));
      && w1.dir == Some(seen.(cleanup := answer))
      && Act(w1, SetCertainty(i)).dir
         == Some(seen.(cleanup := answer, started := if answer.Receipt? && answer.certainty.Some? then answer.certainty.value else seen.started))
  {
    var asked := Act(w, AskLedger(i, Some(answer)));
    assert asked.callers[i] == Answered(read, seen, at, false, answer);
    assert asked.dir == Some(seen);
    var w1 := Act(asked, SetCleanup(i));
    assert w1.callers[i] == Certifying(seen.(cleanup := answer));
  }

  /** Cleanup of a terminal record removes the directory at once if there is nothing to ask for. */
  lemma CleanedDirectoryGoes(w: World, i: nat, s: Status)
    requires i < |w.callers| && w.callers[i] == Idle && w.dir == Some(s) && (s.state == Complete || s.state == Failed)
    requires w.accepted ==> s.cleanup.Receipt? && s.cleanup.terminal
    ensures Act(Act(Act(w, ReadForCleanup(i)), AskLedger(i, None)), RemoveDirectory(i)).dir == None
  {
    var w1 := Act(w, ReadForCleanup(i));
    assert w1.callers[i] == Settled(s, s, w.writes, true) && w1.dir == Some(s);
    var w2 := Act(w1, AskLedger(i, None));
    assert w2.callers[i] == Removing(s, s, w.writes);
  }

  lemma Then(actions: seq<Action>, w: World, a: Action, next: World) returns (longer: seq<Action>)
    requires Run(Initial(false, 2), actions) == w && Act(w, a) == next
    ensures Run(Initial(false, 2), longer) == next
  {
    longer := actions + [a];
    assert longer[..|actions|] == actions;
  }

  /** The record during startup, before the supervisor has written. */
  function Launched(): Status { Status(Launching, NoReceipt, None, false) }

  function MarkedFailed(): Status { Status(Failed, NoReceipt, None, true) }

  function StartingUp(c: Caller, d: Caller): World {
    World(false, Some(Launched()), 0, None, false, [c, d])
  }

  function GivenUp(c: Caller, d: Caller): World {
    World(false, Some(MarkedFailed()), 0, None, true, [c, d])
  }

  /** A status call during startup finds no supervisor pid and looks again. */
  lemma ReachMarking() returns (r: seq<Action>)
    ensures Run(Initial(false, 2), r) == StartingUp(MarkingFailed(Launched(), 0), Idle)
  {
    assert Initial(false, 2).callers == [Idle, Idle];
    r := Then([], StartingUp(Idle, Idle), ReadStatus(0), StartingUp(Probing(Launched(), 0), Idle));
    r := Then(r, StartingUp(Probing(Launched(), 0), Idle), ProbeSupervisor(0, false), StartingUp(Rechecking, Idle));
    r := Then(r, StartingUp(Rechecking, Idle), Reread(0), StartingUp(MarkingFailed(Launched(), 0), Idle));
  }

  /** It marks the run failed, and a cleanup call decides to remove the directory. */
  lemma ReachRemoving() returns (r: seq<Action>)
    ensures Run(Initial(false, 2), r) == GivenUp(Settled(MarkedFailed(), MarkedFailed(), 0, false), Removing(MarkedFailed(), MarkedFailed(), 0))
  {
    var failer := Settled(MarkedFailed(), MarkedFailed(), 0, false);
    r := ReachMarking();
    r := Then(r, StartingUp(MarkingFailed(Launched(), 0), Idle), MarkFailed(0, NoReceipt), GivenUp(failer, Idle));
    r := Then(r, GivenUp(failer, Idle), ReadForCleanup(1), GivenUp(failer, Settled(MarkedFailed(), MarkedFailed(), 0, true)));
    r := Then(r, GivenUp(failer, Settled(MarkedFailed(), MarkedFailed(), 0, true)), AskLedger(1, None),
              GivenUp(failer, Removing(MarkedFailed(), MarkedFailed(), 0)));
  }

  /** Such a removal exists: a run marked failed during startup is removed although its supervisor
      has meanwhile written `pending`. */
  lemma RemovedWhilePending() returns (r: seq<Action>, a: Action)
    ensures
      var w := Run(Initial(false, 2), r);
      w.dir.Some? && w.dir.value.state.Pending? && Act(w, a).dir.None?
  {
    var failer, remover := Settled(MarkedFailed(), MarkedFailed(), 0, false), Removing(MarkedFailed(), MarkedFailed(), 0);
    var pending := Status(Pending, NoReceipt, None, false);
    r := ReachRemoving();
    r := Then(r, GivenUp(failer, remover), SupervisorWrites(pending), World(false, Some(pending), 1, Some(Pending), false, [failer, remover]));
    a := RemoveDirectory(1);
  }
}
