/** What holds over every sequence of ledger operations by any number of holders. */
module LedgerRuns {
  import opened Wrappers
  import opened KnownTree
  import opened Leases
  import opened Ledger

  datatype Event = Event(op: Op, now: real, os: Os)

  /** A run from the empty ledger: operations of different holders in any order. */
  ghost predicate Run(states: seq<LedgerState>, events: seq<Event>) {
    && |states| == |events| + 1 && states[0] == EMPTY
    && forall i :: 0 <= i < |events| ==> StepAt(states, events, i)
  }

  ghost predicate StepAt(states: seq<LedgerState>, events: seq<Event>, i: nat)
    requires |states| == |events| + 1 && i < |events|
  {
    Step(states[i], states[i + 1], events[i].op, events[i].now, events[i].os)
  }

  // ---------- the ledger invariant ----------

  lemma {:induction false} RetainedMembers(leases: seq<Lease>, op: Op)
    requires op.ReleaseOp?
    ensures forall l :: l in Retained(leases, op) <==> l in leases && !MayRelease(l, op)
    ensures UniqueIds(leases) ==> UniqueIds(Retained(leases, op))
  {
    if leases != [] {
      var n := |leases| - 1;
      RetainedMembers(leases[..n], op);
      assert leases == leases[..n] + [leases[n]];
      var before := Retained(leases[..n], op);
      if UniqueIds(leases) {
        forall i | 0 <= i < |before| ensures before[i].id != leases[n].id {
          assert before[i] in leases[..n];
        }
      }
    }
  }

  /** What a release frees, lease by lease. The holder's reservation goes in any case, its claimed
      or running lease exactly when it reports complete cleanup of more than a reservation; apart
      from the reaping pass that comes first, nothing else goes. */
  lemma ReleasedByState(s: LedgerState, s': LedgerState, op: Op, now: real, os: Os, l: Lease)
    requires op.ReleaseOp? && ReleasedStep(s, s', op, now, os) && l in s.leases
    ensures l.id == op.id && l.token == op.token && l.owner.state == Reserved ==> l !in s'.leases
    ensures l.id == op.id && l.token == op.token && (l.owner.state == Claimed || l.owner.state == Running) ==>
      (l in s'.leases <==> l in Kept(s.leases, now, os) && (op.reservedOnly || !op.cleanupComplete))
    ensures l.id != op.id || l.token != op.token || l.owner.state == Quarantined || l.owner.state == Unrecognised ==>
      (l in s'.leases <==> l in Kept(s.leases, now, os))
  {
    RetainedMembers(Kept(s.leases, now, os), op);
  }

  lemma SweepKeepsSound(s: LedgerState, s': LedgerState, now: real, os: Os)
    requires Sound(s) && Swept(s, s', now, os)
    ensures Sound(s')
  {
    KeptIsSound(s, now, os);
  }

  lemma AddKeepsSound(s: LedgerState, s': LedgerState, id: LeaseId, token: TokenHash, now: real, os: Os)
    requires Sound(s) && Added(s, s', id, token, now, os)
    ensures Sound(s')
  {
    KeptIsSound(s, now, os);
    var kept := Kept(s.leases, now, os);
    assert s'.leases == kept + [s'.leases[|kept|]];
  }

  lemma DropKeepsSound(s: LedgerState, s': LedgerState, i: nat, op: Op, now: real, os: Os)
    requires Sound(s) && DroppedAt(s, s', i, op.id, op.token, now, os)
    ensures Sound(s')
  {
    KeptIsSound(s, now, os);
    var kept := Kept(s.leases, now, os);
    forall l | l in s'.leases ensures l in kept {
    }
  }

  lemma UpdateKeepsSound(s: LedgerState, s': LedgerState, i: nat, op: Op, now: real, os: Os)
    requires op.RenewOp? || op.ClaimOp?
    requires Sound(s) && UpdatedAt(s, s', i, op, now, os)
    ensures Sound(s')
  {
    KeptIsSound(s, now, os);
    var kept := Kept(s.leases, now, os);
    var p := s.policy.value;
    assert kept[i] in kept && SoundLease(kept[i], p);
    assert SoundLease(s'.leases[i], p);
    forall l | l in s'.leases ensures SoundLease(l, p) {
      assert l in kept || l == s'.leases[i];
    }
    assert forall k :: 0 <= k < |kept| ==> s'.leases[k].id == kept[k].id;
  }

  lemma HolderKeepsSound(s: LedgerState, s': LedgerState, op: Op, now: real, os: Os)
    requires op.RenewOp? || op.ClaimOp?
    requires Sound(s) && HolderStep(s, s', op, now, os)
    ensures Sound(s')
  {
    if i: nat :| DroppedAt(s, s', i, op.id, op.token, now, os) {
      DropKeepsSound(s, s', i, op, now, os);
    } else if i: nat :| UpdatedAt(s, s', i, op, now, os) {
      UpdateKeepsSound(s, s', i, op, now, os);
    } else if s' != s {
      SweepKeepsSound(s, s', now, os);
    }
  }

  lemma QuarantineKeepsSound(s: LedgerState, s': LedgerState, i: nat, op: Op)
    requires op.QuarantineOp?
    requires Sound(s) && QuarantinedAt(s, s', i, op)
    ensures Sound(s')
  {
    assert s.leases[i] in s.leases;
    assert forall l :: l in s'.leases ==> l in s.leases || l == s'.leases[i];
  }

  lemma StepKeepsSound(s: LedgerState, s': LedgerState, op: Op, now: real, os: Os)
    requires Sound(s) && Step(s, s', op, now, os)
    ensures Sound(s')
  {
    if s' != s {
      match op
      case ReserveOp(id, token) =>
        if Swept(s, s', now, os) {
          SweepKeepsSound(s, s', now, os);
        } else {
          AddKeepsSound(s, s', id, token, now, os);
        }
      case RenewOp(_, _) => HolderKeepsSound(s, s', op, now, os);
      case ClaimOp(_, _) => HolderKeepsSound(s, s', op, now, os);
      case ReleaseOp(_, _, _, _) =>
        KeptIsSound(s, now, os);
        RetainedMembers(Kept(s.leases, now, os), op);
      case QuarantineOp(_, _, _, _) =>
        var i: nat :| QuarantinedAt(s, s', i, op);
        QuarantineKeepsSound(s, s', i, op);
    }
  }

  /** Every reachable ledger has unique ids, at most `max_jobs` leases under one sound
      policy, and only positive whole-MiB allowances below the command ceiling. */
  lemma {:induction false} RunKeepsSound(states: seq<LedgerState>, events: seq<Event>, i: nat)
    requires Run(states, events) && i < |states|
    ensures Sound(states[i])
  {
    if i > 0 {
      RunKeepsSound(states, events, i - 1);
      assert StepAt(states, events, i - 1);
      StepKeepsSound(states[i - 1], states[i], events[i - 1].op, events[i - 1].now, events[i - 1].os);
    }
  }

  // ---------- one step seen from one lease ----------

  ghost predicate MayDrop(l: Lease, op: Op) {
    && Matches(l, op.id, op.token)
    && (match op
        case RenewOp(_, _) => l.owner.state.Reserved?
        case ClaimOp(_, _) => l.owner.state.Reserved?
        case ReleaseOp(_, _, _, _) => MayRelease(l, op)
        case _ => false)
  }

  /** What one step may have done to a lease that its holder, or another, knows by id
      and token: renewed, claimed or quarantined it, or left it alone. */
  ghost predicate Advanced(l: Lease, l': Lease, op: Op) {
    || l' == l
    || (&& Matches(l, op.id, op.token)
        && (match op
            case RenewOp(_, _) => RenewedLease(l, l')
            case ClaimOp(_, _) => ClaimedLease(l, l')
            case QuarantineOp(_, _, survivors, pgid) =>
              Held(l.owner.state) && AllNamed(survivors) && pgid > 0 && l' == Quarantine(l, survivors, pgid)
            case _ => false))
  }

  ghost predicate Survives(l: Lease, s': LedgerState, op: Op) {
    exists l' :: l' in s'.leases && Advanced(l, l', op)
  }

  /** Every lease of the old ledger is reaped as stale, dropped by its own holder, or still
      there, altered only by its own holder. */
  lemma StepOnLease(s: LedgerState, s': LedgerState, op: Op, now: real, os: Os, l: Lease)
    requires Sound(s) && Step(s, s', op, now, os) && l in s.leases
    ensures Stale(l, now, os) || MayDrop(l, op) || Survives(l, s', op)
  {
    var kept := Kept(s.leases, now, os);
    KeptMembers(s.leases, now, os);
    KeptKeepsUniqueIds(s.leases, now, os);
    if s' == s {
      assert l in s'.leases && Advanced(l, l, op);
    } else if op.QuarantineOp? {
      var i: nat :| QuarantinedAt(s, s', i, op);
      var k :| 0 <= k < |s.leases| && s.leases[k] == l;
      assert s'.leases[k] in s'.leases && Advanced(l, s'.leases[k], op);
    } else if !Stale(l, now, os) {
      var k :| 0 <= k < |kept| && kept[k] == l;
      match op
      case ReserveOp(_, _) =>
        assert s'.leases[k] == l;
        assert l in s'.leases && Advanced(l, l, op);
      case ReleaseOp(_, _, _, _) =>
        RetainedMembers(kept, op);
        if !MayRelease(l, op) {
          assert l in s'.leases && Advanced(l, l, op);
        }
      case RenewOp(_, _) => HolderOnLease(s, s', op, now, os, k);
      case ClaimOp(_, _) => HolderOnLease(s, s', op, now, os, k);
    }
  }

  lemma HolderOnLease(s: LedgerState, s': LedgerState, op: Op, now: real, os: Os, k: nat)
    requires op.RenewOp? || op.ClaimOp?
    requires s' != s && HolderStep(s, s', op, now, os)
    requires k < |Kept(s.leases, now, os)|
    ensures MayDrop(Kept(s.leases, now, os)[k], op) || Survives(Kept(s.leases, now, os)[k], s', op)
  {
    var kept := Kept(s.leases, now, os);
    var l := kept[k];
    if Swept(s, s', now, os) {
      assert l in s'.leases && Advanced(l, l, op);
    } else if exists i: nat :: DroppedAt(s, s', i, op.id, op.token, now, os) {
      var i: nat :| DroppedAt(s, s', i, op.id, op.token, now, os);
      DropOnLease(s, s', op, now, os, i, k);
    } else {
      var i: nat :| UpdatedAt(s, s', i, op, now, os);
      UpdateOnLease(s, s', op, now, os, i, k);
    }
  }

  lemma DropOnLease(s: LedgerState, s': LedgerState, op: Op, now: real, os: Os, i: nat, k: nat)
    requires (op.RenewOp? || op.ClaimOp?) && DroppedAt(s, s', i, op.id, op.token, now, os)
    requires k < |Kept(s.leases, now, os)|
    ensures MayDrop(Kept(s.leases, now, os)[k], op) || Survives(Kept(s.leases, now, os)[k], s', op)
  {
    var l := Kept(s.leases, now, os)[k];
    if k != i {
      assert s'.leases[if k < i then k else k - 1] == l;
      assert l in s'.leases && Advanced(l, l, op);
    }
  }

  lemma UpdateOnLease(s: LedgerState, s': LedgerState, op: Op, now: real, os: Os, i: nat, k: nat)
    requires (op.RenewOp? || op.ClaimOp?) && UpdatedAt(s, s', i, op, now, os)
    requires k < |Kept(s.leases, now, os)|
    ensures Survives(Kept(s.leases, now, os)[k], s', op)
  {
    var l := Kept(s.leases, now, os)[k];
    assert s'.leases[k] in s'.leases && Advanced(l, s'.leases[k], op);
  }

  /** No operation alters or removes a lease it does not hold, except by reaping it. */
  lemma OtherHoldersUntouched(s: LedgerState, s': LedgerState, op: Op, now: real, os: Os, l: Lease)
    requires Sound(s) && Step(s, s', op, now, os) && l in s.leases
    requires !Matches(l, op.id, op.token) && !Stale(l, now, os)
    ensures l in s'.leases
  {
    StepOnLease(s, s', op, now, os, l);
    var l' :| l' in s'.leases && Advanced(l, l', op);
  }

  // ---------- capacity is freed only on proof ----------

  /** Positive answers that every recorded survivor and the process group are gone. */
  ghost predicate SurvivorsGone(owner: Owner, os: Os) {
    && (forall i :: 0 <= i < |owner.survivors| ==> NamesProcess(owner.survivors[i]) && ProvedGone(owner.survivors[i], os))
    && GroupProvedGone(owner.pgid, os)
  }

  /** Positive answers that the helper, the root and the process group are all gone. */
  ghost predicate OwnersGone(owner: Owner, os: Os) {
    ProvedGone(owner.helper, os) && ProvedGone(owner.root, os) && GroupProvedGone(owner.pgid, os)
  }

  /** The evidence on which event `e` may free a held lease. */
  ghost predicate Proof(l: Lease, e: Event) {
    || (l.owner.state.Quarantined? && SurvivorsGone(l.owner, e.os))
    || (l.owner.state.Running? && OwnersGone(l.owner, e.os))
    || (l.owner.state.Running? && e.op.ReleaseOp? && Matches(l, e.op.id, e.op.token)
        && e.op.cleanupComplete && !e.op.reservedOnly)
  }

  ghost predicate HeldLease(s: LedgerState, id: LeaseId, token: TokenHash, l: Lease) {
    && l in s.leases && Matches(l, id, token)
    && (l.owner.state.Running? || l.owner.state.Quarantined?)
  }

  lemma HeldUntilProof(s: LedgerState, s': LedgerState, e: Event, id: LeaseId, token: TokenHash, l: Lease)
    requires Sound(s) && Step(s, s', e.op, e.now, e.os) && HeldLease(s, id, token, l)
    requires !Proof(l, e)
    ensures exists l' :: HeldLease(s', id, token, l') && (l.owner.state.Quarantined? ==> l'.owner.state.Quarantined?)
  {
    StepOnLease(s, s', e.op, e.now, e.os, l);
    assert !Stale(l, e.now, e.os);
    var l' :| l' in s'.leases && Advanced(l, l', e.op);
    assert HeldLease(s', id, token, l');
  }

  ghost predicate ProvedBetween(
    states: seq<LedgerState>, events: seq<Event>, i: nat, j: nat, id: LeaseId, token: TokenHash, quarantinedOnly: bool)
    requires |states| == |events| + 1 && j < |states|
  {
    exists k, l :: i <= k < j && ProvedAt(states, events, k, l, id, token, quarantinedOnly)
  }

  ghost predicate ProvedAt(
    states: seq<LedgerState>, events: seq<Event>, k: int, l: Lease, id: LeaseId, token: TokenHash, quarantinedOnly: bool)
    requires |states| == |events| + 1
  {
    && 0 <= k < |events| && HeldLease(states[k], id, token, l) && Proof(l, events[k])
    && (quarantinedOnly ==> l.owner.state.Quarantined?)
  }

  /** In every run: a held lease is still held later, unless some step in between had the
      evidence to free it. A quarantined lease stays quarantined until its survivors and
      its process group are proved gone. */
  lemma {:induction false} FreedOnlyOnProof(
    states: seq<LedgerState>, events: seq<Event>, i: nat, j: nat, id: LeaseId, token: TokenHash, l: Lease)
    requires Run(states, events) && i <= j < |states|
    requires HeldLease(states[i], id, token, l)
    ensures
      || ProvedBetween(states, events, i, j, id, token, l.owner.state.Quarantined?)
      || (exists l' :: HeldLease(states[j], id, token, l')
                       && (l.owner.state.Quarantined? ==> l'.owner.state.Quarantined?))
    decreases j - i
  {
    if i < j {
      var e := events[i];
      RunKeepsSound(states, events, i);
      assert StepAt(states, events, i);
      if Proof(l, e) {
        assert ProvedAt(states, events, i, l, id, token, l.owner.state.Quarantined?);
      } else {
        HeldUntilProof(states[i], states[i + 1], e, id, token, l);
        var next :| HeldLease(states[i + 1], id, token, next)
                    && (l.owner.state.Quarantined? ==> next.owner.state.Quarantined?);
        FreedOnlyOnProof(states, events, i + 1, j, id, token, next);
        if ProvedBetween(states, events, i + 1, j, id, token, next.owner.state.Quarantined?) {
          var k, m :| i + 1 <= k < j && ProvedAt(states, events, k, m, id, token, next.owner.state.Quarantined?);
          assert ProvedAt(states, events, k, m, id, token, l.owner.state.Quarantined?);
        }
      }
    } else {
      assert HeldLease(states[j], id, token, l);
    }
  }

  // ---------- sizes and policy over a run ----------

  predicate SizeOrder(l: Lease, l': Lease) {
    && l'.allowance <= l.allowance && l'.overhead == l.overhead
    && l'.commandLimit == l.commandLimit
    && (l.basis.ExplicitLimit? <==> l'.basis.ExplicitLimit?)
    && (l.basis.ExplicitLimit? ==> l'.allowance == l.allowance)
  }

  /** While a lease goes unreaped and undropped, its allowance never rises, an explicit
      limit never moves, and the policy signature it was admitted under stays in force. */
  lemma {:induction false} NeverRaised(
    states: seq<LedgerState>, events: seq<Event>, i: nat, j: nat, l: Lease)
    requires Run(states, events) && i <= j < |states| && l in states[i].leases
    ensures
      || (exists k :: i <= k < j && LetGo(states, events, k, l.id))
      || (exists l' :: l' in states[j].leases && Matches(l', l.id, l.token) && SizeOrder(l, l')
                       && SameSignature(states[i], states[j]))
    decreases j - i
  {
    RunKeepsSound(states, events, i);
    if i == j {
      assert l in states[j].leases && SizeOrder(l, l) && SameSignature(states[i], states[j]);
    } else {
      var e := events[i];
      assert StepAt(states, events, i);
      StepOnLease(states[i], states[i + 1], e.op, e.now, e.os, l);
      if Stale(l, e.now, e.os) || MayDrop(l, e.op) {
        assert LetGo(states, events, i, l.id);
      } else {
        var next :| next in states[i + 1].leases && Advanced(l, next, e.op);
        SignatureStays(states[i], states[i + 1], e, l);
        NeverRaised(states, events, i + 1, j, next);
        if k :| i + 1 <= k < j && LetGo(states, events, k, next.id) {
          assert LetGo(states, events, k, l.id);
        } else {
          var last :| last in states[j].leases && Matches(last, next.id, next.token) && SizeOrder(next, last);
          assert Matches(last, l.id, l.token) && SizeOrder(l, last);
        }
      }
    }
  }

  /** Event `k` reaps the lease or is a legitimate drop by its holder. */
  ghost predicate LetGo(states: seq<LedgerState>, events: seq<Event>, k: int, id: LeaseId)
    requires |states| == |events| + 1
  {
    && 0 <= k < |events|
    && exists l :: l in states[k].leases && l.id == id
                   && (Stale(l, events[k].now, events[k].os) || MayDrop(l, events[k].op))
  }

  ghost predicate SameSignature(s: LedgerState, s': LedgerState) {
    s.policy.Some? && s'.policy.Some? && PolicySignature(s.policy.value) == PolicySignature(s'.policy.value)
  }

  lemma SignatureStays(s: LedgerState, s': LedgerState, e: Event, l: Lease)
    requires Sound(s) && Step(s, s', e.op, e.now, e.os)
    requires l in s.leases && !Stale(l, e.now, e.os) && !MayDrop(l, e.op)
    ensures SameSignature(s, s')
  {
    KeptMembers(s.leases, e.now, e.os);
    assert l in Kept(s.leases, e.now, e.os);
    StepOnLease(s, s', e.op, e.now, e.os, l);
    assert s'.leases != [];
  }
}
