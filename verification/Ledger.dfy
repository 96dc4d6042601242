/** The memory-admission ledger: reserve, renew, claim, release and quarantine.

    `MemoryLedger` is the ledger file as the helpers rewrite it under its lock, one method
    for each operation. Each method is proved against `Step`, the relation that says what
    the operation may do to the ledger; the lemmas at the end are about every sequence of
    such steps. Host readings, process tables, liveness answers and clocks are inputs. */
module Ledger {
  import opened Wrappers
  import opened KnownTree
  import opened Leases
  import opened Capacity

  datatype LedgerState = LedgerState(policy: Option<Policy>, leases: seq<Lease>)

  const EMPTY := LedgerState(None, [])

  datatype Status = Admitted | Refused | ReleasedOrAbsent | Raised

  datatype Admission = Admission(status: Status, reason: string, report: Option<Report>, lease: Option<Lease>)

  function Refusal(reason: string): Admission {
    Admission(Refused, reason, None, None)
  }

  function Raise(reason: string): Admission {
    Admission(Raised, reason, None, None)
  }

  datatype ReserveRequest = ReserveRequest(
    id: LeaseId, token: TokenHash, policy: PolicyRequest, predicted: Option<real>, explicitLimit: Option<int>)

  /** A renewal or a claim repeats the sizes of its receipt; the command limit is compared
      only when the request carries it. */
  datatype HolderRequest = HolderRequest(
    id: LeaseId, token: TokenHash, policy: PolicyRequest,
    allowance: int, overhead: int, capacity: int, commandLimit: Option<Option<int>>)

  predicate MatchesReceipt(lease: Lease, req: HolderRequest) {
    && lease.allowance == req.allowance && lease.overhead == req.overhead && lease.capacity == req.capacity
    && (req.commandLimit.Some? ==> lease.commandLimit == req.commandLimit.value)
  }

  predicate HasId(leases: seq<Lease>, id: LeaseId) {
    exists i | 0 <= i < |leases| :: leases[i].id == id
  }

  // ---------- what a ledger must satisfy ----------

  /** Helper, root and group are all on record. */
  predicate NamedOwner(owner: Owner) {
    NamesProcess(owner.helper) && NamesProcess(owner.root) && owner.pgid > 0
  }

  predicate AllNamed(survivors: seq<Proc>) {
    forall i | 0 <= i < |survivors| :: NamesProcess(survivors[i])
  }

  predicate SoundLease(l: Lease, p: Policy) {
    && MIB <= l.allowance <= p.maxCommand && WholeMib(l.allowance)
    && MIB <= l.overhead && WholeMib(l.overhead)
    && l.capacity == l.allowance + l.overhead
    && l.commandLimit == (if l.basis.ExplicitLimit? then Some(l.allowance) else None)
    && (l.owner.state.Reserved? ==> l.owner == UNOWNED)
    && (l.owner.state.Running? ==> NamedOwner(l.owner))
    && (l.owner.state.Quarantined? ==> AllNamed(l.owner.survivors) && l.owner.pgid > 0)
    && !l.owner.state.Claimed? && !l.owner.state.Unrecognised?
  }

  ghost predicate Sound(s: LedgerState) {
    && UniqueIds(s.leases)
    && (s.policy.Some? ==> SoundPolicy(s.policy.value))
    && (s.leases != [] ==> s.policy.Some? && |s.leases| <= s.policy.value.maxJobs)
    && forall l :: l in s.leases ==> s.policy.Some? && SoundLease(l, s.policy.value)
  }

  // ---------- what each operation may do ----------

  datatype Op =
    | ReserveOp(id: LeaseId, token: TokenHash)
    | RenewOp(id: LeaseId, token: TokenHash)
    | ClaimOp(id: LeaseId, token: TokenHash)
    | ReleaseOp(id: LeaseId, token: TokenHash, reservedOnly: bool, cleanupComplete: bool)
    | QuarantineOp(id: LeaseId, token: TokenHash, survivors: seq<Proc>, pgid: Pid)

  ghost predicate PolicyAfter(before: Option<Policy>, leases: seq<Lease>, after: Option<Policy>) {
    after == before || (leases == [] && after == None)
  }

  /** The reaping pass alone. */
  ghost predicate Swept(s: LedgerState, s': LedgerState, now: real, os: Os) {
    s'.leases == Kept(s.leases, now, os) && PolicyAfter(s.policy, s'.leases, s'.policy)
  }

  ghost predicate Added(s: LedgerState, s': LedgerState, id: LeaseId, token: TokenHash, now: real, os: Os) {
    var kept := Kept(s.leases, now, os);
    && |s'.leases| == |kept| + 1 && s'.leases[..|kept|] == kept
    && !HasId(kept, id)
    && s'.policy.Some? && SoundPolicy(s'.policy.value) && |kept| < s'.policy.value.maxJobs
    && (kept != [] ==> s.policy.Some? && PolicySignature(s.policy.value) == PolicySignature(s'.policy.value))
    && Matches(s'.leases[|kept|], id, token)
    && s'.leases[|kept|].owner == UNOWNED
    && SoundLease(s'.leases[|kept|], s'.policy.value)
  }

  /** The holder's own reservation is dropped because it can no longer be backed. */
  ghost predicate DroppedAt(
    s: LedgerState, s': LedgerState, i: nat, id: LeaseId, token: TokenHash, now: real, os: Os)
  {
    var kept := Kept(s.leases, now, os);
    && i < |kept| && Matches(kept[i], id, token) && kept[i].owner.state.Reserved?
    && s'.leases == kept[..i] + kept[i + 1..]
    && PolicyAfter(s.policy, s'.leases, s'.policy)
  }

  /** Sizes may only go down, by whole MiB; an explicit limit does not move at all. */
  predicate NotRaised(l: Lease, l': Lease) {
    && MIB <= l'.allowance <= l.allowance && WholeMib(l'.allowance)
    && l'.capacity == l'.allowance + l.overhead
    && (l.basis.ExplicitLimit? ==> l'.allowance == l.allowance && l'.basis == l.basis)
    && (Inferred(l.basis) ==> Inferred(l'.basis))
  }

  predicate RenewedLease(l: Lease, l': Lease) {
    && l.owner.state.Reserved? && NotRaised(l, l')
    && l' == l.(allowance := l'.allowance, capacity := l'.capacity, basis := l'.basis, expiresAt := l'.expiresAt)
  }

  predicate ClaimedLease(l: Lease, l': Lease) {
    && l.owner.state.Reserved? && NotRaised(l, l')
    && l'.owner.state.Running? && NamedOwner(l'.owner)
    && l' == l.(allowance := l'.allowance, capacity := l'.capacity, basis := l'.basis,
                expiresAt := l'.expiresAt, owner := l'.owner)
  }

  predicate Held(state: LeaseState) {
    state.Claimed? || state.Running? || state.Quarantined?
  }

  ghost predicate UpdatedAt(s: LedgerState, s': LedgerState, i: nat, op: Op, now: real, os: Os)
    requires op.RenewOp? || op.ClaimOp?
  {
    var kept := Kept(s.leases, now, os);
    && i < |kept| == |s'.leases| && Matches(kept[i], op.id, op.token)
    && s'.leases == kept[i := s'.leases[i]]
    && s'.policy == s.policy
    && (if op.RenewOp? then RenewedLease(kept[i], s'.leases[i]) else ClaimedLease(kept[i], s'.leases[i]))
  }

  ghost predicate HolderStep(s: LedgerState, s': LedgerState, op: Op, now: real, os: Os)
    requires op.RenewOp? || op.ClaimOp?
  {
    || s' == s
    || Swept(s, s', now, os)
    || (exists i: nat :: DroppedAt(s, s', i, op.id, op.token, now, os))
    || (exists i: nat :: UpdatedAt(s, s', i, op, now, os))
  }

  predicate MayRelease(l: Lease, op: Op)
    requires op.ReleaseOp?
  {
    && Matches(l, op.id, op.token)
    && (l.owner.state.Reserved?
        || (!op.reservedOnly && op.cleanupComplete && (l.owner.state.Claimed? || l.owner.state.Running?)))
  }

  function Retained(leases: seq<Lease>, op: Op): (r: seq<Lease>)
    requires op.ReleaseOp?
    ensures |r| <= |leases|
  {
    if leases == [] then []
    else
      var n := |leases| - 1;
      var before := Retained(leases[..n], op);
      if MayRelease(leases[n], op) then before else before + [leases[n]]
  }

  ghost predicate ReleasedStep(s: LedgerState, s': LedgerState, op: Op, now: real, os: Os)
    requires op.ReleaseOp?
  {
    && s'.leases == Retained(Kept(s.leases, now, os), op)
    && PolicyAfter(s.policy, s'.leases, s'.policy)
  }

  ghost predicate QuarantinedAt(s: LedgerState, s': LedgerState, i: nat, op: Op)
    requires op.QuarantineOp?
  {
    && i < |s.leases| && Matches(s.leases[i], op.id, op.token) && Held(s.leases[i].owner.state)
    && AllNamed(op.survivors) && op.pgid > 0
    && s'.policy == s.policy
    && s'.leases == s.leases[i := Quarantine(s.leases[i], op.survivors, op.pgid)]
  }

  function Quarantine(l: Lease, survivors: seq<Proc>, pgid: Pid): Lease {
    l.(owner := l.owner.(state := Quarantined, survivors := survivors, pgid := pgid))
  }

  ghost predicate Step(s: LedgerState, s': LedgerState, op: Op, now: real, os: Os) {
    || s' == s
    || (match op
        case ReserveOp(id, token) => Swept(s, s', now, os) || Added(s, s', id, token, now, os)
        case RenewOp(_, _) => HolderStep(s, s', op, now, os)
        case ClaimOp(_, _) => HolderStep(s, s', op, now, os)
        case ReleaseOp(_, _, _, _) => ReleasedStep(s, s', op, now, os)
        case QuarantineOp(_, _, _, _) => exists i: nat :: QuarantinedAt(s, s', i, op))
  }

  /** The ledger that an admitted operation leaves behind is safe on the readings that
      admitted it, whether or not the lease was clipped on the way. */
  ghost predicate BackedBy(s: LedgerState, b: Bracket, sizing: Option<LeaseId>) {
    s.policy.Some? && Backs(s.leases, b, s.policy.value.reserve, sizing)
  }

  lemma SafeIsBacked(s: LedgerState, b: Bracket, sizing: Option<LeaseId>)
    requires s.policy.Some? && Readable(s.leases, b) && ReportOf(s.leases, b, s.policy.value.reserve, sizing).safe
    ensures BackedBy(s, b, sizing)
  {
    SafeExactlyWhenBacked(s.leases, b, s.policy.value.reserve, sizing);
  }

  // ---------- sizing helpers ----------

  /** The allowance that a report leaves for work of unknown size. */
  function LiveRoom(rep: Report, overhead: int, maxCommand: int): int {
    Min(maxCommand, FloorNonnegativeMib(Max(0, rep.floor - rep.required - MIB) - overhead))
  }

  /** It is the largest whole-MiB allowance below the ceiling that, with its overhead, keeps the
      reserve and a MiB to spare. */
  lemma LiveRoomIsLargest(rep: Report, overhead: int, maxCommand: int, a: int)
    requires WholeMib(a) && a >= MIB && overhead >= 0
    ensures a <= LiveRoom(rep, overhead, maxCommand) <==>
      a <= maxCommand && rep.required + a + overhead + MIB <= rep.floor
  {
    RoomIsLargest(rep.floor - rep.required - MIB, overhead, maxCommand, a);
  }

  /** The sizing transaction for work of unknown size: all headroom that is live now. */
  method UnprofiledLiveHeadroom(leases: seq<Lease>, b: Bracket, policy: Policy, overhead: int)
    returns (r: Result<(int, int, bool)>)
    requires SoundPolicy(policy)
    ensures r.Ok? <==> Readable(leases, b)
    ensures r.Ok? ==> WholeMib(r.value.1) && 0 <= r.value.1 <= policy.maxCommand
    ensures r.Ok? ==>
      var rep := ReportOf(leases, b, policy.reserve, None);
      r.value == (b.host0.total, LiveRoom(rep, overhead, policy.maxCommand), rep.safe)
  {
    var tx := CapacityTransaction(leases, b, policy.reserve, None);
    if tx.Err? {
      return Err(tx.reason);
    }
    var (total, rep) := tx.value;
    r := Ok((total, LiveRoom(rep, overhead, policy.maxCommand), rep.safe));
  }

  /** The request names a size that can be asked for: an explicit limit, a positive prediction, or
      neither with enough live room for the least allowance. */
  ghost predicate Sizable(req: ReserveRequest, kept: seq<Lease>, policy: Policy, host: HostReading, overhead: int, sizing: Bracket) {
    match (req.predicted, req.explicitLimit)
    case (Some(_), Some(_)) => false
    case (None, Some(limit)) => limit > 0 && WholeMib(limit) && limit <= policy.maxCommand
    case (Some(predicted), None) => predicted > 0.0
    case (None, None) =>
      && Readable(kept, sizing) && sizing.host0.total == host.total
      && ReportOf(kept, sizing, policy.reserve, None).safe
      && LiveRoom(ReportOf(kept, sizing, policy.reserve, None), overhead, policy.maxCommand) >= MIB
  }

  ghost function SizeOf(req: ReserveRequest, kept: seq<Lease>, policy: Policy, host: HostReading, overhead: int, sizing: Bracket): (int, Basis)
    requires Sizable(req, kept, policy, host, overhead, sizing)
  {
    match (req.predicted, req.explicitLimit)
    case (_, Some(limit)) => (limit, ExplicitLimit)
    case (Some(predicted), None) => (Min(CeilMib(CeilReal(predicted * 1.25)), policy.maxCommand), LearnedPlus25)
    case (None, None) => (LiveRoom(ReportOf(kept, sizing, policy.reserve, None), overhead, policy.maxCommand), Unprofiled)
  }

  /** A learned size covers the prediction plus a quarter, by less than a MiB more, or is the ceiling. */
  lemma LearnedSizeCovers(req: ReserveRequest, kept: seq<Lease>, policy: Policy, host: HostReading, overhead: int, sizing: Bracket)
    requires Sizable(req, kept, policy, host, overhead, sizing) && req.predicted.Some?
    ensures
      var (allowance, basis) := SizeOf(req, kept, policy, host, overhead, sizing);
      && basis.LearnedPlus25?
      && (allowance == policy.maxCommand || req.predicted.value * 1.25 <= allowance as real)
      && (allowance > MIB ==> (allowance - MIB) as real < req.predicted.value * 1.25)
  {
    var wanted := req.predicted.value * 1.25;
    assert CeilReal(wanted) as real - 1.0 < wanted <= CeilReal(wanted) as real;
    var learned := CeilMib(CeilReal(wanted));
    assert learned > MIB ==> learned - MIB <= CeilReal(wanted) - 1;
  }

  /** The requested size and its basis, or the refusal that ends the reservation early. */
  method ChooseAllowance(
    req: ReserveRequest, kept: seq<Lease>, policy: Policy, host: HostReading, overhead: int, sizing: Bracket)
    returns (refusal: Option<Admission>, allowance: int, basis: Basis)
    requires SoundPolicy(policy)
    ensures refusal.Some? ==> !refusal.value.status.Admitted? && refusal.value.report.None?
    ensures refusal.None? ==> WholeMib(allowance) && 0 <= allowance <= policy.maxCommand
    ensures refusal.None? && allowance < MIB ==> basis.LearnedPlus25? && policy.maxCommand == 0
    ensures refusal.None? && req.explicitLimit.Some? ==> basis.ExplicitLimit? && Some(allowance) == req.explicitLimit
    ensures refusal.None? && req.explicitLimit.None? ==> Inferred(basis)
    ensures refusal.None? <==> Sizable(req, kept, policy, host, overhead, sizing)
    ensures refusal.None? ==> (allowance, basis) == SizeOf(req, kept, policy, host, overhead, sizing)
  {
    refusal, allowance, basis := None, 0, Unprofiled;
    if req.predicted.Some? && req.explicitLimit.Some? {
      refusal := Some(Raise("predicted_rss_bytes and explicit_limit_bytes are mutually exclusive"));
    } else if req.explicitLimit.Some? {
      allowance, basis := req.explicitLimit.value, ExplicitLimit;
      if allowance <= 0 || !WholeMib(allowance) {
        refusal := Some(Raise("explicit_limit_bytes must be a positive whole MiB"));
      } else if allowance > policy.maxCommand {
        refusal := Some(Refusal("explicit_limit_exceeds_command_limit"));
      }
    } else if req.predicted.None? {
      var sized := UnprofiledLiveHeadroom(kept, sizing, policy, overhead);
      if sized.Err? || sized.value.0 != host.total {
        refusal := Some(Raise("sizing transaction failed"));
      } else {
        allowance := sized.value.1;
        if !sized.value.2 || allowance < MIB {
          refusal := Some(Refusal("insufficient_live_memory"));
        }
      }
    } else if req.predicted.value <= 0.0 {
      refusal := Some(Raise("predicted_rss_bytes must be positive"));
    } else {
      var learned := CeilMib(CeilReal(req.predicted.value * 1.25));
      allowance, basis := Min(learned, policy.maxCommand), LearnedPlus25;
    }
  }

  predicate FirstMatch(leases: seq<Lease>, at: nat, id: LeaseId, token: TokenHash) {
    && at < |leases| && Matches(leases[at], id, token)
    && forall i :: 0 <= i < at ==> !Matches(leases[i], id, token)
  }

  method FindLease(leases: seq<Lease>, id: LeaseId, token: TokenHash) returns (at: Option<nat>)
    ensures at.Some? ==> FirstMatch(leases, at.value, id, token)
    ensures at.None? ==> forall i :: 0 <= i < |leases| ==> !Matches(leases[i], id, token)
  {
    for i := 0 to |leases|
      invariant forall k :: 0 <= k < i ==> !Matches(leases[k], id, token)
    {
      if Matches(leases[i], id, token) {
        return Some(i);
      }
    }
    at := None;
  }

  /** What the clip does to the candidate at `at`: if the result is safe, the ledger that
      holds it is safe, and its size is a positive whole MiB below the old one. */
  lemma ClippedCandidate(leases: seq<Lease>, at: nat, b: Bracket, policy: Policy)
    requires SoundPolicy(policy) && UniqueIds(leases) && at < |leases| && Readable(leases, b)
    requires leases[at].capacity == leases[at].allowance + leases[at].overhead
    requires leases[at].overhead >= 0 && WholeMib(leases[at].allowance)
    ensures
      var rep := ReportOf(leases, b, policy.reserve, Some(leases[at].id));
      var l := ClipLease(rep, leases[at], policy.maxCommand);
      && l.capacity == l.allowance + l.overhead && WholeMib(l.allowance)
      && l.allowance <= leases[at].allowance
      && (l != leases[at] ==> MIB <= l.allowance <= policy.maxCommand && Inferred(leases[at].basis))
      && (Inferred(leases[at].basis) <==> Inferred(l.basis))
      && (ClipReport(rep, leases[at], policy.maxCommand).safe ==>
            Readable(leases[at := l], b) && ReportOf(leases[at := l], b, policy.reserve, Some(leases[at].id)).safe)
  {
    var rep := ReportOf(leases, b, policy.reserve, Some(leases[at].id));
    if MayClip(rep, leases[at], policy.maxCommand) {
      ClipIsSound(leases, at, b, policy.reserve, policy.maxCommand);
    } else {
      assert leases[at := leases[at]] == leases;
    }
  }

  /** With a zero command ceiling nothing can be admitted: the control process alone
      would not fit above the reserve. */
  lemma ZeroCeilingIsUnsafe(leases: seq<Lease>, at: nat, b: Bracket, policy: Policy)
    requires SoundPolicy(policy) && policy.maxCommand == 0
    requires UniqueIds(leases) && at < |leases| && Readable(leases, b) && b.host0.total == policy.hostTotal
    requires leases[at].owner.state.Reserved? && leases[at].capacity >= MIB
    ensures
      var rep := ReportOf(leases, b, policy.reserve, Some(leases[at].id));
      !rep.safe && !MayClip(rep, leases[at], policy.maxCommand)
  {
    ReservedIsUncredited(leases, b.view0, at);
    var used := CreditedIn(leases, b);
    assert CreditsAt(Ids(leases), at, PrivateSnapshot(leases, b.view0).value,
                     PrivateSnapshot(leases, b.view1).value).Keys == {};
    OwnHeadroom(leases, used, at);
  }

  lemma {:induction false} OwnHeadroom(leases: seq<Lease>, used: seq<int>, at: nat)
    requires at < |leases| == |used|
    ensures FutureHeadroom(leases, used, Some(leases[at].id)) >= Headroom(leases[at].capacity, used[at])
  {
    var n := |leases| - 1;
    if at < n {
      OwnHeadroom(leases[..n], used[..n], at);
    }
  }

  /** A candidate that the transaction declares safe, clipped or not, has a sound size. */
  lemma CandidateAdmitted(kept: seq<Lease>, lease: Lease, b: Bracket, policy: Policy)
    requires SoundPolicy(policy) && UniqueIds(kept) && !HasId(kept, lease.id)
    requires lease.owner == UNOWNED && lease.overhead >= MIB && lease.capacity == lease.allowance + lease.overhead
    requires WholeMib(lease.allowance) && 0 <= lease.allowance <= policy.maxCommand
    requires lease.allowance < MIB ==> policy.maxCommand == 0
    requires Readable(kept + [lease], b) && b.host0.total == policy.hostTotal
    requires ClipReport(ReportOf(kept + [lease], b, policy.reserve, Some(lease.id)), lease, policy.maxCommand).safe
    ensures
      var rep := ReportOf(kept + [lease], b, policy.reserve, Some(lease.id));
      var final := ClipLease(rep, lease, policy.maxCommand);
      && MIB <= final.allowance <= policy.maxCommand && WholeMib(final.allowance)
      && final.capacity == final.allowance + final.overhead
      && (lease.basis.ExplicitLimit? ==> final == lease)
      && (Inferred(lease.basis) ==> Inferred(final.basis))
      && Readable((kept + [lease])[|kept| := final], b)
      && ReportOf((kept + [lease])[|kept| := final], b, policy.reserve, Some(lease.id)).safe
  {
    var all := kept + [lease];
    assert UniqueIds(all);
    ClippedCandidate(all, |kept|, b, policy);
    if policy.maxCommand == 0 {
      ZeroCeilingIsUnsafe(all, |kept|, b, policy);
    }
  }

  /** A candidate and its report as the clip leaves them. */
  ghost function Sized(leases: seq<Lease>, candidate: Lease, policy: Policy, b: Bracket): (Lease, Report)
    requires Readable(leases, b)
  {
    var rep := ReportOf(leases, b, policy.reserve, Some(candidate.id));
    (ClipLease(rep, candidate, policy.maxCommand), ClipReport(rep, candidate, policy.maxCommand))
  }

  /** The transaction over the candidate ledger, and the clip if it comes out unsafe. */
  method SizeCandidate(kept: seq<Lease>, lease: Lease, policy: Policy, host: HostReading, b: Bracket)
    returns (r: Result<(Lease, Report)>)
    requires SoundPolicy(policy) && policy.hostTotal == host.total
    ensures r.Ok? <==> Readable(kept + [lease], b) && b.host0.total == host.total
    ensures r.Ok? ==> r.value == Sized(kept + [lease], lease, policy, b)
    requires lease.owner == UNOWNED && lease.overhead >= MIB && WholeMib(lease.overhead)
    requires lease.capacity == lease.allowance + lease.overhead
    requires WholeMib(lease.allowance) && 0 <= lease.allowance <= policy.maxCommand
    requires lease.allowance < MIB ==> policy.maxCommand == 0
    requires lease.commandLimit == if lease.basis.ExplicitLimit? then Some(lease.allowance) else None
    ensures r.Ok? && r.value.1.safe && UniqueIds(kept) && !HasId(kept, lease.id) ==>
      var final := r.value.0;
      && SoundLease(final, policy)
      && final.id == lease.id && final.token == lease.token && final.owner == UNOWNED
      && final.commandLimit == lease.commandLimit
      && Readable(kept + [final], b) && ReportOf(kept + [final], b, policy.reserve, Some(lease.id)).safe
  {
    var tx := CapacityTransaction(kept + [lease], b, policy.reserve, Some(lease.id));
    if tx.Err? || tx.value.0 != host.total {
      return Err("capacity transaction failed");
    }
    var final := ClipLease(tx.value.1, lease, policy.maxCommand);
    var rep := ClipReport(tx.value.1, lease, policy.maxCommand);
    r := Ok((final, rep));
    if rep.safe && UniqueIds(kept) && !HasId(kept, lease.id) {
      CandidateAdmitted(kept, lease, b, policy);
      assert (kept + [lease])[|kept| := final] == kept + [final];
    }
  }

  /** What an admitted reservation promises about the ledger it is added to. */
  ghost predicate Admissible(
    kept: seq<Lease>, current: Option<Policy>, policy: Policy, lease: Lease, req: ReserveRequest, b: Bracket)
  {
    && SoundPolicy(policy) && |kept| < policy.maxJobs && !HasId(kept, req.id)
    && (kept != [] ==> current.Some? && PolicySignature(current.value) == PolicySignature(policy))
    && SoundLease(lease, policy) && Matches(lease, req.id, req.token) && lease.owner == UNOWNED
    && (req.explicitLimit.Some? ==> lease.commandLimit == req.explicitLimit)
    && Readable(kept + [lease], b) && ReportOf(kept + [lease], b, policy.reserve, Some(req.id)).safe
  }

  /** The lease a reservation asks for. */
  ghost function Asked(req: ReserveRequest, kept: seq<Lease>, policy: Policy, host: HostReading, overhead: int, now: real, sizing: Bracket): Lease
    requires Sizable(req, kept, policy, host, overhead, sizing)
  {
    var (allowance, basis) := SizeOf(req, kept, policy, host, overhead, sizing);
    Lease(req.id, req.token, allowance, basis, if basis.ExplicitLimit? then Some(allowance) else None,
          overhead, allowance + overhead, now + policy.ttl, UNOWNED)
  }

  /** What a reservation grants whether or not it was clipped: the time to live that was asked for, twice the
      memory of the helper as overhead, rounded up to whole MiB, and a basis that says where the size comes from. */
  predicate Granted(req: ReserveRequest, l: Lease, helperRss: int, now: real) {
    && l.expiresAt == now + req.policy.ttl
    && 2 * helperRss <= l.overhead && (l.overhead == MIB || l.overhead < 2 * helperRss + MIB)
    && (if req.explicitLimit.Some? then l.basis == ExplicitLimit && Some(l.allowance) == req.explicitLimit
        else if req.predicted.Some? then l.basis == LearnedPlus25 || l.basis == LearnedLiveHeadroom
        else l.basis == Unprofiled)
  }

  /** What an admitted reservation does to the ledger: the lease is added behind those that are kept, and
      each host reading exceeds the reserve plus what all the leases hold back. */
  ghost predicate Admits(
    s: LedgerState, s': LedgerState, req: ReserveRequest, l: Lease, helperRss: int, now: real, os: Os, b: Bracket)
  {
    && Added(s, s', req.id, req.token, now, os) && BackedBy(s', b, Some(req.id))
    && s'.leases[|s'.leases| - 1] == l && Granted(req, l, helperRss, now)
    && (req.explicitLimit.Some? ==> l.commandLimit == req.explicitLimit)
    && var needed := s'.policy.value.reserve + Total(HeldBack(s'.leases, CreditedIn(s'.leases, b), Some(req.id)));
    b.host0.available > needed && b.host1.available > needed && b.host2.available > needed
  }

  lemma AdmittedIsGranted(
    req: ReserveRequest, kept: seq<Lease>, policy: Policy, host: HostReading, helperRss: int, now: real, sizing: Bracket, b: Bracket)
    requires PolicyFromRequest(req.policy, host.total) == Ok(policy)
    requires Sizable(req, kept, policy, host, CeilMib(2 * helperRss), sizing)
    requires Readable(kept + [Asked(req, kept, policy, host, CeilMib(2 * helperRss), now, sizing)], b)
    ensures
      var asked := Asked(req, kept, policy, host, CeilMib(2 * helperRss), now, sizing);
      Granted(req, Sized(kept + [asked], asked, policy, b).0, helperRss, now)
  {
  }

  lemma AdmittedLedger(
    s: LedgerState, req: ReserveRequest, policy: Policy, lease: Lease, helperRss: int, now: real, os: Os, b: Bracket)
    requires Admissible(Kept(s.leases, now, os), s.policy, policy, lease, req, b)
    requires Granted(req, lease, helperRss, now)
    ensures Admits(s, LedgerState(Some(policy), Kept(s.leases, now, os) + [lease]), req, lease, helperRss, now, os, b)
  {
    var kept := Kept(s.leases, now, os);
    var s' := LedgerState(Some(policy), kept + [lease]);
    assert s'.leases[..|kept|] == kept;
    SafeIsBacked(s', b, Some(req.id));
  }

  lemma SoundIsUnique(s: LedgerState, now: real, os: Os)
    ensures Sound(s) ==> UniqueIds(Kept(s.leases, now, os))
  {
    if Sound(s) {
      KeptKeepsUniqueIds(s.leases, now, os);
    }
  }

  /** The request passes every check that precedes the transaction. */
  ghost predicate Preparable(
    req: ReserveRequest, current: Option<Policy>, kept: seq<Lease>, helperRss: int, host: HostReading, sizing: Bracket)
  {
    var derived := PolicyFromRequest(req.policy, host.total);
    var overhead := CeilMib(2 * helperRss);
    && helperRss > 0 && ValidReading(host) && derived.Ok?
    && (kept != [] ==> current.Some? && PolicySignature(current.value) == PolicySignature(derived.value))
    && !HasId(kept, req.id) && |kept| < derived.value.maxJobs
    && Sizable(req, kept, derived.value, host, overhead, sizing)
    && (req.explicitLimit.Some? ==> req.explicitLimit.value + overhead + derived.value.reserve <= host.total)
  }

  /** Those checks, and the lease to ask for. */
  method PrepareReserve(
    req: ReserveRequest, current: Option<Policy>, kept: seq<Lease>, helperRss: int, host: HostReading, now: real, sizing: Bracket)
    returns (refusal: Option<Admission>, requested: Policy, asked: Lease)
    ensures refusal.None? <==> Preparable(req, current, kept, helperRss, host, sizing)
    ensures refusal.Some? ==> !refusal.value.status.Admitted? && refusal.value.report.None?
    ensures refusal.None? ==>
      && SoundPolicy(requested) && requested.hostTotal == host.total && PolicyFromRequest(req.policy, host.total) == Ok(requested)
      && asked == Asked(req, kept, requested, host, CeilMib(2 * helperRss), now, sizing)
      && WholeMib(asked.allowance) && 0 <= asked.allowance <= requested.maxCommand
      && (asked.allowance < MIB ==> requested.maxCommand == 0)
      && (req.explicitLimit.Some? ==> asked.commandLimit == req.explicitLimit)
  {
    requested := Policy(None, None, 0, 0, 0, 0, 0.0);
    asked := Lease(req.id, req.token, 0, Unprofiled, None, 0, 0, now, UNOWNED);
    var derived := PolicyFromRequest(req.policy, host.total);
    if helperRss <= 0 || !ValidReading(host) || derived.Err? {
      return Some(Raise("admission inputs are invalid")), requested, asked;
    }
    requested := derived.value;
    if kept != [] && (current.None? || PolicySignature(current.value) != PolicySignature(requested)) {
      return Some(Refusal("policy_mismatch")), requested, asked;
    }
    if HasId(kept, req.id) {
      return Some(Refusal("lease_id_collision")), requested, asked;
    }
    if |kept| >= requested.maxJobs {
      return Some(Refusal("guarded_job_limit")), requested, asked;
    }
    var overhead := CeilMib(2 * helperRss);
    var allowance, basis;
    refusal, allowance, basis := ChooseAllowance(req, kept, requested, host, overhead, sizing);
    if refusal.Some? {
      return;
    }
    var capacity := allowance + overhead;
    if req.explicitLimit.Some? && capacity + requested.reserve > host.total {
      return Some(Refusal("control_overhead_exceeds_capacity")), requested, asked;
    }
    asked := Lease(
      req.id, req.token, allowance, basis, if basis.ExplicitLimit? then Some(allowance) else None,
      overhead, capacity, now + requested.ttl, UNOWNED);
  }

  /** Exactly when a reservation is admitted. */
  ghost predicate Accepted(
    req: ReserveRequest, current: Option<Policy>, kept: seq<Lease>, helperRss: int, host: HostReading, now: real,
    sizing: Bracket, bracket: Bracket)
  {
    && Preparable(req, current, kept, helperRss, host, sizing)
    && var policy := PolicyFromRequest(req.policy, host.total).value;
    var asked := Asked(req, kept, policy, host, CeilMib(2 * helperRss), now, sizing);
    && Readable(kept + [asked], bracket) && bracket.host0.total == host.total
    && Sized(kept + [asked], asked, policy, bracket).1.safe
  }

  /** Every decision of a reservation; the report is present once the final transaction
      has been made, which is when a refusal may still persist the reaping. */
  method DecideReserve(
    req: ReserveRequest, current: Option<Policy>, kept: seq<Lease>, helperRss: int, host: HostReading, now: real,
    sizing: Bracket, bracket: Bracket)
    returns (r: Admission, requested: Policy)
    ensures r.status.Admitted? ==> r.lease.Some?
    ensures r.status.Admitted? <==> Accepted(req, current, kept, helperRss, host, now, sizing, bracket)
    ensures r.status.Admitted? ==>
      && PolicyFromRequest(req.policy, host.total) == Ok(requested)
      && var asked := Asked(req, kept, requested, host, CeilMib(2 * helperRss), now, sizing);
      r.lease.value == Sized(kept + [asked], asked, requested, bracket).0
    ensures r.status.Admitted? && UniqueIds(kept) ==>
      Admissible(kept, current, requested, r.lease.value, req, bracket)
  {
    var refusal, asked;
    refusal, requested, asked := PrepareReserve(req, current, kept, helperRss, host, now, sizing);
    if refusal.Some? {
      return refusal.value, requested;
    }
    var sized := SizeCandidate(kept, asked, requested, host, bracket);
    if sized.Err? {
      return Raise(sized.reason), requested;
    }
    var (final, rep) := sized.value;
    if !rep.safe {
      return Admission(Refused, "insufficient_live_memory", Some(rep), None), requested;
    }
    r := Admission(Admitted, "reserved", Some(rep), Some(final));
  }

  /** A renewal or claim of `kept[at]` may end with `lease` in its place. */
  ghost predicate Replaceable(kept: seq<Lease>, at: nat, lease: Lease, policy: Policy, b: Bracket, sizing: Option<LeaseId>) {
    && at < |kept| && NotRaised(kept[at], lease)
    && Readable(kept[at := lease], b) && ReportOf(kept[at := lease], b, policy.reserve, sizing).safe
  }

  /** The candidate in place of `kept[at]`: transaction, clip, verdict. */
  method SizeHolder(kept: seq<Lease>, at: nat, candidate: Lease, policy: Policy, b: Bracket)
    returns (r: Result<(int, Lease, Report)>)
    requires SoundPolicy(policy) && at < |kept| && candidate.id == kept[at].id
    ensures r.Ok? <==> Readable(kept[at := candidate], b)
    ensures r.Ok? ==> (r.value.1, r.value.2) == Sized(kept[at := candidate], candidate, policy, b) && r.value.0 == b.host0.total
    ensures r.Ok? && r.value.2.safe && UniqueIds(kept) && WholeMib(candidate.allowance)
            && candidate.overhead >= 0 && candidate.capacity == candidate.allowance + candidate.overhead ==>
      var final := r.value.1;
      && final.capacity == final.allowance + final.overhead && WholeMib(final.allowance)
      && final.allowance <= candidate.allowance
      && (final != candidate ==> MIB <= final.allowance && Inferred(candidate.basis))
      && (Inferred(candidate.basis) <==> Inferred(final.basis))
      && Readable(kept[at := final], b) && ReportOf(kept[at := final], b, policy.reserve, Some(candidate.id)).safe
  {
    var all := kept[at := candidate];
    var tx := CapacityTransaction(all, b, policy.reserve, Some(candidate.id));
    if tx.Err? {
      return Err(tx.reason);
    }
    var rep := tx.value.1;
    var final := ClipLease(rep, candidate, policy.maxCommand);
    var clipped := ClipReport(rep, candidate, policy.maxCommand);
    r := Ok((tx.value.0, final, clipped));
    if UniqueIds(kept) && WholeMib(candidate.allowance) && candidate.overhead >= 0
       && candidate.capacity == candidate.allowance + candidate.overhead {
      assert UniqueIds(all);
      ClippedCandidate(all, at, b, policy);
      assert all[at := final] == kept[at := final];
    }
  }

  datatype Verdict = Keep(lease: Lease, report: Report) | Drop(report: Report) | Abandon(reason: string)

  function Others(kept: seq<Lease>, at: nat): seq<Lease>
    requires at < |kept|
  {
    kept[..at] + kept[at + 1..]
  }

  /** An inferred lease shrunk to what is live for it beside the others. */
  ghost function Shrunk(kept: seq<Lease>, at: nat, policy: Policy, sizing: Bracket): Lease
    requires at < |kept| && Readable(Others(kept, at), sizing)
  {
    var lease := kept[at];
    var renewed := Min(lease.allowance, LiveRoom(ReportOf(Others(kept, at), sizing, policy.reserve, None), lease.overhead, policy.maxCommand));
    lease.(allowance := renewed, capacity := renewed + lease.overhead,
           basis := if lease.basis.LearnedPlus25? && renewed < lease.allowance then LearnedLiveHeadroom else lease.basis)
  }

  /** It keeps its size if and only if the others' growth, the lease itself and a MiB to spare fit
      under the reading, within the command ceiling; otherwise it becomes the largest size that does. */
  lemma ShrunkOnlyAsNeeded(kept: seq<Lease>, at: nat, policy: Policy, sizing: Bracket, a: int)
    requires at < |kept| && Readable(Others(kept, at), sizing) && SoundLease(kept[at], policy)
    requires WholeMib(a) && MIB <= a <= kept[at].allowance
    ensures
      var rep := ReportOf(Others(kept, at), sizing, policy.reserve, None);
      a <= Shrunk(kept, at, policy, sizing).allowance <==>
        rep.required + a + kept[at].overhead + MIB <= rep.floor
  {
    LiveRoomIsLargest(ReportOf(Others(kept, at), sizing, policy.reserve, None), kept[at].overhead, policy.maxCommand, a);
  }

  /** Every reading that a renewal makes succeeds. */
  ghost predicate RenewalReadable(kept: seq<Lease>, at: nat, policy: Policy, host: HostReading, sizing: Bracket, b: Bracket)
    requires at < |kept|
  {
    && b.host0.total == host.total
    && if kept[at].basis.ExplicitLimit? then Readable(kept, b)
       else
         && Readable(Others(kept, at), sizing) && sizing.host0.total == host.total
         && Readable(kept[at := Shrunk(kept, at, policy, sizing)], b)
  }

  /** Exactly when a renewal is kept. */
  ghost predicate RenewalKept(kept: seq<Lease>, at: nat, policy: Policy, host: HostReading, sizing: Bracket, b: Bracket)
    requires at < |kept|
  {
    && RenewalReadable(kept, at, policy, host, sizing, b)
    && if kept[at].basis.ExplicitLimit? then ReportOf(kept, b, policy.reserve, None).safe
       else
         var shrunk := Shrunk(kept, at, policy, sizing);
         var (final, rep) := Sized(kept[at := shrunk], shrunk, policy, b);
         rep.safe && final.allowance >= MIB && ReportOf(Others(kept, at), sizing, policy.reserve, None).safe
  }

  /** What a renewal that is kept does to the lease. */
  ghost predicate Renewed(kept: seq<Lease>, at: nat, lease: Lease, expiry: real, policy: Policy, b: Bracket)
    requires at < |kept|
  {
    && Replaceable(kept, at, lease, policy, b, if Inferred(kept[at].basis) then Some(kept[at].id) else None)
    && lease == kept[at].(allowance := lease.allowance, capacity := lease.capacity, basis := lease.basis, expiresAt := expiry)
  }

  /** The sizing part of a renewal, for an inferred lease and for an explicit one. */
  method DecideRenew(
    kept: seq<Lease>, at: nat, expiry: real, policy: Policy, host: HostReading, sizing: Bracket, b: Bracket)
    returns (r: Verdict)
    requires SoundPolicy(policy) && at < |kept|
    ensures r.Abandon? <==> !RenewalReadable(kept, at, policy, host, sizing, b)
    ensures r.Keep? <==> RenewalKept(kept, at, policy, host, sizing, b)
    ensures r.Keep? && UniqueIds(kept) && SoundLease(kept[at], policy) ==> Renewed(kept, at, r.lease, expiry, policy, b)
  {
    if kept[at].basis.ExplicitLimit? {
      r := RenewExplicit(kept, at, expiry, policy, host, b);
    } else {
      r := RenewInferred(kept, at, expiry, policy, host, sizing, b);
    }
  }

  method RenewExplicit(kept: seq<Lease>, at: nat, expiry: real, policy: Policy, host: HostReading, b: Bracket)
    returns (r: Verdict)
    requires SoundPolicy(policy) && at < |kept| && kept[at].basis.ExplicitLimit?
    ensures r.Abandon? <==> !(b.host0.total == host.total && Readable(kept, b))
    ensures r.Keep? <==> b.host0.total == host.total && Readable(kept, b) && ReportOf(kept, b, policy.reserve, None).safe
    ensures r.Keep? && UniqueIds(kept) && SoundLease(kept[at], policy) ==> Renewed(kept, at, r.lease, expiry, policy, b)
  {
    var lease := kept[at];
    var tx := CapacityTransaction(kept, b, policy.reserve, None);
    if tx.Err? || tx.value.0 != host.total {
      return Abandon("capacity transaction failed");
    }
    ExpiryIsNotRead(kept, at, expiry, b, policy.reserve, None);
    r := if tx.value.1.safe then Keep(lease.(expiresAt := expiry), tx.value.1) else Drop(tx.value.1);
  }

  method RenewInferred(
    kept: seq<Lease>, at: nat, expiry: real, policy: Policy, host: HostReading, sizing: Bracket, b: Bracket)
    returns (r: Verdict)
    requires SoundPolicy(policy) && at < |kept| && !kept[at].basis.ExplicitLimit?
    ensures r.Abandon? <==> !RenewalReadable(kept, at, policy, host, sizing, b)
    ensures r.Keep? <==> RenewalKept(kept, at, policy, host, sizing, b)
    ensures r.Keep? && UniqueIds(kept) && SoundLease(kept[at], policy) ==> Renewed(kept, at, r.lease, expiry, policy, b)
  {
    var lease := kept[at];
    var sized := UnprofiledLiveHeadroom(Others(kept, at), sizing, policy, lease.overhead);
    if sized.Err? || sized.value.0 != host.total {
      return Abandon("sizing transaction failed");
    }
    var renewed := Min(lease.allowance, sized.value.1);
    var basis := if lease.basis.LearnedPlus25? && renewed < lease.allowance then LearnedLiveHeadroom else lease.basis;
    var candidate := lease.(allowance := renewed, capacity := renewed + lease.overhead, basis := basis);
    assert candidate == Shrunk(kept, at, policy, sizing);
    r := KeepShrunk(kept, at, candidate, expiry, policy, host, sized.value.2, b);
  }

  method KeepShrunk(
    kept: seq<Lease>, at: nat, candidate: Lease, expiry: real, policy: Policy, host: HostReading, roomSafe: bool, b: Bracket)
    returns (r: Verdict)
    requires SoundPolicy(policy) && at < |kept| && Inferred(kept[at].basis) && Inferred(candidate.basis)
    requires candidate == kept[at].(allowance := candidate.allowance, capacity := candidate.capacity, basis := candidate.basis)
    requires candidate.allowance <= kept[at].allowance && candidate.capacity == candidate.allowance + candidate.overhead
    requires WholeMib(kept[at].allowance) ==> WholeMib(candidate.allowance)
    ensures r.Abandon? <==> !(Readable(kept[at := candidate], b) && b.host0.total == host.total)
    ensures r.Keep? <==>
      && Readable(kept[at := candidate], b) && b.host0.total == host.total
      && var (final, rep) := Sized(kept[at := candidate], candidate, policy, b);
      rep.safe && final.allowance >= MIB && roomSafe
    ensures r.Keep? && UniqueIds(kept) && SoundLease(kept[at], policy) ==> Renewed(kept, at, r.lease, expiry, policy, b)
  {
    var tx := SizeHolder(kept, at, candidate, policy, b);
    if tx.Err? || tx.value.0 != host.total {
      return Abandon("capacity transaction failed");
    }
    var final, rep := tx.value.1, tx.value.2;
    if rep.safe && final.allowance >= MIB && roomSafe {
      r := Keep(final.(expiresAt := expiry), rep);
      RenewalIsBacked(kept, at, final, expiry, policy, b);
    } else {
      r := Drop(rep.(safe := false));
    }
  }

  lemma RenewalIsBacked(kept: seq<Lease>, at: nat, final: Lease, expiry: real, policy: Policy, b: Bracket)
    requires at < |kept|
    ensures
      var sizing := Some(kept[at].id);
      var renewed := final.(expiresAt := expiry);
      Readable(kept[at := final], b) && ReportOf(kept[at := final], b, policy.reserve, sizing).safe ==>
        Readable(kept[at := renewed], b) && ReportOf(kept[at := renewed], b, policy.reserve, sizing).safe
  {
    if Readable(kept[at := final], b) {
      ExpiryIsNotRead(kept[at := final], at, expiry, b, policy.reserve, Some(kept[at].id));
      assert kept[at := final][at := final.(expiresAt := expiry)] == kept[at := final.(expiresAt := expiry)];
    }
  }

  ghost predicate ClaimReadable(kept: seq<Lease>, at: nat, running: Lease, host: HostReading, b: Bracket)
    requires at < |kept|
  {
    Readable(kept[at := running], b) && b.host0.total == host.total
  }

  /** Exactly when a claim is kept. */
  ghost predicate ClaimKept(kept: seq<Lease>, at: nat, running: Lease, policy: Policy, host: HostReading, b: Bracket)
    requires at < |kept|
  {
    && ClaimReadable(kept, at, running, host, b)
    && var rep := Sized(kept[at := running], running, policy, b).1;
    rep.safe && (if running.id in rep.rssPeak then rep.rssPeak[running.id] else 0) <= running.overhead
  }

  /** The sizing part of a claim: the control process must also fit its overhead budget. */
  method DecideClaim(kept: seq<Lease>, at: nat, running: Lease, policy: Policy, host: HostReading, b: Bracket)
    returns (r: Verdict)
    requires SoundPolicy(policy) && at < |kept|
    requires running == kept[at].(owner := running.owner, expiresAt := running.expiresAt)
    ensures r.Abandon? <==> !ClaimReadable(kept, at, running, host, b)
    ensures r.Keep? <==> ClaimKept(kept, at, running, policy, host, b)
    ensures r.Keep? && UniqueIds(kept) && SoundLease(kept[at], policy) ==>
      && Replaceable(kept, at, r.lease, policy, b, Some(kept[at].id))
      && r.lease == running.(allowance := r.lease.allowance, capacity := r.lease.capacity, basis := r.lease.basis)
      && (kept[at].id in r.report.rssPeak ==> r.report.rssPeak[kept[at].id] <= kept[at].overhead)
  {
    var tx := SizeHolder(kept, at, running, policy, b);
    if tx.Err? || tx.value.0 != host.total {
      return Abandon("capacity transaction failed");
    }
    var final, rep := tx.value.1, tx.value.2;
    var observed := if running.id in rep.rssPeak then rep.rssPeak[running.id] else 0;
    if rep.safe && observed <= running.overhead {
      r := Keep(final, rep);
    } else {
      r := Drop(rep.(safe := false));
    }
  }

  lemma KeptIsSound(s: LedgerState, now: real, os: Os)
    requires Sound(s)
    ensures Sound(LedgerState(s.policy, Kept(s.leases, now, os)))
  {
    KeptMembers(s.leases, now, os);
    KeptKeepsUniqueIds(s.leases, now, os);
  }

  function PolicyFor(policy: Option<Policy>, leases: seq<Lease>): Option<Policy> {
    if leases == [] then None else policy
  }

  /** The holder's request finds its own reservation at `at`, as its receipt describes it. */
  ghost predicate Eligible(req: HolderRequest, policy: Option<Policy>, kept: seq<Lease>, host: HostReading, at: nat) {
    var derived := PolicyFromRequest(req.policy, host.total);
    && ValidReading(host) && derived.Ok?
    && policy.Some? && PolicySignature(policy.value) == PolicySignature(derived.value)
    && FirstMatch(kept, at, req.id, req.token)
    && kept[at].owner.state.Reserved? && MatchesReceipt(kept[at], req)
  }

  /** The request states the policy in force. */
  predicate SamePolicy(req: HolderRequest, policy: Option<Policy>, host: HostReading) {
    && ValidReading(host) && PolicyFromRequest(req.policy, host.total).Ok?
    && policy.Some? && PolicySignature(policy.value) == PolicySignature(PolicyFromRequest(req.policy, host.total).value)
  }

  /** The lease is the holder's unexpired reservation, with the sizes of the receipt. */
  predicate Holds(l: Lease, req: HolderRequest, now: real) {
    && l.id == req.id && l.token == req.token && l.owner.state == Reserved && now < l.expiresAt
    && l.allowance == req.allowance && l.overhead == req.overhead && l.capacity == req.capacity
    && (req.commandLimit.None? || req.commandLimit == Some(l.commandLimit))
  }

  ghost predicate HasReservation(leases: seq<Lease>, req: HolderRequest, now: real) {
    exists l :: l in leases && Holds(l, req, now)
  }

  lemma EligibleIsReserved(req: HolderRequest, policy: Option<Policy>, leases: seq<Lease>, host: HostReading, now: real, os: Os, at: nat)
    requires Eligible(req, policy, Kept(leases, now, os), host, at)
    ensures SamePolicy(req, policy, host) && HasReservation(leases, req, now)
  {
    var kept := Kept(leases, now, os);
    KeptMembers(leases, now, os);
    KeptByState(leases, now, os, kept[at]);
    assert Holds(kept[at], req, now);
  }

  lemma ReservedIsEligible(req: HolderRequest, policy: Option<Policy>, leases: seq<Lease>, host: HostReading, now: real, os: Os)
    requires UniqueIds(leases) && SamePolicy(req, policy, host) && HasReservation(leases, req, now)
    ensures exists at: nat :: Eligible(req, policy, Kept(leases, now, os), host, at)
  {
    var kept := Kept(leases, now, os);
    KeptKeepsUniqueIds(leases, now, os);
    var l :| l in leases && Holds(l, req, now);
    KeptByState(leases, now, os, l);
    var at: nat :| at < |kept| && kept[at] == l;
    assert FirstMatch(kept, at, req.id, req.token);
    assert Eligible(req, policy, kept, host, at);
  }

  /** The reservation is found if and only if it is in the ledger unexpired and the policy of the
      request is the one in force: no liveness answer and no other lease can hide it. */
  lemma HolderIsFound(req: HolderRequest, policy: Option<Policy>, leases: seq<Lease>, host: HostReading, now: real, os: Os)
    ensures UniqueIds(leases) ==>
      ((exists at: nat :: Eligible(req, policy, Kept(leases, now, os), host, at)) <==>
        SamePolicy(req, policy, host) && HasReservation(leases, req, now))
  {
    if at: nat :| Eligible(req, policy, Kept(leases, now, os), host, at) {
      EligibleIsReserved(req, policy, leases, host, now, os, at);
    }
    if UniqueIds(leases) && SamePolicy(req, policy, host) && HasReservation(leases, req, now) {
      ReservedIsEligible(req, policy, leases, host, now, os);
    }
  }

  lemma OnlyOneEligible(req: HolderRequest, policy: Option<Policy>, kept: seq<Lease>, host: HostReading, i: nat, j: nat)
    requires Eligible(req, policy, kept, host, i) && Eligible(req, policy, kept, host, j)
    ensures i == j
  {
  }

  /** A lease as the helper that claims it would run it. */
  function RunningLease(lease: Lease, helper: Proc, root: Proc, pgid: Pid, expiry: real): Lease {
    lease.(owner := Owner(Running, helper, root, pgid, lease.owner.survivors), expiresAt := expiry)
  }

  /** Exactly when a renewal is admitted. */
  ghost predicate RenewalAdmitted(
    req: HolderRequest, policy: Option<Policy>, kept: seq<Lease>, host: HostReading, sizing: Bracket, b: Bracket)
  {
    exists at: nat ::
      && Eligible(req, policy, kept, host, at)
      && RenewalKept(kept, at, PolicyFromRequest(req.policy, host.total).value, host, sizing, b)
  }

  lemma RenewalDecided(
    req: HolderRequest, policy: Option<Policy>, kept: seq<Lease>, host: HostReading, at: nat, requested: Policy, sizing: Bracket, b: Bracket)
    requires Eligible(req, policy, kept, host, at) && PolicyFromRequest(req.policy, host.total) == Ok(requested)
    ensures RenewalAdmitted(req, policy, kept, host, sizing, b) <==> RenewalKept(kept, at, requested, host, sizing, b)
  {
    if RenewalAdmitted(req, policy, kept, host, sizing, b) {
      var i: nat :| Eligible(req, policy, kept, host, i)
        && RenewalKept(kept, i, PolicyFromRequest(req.policy, host.total).value, host, sizing, b);
      OnlyOneEligible(req, policy, kept, host, i, at);
    }
  }

  /** Exactly when a claim by `helper` is admitted. */
  ghost predicate ClaimAdmitted(
    req: HolderRequest, policy: Option<Policy>, kept: seq<Lease>, helper: Proc, root: Proc, pgid: Pid,
    host: HostReading, now: real, b: Bracket)
  {
    exists at: nat ::
      && Eligible(req, policy, kept, host, at)
      && ClaimOf(kept, at, PolicyFromRequest(req.policy, host.total).value, helper, root, pgid, host, now, b)
  }

  ghost predicate ClaimOf(
    kept: seq<Lease>, at: nat, requested: Policy, helper: Proc, root: Proc, pgid: Pid, host: HostReading, now: real, b: Bracket)
    requires at < |kept|
  {
    ClaimKept(kept, at, RunningLease(kept[at], helper, root, pgid, now + requested.ttl), requested, host, b)
  }

  lemma ClaimDecided(
    req: HolderRequest, policy: Option<Policy>, kept: seq<Lease>, at: nat, requested: Policy, helper: Proc, root: Proc, pgid: Pid,
    host: HostReading, now: real, b: Bracket)
    requires Eligible(req, policy, kept, host, at) && PolicyFromRequest(req.policy, host.total) == Ok(requested)
    ensures ClaimAdmitted(req, policy, kept, helper, root, pgid, host, now, b) <==>
      ClaimOf(kept, at, requested, helper, root, pgid, host, now, b)
  {
    if ClaimAdmitted(req, policy, kept, helper, root, pgid, host, now, b) {
      var i: nat :| Eligible(req, policy, kept, host, i)
        && ClaimOf(kept, i, PolicyFromRequest(req.policy, host.total).value, helper, root, pgid, host, now, b);
      OnlyOneEligible(req, policy, kept, host, i, at);
    }
  }

  lemma NotClaimable(
    req: HolderRequest, policy: Option<Policy>, kept: seq<Lease>, helper: Proc, root: Proc, pgid: Pid,
    host: HostReading, now: real, b: Bracket)
    requires forall i: nat :: !Eligible(req, policy, kept, host, i)
    ensures !ClaimAdmitted(req, policy, kept, helper, root, pgid, host, now, b)
  {
  }

  // ---------- the operations ----------

  class MemoryLedger {
    var policy: Option<Policy>
    var leases: seq<Lease>

    constructor ()
      ensures State() == EMPTY
    {
      policy, leases := None, [];
    }

    function State(): LedgerState
      reads this
    {
      LedgerState(policy, leases)
    }

    /** The checks that renewal and claim share: policy, ownership, state and receipt. */
    method FindHolder(req: HolderRequest, host: HostReading, now: real, os: Os)
      returns (refusal: Option<Admission>, kept: seq<Lease>, at: nat, requested: Policy)
      modifies this
      ensures refusal.Some? ==>
        && !refusal.value.status.Admitted?
        && (State() == old(State()) || Swept(old(State()), State(), now, os))
      ensures refusal.None? ==>
        && State() == old(State()) && kept == Kept(leases, now, os)
        && policy.Some? && SoundPolicy(requested) && requested.hostTotal == host.total
        && PolicySignature(policy.value) == PolicySignature(requested)
        && Eligible(req, policy, kept, host, at) && PolicyFromRequest(req.policy, host.total) == Ok(requested)
        && requested.ttl == req.policy.ttl
      ensures refusal.Some? ==> forall i: nat :: !Eligible(req, old(policy), Kept(old(leases), now, os), host, i)
      ensures refusal.Some? ==>
        refusal.value.status.Raised? || refusal.value.reason == "policy_mismatch" || SamePolicy(req, old(policy), host)
    {
      kept, at := [], 0;
      requested := Policy(None, None, 0, 0, 0, 0, 0.0);
      var derived := PolicyFromRequest(req.policy, host.total);
      if !ValidReading(host) || derived.Err? {
        return Some(Raise("admission inputs are invalid")), kept, at, requested;
      }
      requested := derived.value;
      var reaped;
      kept, reaped := ReapStaleLeases(leases, now, os);
      if policy.None? || PolicySignature(policy.value) != PolicySignature(requested) {
        return Some(Refusal("policy_mismatch")), kept, at, requested;
      }
      var found := FindLease(kept, req.id, req.token);
      if found.None? {
        if reaped > 0 {
          leases := kept;
        }
        return Some(Refusal("reservation_missing")), kept, at, requested;
      }
      at := found.value;
      if !kept[at].owner.state.Reserved? || !MatchesReceipt(kept[at], req) {
        return Some(Refusal("reservation_mismatch")), kept, at, requested;
      }
      refusal := None;
    }

    /** Writes the ledger without `kept[at]`, whose capacity can no longer be backed. */
    method DropHolder(ghost id: LeaseId, ghost token: TokenHash, kept: seq<Lease>, at: nat, ghost now: real, ghost os: Os)
      requires kept == Kept(leases, now, os)
      requires at < |kept| && Matches(kept[at], id, token) && kept[at].owner.state.Reserved?
      modifies this
      ensures DroppedAt(old(State()), State(), at, id, token, now, os)
      ensures policy == if leases == [] then None else old(policy)
    {
      var rest := kept[..at] + kept[at + 1..];
      policy, leases := PolicyFor(policy, rest), rest;
    }

    /** Extends a reservation, shrinking it if the live readings no longer back it. */
    method Renew(
      req: HolderRequest, host: HostReading, now: real, os: Os, sizing: Bracket, bracket: Bracket)
      returns (r: Admission)
      modifies this
      ensures Sound(old(State())) ==> HolderStep(old(State()), State(), RenewOp(req.id, req.token), now, os)
      ensures r.status.Admitted? <==> RenewalAdmitted(req, old(policy), Kept(old(leases), now, os), host, sizing, bracket)
      ensures Sound(old(State())) && HasReservation(old(leases), req, now) && r.status.Refused? ==>
        r.reason == "policy_mismatch" || r.reason == "live_memory_changed"
      ensures Sound(old(State())) && r.status.Admitted? ==> HasReservation(old(leases), req, now)
      ensures r.status.Admitted? && Sound(old(State())) ==>
        && r.lease.Some? && r.lease.value in leases && Matches(r.lease.value, req.id, req.token)
        && r.lease.value.expiresAt == now + req.policy.ttl
        && BackedBy(State(), bracket, if Inferred(r.lease.value.basis) then Some(req.id) else None)
    {
      HolderIsFound(req, policy, leases, host, now, os);
      var refusal, kept, at, requested := FindHolder(req, host, now, os);
      if refusal.Some? {
        return refusal.value;
      }
      RenewalDecided(req, policy, kept, host, at, requested, sizing, bracket);
      r := RenewAt(req, kept, at, requested, host, now, os, sizing, bracket);
    }

    method RenewAt(
      req: HolderRequest, kept: seq<Lease>, at: nat, requested: Policy, host: HostReading, now: real, ghost os: Os,
      sizing: Bracket, bracket: Bracket)
      returns (r: Admission)
      requires kept == Kept(leases, now, os) && SoundPolicy(requested) && policy.Some?
      requires PolicySignature(policy.value) == PolicySignature(requested)
      requires at < |kept| && Matches(kept[at], req.id, req.token) && kept[at].owner.state.Reserved?
      requires requested.ttl == req.policy.ttl
      modifies this
      ensures Sound(old(State())) ==> HolderStep(old(State()), State(), RenewOp(req.id, req.token), now, os)
      ensures r.status.Admitted? <==> RenewalKept(kept, at, requested, host, sizing, bracket)
      ensures r.status.Refused? ==> r.reason == "live_memory_changed"
      ensures r.status.Admitted? && Sound(old(State())) ==>
        && r.lease.Some? && r.lease.value in leases && Matches(r.lease.value, req.id, req.token)
        && r.lease.value.expiresAt == now + req.policy.ttl
        && BackedBy(State(), bracket, if Inferred(r.lease.value.basis) then Some(req.id) else None)
    {
      ghost var before := State();
      if Sound(before) {
        KeptIsSound(before, now, os);
        assert kept[at] in kept;
      }
      var verdict := DecideRenew(kept, at, now + requested.ttl, requested, host, sizing, bracket);
      match verdict
      case Abandon(reason) => r := Raise(reason);
      case Drop(rep) =>
        DropHolder(req.id, req.token, kept, at, now, os);
        r := Admission(Refused, "live_memory_changed", Some(rep), None);
      case Keep(lease, rep) =>
        leases := kept[at := lease];
        r := Admission(Admitted, "renewed", Some(rep), Some(lease));
        if Sound(before) {
          assert leases[at] == lease;
          assert UpdatedAt(before, State(), at, RenewOp(req.id, req.token), now, os);
          SafeIsBacked(State(), bracket, if Inferred(lease.basis) then Some(req.id) else None);
        }
    }

    /** Hands a reservation to the guard helper that is about to open the launch gate. */
    method Claim(
      req: HolderRequest, helperPid: Pid, root: Proc, pgid: Pid, host: HostReading, now: real, os: Os, bracket: Bracket)
      returns (r: Admission)
      requires NamesProcess(root) && pgid > 0
      requires helperPid in os.identities ==> NamesProcess(Proc(helperPid, os.identities[helperPid]))
      modifies this
      ensures Sound(old(State())) ==> HolderStep(old(State()), State(), ClaimOp(req.id, req.token), now, os)
      ensures r.status.Admitted? <==>
        && helperPid in os.identities
        && ClaimAdmitted(req, old(policy), Kept(old(leases), now, os), Proc(helperPid, os.identities[helperPid]),
                         root, pgid, host, now, bracket)
      ensures Sound(old(State())) && HasReservation(old(leases), req, now) && r.status.Refused? ==>
        r.reason == "policy_mismatch" || r.reason == "live_memory_changed"
      ensures Sound(old(State())) && r.status.Admitted? ==> HasReservation(old(leases), req, now)
      ensures r.status.Admitted? && Sound(old(State())) ==>
        && r.lease.Some? && r.lease.value in leases && Matches(r.lease.value, req.id, req.token)
        && helperPid in os.identities && r.lease.value.expiresAt == now + req.policy.ttl
        && r.lease.value.owner == Owner(Running, Proc(helperPid, os.identities[helperPid]), root, pgid, [])
        && BackedBy(State(), bracket, Some(req.id))
    {
      ghost var current, all := policy, Kept(leases, now, os);
      HolderIsFound(req, policy, leases, host, now, os);
      var refusal, kept, at, requested := FindHolder(req, host, now, os);
      if refusal.Some? {
        forall helper ensures !ClaimAdmitted(req, current, all, helper, root, pgid, host, now, bracket) {
          NotClaimable(req, current, all, helper, root, pgid, host, now, bracket);
        }
        return refusal.value;
      }
      if helperPid !in os.identities {
        return Raise("cannot identify memory-guard helper");
      }
      var helper := Proc(helperPid, os.identities[helperPid]);
      ClaimDecided(req, policy, kept, at, requested, helper, root, pgid, host, now, bracket);
      r := ClaimAt(req, kept, at, requested, helper, root, pgid, host, now, os, bracket);
    }

    method ClaimAt(
      req: HolderRequest, kept: seq<Lease>, at: nat, requested: Policy, helper: Proc, root: Proc, pgid: Pid,
      host: HostReading, now: real, ghost os: Os, bracket: Bracket)
      returns (r: Admission)
      requires kept == Kept(leases, now, os) && SoundPolicy(requested) && policy.Some?
      requires PolicySignature(policy.value) == PolicySignature(requested)
      requires at < |kept| && Matches(kept[at], req.id, req.token) && kept[at].owner.state.Reserved?
      requires requested.ttl == req.policy.ttl
      requires NamesProcess(helper) && NamesProcess(root) && pgid > 0
      modifies this
      ensures Sound(old(State())) ==> HolderStep(old(State()), State(), ClaimOp(req.id, req.token), now, os)
      ensures r.status.Admitted? <==>
        ClaimKept(kept, at, RunningLease(kept[at], helper, root, pgid, now + requested.ttl), requested, host, bracket)
      ensures r.status.Refused? ==> r.reason == "live_memory_changed"
      ensures r.status.Admitted? && Sound(old(State())) ==>
        && r.lease.Some? && r.lease.value in leases && Matches(r.lease.value, req.id, req.token)
        && r.lease.value.owner == Owner(Running, helper, root, pgid, []) && r.lease.value.expiresAt == now + req.policy.ttl
        && BackedBy(State(), bracket, Some(req.id))
    {
      ghost var before := State();
      if Sound(before) {
        KeptIsSound(before, now, os);
        assert kept[at] in kept;
      }
      var running := RunningLease(kept[at], helper, root, pgid, now + requested.ttl);
      var verdict := DecideClaim(kept, at, running, requested, host, bracket);
      match verdict
      case Abandon(reason) => r := Raise(reason);
      case Drop(rep) =>
        DropHolder(req.id, req.token, kept, at, now, os);
        r := Admission(Refused, "live_memory_changed", Some(rep), None);
      case Keep(lease, rep) =>
        leases := kept[at := lease];
        r := Admission(Admitted, "claimed", Some(rep), Some(lease));
        if Sound(before) {
          assert leases[at] == lease;
          assert UpdatedAt(before, State(), at, ClaimOp(req.id, req.token), now, os);
          SafeIsBacked(State(), bracket, Some(req.id));
        }
    }

    /** Gives capacity back: a reservation at any time, a claimed lease only after cleanup. */
    method Release(id: LeaseId, token: TokenHash, reservedOnly: bool, cleanupComplete: bool, now: real, os: Os)
      returns (released: bool)
      modifies this
      ensures
        Step(old(State()), State(), ReleaseOp(id, token, reservedOnly, cleanupComplete), now, os)
      ensures released ==> policy == if leases == [] then None else old(policy)
      ensures released ==>
        ReleasedStep(old(State()), State(), ReleaseOp(id, token, reservedOnly, cleanupComplete), now, os)
      ensures released <==>
        exists l :: l in Kept(old(leases), now, os) && MayRelease(l, ReleaseOp(id, token, reservedOnly, cleanupComplete))
    {
      var kept, reaped := ReapStaleLeases(leases, now, os);
      var retained;
      released, retained := Retain(kept, id, token, reservedOnly, cleanupComplete);
      if released || reaped > 0 {
        policy, leases := PolicyFor(policy, retained), retained;
      }
    }

    static method Retain(kept: seq<Lease>, id: LeaseId, token: TokenHash, reservedOnly: bool, cleanupComplete: bool)
      returns (released: bool, retained: seq<Lease>)
      ensures retained == Retained(kept, ReleaseOp(id, token, reservedOnly, cleanupComplete))
      ensures released <==>
        exists l :: l in kept && MayRelease(l, ReleaseOp(id, token, reservedOnly, cleanupComplete))
      ensures !released ==> retained == kept
    {
      ghost var op := ReleaseOp(id, token, reservedOnly, cleanupComplete);
      released, retained := false, [];
      for i := 0 to |kept|
        invariant retained == Retained(kept[..i], op)
        invariant released <==> exists k :: 0 <= k < i && MayRelease(kept[k], op)
        invariant !released ==> retained == kept[..i]
      {
        var lease := kept[i];
        var state := lease.owner.state;
        var mayRelease := state.Reserved? || (cleanupComplete && (state.Claimed? || state.Running?));
        assert kept[..i + 1][..i] == kept[..i];
        if Matches(lease, id, token) && mayRelease && (!reservedOnly || state.Reserved?) {
          released := true;
        } else {
          retained := retained + [lease];
        }
      }
      assert kept[..|kept|] == kept;
    }

    /** Records the survivors of a failed cleanup instead of freeing the capacity. */
    method QuarantineLease(id: LeaseId, token: TokenHash, survivors: seq<Proc>, pgid: Pid)
      returns (r: Result<bool>)
      modifies this
      ensures r.Err? <==> !AllNamed(survivors) || pgid <= 0
      ensures r == Ok(true) <==>
        && AllNamed(survivors) && pgid > 0
        && exists i: nat :: FirstMatch(old(leases), i, id, token) && Held(old(leases)[i].owner.state)
      ensures r == Ok(true) ==>
        exists i: nat :: i < |old(leases)| && old(leases)[i].id == id && old(leases)[i].token == token &&
          leases == old(leases)[i := old(leases)[i].(
            owner := Owner(Quarantined, old(leases)[i].owner.helper, old(leases)[i].owner.root, pgid, survivors))]
      ensures r == Ok(true) ==>
        exists i: nat :: QuarantinedAt(old(State()), State(), i, QuarantineOp(id, token, survivors, pgid))
      ensures r != Ok(true) ==> State() == old(State())
    {
      if !AllNamed(survivors) || pgid <= 0 {
        return Err("quarantine survivor identity is invalid");
      }
      var found := FindLease(leases, id, token);
      if found.None? || !Held(leases[found.value].owner.state) {
        return Ok(false);
      }
      ghost var before := State();
      leases := leases[found.value := Quarantine(leases[found.value], survivors, pgid)];
      assert QuarantinedAt(before, State(), found.value, QuarantineOp(id, token, survivors, pgid));
      r := Ok(true);
    }

    /** Reserves capacity for a new lease before anything on the target changes. */
    method Reserve(
      req: ReserveRequest, helperRss: int, host: HostReading, now: real, os: Os, sizing: Bracket, bracket: Bracket)
      returns (r: Admission)
      modifies this
      ensures Sound(old(State())) ==> Step(old(State()), State(), ReserveOp(req.id, req.token), now, os)
      ensures !r.status.Admitted? ==> State() == old(State()) || Swept(old(State()), State(), now, os)
      ensures r.status.Admitted? <==>
        Accepted(req, old(policy), Kept(old(leases), now, os), helperRss, host, now, sizing, bracket)
      ensures r.status.Admitted? && Sound(old(State())) ==>
        r.lease.Some? && Admits(old(State()), State(), req, r.lease.value, helperRss, now, os, bracket)
    {
      var kept, reaped := ReapStaleLeases(leases, now, os);
      SoundIsUnique(State(), now, os);
      var requested: Policy;
      r, requested := DecideReserve(req, policy, kept, helperRss, host, now, sizing, bracket);
      if r.status.Admitted? {
        Record(req, r.lease.value, requested, kept, helperRss, host, now, os, sizing, bracket);
      } else if r.report.Some? && reaped > 0 {
        policy, leases := PolicyFor(policy, kept), kept;
      }
    }

    /** Writes the ledger with the admitted lease. */
    method Record(
      ghost req: ReserveRequest, lease: Lease, requested: Policy, kept: seq<Lease>, ghost helperRss: int, ghost host: HostReading,
      ghost now: real, ghost os: Os, ghost sizing: Bracket, ghost bracket: Bracket)
      requires kept == Kept(leases, now, os) && PolicyFromRequest(req.policy, host.total) == Ok(requested)
      requires Sizable(req, kept, requested, host, CeilMib(2 * helperRss), sizing)
      requires
        var asked := Asked(req, kept, requested, host, CeilMib(2 * helperRss), now, sizing);
        Readable(kept + [asked], bracket) && lease == Sized(kept + [asked], asked, requested, bracket).0
      requires UniqueIds(kept) ==> Admissible(kept, policy, requested, lease, req, bracket)
      modifies this
      ensures UniqueIds(kept) ==> Admits(old(State()), State(), req, lease, helperRss, now, os, bracket)
    {
      AdmittedIsGranted(req, kept, requested, host, helperRss, now, sizing, bracket);
      if UniqueIds(kept) {
        AdmittedLedger(State(), req, requested, lease, helperRss, now, os, bracket);
      }
      policy, leases := Some(requested), kept + [lease];
    }
  }
}
