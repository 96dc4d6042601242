/** Values of the memory-admission ledger: whole-MiB rounding, the admission policy, the
    lease record, and the liveness rules that decide which leases may be reaped. */
module Leases {
  import opened Wrappers
  import opened KnownTree

  // ---------- whole-MiB arithmetic ----------

  const MIB := 1048576
  const GIB := 1024 * MIB

  predicate WholeMib(bytes: int) {
    bytes % MIB == 0
  }

  /** The least whole number of MiB, at least one, that covers `bytes`. */
  function CeilMib(bytes: int): (r: int)
    ensures WholeMib(r) && r >= MIB && r >= bytes
    ensures r > MIB ==> r - MIB < bytes
  {
    Max(MIB, (bytes + MIB - 1) / MIB * MIB)
  }

  function FloorMib(bytes: int): (r: int)
    ensures WholeMib(r) && r >= MIB
    ensures bytes >= MIB ==> r <= bytes < r + MIB
  {
    Max(MIB, bytes / MIB * MIB)
  }

  /** The greatest whole number of MiB inside `bytes`; an exhausted residual gives zero. */
  function FloorNonnegativeMib(bytes: int): (r: int)
    ensures WholeMib(r) && 0 <= r <= Max(0, bytes) < r + MIB
  {
    Max(0, Max(0, bytes) / MIB * MIB)
  }

  function CeilReal(x: real): (r: int)
    ensures r as real - 1.0 < x <= r as real
  {
    -((-x).Floor)
  }

  // ---------- policy ----------

  datatype PolicyRequest = PolicyRequest(
    commandFraction: Option<real>,
    reserveFraction: Option<real>,
    maxJobs: int,
    ttl: real)

  datatype Policy = Policy(
    commandFraction: Option<real>,
    reserveFraction: Option<real>,
    maxJobs: int,
    hostTotal: int,
    maxCommand: int,
    reserve: int,
    ttl: real)

  datatype Signature = Signature(
    commandFraction: Option<real>,
    reserveFraction: Option<real>,
    maxJobs: int,
    hostTotal: int,
    maxCommand: int,
    reserve: int)

  /** The time to live is the one field two compatible policies may disagree on. */
  function PolicySignature(p: Policy): Signature {
    Signature(p.commandFraction, p.reserveFraction, p.maxJobs, p.hostTotal, p.maxCommand, p.reserve)
  }

  lemma SignatureIgnoresTimeToLive(p: Policy, q: Policy)
    ensures PolicySignature(p) == PolicySignature(q) <==> q == p.(ttl := q.ttl)
  {
  }

  predicate StrictFraction(f: Option<real>) {
    f.Some? ==> 0.0 < f.value < 1.0
  }

  function ReserveBytes(fraction: Option<real>, hostTotal: int): int {
    match fraction
    case None => CeilMib(Min(Max(4 * GIB, (hostTotal + 3) / 4), 16 * GIB))
    case Some(f) => CeilMib(CeilReal(hostTotal as real * f))
  }

  function CommandCeiling(fraction: Option<real>, hostTotal: int, reserve: int): int {
    match fraction
    case None => FloorNonnegativeMib(hostTotal - reserve)
    case Some(f) => FloorMib((hostTotal as real * f).Floor)
  }

  /** What every accepted policy guarantees about its three byte quantities. */
  predicate SoundPolicy(p: Policy) {
    && p.maxJobs > 0
    && WholeMib(p.reserve) && p.reserve >= MIB
    && WholeMib(p.maxCommand) && p.maxCommand >= 0
    && p.reserve + p.maxCommand <= p.hostTotal
    && (p.maxCommand == 0 ==> p.hostTotal < p.reserve + MIB)
  }

  function PolicyFromRequest(req: PolicyRequest, hostTotal: int): (r: Result<Policy>)
    ensures r.Ok? ==> SoundPolicy(r.value) && r.value.hostTotal == hostTotal
  {
    if hostTotal <= 0 then Err("physical RAM must be positive")
    else if !StrictFraction(req.commandFraction) then Err("command_limit_fraction")
    else if !StrictFraction(req.reserveFraction) then Err("host_reserve_fraction")
    else if && req.commandFraction.Some? && req.reserveFraction.Some?
            && req.commandFraction.value + req.reserveFraction.value > 1.0 then
      Err("command limit plus host reserve exceeds physical RAM")
    else if req.maxJobs <= 0 then Err("max_jobs must be a positive integer")
    else
      var reserve := ReserveBytes(req.reserveFraction, hostTotal);
      var ceiling := CommandCeiling(req.commandFraction, hostTotal, reserve);
      if reserve + ceiling > hostTotal then
        Err("rounded command limit plus reserve exceeds physical RAM")
      else if !(1.0 <= req.ttl <= 86400.0) then Err("reservation_ttl_seconds")
      else
        Ok(Policy(req.commandFraction, req.reserveFraction, req.maxJobs, hostTotal,
                  ceiling, reserve, req.ttl))
  }

  /** Exactly the requests that give a policy. */
  predicate Acceptable(req: PolicyRequest, hostTotal: int) {
    && hostTotal > 0
    && StrictFraction(req.commandFraction) && StrictFraction(req.reserveFraction)
    && (req.commandFraction.Some? && req.reserveFraction.Some? ==> req.commandFraction.value + req.reserveFraction.value <= 1.0)
    && req.maxJobs > 0
    && Reserve(req, hostTotal) + Ceiling(req, hostTotal) <= hostTotal
    && 1.0 <= req.ttl <= 86400.0
  }

  function Reserve(req: PolicyRequest, hostTotal: int): int {
    ReserveBytes(req.reserveFraction, hostTotal)
  }

  function Ceiling(req: PolicyRequest, hostTotal: int): int {
    CommandCeiling(req.commandFraction, hostTotal, Reserve(req, hostTotal))
  }

  lemma PolicyAccepted(req: PolicyRequest, hostTotal: int)
    ensures PolicyFromRequest(req, hostTotal).Ok? <==> Acceptable(req, hostTotal)
    ensures Acceptable(req, hostTotal) ==>
      var p := PolicyFromRequest(req, hostTotal).value;
      && p.reserve == Reserve(req, hostTotal) && p.maxCommand == Ceiling(req, hostTotal)
      && p.maxJobs == req.maxJobs && p.hostTotal == hostTotal && p.ttl == req.ttl
  {
  }

  /** A requested reserve fraction is rounded up to whole MiB. */
  lemma ReserveCovers(fraction: real, hostTotal: int)
    ensures var reserve := ReserveBytes(Some(fraction), hostTotal);
      && reserve as real >= hostTotal as real * fraction
      && (reserve > MIB ==> (reserve - MIB) as real < hostTotal as real * fraction)
  {
    RoundUp(hostTotal as real * fraction);
  }

  lemma RoundUp(wanted: real)
    ensures var r := CeilMib(CeilReal(wanted)); r as real >= wanted && (r > MIB ==> (r - MIB) as real < wanted)
  {
    var whole := CeilReal(wanted);
    assert whole as real - 1.0 < wanted <= whole as real;
    var r := CeilMib(whole);
    assert r > MIB ==> r - MIB <= whole - 1;
  }

  /** Without one the reserve is a quarter of the total, rounded up, but at least 4 and at most 16 GiB. */
  lemma DefaultReserve(hostTotal: int)
    ensures var reserve := ReserveBytes(None, hostTotal);
      && (hostTotal <= 16 * GIB ==> reserve == 4 * GIB)
      && (hostTotal >= 64 * GIB ==> reserve == 16 * GIB)
      && (16 * GIB <= hostTotal <= 64 * GIB ==>
            WholeMib(reserve) && 4 * reserve >= hostTotal && 4 * (reserve - MIB) < hostTotal)
  {
  }

  /** A requested command fraction is rounded down to whole MiB, but gives at least one. */
  lemma CeilingFits(fraction: real, hostTotal: int, reserve: int)
    ensures var ceiling := CommandCeiling(Some(fraction), hostTotal, reserve);
      && WholeMib(ceiling)
      && (hostTotal as real * fraction >= MIB as real ==>
            ceiling as real <= hostTotal as real * fraction < (ceiling + MIB) as real)
      && (hostTotal as real * fraction < MIB as real ==> ceiling == MIB)
  {
    RoundDown(hostTotal as real * fraction);
  }

  lemma RoundDown(wanted: real)
    ensures var r := FloorMib(wanted.Floor);
      && WholeMib(r)
      && (wanted >= MIB as real ==> r as real <= wanted < (r + MIB) as real)
      && (wanted < MIB as real ==> r == MIB)
  {
    var whole := wanted.Floor;
    assert whole as real <= wanted < whole as real + 1.0;
    var r := FloorMib(whole);
    assert whole >= MIB ==> r <= whole && whole + 1 <= r + MIB;
  }

  /** Without one the command may have what the reserve leaves. */
  lemma DefaultCeiling(hostTotal: int, reserve: int)
    requires hostTotal >= reserve
    ensures var ceiling := CommandCeiling(None, hostTotal, reserve); ceiling <= hostTotal - reserve < ceiling + MIB
  {
  }

  // ---------- leases ----------

  type LeaseId = string
  type TokenHash = string

  datatype Basis = ExplicitLimit | LearnedPlus25 | LearnedLiveHeadroom | Unprofiled

  datatype LeaseState = Reserved | Claimed | Running | Quarantined | Unrecognised

  datatype Proc = Proc(pid: Pid, identity: Identity)

  /** The lifecycle state of a lease and the processes recorded as holding it. */
  datatype Owner = Owner(
    state: LeaseState,
    helper: Proc,
    root: Proc,
    pgid: Pid,
    survivors: seq<Proc>)

  datatype Lease = Lease(
    id: LeaseId,
    token: TokenHash,
    allowance: int,
    basis: Basis,
    commandLimit: Option<int>,
    overhead: int,
    capacity: int,
    expiresAt: real,
    owner: Owner)

  const NO_PROC := Proc(0, "")

  const UNOWNED := Owner(Reserved, NO_PROC, NO_PROC, 0, [])

  predicate Matches(lease: Lease, id: LeaseId, token: TokenHash) {
    lease.id == id && lease.token == token
  }

  predicate Inferred(basis: Basis) {
    !basis.ExplicitLimit?
  }

  // ---------- liveness and reaping ----------

  /** One view of the operating system: which identity each pid has now, which process
      groups exist, and which probes raise instead of answering. */
  datatype Os = Os(
    identities: map<Pid, Identity>,
    groups: set<Pid>,
    failingPids: set<Pid>,
    failingGroups: set<Pid>)

  predicate NamesProcess(p: Proc) {
    p.pid > 0 && p.identity != ""
  }

  /** A process counts as gone only on a positive answer that its identity is not there. */
  predicate ProvedGone(p: Proc, os: Os) {
    p.pid !in os.failingPids && (p.pid in os.identities ==> os.identities[p.pid] != p.identity)
  }

  predicate GroupProvedGone(pgid: Pid, os: Os) {
    pgid !in os.failingGroups && pgid !in os.groups
  }

  predicate OwnerAlive(owner: Owner, os: Os) {
    || (NamesProcess(owner.helper) && !ProvedGone(owner.helper, os))
    || (NamesProcess(owner.root) && !ProvedGone(owner.root, os))
    || (owner.pgid > 0 && !GroupProvedGone(owner.pgid, os))
  }

  predicate QuarantineAlive(owner: Owner, os: Os) {
    || (exists i | 0 <= i < |owner.survivors| ::
          !NamesProcess(owner.survivors[i]) || !ProvedGone(owner.survivors[i], os))
    || (owner.pgid > 0 && !GroupProvedGone(owner.pgid, os))
  }

  predicate Stale(lease: Lease, now: real, os: Os) {
    match lease.owner.state
    case Reserved => lease.expiresAt <= now
    case Claimed => !OwnerAlive(lease.owner, os)
    case Running => !OwnerAlive(lease.owner, os)
    case Quarantined => !QuarantineAlive(lease.owner, os)
    case Unrecognised => false
  }

  /** The leases that survive a reaping pass, in their ledger order. */
  function Kept(leases: seq<Lease>, now: real, os: Os): (r: seq<Lease>)
    ensures |r| <= |leases|
  {
    if leases == [] then []
    else
      var last := leases[|leases| - 1];
      var before := Kept(leases[..|leases| - 1], now, os);
      if Stale(last, now, os) then before else before + [last]
  }

  /** What a reaping pass keeps, state by state. A reservation stays until it expires. A claimed or
      running lease goes only when helper, root and group are each unnamed or answered to be gone;
      a quarantined one only when every survivor is named and answered to be gone, and its group
      too. A failing probe and an unknown state keep the lease. */
  lemma KeptByState(leases: seq<Lease>, now: real, os: Os, l: Lease)
    requires l in leases
    ensures l.owner.state == Reserved ==> (l in Kept(leases, now, os) <==> now < l.expiresAt)
    ensures l.owner.state == Claimed || l.owner.state == Running ==>
      (l !in Kept(leases, now, os) <==>
        && (forall p | p == l.owner.helper || p == l.owner.root ::
              || p.pid <= 0 || p.identity == ""
              || (p.pid !in os.failingPids && !(p.pid in os.identities && os.identities[p.pid] == p.identity)))
        && (l.owner.pgid > 0 ==> l.owner.pgid !in os.failingGroups && l.owner.pgid !in os.groups))
    ensures l.owner.state == Quarantined ==>
      (l !in Kept(leases, now, os) <==>
        && (forall p | p in l.owner.survivors ::
              && p.pid > 0 && p.identity != ""
              && p.pid !in os.failingPids && !(p.pid in os.identities && os.identities[p.pid] == p.identity))
        && (l.owner.pgid > 0 ==> l.owner.pgid !in os.failingGroups && l.owner.pgid !in os.groups))
    ensures l.owner.state == Unrecognised ==> l in Kept(leases, now, os)
  {
    KeptMembers(leases, now, os);
  }

  /** A pass treats every lease by itself and keeps the order. */
  lemma {:induction false} KeptOfConcatenation(a: seq<Lease>, b: seq<Lease>, now: real, os: Os)
    ensures Kept(a + b, now, os) == Kept(a, now, os) + Kept(b, now, os)
    decreases |b|
  {
    if b == [] {
      assert a + b == a;
    } else {
      var n := |b| - 1;
      assert (a + b)[..|a + b| - 1] == a + b[..n];
      KeptOfConcatenation(a, b[..n], now, os);
    }
  }

  method ReapStaleLeases(leases: seq<Lease>, now: real, os: Os)
    returns (kept: seq<Lease>, reaped: nat)
    ensures kept == Kept(leases, now, os)
    ensures reaped == |leases| - |kept|
    ensures forall l :: l in kept ==> l in leases
    ensures forall l :: l in leases && l.owner.state == Reserved ==> (l in kept <==> now < l.expiresAt)
    ensures forall l :: l in leases && l.owner.state == Unrecognised ==> l in kept
  {
    kept, reaped := [], 0;
    for i := 0 to |leases|
      invariant kept == Kept(leases[..i], now, os)
      invariant reaped == i - |kept|
    {
      assert leases[..i + 1][..i] == leases[..i];
      if Stale(leases[i], now, os) {
        reaped := reaped + 1;
      } else {
        kept := kept + [leases[i]];
      }
    }
    assert leases[..|leases|] == leases;
    KeptMembers(leases, now, os);
  }

  /** Reaping removes exactly the stale leases and alters none. */
  lemma {:induction false} KeptMembers(leases: seq<Lease>, now: real, os: Os)
    ensures forall l :: l in Kept(leases, now, os) <==> l in leases && !Stale(l, now, os)
    ensures |Kept(leases, now, os)| == |leases| ==> Kept(leases, now, os) == leases
  {
    if leases != [] {
      var n := |leases| - 1;
      KeptMembers(leases[..n], now, os);
      assert leases == leases[..n] + [leases[n]];
    }
  }

  ghost predicate UniqueIds(leases: seq<Lease>) {
    forall i, j :: 0 <= i < j < |leases| ==> leases[i].id != leases[j].id
  }

  lemma {:induction false} KeptKeepsUniqueIds(leases: seq<Lease>, now: real, os: Os)
    requires UniqueIds(leases)
    ensures UniqueIds(Kept(leases, now, os))
  {
    if leases != [] {
      var n := |leases| - 1;
      KeptKeepsUniqueIds(leases[..n], now, os);
      KeptMembers(leases[..n], now, os);
      var before := Kept(leases[..n], now, os);
      forall i | 0 <= i < |before| ensures before[i].id != leases[n].id {
        assert before[i] in leases[..n];
      }
    }
  }
}
