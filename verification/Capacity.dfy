/** The capacity transaction: host memory and private resident memory are read in the
    order H0, P0, H1, P1, H2, and a set of leases is declared safe or not from those
    five readings. Also the clip that shrinks an inferred lease to what they back. */
module Capacity {
  import opened Wrappers
  import opened KnownTree
  import opened Leases

  // ---------- sums over a dictionary ----------

  ghost function AnyPid(pids: set<Pid>): (p: Pid)
    requires pids != {}
    ensures p in pids
  {
    SomePid(pids);
    var p :| p in pids;
    p
  }

  ghost function Sum(m: map<Pid, nat>): nat
    decreases |m|
  {
    if m.Keys == {} then 0
    else
      var p := AnyPid(m.Keys);
      m[p] + Sum(m - {p})
  }

  lemma {:induction false} SumRemove(m: map<Pid, nat>, q: Pid)
    requires q in m
    ensures Sum(m) == m[q] + Sum(m - {q})
    decreases |m|
  {
    var p := AnyPid(m.Keys);
    if p != q {
      SumRemove(m - {p}, q);
      SumRemove(m - {q}, p);
      assert m - {p} - {q} == m - {q} - {p};
    }
  }

  lemma {:induction false} SumMonotone(a: map<Pid, nat>, b: map<Pid, nat>)
    requires forall p :: p in a ==> p in b && a[p] <= b[p]
    ensures Sum(a) <= Sum(b)
    decreases |a|
  {
    if a.Keys != {} {
      var p := AnyPid(a.Keys);
      SumRemove(b, p);
      SumMonotone(a - {p}, b - {p});
    }
  }

  // ---------- private-memory snapshots ----------

  datatype Usage = Usage(identity: Identity, bytes: nat, rss: nat)

  type LeaseUsage = map<Pid, Usage>

  type Snapshot = map<LeaseId, LeaseUsage>

  function UsageOf(s: Snapshot, id: LeaseId): LeaseUsage {
    if id in s then s[id] else map[]
  }

  function PrivateBytes(u: LeaseUsage): map<Pid, nat> {
    map p | p in u :: u[p].bytes
  }

  function RssBytes(u: LeaseUsage): map<Pid, nat> {
    map p | p in u :: u[p].rss
  }

  /** The process table, the private-memory read of each pid (absent when the read
      fails) and the liveness probes seen by one snapshot. */
  datatype View = View(rows: Table, resident: map<Pid, int>, os: Os)

  /** The processes whose memory is attributed to an owner. */
  function OwnedRows(owner: Owner, rows: Table): (r: Result<set<Pid>>)
    ensures r.Ok? ==> r.value <= rows.Keys
    ensures owner.state.Reserved? ==> r == Ok({})
  {
    match owner.state
    case Reserved => Ok({})
    case Quarantined =>
      Ok(set p | p in rows &&
           (|| (owner.pgid > 0 && rows[p].pgid == owner.pgid)
            || (exists i | 0 <= i < |owner.survivors| ::
                  NamesProcess(owner.survivors[i]) && owner.survivors[i] == Proc(p, rows[p].identity))))
    case Unrecognised => Err("ledger contains an unknown lease state")
    case _ =>
      var group := set p | p in rows && owner.pgid > 0 && rows[p].pgid == owner.pgid;
      if owner.root.pid in rows && rows[owner.root.pid].identity == owner.root.identity then
        Ok(group + TreeOf(rows, owner.root.pid, map[owner.root.pid := owner.root.identity], true))
      else Ok(group)
  }

  predicate StillThere(pid: Pid, view: View)
    requires pid in view.rows
  {
    pid in view.os.identities && view.os.identities[pid] == view.rows[pid].identity
  }

  function OwnedUsage(owner: Owner, view: View): (r: Result<LeaseUsage>)
    ensures owner.state.Reserved? ==> r == Ok(map[])
  {
    var selected :- OwnedRows(owner, view.rows);
    if owner.state.Reserved? then Ok(map[])
    else if selected == {} && OwnerAlive(owner, view.os) then
      Err("cannot sample a live guarded process group")
    else if exists p | p in selected :: p in view.resident && view.resident[p] < 0 then
      Err("private resident accounting returned a negative value")
    else
      var usage: LeaseUsage :=
        map p | p in selected && p in view.resident && StillThere(p, view) ::
          Usage(view.rows[p].identity, Max(0, view.resident[p]), Max(0, view.rows[p].rss));
      if usage == map[] && exists p | p in selected :: StillThere(p, view) then
        Err("private resident accounting failed for a live guarded tree")
      else Ok(usage)
  }

  /** Whose memory it is, by state: a quarantined lease has its named survivors that still show
      their identity and its group; a claimed or running one has its group and, while its root shows
      the recorded identity, what child links reach from the root or from the root's own group. */
  lemma OwnedProcesses(owner: Owner, rows: Table)
    ensures OwnedRows(owner, rows).Err? <==> owner.state.Unrecognised?
    ensures owner.state.Reserved? ==> OwnedRows(owner, rows).Extract() == {}
    ensures owner.state.Quarantined? ==>
      forall p :: p in OwnedRows(owner, rows).Extract() <==>
        && p in rows
        && (|| (owner.pgid > 0 && rows[p].pgid == owner.pgid)
            || (p > 0 && rows[p].identity != "" && Proc(p, rows[p].identity) in owner.survivors))
    ensures owner.state.Claimed? || owner.state.Running? ==>
      forall p :: p in OwnedRows(owner, rows).Extract() <==>
        || (p in rows && owner.pgid > 0 && rows[p].pgid == owner.pgid)
        || (&& owner.root.pid in rows && rows[owner.root.pid].identity == owner.root.identity
            && exists path ::
                 && ChildPath(rows, path) && path[|path| - 1] == p && path[0] in rows
                 && (path[0] == owner.root.pid || rows[path[0]].pgid == owner.root.pid))
  {
    if (owner.state.Claimed? || owner.state.Running?)
       && owner.root.pid in rows && rows[owner.root.pid].identity == owner.root.identity {
      TreeMembers(rows, owner.root.pid, map[owner.root.pid := owner.root.identity], true);
    }
  }

  /** A sample holds exactly the owned processes whose private memory could be read and that showed
      the same identity afterwards, each with that reading. */
  lemma SampledProcesses(owner: Owner, view: View)
    requires OwnedUsage(owner, view).Ok?
    ensures OwnedRows(owner, view.rows).Ok?
    ensures forall p :: p in OwnedUsage(owner, view).value <==>
      && p in OwnedRows(owner, view.rows).value && p in view.resident
      && p in view.os.identities && view.os.identities[p] == view.rows[p].identity
    ensures forall p :: p in OwnedUsage(owner, view).value ==>
      && view.resident[p] >= 0
      && OwnedUsage(owner, view).value[p] == Usage(view.rows[p].identity, view.resident[p], Max(0, view.rows[p].rss))
  {
  }

  function PrivateSnapshot(leases: seq<Lease>, view: View): (r: Result<Snapshot>) {
    if leases == [] then Ok(map[])
    else
      var before :- PrivateSnapshot(leases[..|leases| - 1], view);
      var last := leases[|leases| - 1];
      var usage :- OwnedUsage(last.owner, view);
      Ok(before[last.id := usage])
  }

  /** A reserved lease owns no process yet, so neither snapshot credits it anything. */
  lemma {:induction false} ReservedIsUncredited(leases: seq<Lease>, view: View, i: nat)
    requires UniqueIds(leases) && i < |leases| && leases[i].owner.state.Reserved?
    requires PrivateSnapshot(leases, view).Ok?
    ensures UsageOf(PrivateSnapshot(leases, view).value, leases[i].id) == map[]
  {
    var n := |leases| - 1;
    if i < n {
      ReservedIsUncredited(leases[..n], view, i);
      assert leases[i].id != leases[n].id;
    }
  }

  // ---------- the two-snapshot tally ----------

  type ProcessKey = (Pid, Identity)

  /** What a lease is credited: the smaller of the two readings of every process that
      shows the same identity in both snapshots and has not been credited already. */
  function Credits(first: LeaseUsage, second: LeaseUsage, taken: set<ProcessKey>): map<Pid, nat> {
    map p | p in first && p in second && first[p].identity == second[p].identity
            && (p, first[p].identity) !in taken ::
      Min(first[p].bytes, second[p].bytes)
  }

  function CreditKeys(first: LeaseUsage, credits: map<Pid, nat>): set<ProcessKey> {
    set p | p in credits && p in first :: (p, first[p].identity)
  }

  function Ids(leases: seq<Lease>): (r: seq<LeaseId>)
    ensures |r| == |leases|
    ensures forall i :: 0 <= i < |r| ==> r[i] == leases[i].id
  {
    seq(|leases|, i requires 0 <= i < |leases| => leases[i].id)
  }

  /** The process identities already credited once the leases `ids` have been visited. */
  ghost function Taken(ids: seq<LeaseId>, s0: Snapshot, s1: Snapshot): set<ProcessKey>
    decreases |ids|, 0
  {
    if ids == [] then {}
    else
      var n := |ids| - 1;
      Taken(ids[..n], s0, s1) + CreditKeys(UsageOf(s0, ids[n]), CreditsAt(ids, n, s0, s1))
  }

  /** The credits of the lease `ids[i]`, given those visited before it. */
  ghost function CreditsAt(ids: seq<LeaseId>, i: nat, s0: Snapshot, s1: Snapshot): map<Pid, nat>
    requires i < |ids|
    decreases i, 1
  {
    Credits(UsageOf(s0, ids[i]), UsageOf(s1, ids[i]), Taken(ids[..i], s0, s1))
  }

  /** The process shows one identity in both snapshots of the lease. */
  predicate Steady(id: LeaseId, s0: Snapshot, s1: Snapshot, p: Pid, identity: Identity) {
    && p in UsageOf(s0, id) && UsageOf(s0, id)[p].identity == identity
    && p in UsageOf(s1, id) && UsageOf(s1, id)[p].identity == identity
  }

  lemma {:induction false} TakenAreSteady(ids: seq<LeaseId>, s0: Snapshot, s1: Snapshot, p: Pid, identity: Identity)
    ensures (p, identity) in Taken(ids, s0, s1) <==> exists j :: 0 <= j < |ids| && Steady(ids[j], s0, s1, p, identity)
  {
    if ids != [] {
      var n := |ids| - 1;
      TakenAreSteady(ids[..n], s0, s1, p, identity);
      assert forall j :: 0 <= j < n ==> ids[..n][j] == ids[j];
      assert (p, identity) in CreditKeys(UsageOf(s0, ids[n]), CreditsAt(ids, n, s0, s1)) <==>
        Steady(ids[n], s0, s1, p, identity) && (p, identity) !in Taken(ids[..n], s0, s1);
    }
  }

  /** A process that shows one identity in both snapshots is credited, by the smaller reading, to
      the first lease of the ledger under which it does so and to no other. */
  lemma CreditGoesToFirst(ids: seq<LeaseId>, i: nat, s0: Snapshot, s1: Snapshot, p: Pid, identity: Identity)
    requires i < |ids| && Steady(ids[i], s0, s1, p, identity)
    ensures p in CreditsAt(ids, i, s0, s1) <==> forall j :: 0 <= j < i ==> !Steady(ids[j], s0, s1, p, identity)
    ensures p in CreditsAt(ids, i, s0, s1) ==>
      CreditsAt(ids, i, s0, s1)[p] == Min(UsageOf(s0, ids[i])[p].bytes, UsageOf(s1, ids[i])[p].bytes)
  {
    TakenAreSteady(ids[..i], s0, s1, p, identity);
    assert forall j :: 0 <= j < i ==> ids[..i][j] == ids[j];
  }

  /** Nothing else is credited. */
  lemma OnlySteadyIsCredited(ids: seq<LeaseId>, i: nat, s0: Snapshot, s1: Snapshot, p: Pid)
    requires i < |ids| && p in CreditsAt(ids, i, s0, s1)
    ensures exists identity :: Steady(ids[i], s0, s1, p, identity)
  {
    assert Steady(ids[i], s0, s1, p, UsageOf(s0, ids[i])[p].identity);
  }

  ghost function Credited(ids: seq<LeaseId>, s0: Snapshot, s1: Snapshot): (r: seq<int>)
    ensures |r| == |ids|
    ensures forall i :: 0 <= i < |r| ==> r[i] == Sum(CreditsAt(ids, i, s0, s1)) >= 0
  {
    seq(|ids|, i requires 0 <= i < |ids| => Sum(CreditsAt(ids, i, s0, s1)))
  }

  ghost function RssPeak(id: LeaseId, s0: Snapshot, s1: Snapshot): int {
    Max(Sum(RssBytes(UsageOf(s0, id))), Sum(RssBytes(UsageOf(s1, id))))
  }

  /** The peak is the larger of the two sums of resident memory. */
  lemma PeakIsLarger(id: LeaseId, s0: Snapshot, s1: Snapshot, most: int)
    ensures RssPeak(id, s0, s1) <= most <==>
      forall s | s == s0 || s == s1 :: Sum(map p | p in UsageOf(s, id) :: UsageOf(s, id)[p].rss) <= most
  {
    assert forall s :: RssBytes(UsageOf(s, id)) == (map p | p in UsageOf(s, id) :: UsageOf(s, id)[p].rss);
  }

  ghost function RssPeaks(ids: seq<LeaseId>, s0: Snapshot, s1: Snapshot): (r: seq<int>)
    ensures |r| == |ids|
  {
    seq(|ids|, i requires 0 <= i < |ids| => RssPeak(ids[i], s0, s1))
  }

  /** A per-lease dictionary: of two entries under one id the later one wins. */
  function ByLease(ids: seq<LeaseId>, values: seq<int>): map<LeaseId, int>
    requires |ids| == |values|
  {
    if ids == [] then map[]
    else
      var n := |ids| - 1;
      ByLease(ids[..n], values[..n])[ids[n] := values[n]]
  }

  predicate Counted(lease: Lease, sizing: Option<LeaseId>) {
    lease.basis.ExplicitLimit? || sizing == Some(lease.id)
  }

  function Headroom(capacity: int, credited: int): int {
    Max(0, capacity - credited)
  }

  /** The growth still promised to the counted leases beyond what they already use. */
  function FutureHeadroom(leases: seq<Lease>, used: seq<int>, sizing: Option<LeaseId>): (r: int)
    requires |leases| == |used|
    ensures r >= 0
  {
    if leases == [] then 0
    else
      var n := |leases| - 1;
      FutureHeadroom(leases[..n], used[..n], sizing)
      + (if Counted(leases[n], sizing) then Headroom(leases[n].capacity, used[n]) else 0)
  }

  function Total(values: seq<int>): int {
    if values == [] then 0 else Total(values[..|values| - 1]) + values[|values| - 1]
  }

  /** What each lease holds back: a lease with an explicit limit, and the one being sized, the
      capacity it does not use yet; any other lease nothing. */
  function HeldBack(leases: seq<Lease>, used: seq<int>, sizing: Option<LeaseId>): (r: seq<int>)
    requires |leases| == |used|
    ensures |r| == |leases|
    ensures forall i :: 0 <= i < |r| ==>
      r[i] == if leases[i].basis == ExplicitLimit || sizing == Some(leases[i].id) then Max(0, leases[i].capacity - used[i]) else 0
  {
    seq(|leases|, i requires 0 <= i < |leases| =>
      if leases[i].basis == ExplicitLimit || sizing == Some(leases[i].id) then Max(0, leases[i].capacity - used[i]) else 0)
  }

  lemma {:induction false} HeadroomIsTotal(leases: seq<Lease>, used: seq<int>, sizing: Option<LeaseId>)
    requires |leases| == |used|
    ensures FutureHeadroom(leases, used, sizing) == Total(HeldBack(leases, used, sizing))
  {
    if leases != [] {
      var n := |leases| - 1;
      HeadroomIsTotal(leases[..n], used[..n], sizing);
      assert HeldBack(leases, used, sizing)[..n] == HeldBack(leases[..n], used[..n], sizing);
    }
  }

  /** An explicit limit is a hard boundary: exceeding it fails the transaction. */
  ghost predicate Violation(leases: seq<Lease>, used: seq<int>)
    requires |leases| == |used|
  {
    exists i :: 0 <= i < |leases| && leases[i].basis.ExplicitLimit? && used[i] > leases[i].capacity
  }

  datatype HostReading = HostReading(total: int, available: int)

  datatype Bracket = Bracket(
    host0: HostReading, view0: View, host1: HostReading, view1: View, host2: HostReading)

  predicate ValidReading(h: HostReading) {
    h.total > 0 && 0 <= h.available <= h.total
  }

  /** Every read of the transaction succeeded and the physical total did not move. */
  predicate Readable(leases: seq<Lease>, b: Bracket) {
    && ValidReading(b.host0) && ValidReading(b.host1) && ValidReading(b.host2)
    && b.host0.total == b.host1.total == b.host2.total
    && PrivateSnapshot(leases, b.view0).Ok? && PrivateSnapshot(leases, b.view1).Ok?
    && forall i :: 0 <= i < |leases| ==> leases[i].capacity > 0
  }

  function AvailableFloor(b: Bracket): int {
    Min(b.host0.available, Min(b.host1.available, b.host2.available))
  }

  datatype Report = Report(
    safe: bool,
    floor: int,
    headroom: int,
    required: int,
    credited: map<LeaseId, int>,
    rssPeak: map<LeaseId, int>,
    violation: bool)

  function Assemble(
    b: Bracket, reserve: int, ids: seq<LeaseId>, used: seq<int>, peaks: seq<int>, headroom: int, violation: bool): Report
    requires |ids| == |used| == |peaks|
  {
    Report(!violation && AvailableFloor(b) > reserve + headroom, AvailableFloor(b), headroom, reserve + headroom,
           ByLease(ids, used), ByLease(ids, peaks), violation)
  }

  ghost function CreditedIn(leases: seq<Lease>, b: Bracket): (r: seq<int>)
    requires Readable(leases, b)
    ensures |r| == |leases|
  {
    Credited(Ids(leases), PrivateSnapshot(leases, b.view0).value, PrivateSnapshot(leases, b.view1).value)
  }

  ghost function ReportOf(leases: seq<Lease>, b: Bracket, reserve: int, sizing: Option<LeaseId>): Report
    requires Readable(leases, b)
  {
    var ids := Ids(leases);
    var used := CreditedIn(leases, b);
    var peaks := RssPeaks(ids, PrivateSnapshot(leases, b.view0).value, PrivateSnapshot(leases, b.view1).value);
    Assemble(b, reserve, ids, used, peaks, FutureHeadroom(leases, used, sizing), Violation(leases, used))
  }

  /** The readings back the leases: every host reading exceeds the reserve plus all that is held
      back, and no lease with an explicit limit is credited more than its capacity. */
  ghost predicate Backs(leases: seq<Lease>, b: Bracket, reserve: int, sizing: Option<LeaseId>) {
    && Readable(leases, b)
    && var used := CreditedIn(leases, b);
    var needed := reserve + Total(HeldBack(leases, used, sizing));
    && b.host0.available > needed && b.host1.available > needed && b.host2.available > needed
    && forall i :: 0 <= i < |leases| && leases[i].basis == ExplicitLimit ==> used[i] <= leases[i].capacity
  }

  lemma SafeExactlyWhenBacked(leases: seq<Lease>, b: Bracket, reserve: int, sizing: Option<LeaseId>)
    requires Readable(leases, b)
    ensures
      var rep := ReportOf(leases, b, reserve, sizing);
      var used := CreditedIn(leases, b);
      && (rep.safe <==> Backs(leases, b, reserve, sizing))
      && rep.required == reserve + Total(HeldBack(leases, used, sizing))
      && (rep.violation <==> exists i :: 0 <= i < |leases| && leases[i].basis == ExplicitLimit && used[i] > leases[i].capacity)
  {
    HeadroomIsTotal(leases, CreditedIn(leases, b), sizing);
  }

  // ---------- the transaction as the helper runs it ----------

  method SumBytes(m: map<Pid, nat>) returns (total: nat)
    ensures total == Sum(m)
  {
    total := 0;
    var rest := m;
    while rest.Keys != {}
      invariant total + Sum(rest) == Sum(m)
      decreases |rest|
    {
      SomePid(rest.Keys);
      var p :| p in rest.Keys;
      SumRemove(rest, p);
      total := total + rest[p];
      rest := rest - {p};
    }
  }

  function Restrict(m: map<Pid, nat>, pids: set<Pid>): map<Pid, nat> {
    map p | p in m && p in pids :: m[p]
  }

  lemma RestrictStep(m: map<Pid, nat>, pids: set<Pid>, p: Pid)
    requires p in pids
    ensures Sum(Restrict(m, pids))
         == (if p in m then m[p] else 0) + Sum(Restrict(m, pids - {p}))
  {
    if p in m {
      SumRemove(Restrict(m, pids), p);
    }
    assert Restrict(m, pids) - {p} == Restrict(m, pids - {p});
    if p !in m {
      assert Restrict(m, pids) == Restrict(m, pids - {p});
    }
  }

  lemma CreditKeysStep(first: LeaseUsage, credits: map<Pid, nat>, done: set<Pid>, p: Pid)
    requires p in first
    ensures CreditKeys(first, Restrict(credits, done + {p}))
         == CreditKeys(first, Restrict(credits, done))
            + (if p in credits then {(p, first[p].identity)} else {})
  {
    var before, after := Restrict(credits, done), Restrict(credits, done + {p});
    forall k | k in CreditKeys(first, after)
      ensures k in CreditKeys(first, before) || (p in credits && k == (p, first[p].identity))
    {
      if k.0 != p {
        assert k.0 in before;
      }
    }
    forall k | k in CreditKeys(first, before) ensures k in CreditKeys(first, after) {
      assert k.0 in after;
    }
    if p in credits {
      assert p in after && (p, first[p].identity) in CreditKeys(first, after);
    }
  }

  /** What the visit of a process decides is whether it is among the lease's credits. */
  lemma VisitDecides(first: LeaseUsage, second: LeaseUsage, before: set<ProcessKey>, done: set<Pid>, p: Pid)
    requires p in first && p !in done
    ensures
      var all := Credits(first, second, before);
      var key := (p, first[p].identity);
      && (p in all <==> p in second && first[p].identity == second[p].identity
                        && key !in before + CreditKeys(first, Restrict(all, done)))
      && (p in all ==> all[p] == Min(first[p].bytes, second[p].bytes))
  {
  }

  /** One visit moves a process from what is left to what is done. */
  lemma VisitStep(first: LeaseUsage, second: LeaseUsage, before: set<ProcessKey>, rest: set<Pid>, done: set<Pid>, p: Pid)
    requires p in first && p in rest && p !in done
    ensures
      var all := Credits(first, second, before);
      var key := (p, first[p].identity);
      var keys := before + CreditKeys(first, Restrict(all, done));
      var credited := p in second && first[p].identity == second[p].identity && key !in keys;
      && Sum(Restrict(all, rest)) == (if credited then Min(first[p].bytes, second[p].bytes) else 0) + Sum(Restrict(all, rest - {p}))
      && before + CreditKeys(first, Restrict(all, done + {p})) == keys + (if credited then {key} else {})
  {
    var all := Credits(first, second, before);
    RestrictStep(all, rest, p);
    CreditKeysStep(first, all, done, p);
    VisitDecides(first, second, before, done, p);
  }

  /** Credits one lease, visiting its processes in an arbitrary order. */
  method CreditLease(first: LeaseUsage, second: LeaseUsage, before: set<ProcessKey>)
    returns (credited: nat, taken: set<ProcessKey>)
    ensures credited == Sum(Credits(first, second, before))
    ensures taken == before + CreditKeys(first, Credits(first, second, before))
  {
    ghost var all := Credits(first, second, before);
    ghost var done: set<Pid> := {};
    credited, taken := 0, before;
    var rest := first.Keys;
    assert Restrict(all, rest) == all;
    while rest != {}
      invariant done !! rest && done + rest == first.Keys
      invariant credited + Sum(Restrict(all, rest)) == Sum(all)
      invariant taken == before + CreditKeys(first, Restrict(all, done))
      decreases rest
    {
      SomePid(rest);
      var p :| p in rest;
      VisitStep(first, second, before, rest, done, p);
      var key := (p, first[p].identity);
      if p in second && first[p].identity == second[p].identity && key !in taken {
        taken := taken + {key};
        credited := credited + Min(first[p].bytes, second[p].bytes);
      }
      rest := rest - {p};
      done := done + {p};
    }
    assert Restrict(all, done) == all;
    assert Restrict(all, rest).Keys == {};
  }

  lemma TakenStep(ids: seq<LeaseId>, i: nat, s0: Snapshot, s1: Snapshot)
    requires i < |ids|
    ensures Taken(ids[..i + 1], s0, s1) == Taken(ids[..i], s0, s1) + CreditKeys(UsageOf(s0, ids[i]), CreditsAt(ids, i, s0, s1))
  {
    assert ids[..i + 1][..i] == ids[..i];
  }

  /** The turn of one lease in that order. */
  method CreditNext(ids: seq<LeaseId>, i: nat, s0: Snapshot, s1: Snapshot, before: set<ProcessKey>)
    returns (credited: int, peak: int, taken: set<ProcessKey>)
    requires i < |ids| && before == Taken(ids[..i], s0, s1)
    ensures credited == Sum(CreditsAt(ids, i, s0, s1)) && peak == RssPeak(ids[i], s0, s1)
    ensures taken == Taken(ids[..i + 1], s0, s1)
  {
    var first, second := UsageOf(s0, ids[i]), UsageOf(s1, ids[i]);
    var rss0 := SumBytes(RssBytes(first));
    var rss1 := SumBytes(RssBytes(second));
    credited, taken := CreditLease(first, second, before);
    peak := Max(rss0, rss1);
    TakenStep(ids, i, s0, s1);
  }

  /** The two passes over the leases: what each is credited, and what that leaves to grow. */
  method CreditAll(ids: seq<LeaseId>, s0: Snapshot, s1: Snapshot)
    returns (used: seq<int>, peaks: seq<int>)
    ensures used == Credited(ids, s0, s1)
    ensures peaks == RssPeaks(ids, s0, s1)
  {
    ghost var allUsed, allPeaks := Credited(ids, s0, s1), RssPeaks(ids, s0, s1);
    used, peaks := [], [];
    var taken: set<ProcessKey> := {};
    for i := 0 to |ids|
      invariant used == allUsed[..i] && peaks == allPeaks[..i]
      invariant taken == Taken(ids[..i], s0, s1)
    {
      var c, peak;
      c, peak, taken := CreditNext(ids, i, s0, s1, taken);
      assert c == allUsed[i] && peak == allPeaks[i];
      used, peaks := used + [c], peaks + [peak];
    }
  }

  method Commitments(leases: seq<Lease>, used: seq<int>, sizing: Option<LeaseId>)
    returns (r: Result<(int, bool)>)
    requires |leases| == |used|
    ensures r.Ok? <==> forall i :: 0 <= i < |leases| ==> leases[i].capacity > 0
    ensures r.Ok? ==> r.value == (FutureHeadroom(leases, used, sizing), Violation(leases, used))
    ensures r.Ok? ==>
      && r.value.0 == Total(HeldBack(leases, used, sizing))
      && (r.value.1 <==> exists i :: 0 <= i < |leases| && leases[i].basis == ExplicitLimit && used[i] > leases[i].capacity)
  {
    var headroom, violation := 0, false;
    for i := 0 to |leases|
      invariant headroom == FutureHeadroom(leases[..i], used[..i], sizing)
      invariant violation == Violation(leases[..i], used[..i])
      invariant forall k :: 0 <= k < i ==> leases[k].capacity > 0
    {
      var lease := leases[i];
      if lease.capacity <= 0 {
        return Err("ledger contains an invalid capacity commitment");
      }
      assert leases[..i + 1][..i] == leases[..i] && used[..i + 1][..i] == used[..i];
      if used[i] > lease.capacity {
        if lease.basis.ExplicitLimit? {
          violation := true;
        }
      } else if lease.basis.ExplicitLimit? || sizing == Some(lease.id) {
        headroom := headroom + Max(0, lease.capacity - used[i]);
      }
    }
    assert leases[..|leases|] == leases && used[..|leases|] == used;
    HeadroomIsTotal(leases, used, sizing);
    r := Ok((headroom, violation));
  }

  /** The whole transaction; `Err` stands for the exceptions that abandon it. */
  method CapacityTransaction(leases: seq<Lease>, b: Bracket, reserve: int, sizing: Option<LeaseId>)
    returns (r: Result<(int, Report)>)
    ensures r.Ok? <==> Readable(leases, b)
    ensures r.Ok? ==> r.value == (b.host0.total, ReportOf(leases, b, reserve, sizing))
    ensures r.Ok? ==>
      && (r.value.1.safe <==> Backs(leases, b, reserve, sizing))
      && r.value.1.required == reserve + Total(HeldBack(leases, CreditedIn(leases, b), sizing))
  {
    var private0 := PrivateSnapshot(leases, b.view0);
    var private1 := PrivateSnapshot(leases, b.view1);
    if !ValidReading(b.host0) || !ValidReading(b.host1) || !ValidReading(b.host2) {
      return Err("invalid host-memory counters");
    }
    if private0.Err? || private1.Err? {
      return Err("private snapshot failed");
    }
    if !(b.host0.total == b.host1.total == b.host2.total) {
      return Err("physical-memory total changed during admission transaction");
    }
    var ids := Ids(leases);
    var used, peaks := CreditAll(ids, private0.value, private1.value);
    var commitments := Commitments(leases, used, sizing);
    if commitments.Err? {
      return Err(commitments.reason);
    }
    var (headroom, violation) := commitments.value;
    r := Ok((b.host0.total, Assemble(b, reserve, ids, used, peaks, headroom, violation)));
    SafeExactlyWhenBacked(leases, b, reserve, sizing);
  }

  // ---------- the bracket is conservative ----------

  ghost function KeysAt(ids: seq<LeaseId>, i: nat, s0: Snapshot, s1: Snapshot): set<ProcessKey>
    requires i < |ids|
  {
    CreditKeys(UsageOf(s0, ids[i]), CreditsAt(ids, i, s0, s1))
  }

  lemma {:induction false} TakenHoldsEarlierCredits(ids: seq<LeaseId>, i: nat, s0: Snapshot, s1: Snapshot)
    requires i < |ids|
    ensures KeysAt(ids, i, s0, s1) <= Taken(ids, s0, s1)
  {
    var n := |ids| - 1;
    if i < n {
      TakenHoldsEarlierCredits(ids[..n], i, s0, s1);
      assert ids[..n][..i] == ids[..i];
    }
  }

  /** No process identity is credited to two leases. */
  lemma NoDoubleCredit(ids: seq<LeaseId>, i: nat, j: nat, s0: Snapshot, s1: Snapshot)
    requires i < j < |ids|
    ensures KeysAt(ids, i, s0, s1) !! KeysAt(ids, j, s0, s1)
  {
    TakenHoldsEarlierCredits(ids[..j], i, s0, s1);
    assert ids[..j][..i] == ids[..i];
    assert forall k :: k in KeysAt(ids, j, s0, s1) ==> k !in Taken(ids[..j], s0, s1);
  }

  /** The private memory each lease shows in one snapshot alone. */
  ghost function ShownIn(leases: seq<Lease>, s: Snapshot): (r: seq<int>)
    ensures |r| == |leases|
  {
    seq(|leases|, i requires 0 <= i < |leases| => Sum(PrivateBytes(UsageOf(s, leases[i].id))))
  }

  lemma CreditsBelowSnapshots(first: LeaseUsage, second: LeaseUsage, taken: set<ProcessKey>)
    ensures Sum(Credits(first, second, taken)) <= Sum(PrivateBytes(first))
    ensures Sum(Credits(first, second, taken)) <= Sum(PrivateBytes(second))
  {
    SumMonotone(Credits(first, second, taken), PrivateBytes(first));
    SumMonotone(Credits(first, second, taken), PrivateBytes(second));
  }

  lemma {:induction false} HeadroomAntitone(
    leases: seq<Lease>, less: seq<int>, more: seq<int>, sizing: Option<LeaseId>)
    requires |leases| == |less| == |more|
    requires forall i :: 0 <= i < |leases| ==> less[i] <= more[i]
    ensures FutureHeadroom(leases, more, sizing) <= FutureHeadroom(leases, less, sizing)
  {
    if leases != [] {
      var n := |leases| - 1;
      HeadroomAntitone(leases[..n], less[..n], more[..n], sizing);
    }
  }

  /** A safe transaction is safe for each of its three host readings against each of its
      two private-memory snapshots: that reading still exceeds the reserve plus all the
      growth that the snapshot alone would leave to the counted leases. */
  lemma SafeForEveryReading(
    leases: seq<Lease>, b: Bracket, reserve: int, sizing: Option<LeaseId>, h: HostReading, v: View)
    requires Readable(leases, b) && ReportOf(leases, b, reserve, sizing).safe
    requires h == b.host0 || h == b.host1 || h == b.host2
    requires v == b.view0 || v == b.view1
    ensures h.available >
      reserve + FutureHeadroom(leases, ShownIn(leases, PrivateSnapshot(leases, v).value), sizing)
    ensures h.available >
      reserve + Total(HeldBack(leases, ShownIn(leases, PrivateSnapshot(leases, v).value), sizing))
  {
    var ids := Ids(leases);
    var s0, s1 := PrivateSnapshot(leases, b.view0).value, PrivateSnapshot(leases, b.view1).value;
    var used, shown := CreditedIn(leases, b), ShownIn(leases, PrivateSnapshot(leases, v).value);
    forall i | 0 <= i < |leases| ensures used[i] <= shown[i] {
      CreditsBelowSnapshots(UsageOf(s0, ids[i]), UsageOf(s1, ids[i]), Taken(ids[..i], s0, s1));
    }
    HeadroomAntitone(leases, used, shown, sizing);
    HeadroomIsTotal(leases, shown, sizing);
  }

  // ---------- clipping an inferred lease ----------

  /** The allowance the readings back once the candidate's own commitment is taken out. */
  function LiveBackedAllowance(rep: Report, lease: Lease, maxCommand: int): (int, int) {
    var credited := if lease.id in rep.credited then Max(0, rep.credited[lease.id]) else 0;
    var candidateFuture := Max(0, lease.capacity - credited);
    var requiredWithout := Max(0, rep.required - candidateFuture);
    var backed := Max(0, rep.floor - requiredWithout - MIB);
    (Min(maxCommand, FloorNonnegativeMib(backed - lease.overhead)), backed)
  }

  function ClippedBasis(basis: Basis): Basis {
    if basis.LearnedPlus25? then LearnedLiveHeadroom else basis
  }

  predicate MayClip(rep: Report, lease: Lease, maxCommand: int) {
    && !rep.safe && Inferred(lease.basis) && !rep.violation
    && MIB <= LiveBackedAllowance(rep, lease, maxCommand).0 < lease.allowance
  }

  function ClipLease(rep: Report, lease: Lease, maxCommand: int): Lease {
    if !MayClip(rep, lease, maxCommand) then lease
    else
      var live := LiveBackedAllowance(rep, lease, maxCommand).0;
      lease.(allowance := live, capacity := live + lease.overhead, basis := ClippedBasis(lease.basis))
  }

  /** The report the helper returns after a clip: the delta is subtracted, not recomputed. */
  function ClipReport(rep: Report, lease: Lease, maxCommand: int): Report {
    if !MayClip(rep, lease, maxCommand) then rep
    else
      var delta := lease.capacity - ClipLease(rep, lease, maxCommand).capacity;
      rep.(safe := true, headroom := rep.headroom - delta, required := rep.required - delta)
  }

  /** Two lease lists that agree except that lease `at` has another size and another
      inferred basis see the same processes. */
  ghost predicate Resized(leases: seq<Lease>, at: nat, resized: Lease) {
    && at < |leases|
    && Inferred(leases[at].basis) && Inferred(resized.basis)
    && resized == leases[at].(allowance := resized.allowance, capacity := resized.capacity, basis := resized.basis)
  }

  /** A snapshot depends only on the ids and the owners of the leases. */
  lemma {:induction false} SameOwnersSameSnapshot(a: seq<Lease>, b: seq<Lease>, view: View)
    requires |a| == |b|
    requires forall i :: 0 <= i < |a| ==> a[i].id == b[i].id && a[i].owner == b[i].owner
    ensures PrivateSnapshot(a, view) == PrivateSnapshot(b, view)
  {
    if a != [] {
      SameOwnersSameSnapshot(a[..|a| - 1], b[..|a| - 1], view);
    }
  }

  lemma {:induction false} SameTermsSameHeadroom(a: seq<Lease>, b: seq<Lease>, used: seq<int>, sizing: Option<LeaseId>)
    requires |a| == |b| == |used|
    requires forall i :: 0 <= i < |a| ==> a[i].id == b[i].id && a[i].basis == b[i].basis && a[i].capacity == b[i].capacity
    ensures FutureHeadroom(a, used, sizing) == FutureHeadroom(b, used, sizing)
  {
    if a != [] {
      var n := |a| - 1;
      SameTermsSameHeadroom(a[..n], b[..n], used[..n], sizing);
    }
  }

  /** The transaction does not read a lease's expiry. */
  lemma ExpiryIsNotRead(
    leases: seq<Lease>, at: nat, expiry: real, b: Bracket, reserve: int, sizing: Option<LeaseId>)
    requires at < |leases| && Readable(leases, b)
    ensures Readable(leases[at := leases[at].(expiresAt := expiry)], b)
    ensures ReportOf(leases[at := leases[at].(expiresAt := expiry)], b, reserve, sizing)
         == ReportOf(leases, b, reserve, sizing)
  {
    var after := leases[at := leases[at].(expiresAt := expiry)];
    SameOwnersSameSnapshot(leases, after, b.view0);
    SameOwnersSameSnapshot(leases, after, b.view1);
    assert Ids(after) == Ids(leases);
    var used := CreditedIn(leases, b);
    SameTermsSameHeadroom(leases, after, used, sizing);
    assert forall i :: 0 <= i < |leases| ==> after[i].basis == leases[i].basis && after[i].capacity == leases[i].capacity;
    assert Violation(after, used) == Violation(leases, used);
  }

  /** Resizing the lease under sizing moves the headroom by its own commitment only. */
  lemma {:induction false} ResizeMovesOwnHeadroom(leases: seq<Lease>, at: nat, resized: Lease, used: seq<int>)
    requires Resized(leases, at, resized) && UniqueIds(leases) && |used| == |leases|
    ensures
      var sizing := Some(leases[at].id);
      && FutureHeadroom(leases[at := resized], used, sizing)
         == FutureHeadroom(leases, used, sizing)
            - Headroom(leases[at].capacity, used[at]) + Headroom(resized.capacity, used[at])
      && Headroom(leases[at].capacity, used[at]) <= FutureHeadroom(leases, used, sizing)
  {
    var n := |leases| - 1;
    var after := leases[at := resized];
    if at < n {
      assert after[..n] == leases[..n][at := resized];
      ResizeMovesOwnHeadroom(leases[..n], at, resized, used[..n]);
      assert leases[at].id != leases[n].id;
    } else {
      assert after[..n] == leases[..n];
    }
  }

  lemma {:induction false} ByLeaseLookup(ids: seq<LeaseId>, values: seq<int>, at: nat)
    requires |ids| == |values| && at < |ids|
    requires forall i, j :: 0 <= i < j < |ids| ==> ids[i] != ids[j]
    ensures ids[at] in ByLease(ids, values) && ByLease(ids, values)[ids[at]] == values[at]
  {
    var n := |ids| - 1;
    if at < n {
      ByLeaseLookup(ids[..n], values[..n], at);
    }
  }

  lemma ResizeKeepsReadings(leases: seq<Lease>, at: nat, resized: Lease, b: Bracket)
    requires Resized(leases, at, resized) && resized.capacity > 0 && Readable(leases, b)
    ensures Readable(leases[at := resized], b)
    ensures CreditedIn(leases[at := resized], b) == CreditedIn(leases, b)
    ensures Violation(leases[at := resized], CreditedIn(leases, b)) == Violation(leases, CreditedIn(leases, b))
  {
    SameOwnersSameSnapshot(leases, leases[at := resized], b.view0);
    SameOwnersSameSnapshot(leases, leases[at := resized], b.view1);
    assert Ids(leases[at := resized]) == Ids(leases);
    var used := CreditedIn(leases, b);
    var after := leases[at := resized];
    assert forall i :: 0 <= i < |leases| && i != at ==> after[i] == leases[i];
    if Violation(leases, used) {
      var i :| 0 <= i < |leases| && leases[i].basis.ExplicitLimit? && used[i] > leases[i].capacity;
      assert after[i] == leases[i];
    }
  }

  /** Clip soundness. Putting the clipped lease in place of the candidate and recomputing
      the transaction on the same readings gives a safe answer with a MiB to spare, even
      when the memory already credited to the lease exceeds its clipped capacity. The
      reported headroom is the recomputed one exactly when it does not. */
  lemma ClipIsSound(leases: seq<Lease>, at: nat, b: Bracket, reserve: int, maxCommand: int)
    requires UniqueIds(leases) && at < |leases| && reserve >= 0
    requires leases[at].capacity == leases[at].allowance + leases[at].overhead
    requires leases[at].overhead >= 0
    requires Readable(leases, b)
    requires MayClip(ReportOf(leases, b, reserve, Some(leases[at].id)), leases[at], maxCommand)
    ensures
      var sizing := Some(leases[at].id);
      var rep := ReportOf(leases, b, reserve, sizing);
      var clipped := ClipLease(rep, leases[at], maxCommand);
      var after := leases[at := clipped];
      && Readable(after, b)
      && ReportOf(after, b, reserve, sizing).safe
      && ReportOf(after, b, reserve, sizing).floor >= ReportOf(after, b, reserve, sizing).required + MIB
      && leases[at].id in rep.credited
      && (ClipReport(rep, leases[at], maxCommand).headroom == ReportOf(after, b, reserve, sizing).headroom
          <==> rep.credited[leases[at].id] <= clipped.capacity)
  {
    var rep := ReportOf(leases, b, reserve, Some(leases[at].id));
    var clipped := ClipLease(rep, leases[at], maxCommand);
    assert Resized(leases, at, clipped);
    ResizeKeepsReadings(leases, at, clipped, b);
    var used := CreditedIn(leases, b);
    ResizeMovesOwnHeadroom(leases, at, clipped, used);
    ByLeaseLookup(Ids(leases), used, at);
  }

  /** A whole-MiB allowance fits into what is backed if and only if it is within the rounded room. */
  lemma RoomIsLargest(backed: int, overhead: int, maxCommand: int, a: int)
    requires WholeMib(a) && a >= MIB
    ensures a <= Min(maxCommand, FloorNonnegativeMib(Max(0, backed) - overhead)) <==>
      a <= maxCommand && a + overhead <= Max(0, backed)
  {
    var room := Max(0, backed) - overhead;
    var floor := FloorNonnegativeMib(room);
    if a <= room {
      assert a / MIB <= floor / MIB;
    }
  }

  /** The clip of a reservation takes no more than it must: a whole-MiB allowance below the ceiling
      would leave a safe ledger with a MiB to spare if and only if it is within the clipped one. */
  lemma ReservedClipIsLargest(leases: seq<Lease>, at: nat, a: int, b: Bracket, reserve: int, maxCommand: int)
    requires UniqueIds(leases) && at < |leases| && reserve >= 0 && Readable(leases, b)
    requires leases[at].owner.state.Reserved? && Inferred(leases[at].basis) && leases[at].overhead >= 0
    requires WholeMib(a) && MIB <= a <= maxCommand
    ensures
      var sizing := Some(leases[at].id);
      var rep := ReportOf(leases, b, reserve, sizing);
      var after := leases[at := leases[at].(allowance := a, capacity := a + leases[at].overhead)];
      && Readable(after, b)
      && (ReportOf(after, b, reserve, sizing).floor >= ReportOf(after, b, reserve, sizing).required + MIB
          <==> a <= LiveBackedAllowance(rep, leases[at], maxCommand).0)
  {
    var lease := leases[at];
    var resized := lease.(allowance := a, capacity := a + lease.overhead);
    var rep := ReportOf(leases, b, reserve, Some(lease.id));
    ResizedReport(leases, at, resized, b, reserve);
    ReservedCreditIsZero(leases, at, b, reserve);
    RoomAboveOthers(rep, lease, maxCommand, a);
  }

  /** With `a` as its allowance the lease leaves a MiB to spare. */
  ghost predicate Fits(leases: seq<Lease>, at: nat, a: int, b: Bracket, reserve: int)
    requires at < |leases|
  {
    var after := leases[at := leases[at].(allowance := a, capacity := a + leases[at].overhead)];
    && Readable(after, b)
    && ReportOf(after, b, reserve, Some(leases[at].id)).floor >= ReportOf(after, b, reserve, Some(leases[at].id)).required + MIB
  }

  lemma FitsWithinLive(leases: seq<Lease>, at: nat, a: int, b: Bracket, reserve: int, maxCommand: int)
    requires UniqueIds(leases) && at < |leases| && reserve >= 0 && Readable(leases, b)
    requires leases[at].owner.state.Reserved? && Inferred(leases[at].basis) && leases[at].overhead >= 0
    requires WholeMib(a) && MIB <= a <= maxCommand
    ensures Fits(leases, at, a, b, reserve) <==>
      a <= LiveBackedAllowance(ReportOf(leases, b, reserve, Some(leases[at].id)), leases[at], maxCommand).0
  {
    ReservedClipIsLargest(leases, at, a, b, reserve, maxCommand);
  }

  lemma FitsAsItIs(leases: seq<Lease>, at: nat, b: Bracket, reserve: int)
    requires at < |leases| && Readable(leases, b) && leases[at].capacity == leases[at].allowance + leases[at].overhead
    requires Fits(leases, at, leases[at].allowance, b, reserve)
    ensures
      var rep := ReportOf(leases, b, reserve, Some(leases[at].id));
      rep.violation || rep.safe
  {
    var lease := leases[at];
    assert leases[at := lease.(allowance := lease.allowance, capacity := lease.allowance + lease.overhead)] == leases;
  }

  /** An inferred reservation is clipped if and only if it is unsafe as it stands, no explicit limit
      is overrun, and some whole-MiB allowance below the ceiling would leave a MiB to spare. */
  lemma ClippedExactlyWhenItCanBe(leases: seq<Lease>, at: nat, b: Bracket, reserve: int, maxCommand: int)
    requires UniqueIds(leases) && at < |leases| && reserve >= 0 && Readable(leases, b) && WholeMib(maxCommand)
    requires leases[at].owner.state.Reserved? && Inferred(leases[at].basis) && leases[at].overhead >= 0
    requires leases[at].capacity == leases[at].allowance + leases[at].overhead
    requires WholeMib(leases[at].allowance) && MIB <= leases[at].allowance <= maxCommand
    ensures
      var rep := ReportOf(leases, b, reserve, Some(leases[at].id));
      MayClip(rep, leases[at], maxCommand) <==>
        && !rep.safe && !rep.violation
        && exists a :: MIB <= a <= maxCommand && WholeMib(a) && Fits(leases, at, a, b, reserve)
  {
    var rep := ReportOf(leases, b, reserve, Some(leases[at].id));
    var live := LiveBackedAllowance(rep, leases[at], maxCommand).0;
    var own := leases[at].allowance;
    if live >= MIB {
      FitsWithinLive(leases, at, live, b, reserve, maxCommand);
    }
    forall a | MIB <= a <= maxCommand && WholeMib(a) ensures Fits(leases, at, a, b, reserve) <==> a <= live {
      FitsWithinLive(leases, at, a, b, reserve, maxCommand);
    }
    if own <= live {
      FitsWithinLive(leases, at, own, b, reserve, maxCommand);
      FitsAsItIs(leases, at, b, reserve);
    }
  }

  /** The report after resizing the lease being sized, in terms of the report before. */
  lemma ResizedReport(leases: seq<Lease>, at: nat, resized: Lease, b: Bracket, reserve: int)
    requires UniqueIds(leases) && Resized(leases, at, resized) && resized.capacity > 0 && Readable(leases, b)
    ensures
      var sizing := Some(leases[at].id);
      var rep := ReportOf(leases, b, reserve, sizing);
      && leases[at].id in rep.credited && Readable(leases[at := resized], b)
      && var after := ReportOf(leases[at := resized], b, reserve, sizing);
      var credit := rep.credited[leases[at].id];
      && after.floor == rep.floor
      && after.required == rep.required - Headroom(leases[at].capacity, credit) + Headroom(resized.capacity, credit)
      && Headroom(leases[at].capacity, credit) <= rep.required - reserve
  {
    ResizeKeepsReadings(leases, at, resized, b);
    var used := CreditedIn(leases, b);
    ResizeMovesOwnHeadroom(leases, at, resized, used);
    ByLeaseLookup(Ids(leases), used, at);
  }

  lemma ReservedCreditIsZero(leases: seq<Lease>, at: nat, b: Bracket, reserve: int)
    requires UniqueIds(leases) && at < |leases| && Readable(leases, b) && leases[at].owner.state.Reserved?
    ensures
      var rep := ReportOf(leases, b, reserve, Some(leases[at].id));
      leases[at].id in rep.credited && rep.credited[leases[at].id] == 0
  {
    var used := CreditedIn(leases, b);
    ByLeaseLookup(Ids(leases), used, at);
    ReservedIsUncredited(leases, b.view0, at);
    assert CreditsAt(Ids(leases), at, PrivateSnapshot(leases, b.view0).value,
                     PrivateSnapshot(leases, b.view1).value).Keys == {};
  }

  lemma RoomAboveOthers(rep: Report, lease: Lease, maxCommand: int, a: int)
    requires lease.id in rep.credited && rep.credited[lease.id] == 0 && lease.overhead >= 0
    requires Headroom(lease.capacity, 0) <= rep.required
    requires WholeMib(a) && MIB <= a <= maxCommand
    ensures rep.floor >= rep.required - Headroom(lease.capacity, 0) + (a + lease.overhead) + MIB
      <==> a <= LiveBackedAllowance(rep, lease, maxCommand).0
  {
    RoomIsLargest(rep.floor - (rep.required - Headroom(lease.capacity, 0)) - MIB, lease.overhead, maxCommand, a);
  }

  // ---------- when the reported headroom is the recomputed one ----------

  /** Resident memory includes private memory in every process that was sampled. */
  ghost predicate PrivateWithinRss(s: Snapshot) {
    forall id, p :: id in s && p in s[id] ==> s[id][p].bytes <= s[id][p].rss
  }

  lemma CreditWithinRssPeak(ids: seq<LeaseId>, i: nat, s0: Snapshot, s1: Snapshot)
    requires i < |ids| && PrivateWithinRss(s0)
    ensures Credited(ids, s0, s1)[i] <= RssPeaks(ids, s0, s1)[i]
  {
    SumMonotone(CreditsAt(ids, i, s0, s1), RssBytes(UsageOf(s0, ids[i])));
  }

  /** A claim is admitted only if the sampled resident memory fits the control overhead,
      and then the report of a clipped claim carries the exact headroom. */
  lemma AdmittedClaimReportIsExact(leases: seq<Lease>, at: nat, b: Bracket, reserve: int, maxCommand: int)
    requires UniqueIds(leases) && at < |leases| && reserve >= 0
    requires leases[at].capacity == leases[at].allowance + leases[at].overhead && leases[at].overhead >= 0
    requires Readable(leases, b) && PrivateWithinRss(PrivateSnapshot(leases, b.view0).value)
    requires
      var rep := ReportOf(leases, b, reserve, Some(leases[at].id));
      && MayClip(rep, leases[at], maxCommand)
      && (leases[at].id in rep.rssPeak ==> rep.rssPeak[leases[at].id] <= leases[at].overhead)
    ensures
      var sizing := Some(leases[at].id);
      var rep := ReportOf(leases, b, reserve, sizing);
      var after := leases[at := ClipLease(rep, leases[at], maxCommand)];
      Readable(after, b) &&
      ClipReport(rep, leases[at], maxCommand).headroom == ReportOf(after, b, reserve, sizing).headroom
  {
    ClipIsSound(leases, at, b, reserve, maxCommand);
    var ids := Ids(leases);
    var s0, s1 := PrivateSnapshot(leases, b.view0).value, PrivateSnapshot(leases, b.view1).value;
    CreditWithinRssPeak(ids, at, s0, s1);
    ByLeaseLookup(ids, Credited(ids, s0, s1), at);
    ByLeaseLookup(ids, RssPeaks(ids, s0, s1), at);
  }

  const WITNESS_LEASE := Lease(
    "a", "t", 9 * MIB, LearnedPlus25, None, MIB, 10 * MIB, 0.0,
    Owner(Running, NO_PROC, Proc(7, "7:1"), 7, []))

  const WITNESS_VIEW := View(
    map[7 := ProcessRow(1, 7, "7:1", 6 * MIB)], map[7 := 6 * MIB], Os(map[7 := "7:1"], {}, {}, {}))

  const WITNESS_HOST := HostReading(100 * MIB, 13 * MIB)

  const WITNESS := Bracket(WITNESS_HOST, WITNESS_VIEW, WITNESS_HOST, WITNESS_VIEW, WITNESS_HOST)

  lemma WitnessUsage()
    ensures OwnedUsage(WITNESS_LEASE.owner, WITNESS_VIEW) == Ok(map[7 := Usage("7:1", 6 * MIB, 6 * MIB)])
  {
    var owner := WITNESS_LEASE.owner;
    var rows := OwnedRows(owner, WITNESS_VIEW.rows);
    assert rows.Ok? && 7 in rows.value;
    assert rows.value == {7};
    assert StillThere(7, WITNESS_VIEW);
    assert forall p :: p in rows.value ==> p == 7;
    var usage: LeaseUsage :=
      map p | p in rows.value && p in WITNESS_VIEW.resident && StillThere(p, WITNESS_VIEW) ::
        Usage(WITNESS_VIEW.rows[p].identity, Max(0, WITNESS_VIEW.resident[p]), Max(0, WITNESS_VIEW.rows[p].rss));
    assert 7 in usage;
    assert usage == map[7 := Usage("7:1", 6 * MIB, 6 * MIB)];
  }

  lemma WitnessCredits()
    ensures
      var leases := [WITNESS_LEASE];
      Readable(leases, WITNESS) && CreditedIn(leases, WITNESS) == [6 * MIB]
  {
    var leases := [WITNESS_LEASE];
    WitnessUsage();
    assert leases[..|leases| - 1] == [] && leases[|leases| - 1] == WITNESS_LEASE;
    var empty: Snapshot := map[];
    assert PrivateSnapshot(leases, WITNESS_VIEW) == Ok(empty["a" := map[7 := Usage("7:1", 6 * MIB, 6 * MIB)]]);
    var snap := PrivateSnapshot(leases, WITNESS_VIEW).value;
    var credits := CreditsAt(Ids(leases), 0, snap, snap);
    assert credits == map[7 := 6 * MIB];
    SumRemove(credits, 7);
    assert (credits - {7}).Keys == {};
    assert CreditedIn(leases, WITNESS)[0] == 6 * MIB;
  }

  lemma WitnessReport()
    ensures Readable([WITNESS_LEASE], WITNESS)
    ensures
      var rep := ReportOf([WITNESS_LEASE], WITNESS, 10 * MIB, Some("a"));
      && !rep.safe && !rep.violation && rep.floor == 13 * MIB && rep.headroom == 4 * MIB && rep.required == 14 * MIB
      && "a" in rep.credited && rep.credited["a"] == 6 * MIB
  {
    var leases := [WITNESS_LEASE];
    WitnessCredits();
    var used := CreditedIn(leases, WITNESS);
    ByLeaseLookup(Ids(leases), used, 0);
    assert leases[..|leases| - 1] == [] && used[..|leases| - 1] == [];
    assert FutureHeadroom(leases, used, Some("a")) == 4 * MIB;
  }

  lemma ClipGoesBelowZero(rep: Report)
    requires !rep.safe && !rep.violation && rep.floor == 13 * MIB && rep.headroom == 4 * MIB && rep.required == 14 * MIB
    requires "a" in rep.credited && rep.credited["a"] == 6 * MIB
    ensures MayClip(rep, WITNESS_LEASE, 50 * MIB) && ClipReport(rep, WITNESS_LEASE, 50 * MIB).headroom == -4 * MIB
  {
  }

  /** Without that check the report can be wrong: here a claimed lease already uses 6 MiB,
      is clipped to a capacity of 2 MiB, and its reported headroom is below zero. */
  lemma ReportedHeadroomCanBeNegative()
    ensures
      var leases := [WITNESS_LEASE];
      && Readable(leases, WITNESS)
      && var rep := ReportOf(leases, WITNESS, 10 * MIB, Some("a"));
      && MayClip(rep, WITNESS_LEASE, 50 * MIB)
      && ClipReport(rep, WITNESS_LEASE, 50 * MIB).headroom == -4 * MIB
  {
    WitnessReport();
    ClipGoesBelowZero(ReportOf([WITNESS_LEASE], WITNESS, 10 * MIB, Some("a")));
  }
}
