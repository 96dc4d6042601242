/** The active-job registry (src/remrun/_job_observer.py): what a read-only query says about each
    registered job, what launch-time cleanup deletes, and how the two agree. */
module JobQuery {
  import opened Wrappers

  type Pid = int

  /** One process generation: a pid together with the identity it had. */
  datatype Stamp = Stamp(pid: Pid, identity: string)

  datatype ProcessRow = ProcessRow(pid: Pid, identity: Option<string>, pgid: Option<int>)

  /** What the operating system says about a named job object. */
  datatype JobObject = Unreadable | NoSuchName | Members(pids: set<Pid>)

  /** One look at the machine. `gone` holds the pids whose probe answers that there is no such process. */
  datatype View = View(posix: bool, rows: map<Pid, ProcessRow>, gone: set<Pid>, jobObjects: map<string, JobObject>)

  /** The table is keyed by the pids of its rows. */
  predicate Keyed(v: View) {
    forall p :: p in v.rows ==> v.rows[p].pid == p
  }

  datatype Kind = LegacyChild | PosixGroup | ControllerOperation | WindowsJob | WindowsJobV2

  /** A valid record; `groupId` is the owner key read as a number, where it is one. */
  datatype Record = Record(key: string, kind: Kind, root: Stamp, owner: Stamp, witnessed: Stamp, ownerKey: string, groupId: Option<int>)

  datatype IdentityState = Match | Mismatch | Missing | Unsure

  function IdentityOf(s: Stamp, v: View): IdentityState {
    if s.pid in v.rows then
      match v.rows[s.pid].identity
      case None => Unsure
      case Some(identity) => if identity == s.identity then Match else Mismatch
    else if v.posix then if s.pid in v.gone then Missing else Unsure
    else Missing
  }

  /** The generation is proved to have ended. */
  predicate Ended(s: Stamp, v: View) {
    IdentityOf(s, v).Mismatch? || IdentityOf(s, v).Missing?
  }

  predicate IsStamp(row: ProcessRow, s: Stamp) {
    row.pid == s.pid && row.identity == Some(s.identity)
  }

  /** The processes of group `g` other than the observer that owns the record. */
  function GroupMembers(r: Record, g: int, v: View): set<Pid> {
    set p | p in v.rows && v.rows[p].pgid == Some(g) && !IsStamp(v.rows[p], r.owner)
  }

  predicate GroupSeen(g: int, v: View) {
    exists p :: p in v.rows && v.rows[p].pgid == Some(g)
  }

  datatype Verdict = Live | Stale | Unknown

  function SampleGroup(r: Record, v: View): Verdict {
    if r.groupId.None? then Unknown
    else
      var g := r.groupId.value;
      var others := GroupMembers(r, g, v);
      var seen := IdentityOf(r.witnessed, v);
      if seen.Match? then
        var row := v.rows[r.witnessed.pid];
        if IsStamp(row, r.owner) then if others != {} then Live else Unknown
        else if row.pgid == Some(g) && others != {} then Live
        else if row.pgid != Some(g) then Unknown
        else Stale
      else if seen.Unsure? then Unknown
      else if others != {} then Unknown
      else Stale
  }

  function JobObjectOf(r: Record, v: View): JobObject {
    if r.ownerKey in v.jobObjects then v.jobObjects[r.ownerKey] else NoSuchName
  }

  function SampleWindows(r: Record, v: View): Verdict {
    if r.kind.WindowsJobV2? && !IdentityOf(r.owner, v).Match? then Unknown
    else
      match JobObjectOf(r, v)
      case Unreadable => Unknown
      case NoSuchName => Unknown
      case Members(pids) => if pids == {} then Stale else Live
  }

  function SampleStamp(s: Stamp, v: View): Verdict {
    match IdentityOf(s, v)
    case Match => Live
    case Unsure => Unknown
    case _ => Stale
  }

  /** What the query makes of a record in one view. */
  function Sample(r: Record, v: View): Verdict {
    match r.kind
    case LegacyChild => SampleStamp(r.root, v)
    case PosixGroup => if v.posix then SampleGroup(r, v) else Unknown
    case ControllerOperation => SampleStamp(r.witnessed, v)
    case WindowsJob => if v.posix then Unknown else SampleWindows(r, v)
    case WindowsJobV2 => if v.posix then Unknown else SampleWindows(r, v)
  }

  /** What launch-time cleanup deletes; an unreadable group key counts as -1. */
  predicate Deletes(r: Record, v: View) {
    match r.kind
    case LegacyChild => Ended(r.root, v)
    case PosixGroup =>
      var g := if r.groupId.Some? then r.groupId.value else -1;
      if IdentityOf(r.witnessed, v).Match? then false
      else if g > 0 && GroupSeen(g, v) then false
      else Ended(r.witnessed, v)
    case ControllerOperation => Ended(r.witnessed, v)
    case WindowsJob => !v.posix && JobObjectOf(r, v) == Members({})
    case WindowsJobV2 => !v.posix && JobObjectOf(r, v) == Members({})
  }

  // ---- what the verdicts mean ----

  /** The exact process generation is in the table. */
  predicate Shown(s: Stamp, v: View) {
    s.pid in v.rows && v.rows[s.pid].identity == Some(s.identity)
  }

  /** Another generation has the pid, or nothing has it: on POSIX a probe must say so. */
  predicate Dead(s: Stamp, v: View) {
    if s.pid in v.rows then v.rows[s.pid].identity.Some? && v.rows[s.pid].identity != Some(s.identity)
    else v.posix ==> s.pid in v.gone
  }

  /** Somebody other than the observer that owns the record is in its group. */
  ghost predicate OthersInGroup(r: Record, v: View) {
    exists p :: p in v.rows && v.rows[p].pgid == r.groupId && r.groupId.Some?
      && !(v.rows[p].pid == r.owner.pid && v.rows[p].identity == Some(r.owner.identity))
  }

  /** The view shows the job alive: its exact process; or, for a group, the exact witness with another
      process in the group, of which the witness must be one unless it is the observer itself; or, for
      a Windows job, processes in its job object, for the second kind under the exact owner. */
  ghost predicate AliveIn(r: Record, v: View) {
    || (r.kind == LegacyChild && Shown(r.root, v))
    || (r.kind == ControllerOperation && Shown(r.witnessed, v))
    || (r.kind == PosixGroup && v.posix && Shown(r.witnessed, v) && OthersInGroup(r, v)
        && (|| (v.rows[r.witnessed.pid].pid == r.owner.pid && r.witnessed.identity == r.owner.identity)
            || v.rows[r.witnessed.pid].pgid == r.groupId))
    || ((r.kind == WindowsJob || (r.kind == WindowsJobV2 && Shown(r.owner, v))) && !v.posix
        && exists pid, pids :: r.ownerKey in v.jobObjects && v.jobObjects[r.ownerKey] == Members(pids) && pid in pids)
  }

  /** The view shows the job ended: its process is dead; or, for a group, the witness is and nobody but
      the observer is left; or the job object of a Windows job is empty, for the second kind under the
      exact owner. */
  ghost predicate OverIn(r: Record, v: View) {
    || (r.kind == LegacyChild && Dead(r.root, v))
    || (r.kind == ControllerOperation && Dead(r.witnessed, v))
    || (r.kind == PosixGroup && v.posix && r.groupId.Some? && Dead(r.witnessed, v) && !OthersInGroup(r, v))
    || ((r.kind == WindowsJob || (r.kind == WindowsJobV2 && Shown(r.owner, v))) && !v.posix
        && r.ownerKey in v.jobObjects && v.jobObjects[r.ownerKey] == Members({}))
  }

  lemma GroupVerdict(r: Record, v: View)
    requires r.kind.PosixGroup? && v.posix
    ensures SampleGroup(r, v).Live? <==> AliveIn(r, v)
    ensures Keyed(v) ==> (SampleGroup(r, v).Stale? <==> OverIn(r, v))
  {
    if r.groupId.Some? {
      var others := GroupMembers(r, r.groupId.value, v);
      assert (forall p :: p !in others) ==> others == {};
      if OthersInGroup(r, v) {
        var p :| p in v.rows && v.rows[p].pgid == r.groupId
          && !(v.rows[p].pid == r.owner.pid && v.rows[p].identity == Some(r.owner.identity));
        assert p in others;
      }
      if Keyed(v) && Shown(r.witnessed, v) && v.rows[r.witnessed.pid].pgid == r.groupId && !IsStamp(v.rows[r.witnessed.pid], r.owner) {
        assert r.witnessed.pid in others;
      }
    }
  }

  lemma WindowsVerdict(r: Record, v: View)
    requires (r.kind.WindowsJob? || r.kind.WindowsJobV2?) && !v.posix
    ensures SampleWindows(r, v).Live? <==> AliveIn(r, v)
    ensures SampleWindows(r, v).Stale? <==> OverIn(r, v)
  {
    if r.ownerKey in v.jobObjects && v.jobObjects[r.ownerKey].Members? {
      var pids := v.jobObjects[r.ownerKey].pids;
      assert (forall p :: p !in pids) ==> pids == {};
    }
  }

  /** Each verdict is the evidence of the view; without evidence either way a record is unknown. */
  lemma VerdictIsEvidence(r: Record, v: View)
    ensures Sample(r, v).Live? <==> AliveIn(r, v)
    ensures Keyed(v) ==> (Sample(r, v).Stale? <==> OverIn(r, v))
  {
    match r.kind
    case PosixGroup => if v.posix { GroupVerdict(r, v); }
    case WindowsJob => if !v.posix { WindowsVerdict(r, v); }
    case WindowsJobV2 => if !v.posix { WindowsVerdict(r, v); }
    case LegacyChild =>
    case ControllerOperation =>
  }

  /** What cleanup deletes: a dead process; a group whose witness is dead and in which, under a positive
      key, nobody at all is seen; a Windows job, of either kind, with an empty job object. */
  lemma DeletedOnEvidence(r: Record, v: View)
    ensures Deletes(r, v) <==>
      || (r.kind == LegacyChild && Dead(r.root, v))
      || (r.kind == ControllerOperation && Dead(r.witnessed, v))
      || (r.kind == PosixGroup && Dead(r.witnessed, v)
          && !(exists p :: p in v.rows && r.groupId.Some? && r.groupId.value > 0 && v.rows[p].pgid == r.groupId))
      || ((r.kind == WindowsJob || r.kind == WindowsJobV2) && !v.posix
          && r.ownerKey in v.jobObjects && v.jobObjects[r.ownerKey] == Members({}))
  {
  }

  // ---- honesty ----

  /** A group record whose exact witness is in the table is never called stale: the last branch of
      SampleGroup cannot be reached, because such a witness is itself a member of the group. */
  lemma WitnessAliveNeverStale(r: Record, v: View)
    requires Keyed(v) && r.kind.PosixGroup?
    requires r.witnessed.pid in v.rows && v.rows[r.witnessed.pid].identity == Some(r.witnessed.identity)
    ensures !Sample(r, v).Stale?
  {
    var row := v.rows[r.witnessed.pid];
    if r.groupId.Some? && row.pgid == r.groupId && !IsStamp(row, r.owner) {
      assert r.witnessed.pid in GroupMembers(r, r.groupId.value, v);
    }
  }

  /** Where the query can confirm what cleanup concludes. */
  predicate Confirmable(r: Record, v: View) {
    match r.kind
    case LegacyChild => true
    case PosixGroup => v.posix && r.groupId.Some? && (r.groupId.value > 0 || GroupMembers(r, r.groupId.value, v) == {})
    case ControllerOperation => true
    case WindowsJob => true
    case WindowsJobV2 => IdentityOf(r.owner, v).Match?
  }

  /** A row that cleanup deletes is stale to the query in the same view exactly when it is confirmable. */
  lemma DeletedIsStale(r: Record, v: View)
    requires Deletes(r, v)
    ensures Sample(r, v).Stale? <==> Confirmable(r, v)
  {
    match r.kind {
      case PosixGroup =>
        if r.groupId.Some? && r.groupId.value > 0 {
          NoMembersOfUnseenGroup(r, r.groupId.value, v);
        }
      case _ =>
    }
  }

  lemma NoMembersOfUnseenGroup(r: Record, g: int, v: View)
    requires !GroupSeen(g, v)
    ensures GroupMembers(r, g, v) == {}
  {
    assert forall p :: p !in GroupMembers(r, g, v);
  }

  /** In the other direction the query is quicker to give up: it disregards the record's own observer,
      and cleanup keeps the row for as long as even that process is seen in the group. */
  lemma StaleIsDeleted(r: Record, v: View)
    requires Keyed(v) && Sample(r, v).Stale?
    ensures Deletes(r, v) <==> !(r.kind.PosixGroup? && r.groupId.value > 0 && GroupSeen(r.groupId.value, v))
    ensures r.kind.PosixGroup? && GroupSeen(r.groupId.value, v) ==>
      r.owner.pid in v.rows && IsStamp(v.rows[r.owner.pid], r.owner) && v.rows[r.owner.pid].pgid == r.groupId
  {
    if r.kind.PosixGroup? {
      if IdentityOf(r.witnessed, v).Match? {
        WitnessAliveNeverStale(r, v);
      } else {
        OnlyOwnerLeft(r, r.groupId.value, v);
      }
    }
  }

  lemma OnlyOwnerLeft(r: Record, g: int, v: View)
    requires GroupMembers(r, g, v) == {}
    ensures forall p :: p in v.rows && v.rows[p].pgid == Some(g) ==> IsStamp(v.rows[p], r.owner)
  {
    var others := GroupMembers(r, g, v);
    forall p | p in v.rows && v.rows[p].pgid == Some(g) ensures IsStamp(v.rows[p], r.owner) {
      assert p !in others;
    }
  }

  /** Cleanup can delete a group row with a meaningless key while the query still calls it unknown. */
  lemma UnkeyedRowsDisagree() returns (r: Record, v: View)
    ensures Keyed(v) && v.posix && r.kind.PosixGroup? && Deletes(r, v) && Sample(r, v).Unknown?
  {
    var root := Stamp(7, "seven");
    r := Record("jobs:a", PosixGroup, root, root, root, "seven", None);
    v := View(true, map[], {7}, map[]);
  }

  lemma LiveIsNeverDeleted(r: Record, v: View)
    requires Sample(r, v).Live?
    ensures !Deletes(r, v)
  {
  }

  // ---- sequences of records ----

  function Filter(keep: Record -> bool, s: seq<Record>): seq<Record> {
    if s == [] then []
    else
      var n := |s| - 1;
      Filter(keep, s[..n]) + if keep(s[n]) then [s[n]] else []
  }

  predicate UniqueKeys(s: seq<Record>) {
    forall i, j :: 0 <= i < j < |s| ==> s[i].key != s[j].key
  }

  lemma FilterNext(keep: Record -> bool, s: seq<Record>, i: nat)
    requires i < |s|
    ensures Filter(keep, s[..i + 1]) == Filter(keep, s[..i]) + if keep(s[i]) then [s[i]] else []
  {
    assert s[..i + 1][..i] == s[..i];
  }

  lemma {:induction false} FilterMembers(keep: Record -> bool, s: seq<Record>, r: Record)
    ensures multiset(Filter(keep, s))[r] == if keep(r) then multiset(s)[r] else 0
  {
    if s != [] {
      var n := |s| - 1;
      FilterMembers(keep, s[..n], r);
      assert s == s[..n] + [s[n]];
    }
  }

  lemma FilterFrom(keep: Record -> bool, s: seq<Record>, r: Record)
    requires r in Filter(keep, s)
    ensures r in s && keep(r)
  {
    FilterMembers(keep, s, r);
    assert r in multiset(Filter(keep, s));
    assert r in multiset(s);
  }

  /** A filter on either of two exclusive grounds has the records of both filters. */
  lemma {:induction false} FilterSplit(whole: Record -> bool, p: Record -> bool, q: Record -> bool, s: seq<Record>)
    requires forall r :: whole(r) <==> p(r) || q(r)
    requires forall r :: !(p(r) && q(r))
    ensures multiset(Filter(whole, s)) == multiset(Filter(p, s)) + multiset(Filter(q, s))
    ensures |Filter(whole, s)| == |Filter(p, s)| + |Filter(q, s)|
  {
    if s != [] {
      var n := |s| - 1;
      FilterSplit(whole, p, q, s[..n]);
    }
  }

  lemma {:induction false} FilterTwice(both: Record -> bool, p: Record -> bool, q: Record -> bool, s: seq<Record>)
    requires forall r :: both(r) <==> p(r) && q(r)
    ensures Filter(p, Filter(q, s)) == Filter(both, s)
  {
    if s != [] {
      var n := |s| - 1;
      FilterTwice(both, p, q, s[..n]);
      var front := Filter(q, s[..n]);
      if q(s[n]) {
        assert (front + [s[n]])[..|front|] == front;
      } else {
        assert Filter(q, s) == front;
      }
    }
  }

  lemma {:induction false} FilterSame(p: Record -> bool, q: Record -> bool, s: seq<Record>)
    requires forall r :: p(r) == q(r)
    ensures Filter(p, s) == Filter(q, s)
  {
    if s != [] {
      FilterSame(p, q, s[..|s| - 1]);
    }
  }

  lemma {:induction false} FilterAll(p: Record -> bool, s: seq<Record>)
    ensures (forall r :: p(r)) ==> Filter(p, s) == s
    ensures (forall r :: !p(r)) ==> Filter(p, s) == []
  {
    if s != [] {
      FilterAll(p, s[..|s| - 1]);
    }
  }

  lemma {:induction false} FilterUnique(keep: Record -> bool, s: seq<Record>)
    requires UniqueKeys(s)
    ensures UniqueKeys(Filter(keep, s))
  {
    if s != [] {
      var n := |s| - 1;
      FilterUnique(keep, s[..n]);
      var front := Filter(keep, s[..n]);
      forall i | 0 <= i < |front| ensures front[i].key != s[n].key {
        FilterFrom(keep, s[..n], front[i]);
      }
    }
  }

  /** Storing under a key in a dictionary that keeps insertion order. */
  function Put(d: seq<Record>, r: Record): seq<Record> {
    if d == [] then [r]
    else if d[0].key == r.key then [r] + d[1..]
    else [d[0]] + Put(d[1..], r)
  }

  lemma {:induction false} PutAppends(d: seq<Record>, r: Record)
    requires forall i :: 0 <= i < |d| ==> d[i].key != r.key
    ensures Put(d, r) == d + [r]
  {
    if d != [] {
      PutAppends(d[1..], r);
    }
  }

  /** In a list with unique keys, equal keys mean the same record. */
  lemma SameKey(s: seq<Record>, a: Record, b: Record)
    requires UniqueKeys(s) && a in s && b in s && a.key == b.key
    ensures a == b
  {
    var i :| 0 <= i < |s| && s[i] == a;
    var j :| 0 <= j < |s| && s[j] == b;
    assert i == j;
  }

  // ---- the query ----

  datatype Fate = Running | Doubtful | Hidden

  /** How the records look in one view. */
  type Sampler = Record -> Verdict

  function At(v: Option<View>): Option<Sampler> {
    if v.Some? then Some(r => Sample(r, v.value)) else None
  }

  /** The fate of a record over the two views of one query; either may have failed. */
  function FateOf(r: Record, first: Option<Sampler>, second: Option<Sampler>): Fate {
    if first.None? then Doubtful
    else
      match first.value(r)
      case Stale => Hidden
      case Unknown => Doubtful
      case Live =>
        if second.None? then Doubtful
        else
          match second.value(r)
          case Stale => Hidden
          case Unknown => Doubtful
          case Live => Running
  }

  function Judged(v: Sampler, verdict: Verdict): Record -> bool { r => v(r) == verdict }

  function LiveOf(v: Sampler, legacy: bool): Record -> bool {
    r => v(r) == Live && r.kind.LegacyChild? == legacy
  }

  function Fated(first: Option<Sampler>, second: Option<Sampler>, fate: Fate): Record -> bool {
    r => FateOf(r, first, second) == fate
  }

  /** Everything said about the registered jobs. */
  datatype Answer = Answer(running: seq<Record>, unknown: seq<Record>, staleHidden: nat)

  /** The records of `live` as the second view judges them; `unknown` already holds doubtful records,
      and the dictionary is keyed. */
  method Recheck(records: seq<Record>, live: seq<Record>, unknown0: seq<Record>, second: Sampler)
    returns (still: seq<Record>, unknown: seq<Record>, hidden: nat)
    requires UniqueKeys(records) && UniqueKeys(live)
    requires forall r :: r in live ==> r in records
    requires forall r :: r in unknown0 ==> r in records && r !in live
    ensures still == Filter(Judged(second, Live), live)
    ensures unknown == unknown0 + Filter(Judged(second, Unknown), live)
    ensures hidden == |Filter(Judged(second, Stale), live)|
  {
    still, unknown, hidden := [], unknown0, 0;
    for i := 0 to |live|
      invariant still == Filter(Judged(second, Live), live[..i])
      invariant unknown == unknown0 + Filter(Judged(second, Unknown), live[..i])
      invariant hidden == |Filter(Judged(second, Stale), live[..i])|
    {
      FilterNext(Judged(second, Live), live, i);
      FilterNext(Judged(second, Unknown), live, i);
      FilterNext(Judged(second, Stale), live, i);
      match second(live[i]) {
        case Live => still := still + [live[i]];
        case Stale => hidden := hidden + 1;
        case Unknown =>
          FreshKey(records, live, unknown0, Judged(second, Unknown), i);
          PutAppends(unknown, live[i]);
          unknown := Put(unknown, live[i]);
      }
    }
    assert live[..|live|] == live;
  }

  /** The next record's key is not in the dictionary yet. */
  lemma FreshKey(records: seq<Record>, s: seq<Record>, before: seq<Record>, keep: Record -> bool, i: nat)
    requires UniqueKeys(records) && UniqueKeys(s) && i < |s|
    requires forall r :: r in s ==> r in records
    requires forall r :: r in before ==> r in records && r !in s
    ensures var d := before + Filter(keep, s[..i]); forall k :: 0 <= k < |d| ==> d[k].key != s[i].key
  {
    var d := before + Filter(keep, s[..i]);
    forall k | 0 <= k < |d| ensures d[k].key != s[i].key {
      if k < |before| {
        assert d[k] in before && s[i] in s;
        if d[k].key == s[i].key {
          SameKey(records, d[k], s[i]);
        }
      } else {
        assert d[k] in Filter(keep, s[..i]);
        FilterFrom(keep, s[..i], d[k]);
      }
    }
  }

  /** The first pass over the registry. */
  method Triage(records: seq<Record>, first: Sampler)
    returns (legacy: seq<Record>, owned: seq<Record>, unknown: seq<Record>, hidden: nat)
    requires UniqueKeys(records)
    ensures legacy == Filter(LiveOf(first, true), records)
    ensures owned == Filter(LiveOf(first, false), records)
    ensures unknown == Filter(Judged(first, Unknown), records)
    ensures hidden == |Filter(Judged(first, Stale), records)|
  {
    legacy, owned, unknown, hidden := [], [], [], 0;
    for i := 0 to |records|
      invariant legacy == Filter(LiveOf(first, true), records[..i])
      invariant owned == Filter(LiveOf(first, false), records[..i])
      invariant unknown == Filter(Judged(first, Unknown), records[..i])
      invariant hidden == |Filter(Judged(first, Stale), records[..i])|
    {
      var r := records[i];
      FilterNext(LiveOf(first, true), records, i);
      FilterNext(LiveOf(first, false), records, i);
      FilterNext(Judged(first, Unknown), records, i);
      FilterNext(Judged(first, Stale), records, i);
      match first(r) {
        case Live =>
          if r.kind.LegacyChild? {
            legacy := legacy + [r];
          } else {
            FreshKey(records, records, [], LiveOf(first, false), i);
            assert [] + owned == owned;
            PutAppends(owned, r);
            owned := Put(owned, r);
          }
        case Stale => hidden := hidden + 1;
        case Unknown =>
          FreshKey(records, records, [], Judged(first, Unknown), i);
          assert [] + unknown == unknown;
          PutAppends(unknown, r);
          unknown := Put(unknown, r);
      }
    }
    assert records[..|records|] == records;
  }

  /** Every record is answered for exactly once, and as its fate demands. */
  method Query(records: seq<Record>, first: Option<View>, second: Option<View>) returns (a: Answer)
    requires UniqueKeys(records)
    ensures multiset(a.running) == multiset(Filter(Fated(At(first), At(second), Running), records))
    ensures multiset(a.unknown) == multiset(Filter(Fated(At(first), At(second), Doubtful), records))
    ensures a.staleHidden == |Filter(Fated(At(first), At(second), Hidden), records)|
    ensures |a.running| + |a.unknown| + a.staleHidden == |records|
    ensures forall r :: r in a.running <==>
      r in records && first.Some? && second.Some? && AliveIn(r, first.value) && AliveIn(r, second.value)
    ensures (first.Some? ==> Keyed(first.value)) && (second.Some? ==> Keyed(second.value)) ==>
      forall r :: r in a.unknown <==> r in records && Unproved(r, first, second)
  {
    a := AnswerFor(records, At(first), At(second));
    Conservation(records, At(first), At(second));
    assert |a.running| == |multiset(a.running)| && |a.unknown| == |multiset(a.unknown)|;
    forall r ensures r in a.running <==> r in Filter(Fated(At(first), At(second), Running), records) {
      assert r in multiset(a.running) <==> r in multiset(Filter(Fated(At(first), At(second), Running), records));
    }
    forall r ensures r in a.unknown <==> r in Filter(Fated(At(first), At(second), Doubtful), records) {
      assert r in multiset(a.unknown) <==> r in multiset(Filter(Fated(At(first), At(second), Doubtful), records));
    }
    forall r ensures r in Filter(Fated(At(first), At(second), Running), records) <==>
      r in records && first.Some? && second.Some? && AliveIn(r, first.value) && AliveIn(r, second.value)
    {
      RunningIsAlive(records, first, second, r);
    }
    if (first.Some? ==> Keyed(first.value)) && (second.Some? ==> Keyed(second.value)) {
      forall r ensures r in Filter(Fated(At(first), At(second), Doubtful), records) <==> r in records && Unproved(r, first, second) {
        DoubtfulIsUnproved(records, first, second, r);
      }
    }
  }

  /** Neither shown alive by both views nor shown ended by the first, or by the second after the first
      showed it alive. */
  ghost predicate Unproved(r: Record, first: Option<View>, second: Option<View>) {
    || first.None?
    || (!AliveIn(r, first.value) && !OverIn(r, first.value))
    || (AliveIn(r, first.value) && (second.None? || (!AliveIn(r, second.value) && !OverIn(r, second.value))))
  }

  lemma FilterHas(keep: Record -> bool, s: seq<Record>, r: Record)
    ensures r in Filter(keep, s) <==> r in s && keep(r)
  {
    FilterMembers(keep, s, r);
    assert r in multiset(Filter(keep, s)) <==> r in Filter(keep, s);
    assert r in multiset(s) <==> r in s;
  }

  lemma RunningIsAlive(records: seq<Record>, first: Option<View>, second: Option<View>, r: Record)
    ensures r in Filter(Fated(At(first), At(second), Running), records) <==>
      r in records && first.Some? && second.Some? && AliveIn(r, first.value) && AliveIn(r, second.value)
  {
    FilterHas(Fated(At(first), At(second), Running), records, r);
    if first.Some? {
      VerdictIsEvidence(r, first.value);
    }
    if second.Some? {
      VerdictIsEvidence(r, second.value);
    }
  }

  lemma DoubtfulIsUnproved(records: seq<Record>, first: Option<View>, second: Option<View>, r: Record)
    requires (first.Some? ==> Keyed(first.value)) && (second.Some? ==> Keyed(second.value))
    ensures r in Filter(Fated(At(first), At(second), Doubtful), records) <==> r in records && Unproved(r, first, second)
  {
    FilterHas(Fated(At(first), At(second), Doubtful), records, r);
    if first.Some? {
      VerdictIsEvidence(r, first.value);
    }
    if second.Some? {
      VerdictIsEvidence(r, second.value);
    }
  }

  method AnswerFor(records: seq<Record>, first: Option<Sampler>, second: Option<Sampler>) returns (a: Answer)
    requires UniqueKeys(records)
    ensures multiset(a.running) == multiset(Filter(Fated(first, second, Running), records))
    ensures multiset(a.unknown) == multiset(Filter(Fated(first, second, Doubtful), records))
    ensures a.staleHidden == |Filter(Fated(first, second, Hidden), records)|
  {
    if records == [] {
      return Answer([], [], 0);
    }
    if first.None? {
      NoFirstView(records, second);
      return Answer([], records, 0);
    }
    var legacy, owned, unknown, hidden := Triage(records, first.value);
    if legacy == [] && owned == [] {
      NothingLive(records, first.value, second);
      return Answer([], unknown, hidden);
    }
    if second.None? {
      NoSecondView(records, first.value);
      return Answer([], legacy + owned + unknown, hidden);
    }
    var legacyLive, ownedLive, unknown2, hidden2 := SecondPass(records, first.value, legacy, owned, unknown, second.value);
    TwoViews(records, first.value, second.value);
    return Answer(legacyLive + ownedLive, unknown2, hidden + hidden2);
  }

  method SecondPass(records: seq<Record>, ghost first: Sampler, legacy: seq<Record>, owned: seq<Record>, unknown: seq<Record>, second: Sampler)
    returns (legacyLive: seq<Record>, ownedLive: seq<Record>, unknown2: seq<Record>, hidden: nat)
    requires UniqueKeys(records)
    requires legacy == Filter(LiveOf(first, true), records) && owned == Filter(LiveOf(first, false), records)
    requires unknown == Filter(Judged(first, Unknown), records)
    ensures multiset(legacyLive + ownedLive) == multiset(Filter(LiveThen(first, second, Live), records))
    ensures multiset(unknown2) == multiset(unknown) + multiset(Filter(LiveThen(first, second, Unknown), records))
    ensures hidden == |Filter(LiveThen(first, second, Stale), records)|
  {
    Disjoint(records, first, second);
    var unknown1, hidden1, hidden2;
    legacyLive, unknown1, hidden1 := Recheck(records, legacy, unknown, second);
    ownedLive, unknown2, hidden2 := Recheck(records, owned, unknown1, second);
    hidden := hidden1 + hidden2;
    SecondLook(records, first, second, Live);
    SecondLook(records, first, second, Unknown);
    SecondLook(records, first, second, Stale);
  }

  lemma NothingLive(records: seq<Record>, first: Sampler, second: Option<Sampler>)
    requires Filter(LiveOf(first, true), records) == [] && Filter(LiveOf(first, false), records) == []
    ensures Filter(Fated(Some(first), second, Running), records) == []
    ensures multiset(Filter(Fated(Some(first), second, Doubtful), records)) == multiset(Filter(Judged(first, Unknown), records))
    ensures |Filter(Fated(Some(first), second, Hidden), records)| == |Filter(Judged(first, Stale), records)|
  {
    if second.None? {
      NoSecondView(records, first);
    } else {
      SecondLook(records, first, second.value, Live);
      SecondLook(records, first, second.value, Unknown);
      SecondLook(records, first, second.value, Stale);
      TwoViews(records, first, second.value);
    }
  }

  lemma NoFirstView(records: seq<Record>, second: Option<Sampler>)
    ensures Filter(Fated(None, second, Running), records) == []
    ensures Filter(Fated(None, second, Doubtful), records) == records
    ensures Filter(Fated(None, second, Hidden), records) == []
  {
    FilterAll(Fated(None, second, Running), records);
    FilterAll(Fated(None, second, Doubtful), records);
    FilterAll(Fated(None, second, Hidden), records);
  }

  /** The parts of the first pass have no record in common. */
  lemma Disjoint(records: seq<Record>, first: Sampler, second: Sampler)
    requires UniqueKeys(records)
    ensures var legacy, owned, unknown := Filter(LiveOf(first, true), records), Filter(LiveOf(first, false), records), Filter(Judged(first, Unknown), records);
      && UniqueKeys(legacy) && UniqueKeys(owned)
      && (forall r :: r in legacy ==> r in records) && (forall r :: r in owned ==> r in records)
      && (forall r :: r in unknown ==> r in records && r !in legacy)
      && (forall r :: r in unknown + Filter(Judged(second, Unknown), legacy) ==> r in records && r !in owned)
  {
    var legacy, owned, unknown := Filter(LiveOf(first, true), records), Filter(LiveOf(first, false), records), Filter(Judged(first, Unknown), records);
    FilterUnique(LiveOf(first, true), records);
    FilterUnique(LiveOf(first, false), records);
    forall r | r in legacy ensures r in records && LiveOf(first, true)(r) {
      FilterFrom(LiveOf(first, true), records, r);
    }
    forall r | r in owned ensures r in records && LiveOf(first, false)(r) {
      FilterFrom(LiveOf(first, false), records, r);
    }
    forall r | r in unknown ensures r in records && Judged(first, Unknown)(r) {
      FilterFrom(Judged(first, Unknown), records, r);
    }
    forall r | r in Filter(Judged(second, Unknown), legacy) ensures r in legacy {
      FilterFrom(Judged(second, Unknown), legacy, r);
    }
  }

  /** When the second view fails, whatever looked live is doubtful. */
  lemma NoSecondView(records: seq<Record>, first: Sampler)
    ensures Filter(Fated(Some(first), None, Running), records) == []
    ensures Filter(Fated(Some(first), None, Hidden), records) == Filter(Judged(first, Stale), records)
    ensures multiset(Filter(Fated(Some(first), None, Doubtful), records))
         == multiset(Filter(LiveOf(first, true), records)) + multiset(Filter(LiveOf(first, false), records))
          + multiset(Filter(Judged(first, Unknown), records))
  {
    FilterAll(Fated(Some(first), None, Running), records);
    FilterSame(Fated(Some(first), None, Hidden), Judged(first, Stale), records);
    DoubtfulAlone(records, first);
  }

  lemma DoubtfulAlone(records: seq<Record>, first: Sampler)
    ensures multiset(Filter(Fated(Some(first), None, Doubtful), records))
         == multiset(Filter(LiveOf(first, true), records)) + multiset(Filter(LiveOf(first, false), records))
          + multiset(Filter(Judged(first, Unknown), records))
  {
    FilterSplit(Judged(first, Live), LiveOf(first, true), LiveOf(first, false), records);
    FilterSplit(Fated(Some(first), None, Doubtful), Judged(first, Live), Judged(first, Unknown), records);
  }

  function InBoth(first: Sampler, legacy: bool, second: Sampler, verdict: Verdict): Record -> bool {
    r => LiveOf(first, legacy)(r) && second(r) == verdict
  }

  function LiveThen(first: Sampler, second: Sampler, verdict: Verdict): Record -> bool {
    r => first(r) == Live && second(r) == verdict
  }

  /** The records that a second look gives one verdict are those found in its two halves. */
  lemma SecondLook(records: seq<Record>, first: Sampler, second: Sampler, verdict: Verdict)
    ensures var legacy, owned := Filter(LiveOf(first, true), records), Filter(LiveOf(first, false), records);
      var all := Filter(LiveThen(first, second, verdict), records);
      && multiset(all) == multiset(Filter(Judged(second, verdict), legacy)) + multiset(Filter(Judged(second, verdict), owned))
      && |all| == |Filter(Judged(second, verdict), legacy)| + |Filter(Judged(second, verdict), owned)|
  {
    FilterTwice(InBoth(first, true, second, verdict), Judged(second, verdict), LiveOf(first, true), records);
    FilterTwice(InBoth(first, false, second, verdict), Judged(second, verdict), LiveOf(first, false), records);
    FilterSplit(LiveThen(first, second, verdict), InBoth(first, true, second, verdict), InBoth(first, false, second, verdict), records);
  }

  /** The parts of the two passes add up to the three fates. */
  lemma TwoViews(records: seq<Record>, first: Sampler, second: Sampler)
    ensures Filter(Fated(Some(first), Some(second), Running), records) == Filter(LiveThen(first, second, Live), records)
    ensures multiset(Filter(Fated(Some(first), Some(second), Doubtful), records))
         == multiset(Filter(Judged(first, Unknown), records)) + multiset(Filter(LiveThen(first, second, Unknown), records))
    ensures |Filter(Fated(Some(first), Some(second), Hidden), records)|
         == |Filter(Judged(first, Stale), records)| + |Filter(LiveThen(first, second, Stale), records)|
  {
    FilterSame(Fated(Some(first), Some(second), Running), LiveThen(first, second, Live), records);
    FilterSplit(Fated(Some(first), Some(second), Doubtful), Judged(first, Unknown), LiveThen(first, second, Unknown), records);
    FilterSplit(Fated(Some(first), Some(second), Hidden), Judged(first, Stale), LiveThen(first, second, Stale), records);
  }

  /** The three fates use up the registry: nothing is counted twice and nothing is lost. */
  lemma Conservation(records: seq<Record>, first: Option<Sampler>, second: Option<Sampler>)
    ensures multiset(records) == multiset(Filter(Fated(first, second, Running), records))
                               + multiset(Filter(Fated(first, second, Doubtful), records))
                               + multiset(Filter(Fated(first, second, Hidden), records))
    ensures |records| == |Filter(Fated(first, second, Running), records)|
                       + |Filter(Fated(first, second, Doubtful), records)|
                       + |Filter(Fated(first, second, Hidden), records)|
  {
    var shown := r => !FateOf(r, first, second).Hidden?;
    FilterSplit(shown, Fated(first, second, Running), Fated(first, second, Doubtful), records);
    FilterSplit(_ => true, shown, Fated(first, second, Hidden), records);
    FilterAll(_ => true, records);
  }

  // ---- cleanup ----

  const MaxActiveJobs := 256

  function Survives(v: View): Record -> bool { r => !Deletes(r, v) }

  /** Launch-time cleanup of one table; a table over its bound is refused untouched. */
  method CleanupTable(table: seq<Record>, v: View) returns (r: Result<seq<Record>>, removed: nat)
    requires UniqueKeys(table)
    ensures r.Err? <==> |table| > 256
    ensures |table| > MaxActiveJobs ==> r.Err?
    ensures |table| <= MaxActiveJobs ==> r.Ok? && r.value == Filter(Survives(v), table) && removed == |table| - |r.value|
  {
    if |table| > MaxActiveJobs {
      return Err("the table exceeds its hard row bound"), 0;
    }
    var left;
    left, removed := Sweep(table, Survives(v));
    return Ok(left), removed;
  }

  method Sweep(table: seq<Record>, keep: Record -> bool) returns (left: seq<Record>, removed: nat)
    requires UniqueKeys(table)
    ensures left == Filter(keep, table) && removed == |table| - |left|
  {
    left, removed := table, 0;
    for i := 0 to |table|
      invariant left == Swept(table, keep, i)
      invariant removed == |table| - |left|
    {
      SweepStep(table, keep, i);
      if !keep(table[i]) {
        left := Drop(left, table[i].key);
        removed := removed + 1;
      }
    }
    assert table[..|table|] == table;
  }

  /** The table after the first `i` rows were looked at. */
  ghost function Swept(table: seq<Record>, keep: Record -> bool, i: nat): seq<Record>
    requires i <= |table|
  {
    Filter(keep, table[..i]) + table[i..]
  }

  lemma SweepStep(table: seq<Record>, keep: Record -> bool, i: nat)
    requires UniqueKeys(table) && i < |table|
    ensures var left := Swept(table, keep, i);
      && |Drop(left, table[i].key)| == |left| - 1
      && Swept(table, keep, i + 1) == if keep(table[i]) then left else Drop(left, table[i].key)
  {
    var front := Filter(keep, table[..i]);
    FilterNext(keep, table, i);
    FreshKey(table, table, [], keep, i);
    assert [] + front == front;
    DropOne(front, table[i], table[i + 1..]);
    assert Swept(table, keep, i) == front + [table[i]] + table[i + 1..];
  }

  /** Deleting the rows with a given key. */
  function Drop(s: seq<Record>, key: string): seq<Record> {
    if s == [] then []
    else (if s[0].key == key then [] else [s[0]]) + Drop(s[1..], key)
  }

  lemma {:induction false} DropNothing(s: seq<Record>, key: string)
    requires forall i :: 0 <= i < |s| ==> s[i].key != key
    ensures Drop(s, key) == s
  {
    if s != [] {
      DropNothing(s[1..], key);
    }
  }

  lemma {:induction false} DropOne(front: seq<Record>, r: Record, back: seq<Record>)
    requires forall i :: 0 <= i < |front| ==> front[i].key != r.key
    requires forall i :: 0 <= i < |back| ==> back[i].key != r.key
    ensures Drop(front + [r] + back, r.key) == front + back
  {
    var all := front + [r] + back;
    if front == [] {
      assert all[1..] == back;
      DropNothing(back, r.key);
    } else {
      DropOne(front[1..], r, back);
      assert all[1..] == front[1..] + [r] + back;
    }
  }

  /** Cleanup never takes a running job out of an answer: a query over the cleaned table finds
      the same live records in the view that cleanup used. */
  lemma CleanupKeepsLive(records: seq<Record>, v: View)
    ensures Filter(r => Sample(r, v).Live?, Filter(Survives(v), records)) == Filter(r => Sample(r, v).Live?, records)
  {
    var live := r => Sample(r, v).Live?;
    forall r ensures live(r) <==> live(r) && Survives(v)(r) {
      if live(r) {
        LiveIsNeverDeleted(r, v);
      }
    }
    FilterTwice(live, live, Survives(v), records);
  }
}
