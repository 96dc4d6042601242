/** Nearest-root attribution of the job observer (src/remrun/_job_observer.py): each process
    belongs to the innermost registered job root found by walking up its parents. */
module Attribution {
  import opened Wrappers

  type Pid = int
  type Key = string

  datatype Row = Row(ppid: Pid, identity: Option<string>, startOrder: Option<int>)

  type Table = map<Pid, Row>

  datatype Root = Root(identity: string, key: Key)

  /** A parent created after its alleged child is a reused pid, not an ancestor. */
  predicate StartedAfter(parent: Row, child: Row) {
    parent.startOrder.Some? && child.startOrder.Some? && parent.startOrder.value > child.startOrder.value
  }

  /** The parent of a listed process, if the table can be trusted about it. */
  function Parent(rows: Table, p: Pid): (r: Option<Pid>)
    requires p in rows
    ensures r.Some? ==> r.value in rows && r.value > 0
  {
    var up := rows[p].ppid;
    if up > 0 && up in rows && !StartedAfter(rows[up], rows[p]) then Some(up) else None
  }

  /** The process reached by `n` trusted parent links. */
  ghost function Walk(rows: Table, start: Pid, n: nat): (r: Option<Pid>)
    ensures r.Some? ==> r.value in rows && r.value > 0
  {
    if n == 0 then if start > 0 && start in rows then Some(start) else None
    else
      match Walk(rows, start, n - 1)
      case None => None
      case Some(p) => Parent(rows, p)
  }

  /** `p` is, by pid and by identity, a registered root. */
  predicate Exact(rows: Table, roots: map<Pid, Root>, p: Pid) {
    p in rows && p in roots && rows[p].identity == Some(roots[p].identity)
  }

  /** The walk meets its first exact root after `n` links. */
  ghost predicate Nearest(rows: Table, roots: map<Pid, Root>, start: Pid, n: nat) {
    && Walk(rows, start, n).Some? && Exact(rows, roots, Walk(rows, start, n).value)
    && forall m: nat :: m < n && Walk(rows, start, m).Some? ==> !Exact(rows, roots, Walk(rows, start, m).value)
  }

  /** At most one job is nearest. */
  lemma NearestIsUnique(rows: Table, roots: map<Pid, Root>, start: Pid, m: nat, n: nat)
    requires Nearest(rows, roots, start, m) && Nearest(rows, roots, start, n)
    ensures m == n
  {
  }

  ghost function NearestKey(rows: Table, roots: map<Pid, Root>, start: Pid): Option<Key> {
    if exists n: nat :: Nearest(rows, roots, start, n) then
      var n: nat :| Nearest(rows, roots, start, n);
      Some(roots[Walk(rows, start, n).value].key)
    else None
  }

  lemma {:induction false} WalkEndsForGood(rows: Table, start: Pid, n: nat, m: nat)
    requires n <= m && Walk(rows, start, n).None?
    ensures Walk(rows, start, m).None?
    decreases m - n
  {
    if n < m {
      WalkEndsForGood(rows, start, n, m - 1);
    }
  }

  /** Once the walk returns to a process it has seen, it stays among those it has seen. */
  lemma {:induction false} WalkStaysAmong(rows: Table, start: Pid, seen: set<Pid>, n: nat, m: nat)
    requires n <= m
    requires forall p :: p in seen ==> p in rows && (Parent(rows, p).Some? ==> Parent(rows, p).value in seen)
    requires Walk(rows, start, n).Some? && Walk(rows, start, n).value in seen
    ensures Walk(rows, start, m).Some? ==> Walk(rows, start, m).value in seen
    decreases m - n
  {
    if n < m {
      WalkStaysAmong(rows, start, seen, n, m - 1);
    }
  }

  lemma NothingNearest(rows: Table, roots: map<Pid, Root>, start: Pid)
    requires forall n: nat :: Walk(rows, start, n).Some? ==> !Exact(rows, roots, Walk(rows, start, n).value)
    ensures NearestKey(rows, roots, start).None?
  {
    assert forall n: nat :: !Nearest(rows, roots, start, n);
  }

  lemma FoundNearest(rows: Table, roots: map<Pid, Root>, start: Pid, n: nat)
    requires Nearest(rows, roots, start, n)
    ensures NearestKey(rows, roots, start) == Some(roots[Walk(rows, start, n).value].key)
  {
    var m: nat :| Nearest(rows, roots, start, m) && NearestKey(rows, roots, start) == Some(roots[Walk(rows, start, m).value].key);
    NearestIsUnique(rows, roots, start, m, n);
  }

  // ---- the same in terms of the table ----

  /** Each process is followed by its listed parent, which is not known to have started after it. */
  ghost predicate ParentPath(rows: Table, path: seq<Pid>) {
    && |path| > 0
    && (forall i :: 0 <= i < |path| ==> path[i] > 0 && path[i] in rows)
    && forall i :: 0 < i < |path| ==>
         && rows[path[i - 1]].ppid == path[i]
         && !(rows[path[i]].startOrder.Some? && rows[path[i - 1]].startOrder.Some?
              && rows[path[i]].startOrder.value > rows[path[i - 1]].startOrder.value)
  }

  predicate IsRoot(rows: Table, roots: map<Pid, Root>, p: Pid)
    requires p in rows
  {
    p in roots && rows[p].identity == Some(roots[p].identity)
  }

  /** A parent path leads from `start` to a root of job `key` and meets no other root on its way. */
  ghost predicate LedTo(rows: Table, roots: map<Pid, Root>, start: Pid, key: Key) {
    exists path :: ParentPath(rows, path) && path[0] == start && EndsAtRoot(rows, roots, path, key)
  }

  ghost predicate EndsAtRoot(rows: Table, roots: map<Pid, Root>, path: seq<Pid>, key: Key)
    requires ParentPath(rows, path)
  {
    var last := |path| - 1;
    && IsRoot(rows, roots, path[last]) && roots[path[last]].key == key
    && forall i :: 0 <= i < last ==> !IsRoot(rows, roots, path[i])
  }

  lemma {:induction false} PathIsWalk(rows: Table, path: seq<Pid>, i: nat)
    requires ParentPath(rows, path) && i < |path|
    ensures Walk(rows, path[0], i) == Some(path[i])
  {
    if i > 0 {
      PathIsWalk(rows, path, i - 1);
    }
  }

  lemma {:induction false} WalkIsPath(rows: Table, start: Pid, n: nat) returns (path: seq<Pid>)
    requires Walk(rows, start, n).Some?
    ensures ParentPath(rows, path) && |path| == n + 1 && path[0] == start
    ensures forall i :: 0 <= i <= n ==> Walk(rows, start, i) == Some(path[i])
  {
    if n == 0 {
      path := [start];
    } else {
      var before := WalkIsPath(rows, start, n - 1);
      path := before + [Walk(rows, start, n).value];
    }
  }

  lemma NearestIsLedTo(rows: Table, roots: map<Pid, Root>, start: Pid, key: Key)
    ensures NearestKey(rows, roots, start) == Some(key) <==> LedTo(rows, roots, start, key)
  {
    if NearestKey(rows, roots, start) == Some(key) {
      var n: nat :| Nearest(rows, roots, start, n)
        && NearestKey(rows, roots, start) == Some(roots[Walk(rows, start, n).value].key);
      var path := WalkIsPath(rows, start, n);
      forall i | 0 <= i < n ensures !IsRoot(rows, roots, path[i]) {
        assert Walk(rows, start, i) == Some(path[i]);
      }
      assert EndsAtRoot(rows, roots, path, key);
    }
    if LedTo(rows, roots, start, key) {
      var path :| ParentPath(rows, path) && path[0] == start && EndsAtRoot(rows, roots, path, key);
      forall i | 0 <= i < |path| ensures Walk(rows, start, i) == Some(path[i]) {
        PathIsWalk(rows, path, i);
      }
      FoundNearest(rows, roots, start, |path| - 1);
    }
  }

  /** The walk of the source, with the set that stops it on a parent cycle. */
  method NearestRoot(start: Pid, rows: Table, roots: map<Pid, Root>) returns (r: Option<Key>)
    requires start in rows
    ensures r == NearestKey(rows, roots, start)
    ensures forall key :: r == Some(key) <==> LedTo(rows, roots, start, key)
  {
    forall key ensures NearestKey(rows, roots, start) == Some(key) <==> LedTo(rows, roots, start, key) {
      NearestIsLedTo(rows, roots, start, key);
    }
    r := WalkUp(start, rows, roots);
  }

  method WalkUp(start: Pid, rows: Table, roots: map<Pid, Root>) returns (r: Option<Key>)
    requires start in rows
    ensures r == NearestKey(rows, roots, start)
  {
    var current := start;
    var seen: set<Pid> := {};
    ghost var n: nat := 0;
    while current > 0 && current !in seen
      invariant current in rows && seen <= rows.Keys
      invariant current > 0 ==> Walk(rows, start, n) == Some(current)
      invariant n == 0 ==> current == start && seen == {}
      invariant n > 0 ==> current > 0
      invariant forall p :: p in seen ==>
        p in rows && !Exact(rows, roots, p) && Parent(rows, p).Some? && (Parent(rows, p).value in seen || Parent(rows, p).value == current)
      invariant forall m: nat :: m < n ==> Walk(rows, start, m).Some? && Walk(rows, start, m).value in seen
      decreases rows.Keys - seen
    {
      seen := seen + {current};
      if current in roots && rows[current].identity == Some(roots[current].identity) {
        assert Nearest(rows, roots, start, n);
        FoundNearest(rows, roots, start, n);
        return Some(roots[current].key);
      }
      var up := rows[current].ppid;
      if up !in rows || StartedAfter(rows[up], rows[current]) || up <= 0 {
        forall m: nat ensures Walk(rows, start, m).Some? ==> !Exact(rows, roots, Walk(rows, start, m).value) {
          if m > n {
            assert Walk(rows, start, n + 1).None?;
            WalkEndsForGood(rows, start, n + 1, m);
          }
        }
        NothingNearest(rows, roots, start);
        return None;
      }
      current := up;
      n := n + 1;
    }
    forall m: nat ensures Walk(rows, start, m).Some? ==> !Exact(rows, roots, Walk(rows, start, m).value) {
      if current > 0 {
        if m >= n {
          WalkStaysAmong(rows, start, seen, n, m);
        }
      } else {
        WalkEndsForGood(rows, start, 0, m);
      }
    }
    NothingNearest(rows, roots, start);
    r := None;
  }

  datatype JobRecord = JobRecord(key: Key, rootPid: Pid, rootIdentity: string)

  /** Of two records with the same root pid the later one owns it. */
  function RootsOf(records: seq<JobRecord>): map<Pid, Root> {
    if records == [] then map[]
    else
      var last := records[|records| - 1];
      RootsOf(records[..|records| - 1])[last.rootPid := Root(last.rootIdentity, last.key)]
  }

  lemma {:induction false} LastRecordOwns(records: seq<JobRecord>, i: nat)
    requires i < |records| && forall j :: i < j < |records| ==> records[j].rootPid != records[i].rootPid
    ensures records[i].rootPid in RootsOf(records)
    ensures RootsOf(records)[records[i].rootPid] == Root(records[i].rootIdentity, records[i].key)
  {
    var n := |records| - 1;
    if i < n {
      LastRecordOwns(records[..n], i);
      assert records[n].rootPid != records[i].rootPid;
    }
  }

  /** The keys a table of jobs starts from. */
  function KeysOf(records: seq<JobRecord>): set<Key> {
    set i | 0 <= i < |records| :: records[i].key
  }

  /** Every registered root answers for one of the listed jobs. */
  lemma {:induction false} RootKeysAreListed(records: seq<JobRecord>, p: Pid)
    requires p in RootsOf(records)
    ensures RootsOf(records)[p].key in KeysOf(records)
  {
    var n := |records| - 1;
    if p != records[n].rootPid {
      RootKeysAreListed(records[..n], p);
      var i :| 0 <= i < n && records[..n][i].key == RootsOf(records)[p].key;
      assert records[i].key == RootsOf(records)[p].key;
    }
  }

  lemma NearestKeyIsListed(rows: Table, records: seq<JobRecord>, p: Pid)
    requires NearestKey(rows, RootsOf(records), p).Some?
    ensures NearestKey(rows, RootsOf(records), p).value in KeysOf(records)
  {
    var n: nat :| Nearest(rows, RootsOf(records), p, n)
      && NearestKey(rows, RootsOf(records), p) == Some(RootsOf(records)[Walk(rows, p, n).value].key);
    RootKeysAreListed(records, Walk(rows, p, n).value);
  }

  /** Every process goes to exactly the job that is nearest to it, if there is one, and every
      listed job gets an entry, empty or not. */
  method Assign(rows: Table, records: seq<JobRecord>) returns (byJob: map<Key, set<Pid>>)
    ensures byJob.Keys == KeysOf(records)
    ensures forall k, p :: k in byJob && p in byJob[k] <==> p in rows && NearestKey(rows, RootsOf(records), p) == Some(k)
    ensures forall k, p :: k in byJob && p in byJob[k] <==> p in rows && LedTo(rows, RootsOf(records), p, k)
  {
    forall k, p ensures NearestKey(rows, RootsOf(records), p) == Some(k) <==> LedTo(rows, RootsOf(records), p, k) {
      NearestIsLedTo(rows, RootsOf(records), p, k);
    }
    var roots := RootsOf(records);
    byJob := map k | k in KeysOf(records) :: {};
    var todo := rows.Keys;
    while todo != {}
      invariant todo <= rows.Keys
      invariant byJob.Keys == KeysOf(records)
      invariant forall k, p :: k in byJob && p in byJob[k] <==>
        p in rows && p !in todo && NearestKey(rows, roots, p) == Some(k)
      decreases todo
    {
      assert exists p :: p in todo by {
        assert (forall p :: p !in todo) ==> todo == {};
      }
      var p :| p in todo;
      var key := NearestRoot(p, rows, roots);
      if key.Some? {
        NearestKeyIsListed(rows, records, p);
        byJob := byJob[key.value := byJob[key.value] + {p}];
      }
      todo := todo - {p};
    }
  }

  /** No process is counted for two jobs. */
  lemma AssignedOnce(rows: Table, records: seq<JobRecord>, byJob: map<Key, set<Pid>>, a: Key, b: Key)
    requires forall k, p :: k in byJob && p in byJob[k] <==> p in rows && NearestKey(rows, RootsOf(records), p) == Some(k)
    requires a in byJob && b in byJob && a != b
    ensures byJob[a] !! byJob[b]
  {
    forall p | p in byJob[a] ensures p !in byJob[b] {
      assert NearestKey(rows, RootsOf(records), p) == Some(a);
    }
  }
}
