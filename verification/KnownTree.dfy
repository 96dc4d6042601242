/** Descendant tracking of the POSIX telemetry helper (src/remrun/_posix_telemetry.py).

    A process table is a map from pid to row. `TreeTracker.KnownTree` is the sampling
    loop in its imperative form; `Closure` computes the same set in parallel rounds, and
    `Reaches` says what that set means: a chain of parent links from a seed. */
module KnownTree {
  type Pid = int
  type Identity = string

  datatype ProcessRow = ProcessRow(ppid: Pid, pgid: Pid, identity: Identity, rss: int)

  type Table = map<Pid, ProcessRow>

  // ---------- reachability by child links ----------

  /** Every step of the path goes from a process to one of its recorded children. */
  ghost predicate ChildPath(rows: Table, path: seq<Pid>) {
    && |path| > 0
    && forall i :: 0 < i < |path| ==> path[i] in rows && rows[path[i]].ppid == path[i - 1]
  }

  ghost predicate Reaches(rows: Table, seeds: set<Pid>, pid: Pid) {
    exists path :: ChildPath(rows, path) && path[0] in seeds && path[|path| - 1] == pid
  }

  ghost predicate Closed(rows: Table, pids: set<Pid>) {
    forall p :: p in rows && rows[p].ppid in pids ==> p in pids
  }

  function Children(rows: Table, pids: set<Pid>): set<Pid> {
    set p | p in rows && rows[p].ppid in pids
  }

  /** Adds all children at once until nothing changes. */
  function Closure(rows: Table, pids: set<Pid>): (r: set<Pid>)
    requires pids <= rows.Keys
    ensures pids <= r <= rows.Keys
    ensures Closed(rows, r)
    decreases rows.Keys - pids
  {
    var next := pids + Children(rows, pids);
    if next == pids then
      assert forall p :: p in rows && rows[p].ppid in pids ==> p in Children(rows, pids);
      pids
    else
      assert pids < next;
      Closure(rows, next)
  }

  /** The closure is inside every closed set that holds the seeds: it is the least one. */
  lemma {:induction false} ClosureIsLeast(rows: Table, pids: set<Pid>, other: set<Pid>)
    requires pids <= rows.Keys
    requires pids <= other && Closed(rows, other)
    ensures Closure(rows, pids) <= other
    decreases rows.Keys - pids
  {
    var next := pids + Children(rows, pids);
    if next != pids {
      assert pids < next;
      forall p | p in next ensures p in other {
        if p !in pids {
          assert p in rows && rows[p].ppid in other;
        }
      }
      ClosureIsLeast(rows, next, other);
    }
  }

  lemma {:induction false} PathStaysInside(rows: Table, pids: set<Pid>, path: seq<Pid>)
    requires Closed(rows, pids)
    requires ChildPath(rows, path) && path[0] in pids
    ensures path[|path| - 1] in pids
  {
    if |path| > 1 {
      var shorter := path[..|path| - 1];
      PathStaysInside(rows, pids, shorter);
      var last := path[|path| - 1];
      assert last in rows && rows[last].ppid == shorter[|shorter| - 1];
    }
  }

  lemma ReachesChild(rows: Table, seeds: set<Pid>, pid: Pid)
    requires pid in rows && Reaches(rows, seeds, rows[pid].ppid)
    ensures Reaches(rows, seeds, pid)
  {
    var path :| ChildPath(rows, path) && path[0] in seeds && path[|path| - 1] == rows[pid].ppid;
    var longer := path + [pid];
    assert ChildPath(rows, longer);
    assert longer[0] in seeds && longer[|longer| - 1] == pid;
  }

  lemma {:induction false} ClosureReaches(rows: Table, seeds: set<Pid>, pids: set<Pid>)
    requires pids <= rows.Keys
    requires forall p :: p in pids ==> Reaches(rows, seeds, p)
    ensures forall p :: p in Closure(rows, pids) ==> Reaches(rows, seeds, p)
    decreases rows.Keys - pids
  {
    var next := pids + Children(rows, pids);
    if next != pids {
      assert pids < next;
      forall p | p in next ensures Reaches(rows, seeds, p) {
        if p !in pids {
          ReachesChild(rows, seeds, p);
        }
      }
      ClosureReaches(rows, seeds, next);
    }
  }

  /** The closure holds exactly the processes reachable by child links from the seeds. */
  lemma ClosureIsReachability(rows: Table, seeds: set<Pid>, pid: Pid)
    requires seeds <= rows.Keys
    ensures pid in Closure(rows, seeds) <==> Reaches(rows, seeds, pid)
  {
    forall p | p in seeds ensures Reaches(rows, seeds, p) {
      var path := [p];
      assert ChildPath(rows, path) && path[0] in seeds && path[|path| - 1] == p;
    }
    ClosureReaches(rows, seeds, seeds);
    if Reaches(rows, seeds, pid) {
      var path :| ChildPath(rows, path) && path[0] in seeds && path[|path| - 1] == pid;
      PathStaysInside(rows, Closure(rows, seeds), path);
    }
  }

  lemma SomePid(pids: set<Pid>)
    ensures pids == {} || exists p :: p in pids
  {
    assert (forall p :: p !in pids) ==> pids == {};
  }

  // ---------- one sample ----------

  predicate RootIsSeed(rows: Table, root: Pid, known: map<Pid, Identity>, directAlive: bool) {
    directAlive && root in rows && (root in known ==> known[root] == rows[root].identity)
  }

  predicate StillPresent(rows: Table, known: map<Pid, Identity>, pid: Pid) {
    pid in known && pid in rows && rows[pid].identity == known[pid]
  }

  function Seeds(rows: Table, root: Pid, known: map<Pid, Identity>, directAlive: bool): (r: set<Pid>)
    ensures r <= rows.Keys
  {
    set p | p in rows &&
      (|| (p == root && RootIsSeed(rows, root, known, directAlive))
       || rows[p].pgid == root
       || StillPresent(rows, known, p))
  }

  function TreeOf(rows: Table, root: Pid, known: map<Pid, Identity>, directAlive: bool): (r: set<Pid>)
    ensures r <= rows.Keys
  {
    Closure(rows, Seeds(rows, root, known, directAlive))
  }

  /** Child links lead to the process from the live root, from a process of the root's group, or
      from one that still shows the identity under which it was recorded. */
  ghost predicate Traced(rows: Table, root: Pid, known: map<Pid, Identity>, directAlive: bool, pid: Pid) {
    exists path ::
      && ChildPath(rows, path) && path[|path| - 1] == pid && path[0] in rows
      && (|| (directAlive && path[0] == root && (root in known ==> known[root] == rows[root].identity))
          || rows[path[0]].pgid == root
          || (path[0] in known && rows[path[0]].identity == known[path[0]]))
  }

  /** The tree in terms of the table alone. */
  lemma TreeMembers(rows: Table, root: Pid, known: map<Pid, Identity>, directAlive: bool)
    ensures
      var tree := TreeOf(rows, root, known, directAlive);
      && (directAlive && root in rows && (root in known ==> known[root] == rows[root].identity) ==> root in tree)
      && (forall p :: p in rows && rows[p].pgid == root ==> p in tree)
      && (forall p :: p in rows && p in known && rows[p].identity == known[p] ==> p in tree)
      && (forall p :: p in rows && rows[p].ppid in tree ==> p in tree)
      && (forall p :: p in tree <==> Traced(rows, root, known, directAlive, p))
  {
    var seeds := Seeds(rows, root, known, directAlive);
    forall p ensures p in Closure(rows, seeds) <==> Traced(rows, root, known, directAlive, p) {
      ClosureIsReachability(rows, seeds, p);
    }
  }

  lemma TreeReaches(rows: Table, root: Pid, known: map<Pid, Identity>, directAlive: bool)
    ensures forall p ::
      p in TreeOf(rows, root, known, directAlive) <==> Reaches(rows, Seeds(rows, root, known, directAlive), p)
  {
    var seeds := Seeds(rows, root, known, directAlive);
    forall p ensures p in Closure(rows, seeds) <==> Reaches(rows, seeds, p) {
      ClosureIsReachability(rows, seeds, p);
    }
  }

  function Recorded(rows: Table, known: map<Pid, Identity>, tree: set<Pid>): map<Pid, Identity>
    requires tree <= rows.Keys
  {
    known + map p | p in tree :: rows[p].identity
  }

  /** The `known` dictionary that the helper carries from sample to sample. */
  class TreeTracker {
    var known: map<Pid, Identity>

    constructor (initial: map<Pid, Identity>)
      ensures known == initial
    {
      known := initial;
    }

    /** One sample. The rows are visited in an arbitrary order in every pass. */
    method KnownTree(rows: Table, root: Pid, directAlive: bool) returns (tree: set<Pid>)
      modifies this
      ensures tree == TreeOf(rows, root, old(known), directAlive)
      ensures forall p ::
        p in tree <==> Reaches(rows, Seeds(rows, root, old(known), directAlive), p)
      ensures directAlive && root in rows && (root in old(known) ==> old(known)[root] == rows[root].identity) ==> root in tree
      ensures forall p :: p in rows && rows[p].pgid == root ==> p in tree
      ensures forall p :: p in rows && p in old(known) && rows[p].identity == old(known)[p] ==> p in tree
      ensures forall p :: p in rows && rows[p].ppid in tree ==> p in tree
      ensures forall p :: p in tree <==> Traced(rows, root, old(known), directAlive, p)
      ensures known == Recorded(rows, old(known), tree)
      ensures tree <= rows.Keys && known.Keys == old(known).Keys + tree
      ensures forall p :: p in known ==> known[p] == if p in tree then rows[p].identity else old(known)[p]
    {
      ghost var seeds := Seeds(rows, root, known, directAlive);
      var selected: set<Pid> := {};
      if directAlive && root in rows {
        if root !in known || known[root] == rows[root].identity {
          selected := selected + {root};
        }
      }
      selected := selected + set p | p in rows && rows[p].pgid == root;
      selected := selected + set p | p in known && p in rows && rows[p].identity == known[p];
      assert selected == seeds;

      tree := Spread(rows, selected);
      TreeReaches(rows, root, known, directAlive);
      TreeMembers(rows, root, known, directAlive);
      known := Recorded(rows, known, tree);
    }

    /** The fixpoint loop. */
    static method Spread(rows: Table, seeds: set<Pid>) returns (selected: set<Pid>)
      requires seeds <= rows.Keys
      ensures selected == Closure(rows, seeds)
    {
      selected := seeds;
      var changed := true;
      while changed
        invariant seeds <= selected <= Closure(rows, seeds)
        invariant !changed ==> Closed(rows, selected)
        decreases rows.Keys - selected, changed
      {
        selected, changed := OnePass(rows, selected, seeds);
      }
      ClosureIsLeast(rows, seeds, selected);
    }

    /** The `for row in rows.values()` pass of the fixpoint loop. */
    static method OnePass(rows: Table, before: set<Pid>, ghost seeds: set<Pid>)
      returns (selected: set<Pid>, changed: bool)
      requires seeds <= rows.Keys
      requires seeds <= before <= Closure(rows, seeds)
      ensures before <= selected <= Closure(rows, seeds)
      ensures changed <==> before != selected
      ensures !changed ==> Closed(rows, selected)
    {
      selected, changed := before, false;
      var remaining := rows.Keys;
      while remaining != {}
        invariant remaining <= rows.Keys
        invariant before <= selected <= Closure(rows, seeds)
        invariant changed <==> before != selected
        invariant !changed ==>
          forall p :: p in rows && p !in remaining && rows[p].ppid in selected ==> p in selected
        decreases remaining
      {
        SomePid(remaining);
        var p :| p in remaining;
        if p !in selected && rows[p].ppid in selected {
          selected := selected + {p};
          changed := true;
        }
        remaining := remaining - {p};
      }
    }
  }

  // ---------- successive samples ----------

  datatype Sample = Sample(rows: Table, root: Pid, directAlive: bool)

  /** What `known` holds after a sequence of samples. */
  function KnownAfter(known: map<Pid, Identity>, samples: seq<Sample>): map<Pid, Identity>
    decreases |samples|
  {
    if samples == [] then known
    else
      var before := KnownAfter(known, samples[..|samples| - 1]);
      var s := samples[|samples| - 1];
      Recorded(s.rows, before, TreeOf(s.rows, s.root, before, s.directAlive))
  }

  function TreeAt(known: map<Pid, Identity>, samples: seq<Sample>, i: nat): set<Pid>
    requires i < |samples|
  {
    TreeOf(samples[i].rows, samples[i].root, KnownAfter(known, samples[..i]), samples[i].directAlive)
  }

  /** A process recorded under an identity stays in every later tree for as long as the
      table keeps showing that identity, whatever happens to its parent or its group. */
  lemma {:induction false} NeverDropped(
    known: map<Pid, Identity>, samples: seq<Sample>, pid: Pid, identity: Identity)
    requires pid in known && known[pid] == identity
    requires forall i :: 0 <= i < |samples| ==>
      pid in samples[i].rows && samples[i].rows[pid].identity == identity
    ensures pid in KnownAfter(known, samples) && KnownAfter(known, samples)[pid] == identity
    ensures forall i :: 0 <= i < |samples| ==> pid in TreeAt(known, samples, i)
    decreases |samples|
  {
    if samples != [] {
      var n := |samples| - 1;
      var prefix := samples[..n];
      NeverDropped(known, prefix, pid, identity);
      var s := samples[n];
      var before := KnownAfter(known, prefix);
      assert StillPresent(s.rows, before, pid);
      assert pid in Seeds(s.rows, s.root, before, s.directAlive);
      forall i | 0 <= i < |samples| ensures pid in TreeAt(known, samples, i) {
        if i < n {
          assert prefix[..i] == samples[..i];
          assert pid in TreeAt(known, prefix, i);
        } else {
          assert samples[..i] == prefix;
        }
      }
    }
  }
}
