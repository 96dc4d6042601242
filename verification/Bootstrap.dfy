/** The target-side bootstrap helper (src/remrun/_bootstrap.py): receipts and the environment marker,
    over any attempts and crashes, and the read-only check of a completed setup. */
module Bootstrap {
  import opened Wrappers

  type Digest = string

  /** A declared lock input and the digest it must have. */
  datatype LockInput = LockInput(path: string, sha256: Digest)

  type Argv = seq<string>

  /** A payload that passed `_load_payload`. */
  datatype Payload = Payload(project: string, declaration: string, steps: seq<Argv>, environment: string, locks: seq<LockInput>)

  /** SHA-256 over declaration, steps and environment, as an injective digest. */
  datatype Fingerprint = Fingerprint(declaration: string, steps: seq<Argv>, environment: string)

  function FingerprintOf(p: Payload): Fingerprint {
    Fingerprint(p.declaration, p.steps, p.environment)
  }

  // ---- what is read from the target ----

  datatype FileState = Absent | Symlink | Outside | Unreadable | Regular(sha256: Digest)

  /** The state of every path under the project root. */
  type Files = map<string, FileState>

  function StateOf(files: Files, path: string): FileState {
    if path in files then files[path] else Absent
  }

  /** Every declared lock input is a readable regular file inside the project with its digest. */
  predicate LocksValid(locks: seq<LockInput>, files: Files) {
    forall i :: 0 <= i < |locks| ==> StateOf(files, locks[i].path) == Regular(locks[i].sha256)
  }

  datatype Status = Running | Failed | Complete

  datatype Receipt = Receipt(project: string, fingerprint: Fingerprint, status: Status)

  datatype Marker = Marker(project: string, fingerprint: Fingerprint, environment: string)

  /** A directory entry that should hold a document of ours: absent, not a regular file, a file that
      does not read as a document, or a document. */
  datatype Entry<T> =
    | Nothing
    | NotAFile(oversized: bool)
    | Malformed(oversized: bool, symlink: bool)
    | Document(doc: T, oversized: bool, symlink: bool)

  /** What else the environment checks look at: the payload's paths, the interpreter, the directories. */
  datatype Surroundings = Surroundings(identityOk: bool, interpreterUsable: bool, directoriesExist: bool)

  function MarkerFor(p: Payload): Marker {
    Marker(p.project, FingerprintOf(p), p.environment)
  }

  /** `_environment_state`. */
  predicate EnvironmentOk(p: Payload, s: Surroundings, marker: Entry<Marker>, requireReady: bool, requireInterpreter: bool) {
    && s.identityOk
    && (requireInterpreter || requireReady ==> s.interpreterUsable)
    && (requireReady ==>
        s.directoriesExist && marker.Document? && !marker.symlink && !marker.oversized && marker.doc == MarkerFor(p))
  }

  /** One look at the target. */
  datatype View = View(files: Files, receipt: Entry<Receipt>, marker: Entry<Marker>, surroundings: Surroundings)

  predicate Matches(p: Payload, r: Receipt) {
    r.project == p.project && r.fingerprint == FingerprintOf(p) && r.status.Complete?
  }

  datatype Answer = Unsupported | Needed | Ready

  /** `--check`. */
  function Check(p: Payload, v: View): Answer {
    if !EnvironmentOk(p, v.surroundings, v.marker, false, false) then Unsupported
    else if !LocksValid(p.locks, v.files) then Needed
    else if v.receipt.Nothing? || v.receipt.NotAFile? || v.receipt.symlink then Needed
    else if v.receipt.oversized then Unsupported
    else if v.receipt.Malformed? || !Matches(p, v.receipt.doc) then Needed
    else if EnvironmentOk(p, v.surroundings, v.marker, true, false) then Ready
    else Needed
  }

  /** What a full run decides before it writes anything; `Needed` means that it goes on to its steps. */
  function Decide(p: Payload, v: View): Answer {
    if !EnvironmentOk(p, v.surroundings, v.marker, false, false) then Unsupported
    else if !LocksValid(p.locks, v.files) then Unsupported
    else if !v.receipt.Nothing? && v.receipt.oversized then Unsupported
    else if v.receipt.Document? && Matches(p, v.receipt.doc) && EnvironmentOk(p, v.surroundings, v.marker, true, false) then Ready
    else Needed
  }

  /** A check says ready exactly when a full run would say so without running a step, unless the receipt
      is a symbolic link: only the full run follows one. */
  lemma CheckAgreesWithRun(p: Payload, v: View)
    ensures Check(p, v).Ready? <==> Decide(p, v).Ready? && !v.receipt.symlink
  {
  }

  /** Exactly when a check says ready: the paths are usable, every lock input is a regular file with its
      digest, the receipt is a plain document of this project, declaration, steps and environment that
      says complete, interpreter and directories are there, and the marker is a plain document of the
      same. */
  lemma ReadyExactly(p: Payload, v: View)
    ensures Check(p, v) == Ready <==>
      && v.surroundings == Surroundings(true, true, true)
      && (forall l | l in p.locks :: l.path in v.files && v.files[l.path] == Regular(l.sha256))
      && v.receipt == Document(Receipt(p.project, Fingerprint(p.declaration, p.steps, p.environment), Complete), false, false)
      && v.marker == Document(Marker(p.project, Fingerprint(p.declaration, p.steps, p.environment), p.environment), false, false)
  {
    LocksOneByOne(p.locks, v.files);
  }

  lemma LocksOneByOne(locks: seq<LockInput>, files: Files)
    ensures LocksValid(locks, files) <==> forall l | l in locks :: l.path in files && files[l.path] == Regular(l.sha256)
  {
  }

  /** Exactly when it gives up: the paths are unusable, or a receipt that it must read is too large. */
  lemma UnsupportedExactly(p: Payload, v: View)
    ensures Check(p, v) == Unsupported <==>
      || !v.surroundings.identityOk
      || (&& (forall l | l in p.locks :: l.path in v.files && v.files[l.path] == Regular(l.sha256))
          && (v.receipt.Document? || v.receipt.Malformed?) && !v.receipt.symlink && v.receipt.oversized)
  {
    LocksOneByOne(p.locks, v.files);
  }

  // ---- one full run ----

  datatype Outcome = NotStarted | Exit(code: int)

  /** Everything a full run meets: whether the lock was free, the files before and after its steps, how
      each step ends, the environment after them, whether the marker could be written, and whether the
      receipts it writes are over the size limit. */
  datatype Course = Course(
    lockFree: bool, before: Files, surroundings: Surroundings,
    outcomes: seq<Outcome>, after: Files, later: Surroundings, markerWritable: bool, oversized: bool)

  datatype Report = Report(status: ReportStatus, ran: nat)

  datatype ReportStatus = IsUnsupported | IsLocked | IsReady | IsFailed | IsBootstrapped | Raised

  /** All the steps exited with zero. */
  predicate AllZero(outcomes: seq<Outcome>) {
    forall i :: 0 <= i < |outcomes| ==> outcomes[i] == Exit(0)
  }

  /** The first lock input that is not as declared. */
  function FirstBad(locks: seq<LockInput>, files: Files): (k: nat)
    ensures k <= |locks|
    ensures k < |locks| ==> StateOf(files, locks[k].path) != Regular(locks[k].sha256)
    ensures LocksValid(locks[..k], files)
  {
    if locks == [] || StateOf(files, locks[0].path) != Regular(locks[0].sha256) then 0
    else
      var k := FirstBad(locks[1..], files);
      assert locks[..k + 1] == [locks[0]] + locks[1..][..k];
      k + 1
  }

  lemma NoneBad(locks: seq<LockInput>, files: Files)
    ensures FirstBad(locks, files) == |locks| <==> LocksValid(locks, files)
  {
    if FirstBad(locks, files) == |locks| {
      assert locks[..|locks|] == locks;
    }
  }

  /** The first bad lock input cannot be read: the comparison after the steps raises. */
  predicate StopsUnread(locks: seq<LockInput>, files: Files) {
    var bad := FirstBad(locks, files);
    bad < |locks| && StateOf(files, locks[bad].path).Unreadable?
  }

  class Target {
    var receipt: Entry<Receipt>
    var marker: Entry<Marker>

    constructor ()
      ensures receipt == Nothing && marker == Nothing
    {
      receipt, marker := Nothing, Nothing;
    }

    function Look(files: Files, s: Surroundings): View
      reads this
    {
      View(files, receipt, marker, s)
    }

    /** A full run, undisturbed by crashes. */
    method Run(p: Payload, c: Course) returns (r: Report)
      requires |c.outcomes| == |p.steps|
      modifies this
      ensures Decide(p, old(Look(c.before, c.surroundings))).Unsupported? || !c.lockFree ==>
        r == Report(if Decide(p, old(Look(c.before, c.surroundings))).Unsupported? && (c.lockFree || !c.surroundings.identityOk) then IsUnsupported else IsLocked, 0)
        && receipt == old(receipt) && marker == old(marker)
      ensures Decide(p, old(Look(c.before, c.surroundings))).Ready? && c.lockFree ==>
        r == Report(IsReady, 0) && receipt == old(receipt) && marker == old(marker)
      ensures Decide(p, old(Look(c.before, c.surroundings))).Needed? && c.lockFree ==>
        && receipt.Document? && !receipt.symlink && receipt.doc.project == p.project && receipt.doc.fingerprint == FingerprintOf(p)
        && (r.status.IsBootstrapped? <==> receipt.doc.status.Complete?)
        && (r.status.IsBootstrapped? <==>
            AllZero(c.outcomes) && LocksValid(p.locks, c.after) && c.later.identityOk && c.later.interpreterUsable && c.markerWritable)
        && (r.status.IsFailed? <==> receipt.doc.status.Failed?)
        && (r.status.IsFailed? || r.status.IsBootstrapped? || r.status.Raised?)
        && (r.status.Raised? <==> AllZero(c.outcomes) && StopsUnread(p.locks, c.after))
        && marker == (if r.status.IsBootstrapped? then Document(MarkerFor(p), false, false) else old(marker))
        && r.ran <= |p.steps| && AllZero(c.outcomes[..if r.ran == 0 then 0 else r.ran - 1])
        && (!AllZero(c.outcomes) ==> r.ran > 0 && c.outcomes[r.ran - 1] != Exit(0))
        && (AllZero(c.outcomes) ==> r.ran == |p.steps|)
    {
      if !c.surroundings.identityOk {
        return Report(IsUnsupported, 0);
      }
      if !c.lockFree {
        return Report(IsLocked, 0);
      }
      if !LocksValid(p.locks, c.before) {
        return Report(IsUnsupported, 0);
      }
      if !receipt.Nothing? && receipt.oversized {
        return Report(IsUnsupported, 0);
      }
      if receipt.Document? && Matches(p, receipt.doc) && EnvironmentOk(p, c.surroundings, marker, true, false) {
        return Report(IsReady, 0);
      }
      Put(p, Running, c.oversized);
      var ran := 0;
      while ran < |p.steps|
        invariant ran <= |p.steps| && AllZero(c.outcomes[..ran])
        invariant marker == old(marker)
        invariant receipt == Document(Receipt(p.project, FingerprintOf(p), Running), c.oversized, false)
      {
        ran := ran + 1;
        if c.outcomes[ran - 1] != Exit(0) {
          Put(p, Failed, c.oversized);
          return Report(IsFailed, ran);
        }
        assert c.outcomes[..ran] == c.outcomes[..ran - 1] + [c.outcomes[ran - 1]];
      }
      assert c.outcomes[..ran] == c.outcomes;
      NoneBad(p.locks, c.after);
      var bad := FirstBad(p.locks, c.after);
      if bad < |p.locks| {
        if StateOf(c.after, p.locks[bad].path).Unreadable? {
          return Report(Raised, ran);
        }
        Put(p, Failed, c.oversized);
        return Report(IsFailed, ran);
      }
      if !EnvironmentOk(p, c.later, marker, false, true) || !c.markerWritable {
        Put(p, Failed, c.oversized);
        return Report(IsFailed, ran);
      }
      marker := Document(MarkerFor(p), false, false);
      Put(p, Complete, c.oversized);
      r := Report(IsBootstrapped, ran);
    }

    method Put(p: Payload, status: Status, oversized: bool)
      modifies this`receipt
      ensures receipt == Document(Receipt(p.project, FingerprintOf(p), status), oversized, false)
    {
      receipt := Document(Receipt(p.project, FingerprintOf(p), status), oversized, false);
    }
  }

  /** What a completed run leaves is ready for the check, for as long as inputs and environment hold
      and the receipt is not too large. */
  lemma CompletedIsReady(p: Payload, v: View)
    requires v.receipt.Document? && v.receipt.doc == Receipt(p.project, FingerprintOf(p), Complete) && !v.receipt.symlink
    requires v.marker == Document(MarkerFor(p), false, false)
    ensures Check(p, v).Ready? <==>
      !v.receipt.oversized && LocksValid(p.locks, v.files)
      && v.surroundings == Surroundings(true, true, true)
  {
  }

  // ---- any attempts, any crashes ----

  datatype Pc =
    | Arrived
    | Holding
    | Judged                // nothing to reuse
    | Stepping(next: nat)   // receipt says running
    | Failing
    | Verified              // lock inputs and interpreter checked after the steps
    | Marked
    | Gone(answer: Option<ReportStatus>)

  /** `before` is what the attempt saw of the files when it validated its lock inputs. */
  datatype Attempt = Attempt(payload: Payload, pc: Pc, before: Files)

  /** What the last attempt that wrote the receipt did: how many of its steps exited with zero, and the
      files it saw before and after them. */
  datatype Ran = Ran(payload: Payload, before: Files, done: nat, after: Option<Files>)

  datatype Disk = Disk(receipt: Entry<Receipt>, lock: Option<nat>, last: Option<Ran>)

  datatype Move =
    | Refuse
    | TakeLock
    | Validate(files: Files, surroundings: Surroundings, marker: Entry<Marker>)
    | WriteRunning(oversized: bool)
    | RunStep(outcome: Outcome)
    | WriteFailed(oversized: bool)
    | Verify(files: Files, surroundings: Surroundings)
    | WriteMarker(writable: bool)
    | WriteComplete(oversized: bool)
    | Die

  datatype Effect = Effect(attempt: Attempt, disk: Disk)

  function ReceiptOf(p: Payload, status: Status, oversized: bool): Entry<Receipt> {
    Document(Receipt(p.project, FingerprintOf(p), status), oversized, false)
  }

  function At(t: Attempt, pc: Pc, d: Disk): Option<Effect> {
    Some(Effect(t.(pc := pc), d))
  }

  function Unlock(a: nat, d: Disk): Disk {
    if d.lock == Some(a) then d.(lock := None) else d
  }

  /** One step of attempt `a`. The kernel gives the lock back when its holder ends, however it ends. */
  function Step(a: nat, t: Attempt, d: Disk, m: Move): (e: Option<Effect>) {
    match m
    case Refuse => if t.pc.Arrived? then At(t, Gone(Some(IsUnsupported)), d) else None
    case TakeLock =>
      if !t.pc.Arrived? then None
      else if d.lock.None? then At(t, Holding, d.(lock := Some(a)))
      else At(t, Gone(Some(IsLocked)), d)
    case Validate(files, surroundings, marker) =>
      if !t.pc.Holding? then None
      else
        (match Decide(t.payload, View(files, d.receipt, marker, surroundings))
         case Unsupported => At(t, Gone(Some(IsUnsupported)), Unlock(a, d))
         case Ready => At(t, Gone(Some(IsReady)), Unlock(a, d))
         case Needed => Some(Effect(Attempt(t.payload, Judged, files), d)))
    case WriteRunning(oversized) =>
      if t.pc.Judged? then
        At(t, Stepping(0), d.(receipt := ReceiptOf(t.payload, Running, oversized), last := Some(Ran(t.payload, t.before, 0, None))))
      else None
    case RunStep(outcome) =>
      if t.pc.Stepping? && t.pc.next < |t.payload.steps| && d.last.Some? then
        if outcome == Exit(0) then
          At(t, Stepping(t.pc.next + 1), d.(last := Some(d.last.value.(done := d.last.value.done + 1))))
        else At(t, Failing, d)
      else None
    case WriteFailed(oversized) =>
      if t.pc.Failing? then At(t, Gone(Some(IsFailed)), Unlock(a, d).(receipt := ReceiptOf(t.payload, Failed, oversized))) else None
    case Verify(files, surroundings) =>
      if t.pc.Stepping? && t.pc.next == |t.payload.steps| && d.last.Some? then
        var d' := d.(last := Some(d.last.value.(after := Some(files))));
        if LocksValid(t.payload.locks, files) && EnvironmentOk(t.payload, surroundings, Nothing, false, true) then At(t, Verified, d')
        else At(t, Failing, d')
      else None
    case WriteMarker(writable) => if t.pc.Verified? then At(t, if writable then Marked else Failing, d) else None
    case WriteComplete(oversized) =>
      if t.pc.Marked? then At(t, Gone(Some(IsBootstrapped)), Unlock(a, d).(receipt := ReceiptOf(t.payload, Complete, oversized))) else None
    case Die => if !t.pc.Gone? then At(t, Gone(None), Unlock(a, d)) else None
  }

  /** The attempt ran every step with exit 0 and found its lock inputs as declared before and after. */
  predicate RanWell(r: Ran) {
    && r.done == |r.payload.steps| && LocksValid(r.payload.locks, r.before)
    && r.after.Some? && LocksValid(r.payload.locks, r.after.value)
  }

  predicate Inside(pc: Pc) {
    !pc.Arrived? && !pc.Gone?
  }

  predicate AttemptOk(a: nat, t: Attempt, d: Disk) {
    && (Inside(t.pc) ==> d.lock == Some(a))
    && (t.pc.Judged? ==> LocksValid(t.payload.locks, t.before))
    && (t.pc.Stepping? || t.pc.Failing? || t.pc.Verified? || t.pc.Marked? ==>
        d.last.Some? && d.last.value.payload == t.payload && LocksValid(t.payload.locks, d.last.value.before)
        && d.receipt.Document? && d.receipt.doc == Receipt(t.payload.project, FingerprintOf(t.payload), Running))
    && (t.pc.Stepping? ==> d.last.value.done == t.pc.next && t.pc.next <= |t.payload.steps|)
    && (t.pc.Verified? || t.pc.Marked? ==> RanWell(d.last.value))
  }

  predicate DiskOk(d: Disk) {
    d.receipt.Document? ==>
      && d.last.Some? && d.receipt.doc.project == d.last.value.payload.project
      && d.receipt.doc.fingerprint == FingerprintOf(d.last.value.payload)
      && (d.receipt.doc.status.Complete? ==> RanWell(d.last.value))
  }

  lemma StepKeepsOk(a: nat, t: Attempt, d: Disk, m: Move)
    requires AttemptOk(a, t, d) && DiskOk(d) && Step(a, t, d, m).Some?
    ensures var e := Step(a, t, d, m).value; AttemptOk(a, e.attempt, e.disk) && DiskOk(e.disk)
    ensures var d' := Step(a, t, d, m).value.disk; d' != d ==> d.lock == Some(a) || (d.lock.None? && d' == d.(lock := Some(a)))
  {
  }

  /** What the comparison after the steps decides: it passes only if every lock input is still a regular file
      with its digest and the paths and the interpreter are usable. */
  lemma VerifyDecides(a: nat, t: Attempt, d: Disk, files: Files, s: Surroundings)
    requires t.pc == Stepping(|t.payload.steps|) && d.last.Some?
    ensures
      var e := Step(a, t, d, Verify(files, s));
      && e.Some? && (e.value.attempt.pc == Verified || e.value.attempt.pc == Failing)
      && (e.value.attempt.pc == Verified <==>
            && s.identityOk && s.interpreterUsable
            && forall l | l in t.payload.locks :: l.path in files && files[l.path] == Regular(l.sha256))
  {
    LocksOneByOne(t.payload.locks, files);
  }

  // ---- an attempt that nothing disturbs ----

  /** The moves of one attempt, one after another. */
  function Follow(a: nat, e: Effect, moves: seq<Move>): Option<Effect>
    decreases |moves|
  {
    if moves == [] then Some(e)
    else
      match Step(a, e.attempt, e.disk, moves[0])
      case None => None
      case Some(next) => Follow(a, next, moves[1..])
  }

  lemma FollowFirst(a: nat, e: Effect, m: Move, rest: seq<Move>, next: Effect)
    requires Step(a, e.attempt, e.disk, m) == Some(next)
    ensures Follow(a, e, [m] + rest) == Follow(a, next, rest)
  {
    assert ([m] + rest)[1..] == rest;
  }

  /** That many steps, each with exit 0. */
  function Zeros(n: nat): (moves: seq<Move>)
    ensures |moves| == n && forall i :: 0 <= i < n ==> moves[i] == RunStep(Exit(0))
  {
    seq(n, i => RunStep(Exit(0)))
  }

  lemma {:induction false} StepsRun(a: nat, t: Attempt, d: Disk, n: nat, rest: seq<Move>)
    requires t.pc.Stepping? && t.pc.next + n == |t.payload.steps| && d.last.Some?
    ensures Follow(a, Effect(t, d), Zeros(n) + rest)
         == Follow(a, Effect(t.(pc := Stepping(t.pc.next + n)), d.(last := Some(d.last.value.(done := d.last.value.done + n)))), rest)
    decreases n
  {
    if n == 0 {
      assert Zeros(0) + rest == rest;
      assert d.(last := Some(d.last.value.(done := d.last.value.done))) == d;
    } else {
      var next := Effect(t.(pc := Stepping(t.pc.next + 1)), d.(last := Some(d.last.value.(done := d.last.value.done + 1))));
      assert Zeros(n) + rest == [RunStep(Exit(0))] + (Zeros(n - 1) + rest);
      FollowFirst(a, Effect(t, d), RunStep(Exit(0)), Zeros(n - 1) + rest, next);
      StepsRun(a, next.attempt, next.disk, n - 1, rest);
    }
  }

  lemma VerifiedCompletes(a: nat, t: Attempt, d: Disk)
    requires t.pc == Verified && d.lock == Some(a)
    ensures Follow(a, Effect(t, d), [WriteMarker(true), WriteComplete(false)])
         == Some(Effect(t.(pc := Gone(Some(IsBootstrapped))),
                        Disk(Document(Receipt(t.payload.project, FingerprintOf(t.payload), Complete), false, false), None, d.last)))
  {
    FollowFirst(a, Effect(t, d), WriteMarker(true), [WriteComplete(false)], Effect(t.(pc := Marked), d));
    FollowFirst(a, Effect(t.(pc := Marked), d), WriteComplete(false), [],
                Effect(t.(pc := Gone(Some(IsBootstrapped))),
                       Disk(Document(Receipt(t.payload.project, FingerprintOf(t.payload), Complete), false, false), None, d.last)));
  }

  /** Past its own checks, an attempt whose steps all exit with 0, and which finds inputs and environment in order
      after them, leaves a complete receipt for its payload and a free lock. */
  lemma AttemptCompletes(a: nat, t: Attempt, d: Disk, files: Files, s: Surroundings)
    requires t.pc == Judged && d.lock == Some(a) && s.identityOk && s.interpreterUsable
    requires forall l | l in t.payload.locks :: l.path in files && files[l.path] == Regular(l.sha256)
    ensures
      var n := |t.payload.steps|;
      Follow(a, Effect(t, d), [WriteRunning(false)] + (Zeros(n) + [Verify(files, s), WriteMarker(true), WriteComplete(false)]))
      == Some(Effect(t.(pc := Gone(Some(IsBootstrapped))),
                     Disk(Document(Receipt(t.payload.project, FingerprintOf(t.payload), Complete), false, false), None,
                          Some(Ran(t.payload, t.before, n, Some(files))))))
  {
    var n := |t.payload.steps|;
    var ending := [Verify(files, s), WriteMarker(true), WriteComplete(false)];
    var running := Document(Receipt(t.payload.project, FingerprintOf(t.payload), Running), false, false);
    var begun := Effect(t.(pc := Stepping(0)), Disk(running, Some(a), Some(Ran(t.payload, t.before, 0, None))));
    var run := Effect(t.(pc := Stepping(n)), Disk(running, Some(a), Some(Ran(t.payload, t.before, n, None))));
    FollowFirst(a, Effect(t, d), WriteRunning(false), Zeros(n) + ending, begun);
    StepsRun(a, begun.attempt, begun.disk, n, ending);
    StepsComplete(a, run.attempt, run.disk, files, s);
  }

  lemma StepsComplete(a: nat, t: Attempt, d: Disk, files: Files, s: Surroundings)
    requires t.pc == Stepping(|t.payload.steps|) && d.lock == Some(a) && d.last.Some? && s.identityOk && s.interpreterUsable
    requires forall l | l in t.payload.locks :: l.path in files && files[l.path] == Regular(l.sha256)
    ensures Follow(a, Effect(t, d), [Verify(files, s), WriteMarker(true), WriteComplete(false)])
         == Some(Effect(t.(pc := Gone(Some(IsBootstrapped))),
                        Disk(Document(Receipt(t.payload.project, FingerprintOf(t.payload), Complete), false, false), None,
                             Some(d.last.value.(after := Some(files))))))
  {
    var verified := Effect(t.(pc := Verified), d.(last := Some(d.last.value.(after := Some(files)))));
    LocksOneByOne(t.payload.locks, files);
    FollowFirst(a, Effect(t, d), Verify(files, s), [WriteMarker(true), WriteComplete(false)], verified);
    VerifiedCompletes(a, verified.attempt, verified.disk);
  }

  /** A step that does not exit with 0 ends the attempt with a receipt that says failed. */
  lemma AttemptFails(a: nat, t: Attempt, d: Disk, outcome: Outcome)
    requires t.pc.Stepping? && t.pc.next < |t.payload.steps| && d.last.Some? && d.lock == Some(a) && outcome != Exit(0)
    ensures Follow(a, Effect(t, d), [RunStep(outcome), WriteFailed(false)])
         == Some(Effect(t.(pc := Gone(Some(IsFailed))),
                        Disk(Document(Receipt(t.payload.project, FingerprintOf(t.payload), Failed), false, false), None, d.last)))
  {
    FollowFirst(a, Effect(t, d), RunStep(outcome), [WriteFailed(false)], Effect(t.(pc := Failing), d));
    FollowFirst(a, Effect(t.(pc := Failing), d), WriteFailed(false), [],
                Effect(t.(pc := Gone(Some(IsFailed))),
                       Disk(Document(Receipt(t.payload.project, FingerprintOf(t.payload), Failed), false, false), None, d.last)));
  }

  datatype World = World(disk: Disk, attempts: map<nat, Attempt>)

  datatype Act = Arrive(a: nat, payload: Payload) | By(a: nat, move: Move)

  function Do(w: World, act: Act): (r: Option<World>) {
    match act
    case Arrive(a, p) => if a !in w.attempts then Some(w.(attempts := w.attempts[a := Attempt(p, Arrived, map[])])) else None
    case By(a, m) =>
      if a !in w.attempts then None
      else
        var e := Step(a, w.attempts[a], w.disk, m);
        if e.Some? then Some(World(e.value.disk, w.attempts[a := e.value.attempt])) else None
  }

  predicate OneOk(w: World, a: nat)
    requires a in w.attempts
  {
    AttemptOk(a, w.attempts[a], w.disk)
  }

  predicate Inv(w: World) {
    DiskOk(w.disk) && forall a :: a in w.attempts ==> OneOk(w, a)
  }

  function After(w: World, acts: seq<Act>): Option<World> {
    if acts == [] then Some(w)
    else
      var n := |acts| - 1;
      var before := After(w, acts[..n]);
      if before.Some? then Do(before.value, acts[n]) else None
  }

  const Empty := World(Disk(Nothing, None, None), map[])

  lemma ActKeepsInv(w: World, act: Act)
    requires Inv(w) && Do(w, act).Some?
    ensures Inv(Do(w, act).value)
  {
    var w' := Do(w, act).value;
    match act {
      case Arrive(_, _) =>
        forall b | b in w'.attempts ensures OneOk(w', b) {
          assert b in w.attempts ==> OneOk(w, b);
        }
      case By(a, m) =>
        assert OneOk(w, a);
        StepKeepsOk(a, w.attempts[a], w.disk, m);
        OthersKeepOk(w, a, w');
    }
  }

  lemma OthersKeepOk(w: World, a: nat, w': World)
    requires Inv(w) && a in w.attempts && a in w'.attempts && w'.attempts == w.attempts[a := w'.attempts[a]]
    requires OneOk(w', a) && DiskOk(w'.disk)
    requires w'.disk != w.disk ==> w.disk.lock == Some(a) || (w.disk.lock.None? && w'.disk == w.disk.(lock := Some(a)))
    ensures Inv(w')
  {
    forall b | b in w'.attempts ensures OneOk(w', b) {
      assert b in w.attempts && OneOk(w, b);
    }
  }

  lemma {:induction false} RunKeepsInv(acts: seq<Act>)
    requires After(Empty, acts).Some?
    ensures Inv(After(Empty, acts).value)
  {
    if acts != [] {
      var n := |acts| - 1;
      RunKeepsInv(acts[..n]);
      ActKeepsInv(After(Empty, acts[..n]).value, acts[n]);
    }
  }

  /** Whatever attempts were made and wherever they crashed: if a payload is ready, in a check or in a full
      run, then the last attempt that wrote the receipt was for the same project and fingerprint, hence
      the same steps; it ran all of them with exit 0, and found its lock inputs unchanged before and
      after. The payload's own lock inputs are as declared now. */
  lemma ReadyMeansCompleted(acts: seq<Act>, p: Payload, v: View)
    requires After(Empty, acts).Some? && v.receipt == After(Empty, acts).value.disk.receipt
    requires Decide(p, v).Ready? || Check(p, v).Ready?
    ensures LocksValid(p.locks, v.files)
    ensures var last := After(Empty, acts).value.disk.last;
      && last.Some? && RanWell(last.value)
      && last.value.payload.project == p.project && last.value.payload.steps == p.steps
      && FingerprintOf(last.value.payload) == FingerprintOf(p)
  {
    RunKeepsInv(acts);
  }

  /** The lock names nobody or an attempt that is past it. */
  predicate LockIsHeld(w: World) {
    w.disk.lock.Some? ==> w.disk.lock.value in w.attempts && Inside(w.attempts[w.disk.lock.value].pc)
  }

  lemma StepKeepsLock(a: nat, t: Attempt, d: Disk, m: Move)
    requires AttemptOk(a, t, d) && Step(a, t, d, m).Some?
    ensures
      var e := Step(a, t, d, m).value;
      && (e.disk.lock == Some(a) && (d.lock == Some(a) ==> Inside(t.pc)) ==> Inside(e.attempt.pc))
      && (e.disk.lock != Some(a) ==> e.disk.lock == d.lock || e.disk.lock == None)
  {
  }

  lemma ActKeepsLock(w: World, act: Act)
    requires Inv(w) && LockIsHeld(w) && Do(w, act).Some?
    ensures LockIsHeld(Do(w, act).value)
  {
    if act.By? {
      assert OneOk(w, act.a);
      StepKeepsLock(act.a, w.attempts[act.a], w.disk, act.move);
    }
  }

  /** However attempts end, the lock is free again: in every run exactly the attempt past the lock holds it. */
  lemma {:induction false} LockFollowsAttempts(acts: seq<Act>, a: nat)
    requires After(Empty, acts).Some?
    ensures
      var w := After(Empty, acts).value;
      LockIsHeld(w) && (w.disk.lock == Some(a) <==> a in w.attempts && Inside(w.attempts[a].pc))
  {
    RunKeepsInv(acts);
    var w := After(Empty, acts).value;
    if acts != [] {
      var n := |acts| - 1;
      RunKeepsInv(acts[..n]);
      LockFollowsAttempts(acts[..n], a);
      ActKeepsLock(After(Empty, acts[..n]).value, acts[n]);
    }
    if a in w.attempts {
      assert OneOk(w, a);
    }
  }

  /** At most one attempt is past the lock. */
  lemma OneInside(acts: seq<Act>, a: nat, b: nat)
    requires After(Empty, acts).Some?
    requires var w := After(Empty, acts).value;
      a in w.attempts && b in w.attempts && Inside(w.attempts[a].pc) && Inside(w.attempts[b].pc)
    ensures a == b
  {
    RunKeepsInv(acts);
    var w := After(Empty, acts).value;
    assert OneOk(w, a) && OneOk(w, b);
  }
}
