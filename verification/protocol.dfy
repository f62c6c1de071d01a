/** Any number of the programs of `Bucket` running against one bucket, interleaved step by step, each
    of them able to stop for good between any two steps. The invariant holds of every run.
 */
module Protocol {
  import opened Bucket

  type Id = nat

  /** The shared bucket, the acknowledgement files, the machines whose installer ledger says
      `applying`, and the programs. The last three fields observe the run: the programs whose `begin`
      took effect, the programs that spawned the first `tofu apply`, and every state body that a
      restore overwrote with the archive key that was made for it. */
  datatype System = System(
    bucket: Objects, files: Files, fenced: set<Machine>, procs: map<Id, Proc>,
    begun: seq<Id>, applied: seq<Id>, replaced: seq<(Body, Key)>)

  /** `Outside` is an unrelated writer: it touches neither the state, its lock, its history nor the
      admission marker. */
  datatype Event =
    | Start(id: Id, proc: Proc)
    | Step(id: Id, choice: Choice)
    | Stop(id: Id)
    | Outside(name: nat, migration: bool, bodies: seq<Body>)

  function Observe(s: System, id: Id, e: Effect): System {
    match e
    case Write(path, file) => s.(files := s.files[path := file])
    case SaveLedger(machine) => s.(fenced := s.fenced + {machine})
    case Fence(_) => s.(begun := s.begun + [id])
    case Spawn(_) => s.(applied := s.applied + [id])
    case Replace(_, backupKey) => if State in s.bucket then s.(replaced := s.replaced + [(s.bucket[State], backupKey)]) else s
    case Quiet => s
    case Put(_, _) => s
    case Drop(_) => s
  }

  function OutsideWrite(b: Objects, key: Key, bodies: seq<Body>): Objects {
    if bodies == [] then b - {key} else b[key := bodies[0]]
  }

  function Exec(s: System, event: Event): System {
    match event
    case Start(id, p) => if id in s.procs || !Startable(p) then s else s.(procs := s.procs[id := p])
    case Step(id, c) =>
      if id !in s.procs then s else
        var (next, e) := Act(s.procs[id], s.bucket, s.files, c);
        Observe(s, id, e).(bucket := After(s.bucket, e), procs := s.procs[id := next])
    case Stop(id) => if id in s.procs && !s.procs[id].Finished? then s.(procs := s.procs[id := Stopped]) else s
    case Outside(name, migration, bodies) =>
      s.(bucket := OutsideWrite(s.bucket, if migration then Migration else Other(name), bodies))
  }

  function Run(s: System, events: seq<Event>): System
    decreases |events|
  {
    if events == [] then s else Run(Exec(s, events[0]), events[1..])
  }

  /** A run starts with no program running and any bucket whose marker, if any, is a marker. */
  predicate Initial(s: System) {
    && s.procs == map[] && s.begun == [] && s.applied == [] && s.replaced == []
    && (Admission in s.bucket ==> s.bucket[Admission].Marker?)
  }

  // ---- the invariant ----

  predicate ArchiveKept(b: Objects, key: Key, body: Body) {
    key.History? && key in b && b[key] == body && key.digest == Sha(body)
  }

  /** A restore carries the archived body it will write, and later the backup it has made. */
  predicate RestoreServed(key: Key, current: Etag, at: RestoreAt, b: Objects) {
    && (!at.Fetch? ==> ArchiveKept(b, key, at.body))
    && (at.Backup? ==> current == Etag(at.backup))
    && (at.PutState? ==> current == Etag(at.backup) && ArchiveKept(b, at.backupKey, at.backup))
    && (at.Reread? || at.Unlock? ==> State in b && b[State] == at.body)
  }

  predicate OutcomeServed(outcome: Outcome, b: Objects) {
    outcome.Archived? || outcome.Restored? ==> ArchiveKept(b, outcome.key, outcome.body)
  }

  /** What the bucket owes one program, whatever the others do. */
  predicate Served(p: Proc, b: Objects) {
    && (Holding(p) ==> Tflock in b && b[Tflock] == LockOf(p))
    && match p
       case Checking(_, _, at) =>
         at.CheckLock? || at.CheckList? || at.BeginPut? ==> at.etag == Etag(Marker(at.receipt, Admitted))
       case Archiving(at) => at.ArchiveReguard? || at.ArchiveReget? ==> ArchiveKept(b, at.copy, at.body)
       case Restoring(key, current, at) => RestoreServed(key, current, at, b)
       case Finished(outcome) => OutcomeServed(outcome, b)
       case _ => true
  }

  /** The programs that come after a `begin` that took effect. */
  predicate Winner(p: Proc) {
    p.Checking? && (p.check.BeginSave? || p.check.FenceLedger? || p.check.SpawnApply?)
  }

  predicate IsApplying(b: Objects) {
    Admission in b && b[Admission].Marker? && b[Admission].phase == Applying
  }

  predicate Exclusive(procs: map<Id, Proc>) {
    forall i, j :: i in procs && j in procs && Holding(procs[i]) && Holding(procs[j]) ==> i == j
  }

  predicate AllServed(procs: map<Id, Proc>, b: Objects) {
    forall i :: i in procs ==> Served(procs[i], b)
  }

  /** The marker never becomes anything else, and at most one `begin` has taken effect. */
  predicate OneBegin(s: System) {
    && (Admission in s.bucket ==> s.bucket[Admission].Marker?)
    && |s.begun| <= 1
    && (s.begun != [] ==> IsApplying(s.bucket))
  }

  predicate HasApplied(p: Proc) {
    p.Finished? && p.outcome.Applied?
  }

  predicate AboutToSpawn(p: Proc) {
    p.Checking? && p.check.SpawnApply?
  }

  /** Only the program whose `begin` took effect spawns an apply, once, behind its machine's ledger. */
  predicate OneApply(s: System) {
    && (forall i :: i in s.procs && Winner(s.procs[i]) ==> s.begun == [i] && s.applied == [])
    && (s.applied != [] ==> s.applied == s.begun)
    && (forall i :: i in s.procs && AboutToSpawn(s.procs[i]) ==> s.procs[i].check.machine in s.fenced)
    && (forall i :: i in s.procs && HasApplied(s.procs[i]) ==> s.procs[i].outcome.machine in s.fenced && i in s.applied)
    && (forall i :: i in s.applied ==> i in s.procs && HasApplied(s.procs[i]))
  }

  predicate NothingLost(s: System) {
    forall i :: 0 <= i < |s.replaced| ==> ArchiveKept(s.bucket, s.replaced[i].1, s.replaced[i].0)
  }

  predicate Inv(s: System) {
    Exclusive(s.procs) && AllServed(s.procs, s.bucket) && OneBegin(s) && OneApply(s) && NothingLost(s)
  }

  // ---- what one step may do to the bucket ----

  /** The bucket changes a step can make, given whether the stepping program holds the lock. */
  predicate Legal(b: Objects, e: Effect, holder: bool) {
    match e
    case Put(key, body) =>
      || (key.History? && key !in b)
      || (key == Tflock && Tflock !in b)
      || (key == Admission && Admission !in b && body.Marker? && body.phase == Admitted)
      || (key == State && holder)
    case Replace(body, backupKey) => holder && State in b && ArchiveKept(b, backupKey, b[State])
    case Drop(key) => key == Tflock && holder
    case Fence(r) => Admission in b && b[Admission] == Marker(r, Admitted)
    case Quiet => true
    case Write(_, _) => true
    case SaveLedger(_) => true
    case Spawn(_) => true
  }

  lemma StepIsLegal(p: Proc, b: Objects, f: Files, c: Choice)
    requires Served(p, b)
    ensures Legal(b, Act(p, b, f, c).1, Holding(p))
  {
  }

  lemma RestoreServesItself(key: Key, current: Etag, at: RestoreAt, b: Objects, c: Choice)
    requires Served(Restoring(key, current, at), b)
    ensures var (q, e) := ActRestore(key, current, at, b, c); Served(q, After(b, e))
  {
  }

  lemma AdmitServesItself(r: Receipt, o: Path, at: AdmitAt, b: Objects, f: Files)
    requires Served(Admitting(r, o, at), b)
    ensures var (q, e) := ActAdmit(r, o, at, b, f); Served(q, After(b, e))
  {
  }

  lemma CheckServesItself(path: Path, goal: Goal, at: CheckAt, b: Objects, f: Files)
    requires Served(Checking(path, goal, at), b)
    ensures var (q, e) := ActCheck(path, goal, at, b, f); Served(q, After(b, e))
  {
  }

  lemma ArchiveServesItself(at: ArchiveAt, b: Objects, c: Choice)
    requires Served(Archiving(at), b)
    ensures var (q, e) := ActArchive(at, b, c); Served(q, After(b, e))
  {
  }

  lemma StepServesItself(p: Proc, b: Objects, f: Files, c: Choice)
    requires Served(p, b)
    ensures var (q, e) := Act(p, b, f, c); Served(q, After(b, e))
  {
    match p {
      case Admitting(r, o, at) => AdmitServesItself(r, o, at, b, f);
      case Restoring(key, current, at) => RestoreServesItself(key, current, at, b, c);
      case Checking(path, goal, at) => CheckServesItself(path, goal, at, b, f);
      case Archiving(at) => ArchiveServesItself(at, b, c);
      case Inspecting(_) =>
      case TofuWaiting(_) =>
      case TofuHolding(_) =>
      case Finished(_) =>
      case Stopped =>
    }
  }

  lemma StepServesOthers(q: Proc, b: Objects, e: Effect, holder: bool)
    requires Served(q, b) && Legal(b, e, holder) && (holder ==> !Holding(q))
    ensures Served(q, After(b, e))
  {
  }

  /** The lock is taken only while it is absent, and given up only by the program that has it. */
  lemma LockTakenWhenFree(p: Proc, b: Objects, f: Files, c: Choice)
    ensures var (q, e) := Act(p, b, f, c);
            && (Holding(q) && !Holding(p) ==> Tflock !in b)
            && (e.Drop? ==> Holding(p) && e.key == Tflock)
            && (e.Replace? || (e.Put? && e.key == State) ==> Holding(p))
  {
  }

  /** How one step can move a program past the remote fence, the ledger fence and the spawn. */
  predicate FenceMove(p: Proc, q: Proc, e: Effect) {
    && (e.Fence? <==> Winner(q) && !Winner(p))
    && (e.Spawn? <==> AboutToSpawn(p))
    && (e.Spawn? <==> HasApplied(q) && !HasApplied(p))
    && (AboutToSpawn(p) ==> q == Finished(Applied(p.check.machine)))
    && (AboutToSpawn(q) ==> e == SaveLedger(q.check.machine))
    && (p.Finished? ==> q == p)
  }

  lemma FenceStep(p: Proc, b: Objects, f: Files, c: Choice)
    requires Served(p, b)
    ensures var (q, e) := Act(p, b, f, c);
            FenceMove(p, q, e) && (e.Fence? ==> Admission in b && b[Admission] == Marker(e.receipt, Admitted))
  {
  }

  lemma StepKeepsExclusion(s: System, id: Id, c: Choice)
    requires Inv(s) && id in s.procs
    ensures Exclusive(Exec(s, Step(id, c)).procs)
  {
    LockTakenWhenFree(s.procs[id], s.bucket, s.files, c);
  }

  lemma StepServesAll(s: System, id: Id, c: Choice)
    requires Inv(s) && id in s.procs
    ensures var t := Exec(s, Step(id, c)); AllServed(t.procs, t.bucket)
  {
    var p := s.procs[id];
    var (q, e) := Act(p, s.bucket, s.files, c);
    StepIsLegal(p, s.bucket, s.files, c);
    StepServesItself(p, s.bucket, s.files, c);
    forall i | i in s.procs && i != id ensures Served(s.procs[i], After(s.bucket, e)) {
      StepServesOthers(s.procs[i], s.bucket, e, Holding(p));
    }
  }

  lemma StepKeepsOneBegin(s: System, id: Id, c: Choice)
    requires Inv(s) && id in s.procs
    ensures OneBegin(Exec(s, Step(id, c)))
  {
    StepIsLegal(s.procs[id], s.bucket, s.files, c);
    FenceStep(s.procs[id], s.bucket, s.files, c);
  }

  lemma SpawnKeepsOneApply(s: System, id: Id, q: Proc)
    requires OneApply(s) && id in s.procs && AboutToSpawn(s.procs[id]) && q == Finished(Applied(s.procs[id].check.machine))
    ensures OneApply(s.(applied := s.applied + [id], procs := s.procs[id := q]))
  {
  }

  lemma FenceKeepsOneApply(s: System, id: Id, q: Proc)
    requires OneApply(s) && id in s.procs && s.begun == [] && !HasApplied(s.procs[id]) && !HasApplied(q) && !AboutToSpawn(q)
    ensures OneApply(s.(begun := [id], procs := s.procs[id := q]))
  {
  }

  lemma OtherKeepsOneApply(s: System, id: Id, q: Proc, fenced: set<Machine>)
    requires OneApply(s) && id in s.procs && s.fenced <= fenced
    requires Winner(q) ==> Winner(s.procs[id])
    requires AboutToSpawn(q) ==> q.check.machine in fenced
    requires if HasApplied(s.procs[id]) then q == s.procs[id] else !HasApplied(q)
    ensures OneApply(s.(fenced := fenced, procs := s.procs[id := q]))
  {
  }

  lemma MoveKeepsOneApply(s: System, id: Id, q: Proc, e: Effect)
    requires OneApply(s) && id in s.procs && FenceMove(s.procs[id], q, e) && (e.Fence? ==> s.begun == [])
    ensures var t := Observe(s, id, e); OneApply(s.(fenced := t.fenced, begun := t.begun, applied := t.applied, procs := s.procs[id := q]))
  {
    if e.Spawn? {
      SpawnKeepsOneApply(s, id, q);
    } else if e.Fence? {
      FenceKeepsOneApply(s, id, q);
    } else {
      OtherKeepsOneApply(s, id, q, Observe(s, id, e).fenced);
    }
  }

  lemma StepKeepsOneApply(s: System, id: Id, c: Choice)
    requires Inv(s) && id in s.procs
    ensures OneApply(Exec(s, Step(id, c)))
  {
    FenceStep(s.procs[id], s.bucket, s.files, c);
    var (q, e) := Act(s.procs[id], s.bucket, s.files, c);
    MoveKeepsOneApply(s, id, q, e);
  }

  lemma StepLosesNothing(s: System, id: Id, c: Choice)
    requires Inv(s) && id in s.procs
    ensures NothingLost(Exec(s, Step(id, c)))
  {
    StepIsLegal(s.procs[id], s.bucket, s.files, c);
  }

  lemma StepKeepsInv(s: System, id: Id, c: Choice)
    requires Inv(s) && id in s.procs
    ensures Inv(Exec(s, Step(id, c)))
  {
    StepKeepsExclusion(s, id, c);
    StepServesAll(s, id, c);
    StepKeepsOneBegin(s, id, c);
    StepKeepsOneApply(s, id, c);
    StepLosesNothing(s, id, c);
  }

  lemma OutsideKeepsInv(s: System, key: Key, bodies: seq<Body>)
    requires Inv(s) && (key.Migration? || key.Other?)
    ensures Inv(s.(bucket := OutsideWrite(s.bucket, key, bodies)))
  {
    var b := OutsideWrite(s.bucket, key, bodies);
    assert forall k :: k != key ==> (k in b <==> k in s.bucket) && (k in b ==> b[k] == s.bucket[k]);
    forall i | i in s.procs ensures Served(s.procs[i], b) {
      assert Served(s.procs[i], s.bucket);
    }
  }

  lemma StartKeepsInv(s: System, id: Id, p: Proc)
    requires Inv(s) && id !in s.procs && Startable(p)
    ensures Inv(s.(procs := s.procs[id := p]))
  {
    assert !Holding(p) && Served(p, s.bucket);
  }

  lemma StopKeepsInv(s: System, id: Id)
    requires Inv(s) && id in s.procs && !s.procs[id].Finished?
    ensures Inv(s.(procs := s.procs[id := Stopped]))
  {
  }

  lemma ExecKeepsInv(s: System, event: Event)
    requires Inv(s)
    ensures Inv(Exec(s, event))
  {
    match event {
      case Start(id, p) => if id !in s.procs && Startable(p) { StartKeepsInv(s, id, p); }
      case Step(id, c) => if id in s.procs { StepKeepsInv(s, id, c); }
      case Stop(id) => if id in s.procs && !s.procs[id].Finished? { StopKeepsInv(s, id); }
      case Outside(name, migration, bodies) =>
        OutsideKeepsInv(s, if migration then Migration else Other(name), bodies);
    }
  }

  lemma {:induction false} RunKeepsInv(s: System, events: seq<Event>)
    requires Inv(s)
    ensures Inv(Run(s, events))
    decreases |events|
  {
    if events != [] {
      ExecKeepsInv(s, events[0]);
      RunKeepsInv(Exec(s, events[0]), events[1..]);
    }
  }
}
