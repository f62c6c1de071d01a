/** The R2 state bucket and the programs of `archive-live-state.py` that run against it.

    Every remote request of the script is one atomic step of a program. A program is its position in
    the script together with the script's local variables at that position. An ETag and a SHA-256
    digest stand for injective functions of a body. A request that fails raises an error that ends
    the script, so a refused request and a request whose reply is lost both leave the program
    `Stopped`; the second one after its effect.
 */
module Bucket {

  type Path = nat
  type Machine = nat
  type Uuid = nat

  /** The provisioning receipt that authorises one first deployment. */
  datatype Receipt = Receipt(operation: nat, generation: nat)

  datatype Phase = Admitted | Applying

  /** Contents of the lock object. The admission lock is named by the receipt's operation only, so two
      admissions of one receipt write identical bodies. */
  datatype LockId = AdmissionLock(operation: nat) | RecoveryLock(uuid: Uuid) | TofuLock(uuid: Uuid)

  datatype Body =
    | Cipher(payload: nat)                       // an encrypted state envelope
    | LockBody(id: LockId)
    | Marker(receipt: Receipt, phase: Phase)     // the admission marker
    | Cutover(completed: bool, nonce: nat)       // the migration marker
    | Foreign(content: nat)                      // anything else

  datatype Etag = Etag(of: Body)

  datatype Digest = Sha(of: Body)

  datatype Key =
    | State
    | Tflock
    | Admission
    | Migration
    | History(digest: Digest, uuid: Uuid)
    | Other(name: nat)

  type Objects = map<Key, Body>

  /** The private acknowledgement file that `admit` leaves on a machine. */
  datatype Acknowledgement = Acknowledgement(receipt: Receipt, phase: Phase, etag: Etag)

  type Files = map<Path, Acknowledgement>

  /** What `initial_check` was started for. `FirstApply` is the installer's `apply` of a plan that
      carries a receipt: it runs `begin`, saves its ledger and only then spawns OpenTofu. */
  datatype Goal = JustCheck | Resume | Begin | FirstApply(machine: Machine)

  datatype Outcome =
    | AdmissionHeld(receipt: Receipt)
    | Checked(receipt: Receipt)
    | Begun(receipt: Receipt)
    | Applied(machine: Machine)
    | Archived(key: Key, body: Body)
    | Restored(key: Key, body: Body)
    | StateChecked(etag: Etag)
    | ReleaseChecked(etag: Etag, digest: Digest, fence: set<Body>)
    | TofuDone

  datatype AdmitAt =
    | Opening | Listing | ResumeGetting | ResumeSaving
    | Locking | Relisting | Marking | Saving | Unlocking

  datatype CheckAt =
    | ReadFile
    | GetMarker(receipt: Receipt, etag: Etag)
    | CheckLock(receipt: Receipt, etag: Etag)
    | CheckList(receipt: Receipt, etag: Etag)
    | BeginPut(receipt: Receipt, etag: Etag)
    | BeginSave(receipt: Receipt, etag: Etag)
    | FenceLedger(machine: Machine)
    | SpawnApply(machine: Machine)

  datatype ArchiveAt =
    | ArchiveGuard
    | ArchiveGet
    | ArchivePut(body: Body)
    | ArchiveReguard(copy: Key, body: Body)
    | ArchiveReget(copy: Key, body: Body)

  datatype RestoreAt =
    | Fetch(archiveEtag: Etag)
    | Guard(body: Body)
    | Lock(body: Body)
    | Verify(body: Body, lock: Body)
    | Copy(body: Body, lock: Body)
    | Backup(body: Body, lock: Body, backup: Body)
    | PutState(body: Body, lock: Body, backup: Body, backupKey: Key)
    | Reread(body: Body, lock: Body)
    | Unlock(body: Body, lock: Body)

  datatype InspectAt =
    | StateGuard
    | StateGet
    | ReleaseGuard
    | ReleaseGet
    | ReleaseFence(etag: Etag)
    | ReleaseFenceGet(etag: Etag)
    | ReleaseReguard(etag: Etag, fence: set<Body>)
    | ReleaseReget(etag: Etag, fence: set<Body>)
    | ReleaseRefence(etag: Etag, fence: set<Body>)
    | ReleaseRefenceGet(etag: Etag, fence: set<Body>)

  /** `Admitting` is `admit`; `Checking` is `initial_check`, `begin` and the installer's first apply;
      `Restoring` is `restore`; `Inspecting` is a plain `check` and `release-check`. OpenTofu
      cooperates with the lock. */
  datatype Proc =
    | Admitting(receipt: Receipt, output: Path, admit: AdmitAt)
    | Checking(path: Path, goal: Goal, check: CheckAt)
    | Archiving(archive: ArchiveAt)
    | Restoring(key: Key, current: Etag, restore: RestoreAt)
    | Inspecting(inspect: InspectAt)
    | TofuWaiting(uuid: Uuid)
    | TofuHolding(lock: Body)
    | Finished(outcome: Outcome)
    | Stopped

  /** The programs an operator or a scheduler can start. */
  predicate Startable(p: Proc) {
    || (p.Admitting? && p.admit.Opening?)
    || (p.Checking? && p.check.ReadFile? && p.goal != Resume)
    || (p.Archiving? && p.archive.ArchiveGuard?)
    || (p.Restoring? && p.restore.Fetch?)
    || (p.Inspecting? && (p.inspect.StateGuard? || p.inspect.ReleaseGuard?))
    || p.TofuWaiting?
  }

  /** The one change a step makes outside its program. `Replace` overwrites the state object. */
  datatype Effect =
    | Quiet
    | Put(key: Key, body: Body)
    | Replace(body: Body, backupKey: Key)
    | Drop(key: Key)
    | Fence(receipt: Receipt)
    | Write(path: Path, file: Acknowledgement)
    | SaveLedger(machine: Machine)
    | Spawn(machine: Machine)

  /** Environment's part of a step: a random identifier, a choice, and the state OpenTofu writes. */
  datatype Choice = Choice(uuid: Uuid, more: bool, body: Body)

  function AdmissionLockBody(receipt: Receipt): Body {
    LockBody(AdmissionLock(receipt.operation))
  }

  /** `inventory`: a listing of at most three keys, or nothing when it would be truncated. */
  predicate Inventory(b: Objects, keys: set<Key>) {
    |b| <= 3 && b.Keys == keys
  }

  /** A conditional GET: the key exists and carries the expected ETag. */
  predicate Matches(b: Objects, key: Key, etag: Etag) {
    key in b && Etag(b[key]) == etag
  }

  function ActAdmit(r: Receipt, o: Path, at: AdmitAt, b: Objects, f: Files): (Proc, Effect) {
    match at
    case Opening => if o in f then (Stopped, Quiet) else (Admitting(r, o, Listing), Quiet)
    case Listing =>
      if Inventory(b, {Admission}) then (Admitting(r, o, ResumeGetting), Quiet)
      else if Inventory(b, {}) then (Admitting(r, o, Locking), Quiet)
      else (Stopped, Quiet)
    case ResumeGetting =>
      if Admission in b && b[Admission] == Marker(r, Admitted) then (Admitting(r, o, ResumeSaving), Quiet)
      else (Stopped, Quiet)
    case ResumeSaving =>
      if o in f then (Stopped, Quiet)
      else (Checking(o, Resume, ReadFile), Write(o, Acknowledgement(r, Admitted, Etag(Marker(r, Admitted)))))
    case Locking =>
      if Tflock in b then (Stopped, Quiet)
      else (Admitting(r, o, Relisting), Put(Tflock, AdmissionLockBody(r)))
    case Relisting =>
      if Inventory(b, {Tflock}) then (Admitting(r, o, Marking), Quiet) else (Stopped, Quiet)
    case Marking =>
      if Admission in b then (Stopped, Quiet)
      else (Admitting(r, o, Saving), Put(Admission, Marker(r, Admitted)))
    case Saving =>
      if o in f then (Stopped, Quiet)
      else (Admitting(r, o, Unlocking), Write(o, Acknowledgement(r, Admitted, Etag(Marker(r, Admitted)))))
    case Unlocking =>
      if Matches(b, Tflock, Etag(AdmissionLockBody(r))) then (Finished(AdmissionHeld(r)), Drop(Tflock))
      else (Stopped, Quiet)
  }

  function ActCheck(path: Path, goal: Goal, at: CheckAt, b: Objects, f: Files): (Proc, Effect) {
    match at
    case ReadFile =>
      if path in f && f[path].phase == Admitted then
        (Checking(path, goal, GetMarker(f[path].receipt, f[path].etag)), Quiet)
      else (Stopped, Quiet)
    case GetMarker(r, etag) =>
      if Matches(b, Admission, etag) && b[Admission] == Marker(r, Admitted) then
        (Checking(path, goal, CheckLock(r, etag)), Quiet)
      else (Stopped, Quiet)
    case CheckLock(r, etag) =>
      if Tflock in b then (Stopped, Quiet) else (Checking(path, goal, CheckList(r, etag)), Quiet)
    case CheckList(r, etag) =>
      if !Inventory(b, {Admission}) then (Stopped, Quiet)
      else if goal == JustCheck then (Finished(Checked(r)), Quiet)
      else if goal == Resume then (Finished(AdmissionHeld(r)), Quiet)
      else (Checking(path, goal, BeginPut(r, etag)), Quiet)
    case BeginPut(r, etag) =>
      if Matches(b, Admission, etag) then (Checking(path, goal, BeginSave(r, etag)), Fence(r)) else (Stopped, Quiet)
    case BeginSave(r, etag) =>
      (if goal.FirstApply? then Checking(path, goal, FenceLedger(goal.machine)) else Finished(Begun(r)),
       Write(path, Acknowledgement(r, Applying, etag)))
    case FenceLedger(machine) => (Checking(path, goal, SpawnApply(machine)), SaveLedger(machine))
    case SpawnApply(machine) => (Finished(Applied(machine)), Spawn(machine))
  }

  function ActArchive(at: ArchiveAt, b: Objects, c: Choice): (Proc, Effect) {
    match at
    case ArchiveGuard => if Tflock in b then (Stopped, Quiet) else (Archiving(ArchiveGet), Quiet)
    case ArchiveGet =>
      if State in b && b[State].Cipher? then (Archiving(ArchivePut(b[State])), Quiet) else (Stopped, Quiet)
    case ArchivePut(body) =>
      var key := History(Sha(body), c.uuid);
      if key in b then (Stopped, Quiet) else (Archiving(ArchiveReguard(key, body)), Put(key, body))
    case ArchiveReguard(key, body) =>
      if Tflock in b then (Stopped, Quiet) else (Archiving(ArchiveReget(key, body)), Quiet)
    case ArchiveReget(key, body) =>
      if Matches(b, State, Etag(body)) then (Finished(Archived(key, body)), Quiet) else (Stopped, Quiet)
  }

  function ActRestore(key: Key, current: Etag, at: RestoreAt, b: Objects, c: Choice): (Proc, Effect) {
    match at
    case Fetch(archiveEtag) =>
      if key.History? && Matches(b, key, archiveEtag) && b[key].Cipher? && Sha(b[key]) == key.digest then
        (Restoring(key, current, Guard(b[key])), Quiet)
      else (Stopped, Quiet)
    case Guard(body) => if Tflock in b then (Stopped, Quiet) else (Restoring(key, current, Lock(body)), Quiet)
    case Lock(body) =>
      var lock := LockBody(RecoveryLock(c.uuid));
      if Tflock in b then (Stopped, Quiet) else (Restoring(key, current, Verify(body, lock)), Put(Tflock, lock))
    case Verify(body, lock) =>
      if Matches(b, State, current) && b[State].Cipher? then (Restoring(key, current, Copy(body, lock)), Quiet)
      else (Stopped, Quiet)
    case Copy(body, lock) =>
      if Matches(b, State, current) && b[State].Cipher? then
        (Restoring(key, current, Backup(body, lock, b[State])), Quiet)
      else (Stopped, Quiet)
    case Backup(body, lock, backup) =>
      var backupKey := History(Sha(backup), c.uuid);
      if backupKey in b then (Stopped, Quiet)
      else (Restoring(key, current, PutState(body, lock, backup, backupKey)), Put(backupKey, backup))
    case PutState(body, lock, backup, backupKey) =>
      if Matches(b, State, current) then (Restoring(key, current, Reread(body, lock)), Replace(body, backupKey))
      else (Stopped, Quiet)
    case Reread(body, lock) =>
      if State in b && b[State] == body then (Restoring(key, current, Unlock(body, lock)), Quiet)
      else (Stopped, Quiet)
    case Unlock(body, lock) =>
      if Matches(b, Tflock, Etag(lock)) then (Finished(Restored(key, body)), Drop(Tflock)) else (Stopped, Quiet)
  }

  /** What `release-check` prints about the state it saw, and the cutover marker it saw. */
  function ReleaseOutcome(etag: Etag, fence: set<Body>): Outcome {
    ReleaseChecked(etag, Sha(etag.of), fence)
  }

  /** `check` and `release-check` only read. The cutover marker, none or one body, is listed and then read. */
  function ActInspect(at: InspectAt, b: Objects): Proc {
    match at
    case StateGuard => if Tflock in b then Stopped else Inspecting(StateGet)
    case StateGet => if State in b && b[State].Cipher? then Finished(StateChecked(Etag(b[State]))) else Stopped
    case ReleaseGuard => if Tflock in b then Stopped else Inspecting(ReleaseGet)
    case ReleaseGet => if State in b && b[State].Cipher? then Inspecting(ReleaseFence(Etag(b[State]))) else Stopped
    case ReleaseFence(etag) => Inspecting(if Migration in b then ReleaseFenceGet(etag) else ReleaseReguard(etag, {}))
    case ReleaseFenceGet(etag) =>
      if Migration in b && b[Migration].Cutover? && b[Migration].completed then Inspecting(ReleaseReguard(etag, {b[Migration]}))
      else Stopped
    case ReleaseReguard(etag, fence) => if Tflock in b then Stopped else Inspecting(ReleaseReget(etag, fence))
    case ReleaseReget(etag, fence) => if Matches(b, State, etag) then Inspecting(ReleaseRefence(etag, fence)) else Stopped
    case ReleaseRefence(etag, fence) =>
      if Migration in b then Inspecting(ReleaseRefenceGet(etag, fence))
      else if fence == {} then Finished(ReleaseOutcome(etag, fence)) else Stopped
    case ReleaseRefenceGet(etag, fence) =>
      if Migration in b && b[Migration].Cutover? && fence == {b[Migration]} then Finished(ReleaseOutcome(etag, fence)) else Stopped
  }

  /** One step of a program: the program's next position and the step's effect. */
  function Act(p: Proc, b: Objects, f: Files, c: Choice): (Proc, Effect) {
    match p
    case Admitting(r, o, at) => ActAdmit(r, o, at, b, f)
    case Checking(path, goal, at) => ActCheck(path, goal, at, b, f)
    case Archiving(at) => ActArchive(at, b, c)
    case Restoring(key, current, at) => ActRestore(key, current, at, b, c)
    case Inspecting(at) => (ActInspect(at, b), Quiet)
    case TofuWaiting(uuid) =>
      if Tflock in b then (Stopped, Quiet)
      else (TofuHolding(LockBody(TofuLock(uuid))), Put(Tflock, LockBody(TofuLock(uuid))))
    case TofuHolding(lock) =>
      if c.more && c.body.Cipher? then (p, Put(State, c.body))
      else if Matches(b, Tflock, Etag(lock)) then (Finished(TofuDone), Drop(Tflock))
      else (Stopped, Quiet)
    case Finished(_) => (p, Quiet)
    case Stopped => (p, Quiet)
  }

  /** The bucket after an effect. */
  function After(b: Objects, e: Effect): Objects {
    match e
    case Put(key, body) => b[key := body]
    case Replace(body, _) => b[State := body]
    case Drop(key) => b - {key}
    case Fence(r) => b[Admission := Marker(r, Applying)]
    case Quiet => b
    case Write(_, _) => b
    case SaveLedger(_) => b
    case Spawn(_) => b
  }

  /** The programs that hold the state lock, and the lock body each one wrote. */
  predicate Holding(p: Proc) {
    || (p.Admitting? && (p.admit.Relisting? || p.admit.Marking? || p.admit.Saving? || p.admit.Unlocking?))
    || (p.Restoring? && !p.restore.Fetch? && !p.restore.Guard? && !p.restore.Lock?)
    || p.TofuHolding?
  }

  function LockOf(p: Proc): Body
    requires Holding(p)
  {
    match p
    case Admitting(r, _, _) => AdmissionLockBody(r)
    case Restoring(_, _, at) => at.lock
    case TofuHolding(lock) => lock
  }
}
