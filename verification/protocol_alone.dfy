/** Each program run to its end with nothing interfering: exactly when it succeeds, and exactly what it
    leaves behind. */
module ProtocolAlone {
  import opened Bucket

  function FilesAfter(f: Files, e: Effect): Files {
    if e.Write? then f[e.path := e.file] else f
  }

  /** The program's position, the bucket and the files after `n` uninterrupted steps. */
  function Alone(p: Proc, b: Objects, f: Files, c: Choice, n: nat): (Proc, Objects, Files)
    decreases n
  {
    if n == 0 then (p, b, f) else
      var (q, e) := Act(p, b, f, c);
      Alone(q, After(b, e), FilesAfter(f, e), c, n - 1)
  }

  lemma {:induction false} EndedStays(p: Proc, b: Objects, f: Files, c: Choice, n: nat)
    requires p.Finished? || p.Stopped?
    ensures Alone(p, b, f, c, n) == (p, b, f)
  {
    if n > 0 { EndedStays(p, b, f, c, n - 1); }
  }

  lemma AloneStep(p: Proc, b: Objects, f: Files, c: Choice, n: nat, q: Proc, e: Effect)
    requires n > 0 && Act(p, b, f, c) == (q, e)
    ensures Alone(p, b, f, c, n) == Alone(q, After(b, e), FilesAfter(f, e), c, n - 1)
  {
  }

  function OnlyMarker(r: Receipt, phase: Phase): Objects {
    map[Admission := Marker(r, phase)]
  }

  /** The acknowledgement of a receipt. Its ETag stays that of the admitted marker. */
  function Acknowledged(r: Receipt, phase: Phase): Acknowledgement {
    Acknowledgement(r, phase, Etag(Marker(r, Admitted)))
  }

  lemma OneKey(b: Objects, key: Key)
    requires b.Keys == {key}
    ensures b == map[key := b[key]] && |b| == 1
  {
  }

  // ---- initial_check and begin ----

  /** `initial_check` on any files and any bucket: it passes exactly when the acknowledgement is an
      unused one of a marker that is the bucket's only object. */
  predicate CheckPasses(path: Path, b: Objects, f: Files) {
    path in f && f[path] == Acknowledged(f[path].receipt, Admitted) && b == OnlyMarker(f[path].receipt, Admitted)
  }

  predicate MarkerFits(path: Path, b: Objects, f: Files) {
    && path in f && f[path] == Acknowledged(f[path].receipt, Admitted)
    && Admission in b && b[Admission] == Marker(f[path].receipt, Admitted)
  }

  lemma CheckMarkerSteps(path: Path, goal: Goal, b: Objects, f: Files, c: Choice, n: nat)
    requires n >= 2
    ensures MarkerFits(path, b, f) ==>
              Alone(Checking(path, goal, ReadFile), b, f, c, n) ==
              Alone(Checking(path, goal, CheckLock(f[path].receipt, f[path].etag)), b, f, c, n - 2)
    ensures !MarkerFits(path, b, f) ==> Alone(Checking(path, goal, ReadFile), b, f, c, n) == (Stopped, b, f)
  {
    var p0 := Checking(path, goal, ReadFile);
    if path !in f || f[path].phase != Admitted {
      AloneStep(p0, b, f, c, n, Stopped, Quiet);
      EndedStays(Stopped, b, f, c, n - 1);
      return;
    }
    var r, etag := f[path].receipt, f[path].etag;
    var p1, p2 := Checking(path, goal, GetMarker(r, etag)), Checking(path, goal, CheckLock(r, etag));
    AloneStep(p0, b, f, c, n, p1, Quiet);
    if MarkerFits(path, b, f) {
      AloneStep(p1, b, f, c, n - 1, p2, Quiet);
    } else {
      AloneStep(p1, b, f, c, n - 1, Stopped, Quiet);
      EndedStays(Stopped, b, f, c, n - 2);
    }
  }

  lemma CheckListStops(path: Path, goal: Goal, r: Receipt, b: Objects, f: Files, c: Choice, n: nat)
    requires n >= 2
    ensures var p, q := Checking(path, goal, CheckLock(r, Etag(Marker(r, Admitted)))), Checking(path, goal, CheckList(r, Etag(Marker(r, Admitted))));
            Alone(p, b, f, c, n) == if b.Keys == {Admission} then Alone(q, b, f, c, n - 1) else (Stopped, b, f)
  {
    var etag := Etag(Marker(r, Admitted));
    var p, q := Checking(path, goal, CheckLock(r, etag)), Checking(path, goal, CheckList(r, etag));
    if Tflock in b {
      assert Tflock in b.Keys;
      AloneStep(p, b, f, c, n, Stopped, Quiet);
      EndedStays(Stopped, b, f, c, n - 1);
    } else {
      AloneStep(p, b, f, c, n, q, Quiet);
      if b.Keys != {Admission} {
        AloneStep(q, b, f, c, n - 1, Stopped, Quiet);
        EndedStays(Stopped, b, f, c, n - 2);
      }
    }
  }

  /** A check that passes comes to its listing; any other stops. */
  lemma CheckComesToListing(path: Path, goal: Goal, b: Objects, f: Files, c: Choice, n: nat)
    requires n >= 4
    ensures CheckPasses(path, b, f) ==>
              Alone(Checking(path, goal, ReadFile), b, f, c, n) ==
              Alone(Checking(path, goal, CheckList(f[path].receipt, f[path].etag)), b, f, c, n - 3)
    ensures !CheckPasses(path, b, f) ==> Alone(Checking(path, goal, ReadFile), b, f, c, n) == (Stopped, b, f)
  {
    CheckMarkerSteps(path, goal, b, f, c, n);
    if MarkerFits(path, b, f) {
      CheckListStops(path, goal, f[path].receipt, b, f, c, n - 2);
      if b.Keys == {Admission} { OneKey(b, Admission); }
    }
  }

  /** The installer's first apply: it spawns OpenTofu exactly when `initial_check` passes, and then the
      marker and the acknowledgement both say `applying`. Otherwise nothing changes. */
  lemma FirstApplyAlone(path: Path, machine: Machine, b: Objects, f: Files, c: Choice)
    ensures var (p, b', f') := Alone(Checking(path, FirstApply(machine), ReadFile), b, f, c, 8);
            if CheckPasses(path, b, f) then
              && p == Finished(Applied(machine))
              && b' == OnlyMarker(f[path].receipt, Applying)
              && f' == f[path := f[path].(phase := Applying)]
            else p == Stopped && b' == b && f' == f
  {
    var goal := FirstApply(machine);
    CheckComesToListing(path, goal, b, f, c, 8);
    if CheckPasses(path, b, f) {
      BeginThreeSteps(path, goal, f[path].receipt, f, c, 5);
      var b', f' := OnlyMarker(f[path].receipt, Applying), f[path := Acknowledged(f[path].receipt, Applying)];
      SpawnTwoSteps(path, machine, b', f', c);
    }
  }

  lemma SpawnTwoSteps(path: Path, machine: Machine, b: Objects, f: Files, c: Choice)
    ensures Alone(Checking(path, FirstApply(machine), FenceLedger(machine)), b, f, c, 2) == (Finished(Applied(machine)), b, f)
  {
    var p, q := Checking(path, FirstApply(machine), FenceLedger(machine)), Checking(path, FirstApply(machine), SpawnApply(machine));
    AloneStep(p, b, f, c, 2, q, SaveLedger(machine));
    AloneStep(q, b, f, c, 1, Finished(Applied(machine)), Spawn(machine));
  }

  /** `begin`: exactly when `initial_check` passes, the marker and the acknowledgement both say `applying`. */
  lemma BeginAlone(path: Path, b: Objects, f: Files, c: Choice)
    ensures var (p, b', f') := Alone(Checking(path, Begin, ReadFile), b, f, c, 6);
            if CheckPasses(path, b, f) then
              && p == Finished(Begun(f[path].receipt))
              && b' == OnlyMarker(f[path].receipt, Applying)
              && f' == f[path := f[path].(phase := Applying)]
            else p == Stopped && b' == b && f' == f
  {
    CheckComesToListing(path, Begin, b, f, c, 6);
    if CheckPasses(path, b, f) { BeginThreeSteps(path, Begin, f[path].receipt, f, c, 3); }
  }

  /** `initial_check` itself changes nothing. */
  lemma CheckAlone(path: Path, b: Objects, f: Files, c: Choice)
    ensures Alone(Checking(path, JustCheck, ReadFile), b, f, c, 4)
         == (if CheckPasses(path, b, f) then Finished(Checked(f[path].receipt)) else Stopped, b, f)
  {
    CheckComesToListing(path, JustCheck, b, f, c, 4);
    if CheckPasses(path, b, f) {
      var r, etag := f[path].receipt, f[path].etag;
      OneKey(b, Admission);
      AloneStep(Checking(path, JustCheck, CheckList(r, etag)), b, f, c, 1, Finished(Checked(r)), Quiet);
    }
  }

  lemma BeginThreeSteps(path: Path, goal: Goal, r: Receipt, f: Files, c: Choice, n: nat)
    requires n >= 3 && (goal == Begin || goal.FirstApply?)
    ensures var p := Checking(path, goal, CheckList(r, Etag(Marker(r, Admitted))));
            var q := if goal == Begin then Finished(Begun(r)) else Checking(path, goal, FenceLedger(goal.machine));
            Alone(p, OnlyMarker(r, Admitted), f, c, n) ==
            Alone(q, OnlyMarker(r, Applying), f[path := Acknowledged(r, Applying)], c, n - 3)
  {
    var etag, b, b' := Etag(Marker(r, Admitted)), OnlyMarker(r, Admitted), OnlyMarker(r, Applying);
    var p4, p5 := Checking(path, goal, BeginPut(r, etag)), Checking(path, goal, BeginSave(r, etag));
    var q := if goal == Begin then Finished(Begun(r)) else Checking(path, goal, FenceLedger(goal.machine));
    OneKey(b, Admission);
    AloneStep(Checking(path, goal, CheckList(r, etag)), b, f, c, n, p4, Quiet);
    assert b[Admission := Marker(r, Applying)] == b';
    AloneStep(p4, b, f, c, n - 1, p5, Fence(r));
    AloneStep(p5, b', f, c, n - 2, q, Write(path, Acknowledged(r, Applying)));
  }

  // ---- admit ----

  /** `admit` succeeds exactly when the output file is new and the bucket is empty or holds nothing but
      this receipt's unused marker. It leaves that marker, the acknowledgement, and no lock. */
  lemma AdmitAlone(r: Receipt, o: Path, b: Objects, f: Files, c: Choice)
    ensures var (p, b', f') := Alone(Admitting(r, o, Opening), b, f, c, 8);
            if o !in f && (b == map[] || b == OnlyMarker(r, Admitted)) then
              p == Finished(AdmissionHeld(r)) && b' == OnlyMarker(r, Admitted) && f' == f[o := Acknowledged(r, Admitted)]
            else p == Stopped && b' == b && f' == f
  {
    var p0, p1 := Admitting(r, o, Opening), Admitting(r, o, Listing);
    if o in f {
      AloneStep(p0, b, f, c, 8, Stopped, Quiet);
      EndedStays(Stopped, b, f, c, 7);
    } else {
      AloneStep(p0, b, f, c, 8, p1, Quiet);
      if b.Keys == {} {
        AdmitEmpty(r, o, b, f, c);
      } else if b.Keys == {Admission} {
        OneKey(b, Admission);
        AdmitResumes(r, o, b, f, c);
      } else {
        AloneStep(p1, b, f, c, 7, Stopped, Quiet);
        EndedStays(Stopped, b, f, c, 6);
      }
    }
  }

  lemma AdmitEmpty(r: Receipt, o: Path, b: Objects, f: Files, c: Choice)
    requires b.Keys == {} && o !in f
    ensures b == map[]
    ensures Alone(Admitting(r, o, Listing), b, f, c, 7)
         == (Finished(AdmissionHeld(r)), OnlyMarker(r, Admitted), f[o := Acknowledged(r, Admitted)])
  {
    assert b == map[];
    var lock := AdmissionLockBody(r);
    var b1: Objects := map[Tflock := lock];
    AloneStep(Admitting(r, o, Listing), b, f, c, 7, Admitting(r, o, Locking), Quiet);
    assert b[Tflock := lock] == b1;
    AloneStep(Admitting(r, o, Locking), b, f, c, 6, Admitting(r, o, Relisting), Put(Tflock, lock));
    assert b1.Keys == {Tflock};
    OneKey(b1, Tflock);
    AloneStep(Admitting(r, o, Relisting), b1, f, c, 5, Admitting(r, o, Marking), Quiet);
    AdmitMarks(r, o, f, c);
  }

  lemma AdmitMarks(r: Receipt, o: Path, f: Files, c: Choice)
    requires o !in f
    ensures Alone(Admitting(r, o, Marking), map[Tflock := AdmissionLockBody(r)], f, c, 4)
         == (Finished(AdmissionHeld(r)), OnlyMarker(r, Admitted), f[o := Acknowledged(r, Admitted)])
  {
    var lock := AdmissionLockBody(r);
    var b1: Objects := map[Tflock := lock];
    var b2 := b1[Admission := Marker(r, Admitted)];
    var f1 := f[o := Acknowledged(r, Admitted)];
    AloneStep(Admitting(r, o, Marking), b1, f, c, 4, Admitting(r, o, Saving), Put(Admission, Marker(r, Admitted)));
    AloneStep(Admitting(r, o, Saving), b2, f, c, 3, Admitting(r, o, Unlocking), Write(o, Acknowledged(r, Admitted)));
    var b3 := b2 - {Tflock};
    assert b3 == OnlyMarker(r, Admitted);
    AloneStep(Admitting(r, o, Unlocking), b2, f1, c, 2, Finished(AdmissionHeld(r)), Drop(Tflock));
    EndedStays(Finished(AdmissionHeld(r)), b3, f1, c, 1);
  }

  lemma AdmitResumes(r: Receipt, o: Path, b: Objects, f: Files, c: Choice)
    requires b.Keys == {Admission} && |b| == 1 && o !in f
    ensures Alone(Admitting(r, o, Listing), b, f, c, 7)
         == if b == OnlyMarker(r, Admitted) then (Finished(AdmissionHeld(r)), b, f[o := Acknowledged(r, Admitted)]) else (Stopped, b, f)
  {
    OneKey(b, Admission);
    AloneStep(Admitting(r, o, Listing), b, f, c, 7, Admitting(r, o, ResumeGetting), Quiet);
    if b == OnlyMarker(r, Admitted) {
      var f1 := f[o := Acknowledged(r, Admitted)];
      AloneStep(Admitting(r, o, ResumeGetting), b, f, c, 6, Admitting(r, o, ResumeSaving), Quiet);
      AloneStep(Admitting(r, o, ResumeSaving), b, f, c, 5, Checking(o, Resume, ReadFile), Write(o, Acknowledged(r, Admitted)));
      CheckComesToListing(o, Resume, b, f1, c, 4);
      AloneStep(Checking(o, Resume, CheckList(r, Etag(Marker(r, Admitted)))), b, f1, c, 1, Finished(AdmissionHeld(r)), Quiet);
    } else {
      AloneStep(Admitting(r, o, ResumeGetting), b, f, c, 6, Stopped, Quiet);
      EndedStays(Stopped, b, f, c, 5);
    }
  }

  // ---- archive ----

  /** `archive` succeeds exactly when there is no lock, there is encrypted state and the fresh key is
      unused; then the bucket has gained one exact copy of the state under the state's digest. In
      particular an archive of a bucket that has no state yet always fails. */
  lemma ArchiveAlone(b: Objects, f: Files, c: Choice)
    ensures var (p, b', f') := Alone(Archiving(ArchiveGuard), b, f, c, 5);
            if Tflock !in b && State in b && b[State].Cipher? && History(Sha(b[State]), c.uuid) !in b then
              var key := History(Sha(b[State]), c.uuid);
              p == Finished(Archived(key, b[State])) && b' == b[key := b[State]] && f' == f
            else p == Stopped && b' == b && f' == f
  {
    if Tflock in b {
      AloneStep(Archiving(ArchiveGuard), b, f, c, 5, Stopped, Quiet);
      EndedStays(Stopped, b, f, c, 4);
      return;
    }
    AloneStep(Archiving(ArchiveGuard), b, f, c, 5, Archiving(ArchiveGet), Quiet);
    if State !in b || !b[State].Cipher? {
      AloneStep(Archiving(ArchiveGet), b, f, c, 4, Stopped, Quiet);
      EndedStays(Stopped, b, f, c, 3);
      return;
    }
    var body := b[State];
    AloneStep(Archiving(ArchiveGet), b, f, c, 4, Archiving(ArchivePut(body)), Quiet);
    var key := History(Sha(body), c.uuid);
    if key in b {
      AloneStep(Archiving(ArchivePut(body)), b, f, c, 3, Stopped, Quiet);
      EndedStays(Stopped, b, f, c, 2);
    } else {
      var b1 := b[key := body];
      AloneStep(Archiving(ArchivePut(body)), b, f, c, 3, Archiving(ArchiveReguard(key, body)), Put(key, body));
      AloneStep(Archiving(ArchiveReguard(key, body)), b1, f, c, 2, Archiving(ArchiveReget(key, body)), Quiet);
    }
  }

  // ---- restore ----

  predicate RestoreAllowed(key: Key, archiveEtag: Etag, current: Etag, b: Objects) {
    && key.History? && Matches(b, key, archiveEtag) && b[key].Cipher? && Sha(b[key]) == key.digest
    && Tflock !in b
  }

  predicate RestoreCompletes(current: Etag, b: Objects, c: Choice) {
    Matches(b, State, current) && b[State].Cipher? && History(Sha(b[State]), c.uuid) !in b
  }

  /** `restore` completes exactly when the archive and the current state are the named ones, nobody
      holds the lock and the backup key is unused; then the state is the archived body, the previous
      state is archived, every other object is as before and the lock is gone. When it fails after
      taking the lock, the lock stays and nothing else has changed. */
  lemma RestoreAlone(key: Key, archiveEtag: Etag, current: Etag, b: Objects, f: Files, c: Choice)
    ensures var (p, b', f') := Alone(Restoring(key, current, Fetch(archiveEtag)), b, f, c, 9);
            if !RestoreAllowed(key, archiveEtag, current, b) then p == Stopped && b' == b && f' == f
            else if !RestoreCompletes(current, b, c) then
              p == Stopped && b' == b[Tflock := LockBody(RecoveryLock(c.uuid))] && f' == f
            else
              && p == Finished(Restored(key, b[key]))
              && b' == b[History(Sha(b[State]), c.uuid) := b[State]][State := b[key]]
              && f' == f
  {
    var p0 := Restoring(key, current, Fetch(archiveEtag));
    if !(key.History? && Matches(b, key, archiveEtag) && b[key].Cipher? && Sha(b[key]) == key.digest) {
      AloneStep(p0, b, f, c, 9, Stopped, Quiet);
      EndedStays(Stopped, b, f, c, 8);
      return;
    }
    var body := b[key];
    AloneStep(p0, b, f, c, 9, Restoring(key, current, Guard(body)), Quiet);
    if Tflock in b {
      AloneStep(Restoring(key, current, Guard(body)), b, f, c, 8, Stopped, Quiet);
      EndedStays(Stopped, b, f, c, 7);
      return;
    }
    AloneStep(Restoring(key, current, Guard(body)), b, f, c, 8, Restoring(key, current, Lock(body)), Quiet);
    var lock := LockBody(RecoveryLock(c.uuid));
    var b1 := b[Tflock := lock];
    AloneStep(Restoring(key, current, Lock(body)), b, f, c, 7, Restoring(key, current, Verify(body, lock)), Put(Tflock, lock));
    RestoreLocked(key, current, body, b, f, c);
  }

  lemma RestoreLocked(key: Key, current: Etag, body: Body, b: Objects, f: Files, c: Choice)
    requires Tflock !in b
    ensures var lock := LockBody(RecoveryLock(c.uuid));
            Alone(Restoring(key, current, Verify(body, lock)), b[Tflock := lock], f, c, 6) ==
            if RestoreCompletes(current, b, c) then
              (Finished(Restored(key, body)), b[History(Sha(b[State]), c.uuid) := b[State]][State := body], f)
            else (Stopped, b[Tflock := lock], f)
  {
    var lock := LockBody(RecoveryLock(c.uuid));
    var b1 := b[Tflock := lock];
    var p3 := Restoring(key, current, Verify(body, lock));
    if !(Matches(b, State, current) && b[State].Cipher?) {
      AloneStep(p3, b1, f, c, 6, Stopped, Quiet);
      EndedStays(Stopped, b1, f, c, 5);
      return;
    }
    var backup := b[State];
    AloneStep(p3, b1, f, c, 6, Restoring(key, current, Copy(body, lock)), Quiet);
    var p5 := Restoring(key, current, Backup(body, lock, backup));
    AloneStep(Restoring(key, current, Copy(body, lock)), b1, f, c, 5, p5, Quiet);
    var backupKey := History(Sha(backup), c.uuid);
    if backupKey in b {
      AloneStep(p5, b1, f, c, 4, Stopped, Quiet);
      EndedStays(Stopped, b1, f, c, 3);
      return;
    }
    RestoreWrites(key, current, body, backup, b, f, c);
  }

  lemma RestoreWrites(key: Key, current: Etag, body: Body, backup: Body, b: Objects, f: Files, c: Choice)
    requires Tflock !in b && Matches(b, State, current) && b[State] == backup && History(Sha(backup), c.uuid) !in b
    ensures var lock := LockBody(RecoveryLock(c.uuid));
            Alone(Restoring(key, current, Backup(body, lock, backup)), b[Tflock := lock], f, c, 4) ==
            (Finished(Restored(key, body)), b[History(Sha(backup), c.uuid) := backup][State := body], f)
  {
    var lock, backupKey := LockBody(RecoveryLock(c.uuid)), History(Sha(backup), c.uuid);
    var b1 := b[Tflock := lock];
    var b2 := b1[backupKey := backup];
    var b3 := b2[State := body];
    var p6 := Restoring(key, current, PutState(body, lock, backup, backupKey));
    AloneStep(Restoring(key, current, Backup(body, lock, backup)), b1, f, c, 4, p6, Put(backupKey, backup));
    AloneStep(p6, b2, f, c, 3, Restoring(key, current, Reread(body, lock)), Replace(body, backupKey));
    RestoreUnlocks(key, current, body, lock, b3, f, c);
    assert b3 - {Tflock} == b[backupKey := backup][State := body];
  }

  lemma RestoreUnlocks(key: Key, current: Etag, body: Body, lock: Body, b: Objects, f: Files, c: Choice)
    requires Tflock in b && b[Tflock] == lock && State in b && b[State] == body
    ensures Alone(Restoring(key, current, Reread(body, lock)), b, f, c, 2)
         == (Finished(Restored(key, body)), b - {Tflock}, f)
  {
    var p8 := Restoring(key, current, Unlock(body, lock));
    AloneStep(Restoring(key, current, Reread(body, lock)), b, f, c, 2, p8, Quiet);
    AloneStep(p8, b, f, c, 1, Finished(Restored(key, body)), Drop(Tflock));
  }
}
