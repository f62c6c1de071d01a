/** The `Store` of `archive-live-state.py` in its own form: methods that send one request after another to a
    bucket that others change in between. Each method is proved to follow its program in `Bucket` step by
    step, whatever the others do and whichever reply is lost, so the theorems over all interleavings of
    those programs are about these methods. */
module Store {
  import opened Common
  import opened Bucket

  /** What a program finds at one of its steps. */
  datatype View = View(objects: Objects, files: Files, choice: Choice)

  /** The position a program reaches after steps that found these views. */
  function Driven(p: Proc, seen: seq<View>): Proc {
    if seen == [] then p
    else
      var v := seen[|seen| - 1];
      Act(Driven(p, seen[..|seen| - 1]), v.objects, v.files, v.choice).0
  }

  /** The effects of those steps. */
  function Effects(p: Proc, seen: seq<View>): seq<Effect> {
    if seen == [] then []
    else
      var v, earlier := seen[|seen| - 1], seen[..|seen| - 1];
      Effects(p, earlier) + [Act(Driven(p, earlier), v.objects, v.files, v.choice).1]
  }

  /** A program that started at `p`, found `seen` and did `did` is now at `at`. */
  predicate Follows(p: Proc, seen: seq<View>, did: seq<Effect>, at: Proc) {
    at == Driven(p, seen) && did == Effects(p, seen)
  }

  predicate Stepped(at: Proc, v: View, e: Effect, next: Proc) {
    Act(at, v.objects, v.files, v.choice) == (next, e)
  }

  lemma FollowsOn(p: Proc, seen: seq<View>, did: seq<Effect>, at: Proc, v: View, e: Effect, next: Proc)
    requires Follows(p, seen, did, at) && Stepped(at, v, e, next)
    ensures Follows(p, seen + [v], did + [e], next)
  {
  }

  /** One program's steps so far. */
  datatype Steps = Steps(start: Proc, seen: seq<View>, did: seq<Effect>, at: Proc)

  /** Steps that are those of the program in `Bucket`. */
  type Trace = t: Steps | Follows(t.start, t.seen, t.did, t.at) witness Steps(Stopped, [], [], Stopped)

  function Fresh(p: Proc): (t: Trace)
    ensures t.at == t.start == p && t.seen == []
  {
    Steps(p, [], [], p)
  }

  /** One more step, which found `v` and did `e`. */
  function Advanced(t: Trace, v: View, e: Effect, next: Proc): (t': Trace)
    requires Stepped(t.at, v, e, next)
    ensures t'.at == next && t'.start == t.start && t'.seen == t.seen + [v] && t'.did == t.did + [e]
  {
    FollowsOn(t.start, t.seen, t.did, t.at, v, e, next);
    Steps(t.start, t.seen + [v], t.did + [e], next)
  }

  class Store {
    var objects: Objects
    var files: Files
    ghost var trace: Trace
    ghost var lost: bool               // some reply was lost

    constructor (objects: Objects, files: Files, ghost program: Proc)
      ensures trace == Fresh(program) && !lost
    {
      this.objects, this.files, trace, lost := objects, files, Fresh(program), false;
    }

    function Here(choice: Choice): View
      reads this`objects, this`files
    {
      View(objects, files, choice)
    }

    /** The rest of the world does what it likes. */
    method Others()
      modifies this`objects, this`files
    {
      objects, files := *, *;
    }

    /** One step: its effect, then the others, and perhaps the reply is lost. */
    method Request(choice: Choice, e: Effect, ghost next: Proc) returns (heard: bool)
      requires Stepped(trace.at, Here(choice), e, next)
      modifies this
      ensures trace.at == next && trace.start == old(trace.start)
      ensures trace.seen == old(trace.seen) + [old(Here(choice))] && trace.did == old(trace.did) + [e]
      ensures lost == (old(lost) || !heard)
    {
      trace := Advanced(trace, Here(choice), e, next);
      objects := After(objects, e);
      if e.Write? { files := files[e.path := e.file]; }
      Others();
      heard := *;
      lost := lost || !heard;
    }

    // One step of each program, at a known position.

    method AskAdmit(r: Receipt, o: Path, ghost step: AdmitAt, choice: Choice, e: Effect, ghost next: Proc) returns (heard: bool)
      requires trace.at == Admitting(r, o, step) && ActAdmit(r, o, step, objects, files) == (next, e)
      modifies this
      ensures trace.at == next && trace.start == old(trace.start) && lost == (old(lost) || !heard)
    {
      heard := Request(choice, e, next);
    }

    method AskCheck(path: Path, goal: Goal, ghost step: CheckAt, choice: Choice, e: Effect, ghost next: Proc) returns (heard: bool)
      requires trace.at == Checking(path, goal, step) && ActCheck(path, goal, step, objects, files) == (next, e)
      modifies this
      ensures trace.at == next && trace.start == old(trace.start) && lost == (old(lost) || !heard)
    {
      heard := Request(choice, e, next);
    }

    method AskArchive(ghost step: ArchiveAt, choice: Choice, e: Effect, ghost next: Proc) returns (heard: bool)
      requires trace.at == Archiving(step) && ActArchive(step, objects, choice) == (next, e)
      modifies this
      ensures trace.at == next && trace.start == old(trace.start) && lost == (old(lost) || !heard)
    {
      heard := Request(choice, e, next);
    }

    method AskRestore(key: Key, current: Etag, ghost step: RestoreAt, choice: Choice, e: Effect, ghost next: Proc) returns (heard: bool)
      requires trace.at == Restoring(key, current, step) && ActRestore(key, current, step, objects, choice) == (next, e)
      modifies this
      ensures trace.at == next && trace.start == old(trace.start) && lost == (old(lost) || !heard)
    {
      heard := Request(choice, e, next);
    }

    method AskInspect(ghost step: InspectAt, choice: Choice, ghost next: Proc) returns (heard: bool)
      requires trace.at == Inspecting(step) && ActInspect(step, objects) == next
      modifies this
      ensures trace.at == next && trace.start == old(trace.start) && lost == (old(lost) || !heard)
    {
      heard := Request(choice, Quiet, next);
    }

    method AnyChoice() returns (choice: Choice) {
      var uuid: nat, more: bool, body: Body := *, *, Foreign(0);
      choice := Choice(uuid, more, body);
    }

    method Archive() returns (r: Option<Outcome>)
      requires trace == Fresh(Archiving(ArchiveGuard))
      modifies this
      ensures trace.start == old(trace.start) && (if r.Some? then trace.at == Finished(r.value) else lost || trace.at == Stopped)
    {
      var choice := AnyChoice();
      var heard := false;
      if Tflock in objects { heard := AskArchive(ArchiveGuard, choice, Quiet, Stopped); return None; }
      heard := AskArchive(ArchiveGuard, choice, Quiet, Archiving(ArchiveGet));
      if !heard { return None; }
      if State !in objects || !objects[State].Cipher? { heard := AskArchive(ArchiveGet, choice, Quiet, Stopped); return None; }
      var body := objects[State];
      heard := AskArchive(ArchiveGet, choice, Quiet, Archiving(ArchivePut(body)));
      if !heard { return None; }
      var key := History(Sha(body), choice.uuid);
      if key in objects { heard := AskArchive(ArchivePut(body), choice, Quiet, Stopped); return None; }
      heard := AskArchive(ArchivePut(body), choice, Put(key, body), Archiving(ArchiveReguard(key, body)));
      if !heard { return None; }
      r := ConfirmArchive(key, body);
    }

    /** After the copy: still no lock, and still the same state. */
    method ConfirmArchive(key: Key, body: Body) returns (r: Option<Outcome>)
      requires trace.at == Archiving(ArchiveReguard(key, body))
      modifies this
      ensures trace.start == old(trace.start) && (if r.Some? then trace.at == Finished(r.value) else lost || trace.at == Stopped)
    {
      var choice := AnyChoice();
      var heard := false;
      if Tflock in objects { heard := AskArchive(ArchiveReguard(key, body), choice, Quiet, Stopped); return None; }
      heard := AskArchive(ArchiveReguard(key, body), choice, Quiet, Archiving(ArchiveReget(key, body)));
      if !heard { return None; }
      if !Matches(objects, State, Etag(body)) { heard := AskArchive(ArchiveReget(key, body), choice, Quiet, Stopped); return None; }
      heard := AskArchive(ArchiveReget(key, body), choice, Quiet, Finished(Archived(key, body)));
      r := if heard then Some(Archived(key, body)) else None;
    }

    /** `validate_admission` and `initial_check`. */
    method InitialCheck(path: Path, goal: Goal) returns (r: Option<Outcome>)
      requires trace.at == Checking(path, goal, ReadFile)
      modifies this
      ensures trace.start == old(trace.start) && (if r.Some? then trace.at == Finished(r.value) else lost || trace.at == Stopped)
    {
      var choice := AnyChoice();
      var heard := false;
      if path !in files || files[path].phase != Admitted { heard := AskCheck(path, goal, ReadFile, choice, Quiet, Stopped); return None; }
      var receipt, etag := files[path].receipt, files[path].etag;
      heard := AskCheck(path, goal, ReadFile, choice, Quiet, Checking(path, goal, GetMarker(receipt, etag)));
      if !heard { return None; }
      ghost var getting := GetMarker(receipt, etag);
      if !Matches(objects, Admission, etag) || objects[Admission] != Marker(receipt, Admitted) {
        heard := AskCheck(path, goal, getting, choice, Quiet, Stopped);
        return None;
      }
      heard := AskCheck(path, goal, getting, choice, Quiet, Checking(path, goal, CheckLock(receipt, etag)));
      if !heard { return None; }
      r := CheckEmpty(path, goal, receipt, etag);
    }

    /** The end of `initial_check`: nothing but the marker is there, and then the apply may begin. */
    method CheckEmpty(path: Path, goal: Goal, receipt: Receipt, etag: Etag) returns (r: Option<Outcome>)
      requires trace.at == Checking(path, goal, CheckLock(receipt, etag))
      modifies this
      ensures trace.start == old(trace.start) && (if r.Some? then trace.at == Finished(r.value) else lost || trace.at == Stopped)
    {
      var choice := AnyChoice();
      var heard := false;
      ghost var locking, listing := CheckLock(receipt, etag), CheckList(receipt, etag);
      if Tflock in objects { heard := AskCheck(path, goal, locking, choice, Quiet, Stopped); return None; }
      heard := AskCheck(path, goal, locking, choice, Quiet, Checking(path, goal, listing));
      if !heard { return None; }
      if !Inventory(objects, {Admission}) { heard := AskCheck(path, goal, listing, choice, Quiet, Stopped); return None; }
      if goal == Begin || goal.FirstApply? {
        heard := AskCheck(path, goal, listing, choice, Quiet, Checking(path, goal, BeginPut(receipt, etag)));
        if !heard { return None; }
        r := BeginApply(path, goal, receipt, etag);
      } else {
        var outcome := if goal == Resume then AdmissionHeld(receipt) else Checked(receipt);
        heard := AskCheck(path, goal, listing, choice, Quiet, Finished(outcome));
        r := if heard then Some(outcome) else None;
      }
    }

    /** The remote fence, then the local one, and then, in the installer's first apply, the ledger and the
        spawn. */
    method BeginApply(path: Path, goal: Goal, receipt: Receipt, etag: Etag) returns (r: Option<Outcome>)
      requires trace.at == Checking(path, goal, BeginPut(receipt, etag))
      modifies this
      ensures trace.start == old(trace.start) && (if r.Some? then trace.at == Finished(r.value) else lost || trace.at == Stopped)
    {
      var choice := AnyChoice();
      var heard := false;
      ghost var putting, saving := BeginPut(receipt, etag), BeginSave(receipt, etag);
      if !Matches(objects, Admission, etag) { heard := AskCheck(path, goal, putting, choice, Quiet, Stopped); return None; }
      heard := AskCheck(path, goal, putting, choice, Fence(receipt), Checking(path, goal, saving));
      if !heard { return None; }
      var file := Acknowledgement(receipt, Applying, etag);
      if goal.FirstApply? {
        heard := AskCheck(path, goal, saving, choice, Write(path, file), Checking(path, goal, FenceLedger(goal.machine)));
        if !heard { return None; }
        r := SpawnFirst(path, goal);
      } else {
        heard := AskCheck(path, goal, saving, choice, Write(path, file), Finished(Begun(receipt)));
        r := if heard then Some(Begun(receipt)) else None;
      }
    }

    /** The installer after `begin` has returned: its ledger says applying before it spawns the apply. */
    method SpawnFirst(path: Path, goal: Goal) returns (r: Option<Outcome>)
      requires goal.FirstApply? && trace.at == Checking(path, goal, FenceLedger(goal.machine))
      modifies this
      ensures trace.start == old(trace.start) && (if r.Some? then trace.at == Finished(r.value) else lost || trace.at == Stopped)
    {
      var choice := AnyChoice();
      var machine := goal.machine;
      var heard := AskCheck(path, goal, FenceLedger(machine), choice, SaveLedger(machine), Checking(path, goal, SpawnApply(machine)));
      if !heard { return None; }
      heard := AskCheck(path, goal, SpawnApply(machine), choice, Spawn(machine), Finished(Applied(machine)));
      r := if heard then Some(Applied(machine)) else None;
    }

    method Admit(receipt: Receipt, output: Path) returns (r: Option<Outcome>)
      requires trace == Fresh(Admitting(receipt, output, Opening))
      modifies this
      ensures trace.start == old(trace.start) && (if r.Some? then trace.at == Finished(r.value) else lost || trace.at == Stopped)
    {
      var choice := AnyChoice();
      var heard := false;
      if output in files { heard := AskAdmit(receipt, output, Opening, choice, Quiet, Stopped); return None; }
      heard := AskAdmit(receipt, output, Opening, choice, Quiet, Admitting(receipt, output, Listing));
      if !heard { return None; }
      if Inventory(objects, {Admission}) {
        heard := AskAdmit(receipt, output, Listing, choice, Quiet, Admitting(receipt, output, ResumeGetting));
        if !heard { return None; }
        r := ResumeAdmission(receipt, output);
      } else {
        if !Inventory(objects, {}) { heard := AskAdmit(receipt, output, Listing, choice, Quiet, Stopped); return None; }
        heard := AskAdmit(receipt, output, Listing, choice, Quiet, Admitting(receipt, output, Locking));
        if !heard { return None; }
        r := TakeAdmission(receipt, output);
      }
    }

    /** `admit` when the marker is the only object. */
    method ResumeAdmission(receipt: Receipt, output: Path) returns (r: Option<Outcome>)
      requires trace.at == Admitting(receipt, output, ResumeGetting)
      modifies this
      ensures trace.start == old(trace.start) && (if r.Some? then trace.at == Finished(r.value) else lost || trace.at == Stopped)
    {
      var choice := AnyChoice();
      var heard := false;
      if Admission !in objects || objects[Admission] != Marker(receipt, Admitted) {
        heard := AskAdmit(receipt, output, ResumeGetting, choice, Quiet, Stopped);
        return None;
      }
      heard := AskAdmit(receipt, output, ResumeGetting, choice, Quiet, Admitting(receipt, output, ResumeSaving));
      if !heard { return None; }
      if output in files { heard := AskAdmit(receipt, output, ResumeSaving, choice, Quiet, Stopped); return None; }
      var file := Acknowledgement(receipt, Admitted, Etag(Marker(receipt, Admitted)));
      heard := AskAdmit(receipt, output, ResumeSaving, choice, Write(output, file), Checking(output, Resume, ReadFile));
      if !heard { return None; }
      r := InitialCheck(output, Resume);
    }

    /** `admit` when the bucket is empty. */
    method TakeAdmission(receipt: Receipt, output: Path) returns (r: Option<Outcome>)
      requires trace.at == Admitting(receipt, output, Locking)
      modifies this
      ensures trace.start == old(trace.start) && (if r.Some? then trace.at == Finished(r.value) else lost || trace.at == Stopped)
    {
      var choice := AnyChoice();
      var heard := false;
      if Tflock in objects { heard := AskAdmit(receipt, output, Locking, choice, Quiet, Stopped); return None; }
      heard := AskAdmit(receipt, output, Locking, choice, Put(Tflock, AdmissionLockBody(receipt)), Admitting(receipt, output, Relisting));
      if !heard { return None; }
      if !Inventory(objects, {Tflock}) { heard := AskAdmit(receipt, output, Relisting, choice, Quiet, Stopped); return None; }
      heard := AskAdmit(receipt, output, Relisting, choice, Quiet, Admitting(receipt, output, Marking));
      if !heard { return None; }
      if Admission in objects { heard := AskAdmit(receipt, output, Marking, choice, Quiet, Stopped); return None; }
      heard := AskAdmit(receipt, output, Marking, choice, Put(Admission, Marker(receipt, Admitted)), Admitting(receipt, output, Saving));
      if !heard { return None; }
      r := SaveAdmission(receipt, output);
    }

    /** The acknowledgement after the remote marker, and then the lock goes. */
    method SaveAdmission(receipt: Receipt, output: Path) returns (r: Option<Outcome>)
      requires trace.at == Admitting(receipt, output, Saving)
      modifies this
      ensures trace.start == old(trace.start) && (if r.Some? then trace.at == Finished(r.value) else lost || trace.at == Stopped)
    {
      var choice := AnyChoice();
      var heard := false;
      if output in files { heard := AskAdmit(receipt, output, Saving, choice, Quiet, Stopped); return None; }
      var file := Acknowledgement(receipt, Admitted, Etag(Marker(receipt, Admitted)));
      heard := AskAdmit(receipt, output, Saving, choice, Write(output, file), Admitting(receipt, output, Unlocking));
      if !heard { return None; }
      if !Matches(objects, Tflock, Etag(AdmissionLockBody(receipt))) {
        heard := AskAdmit(receipt, output, Unlocking, choice, Quiet, Stopped);
        return None;
      }
      heard := AskAdmit(receipt, output, Unlocking, choice, Drop(Tflock), Finished(AdmissionHeld(receipt)));
      r := if heard then Some(AdmissionHeld(receipt)) else None;
    }

    method Restore(key: Key, archiveEtag: Etag, current: Etag) returns (r: Option<Outcome>)
      requires trace == Fresh(Restoring(key, current, Fetch(archiveEtag)))
      modifies this
      ensures trace.start == old(trace.start) && (if r.Some? then trace.at == Finished(r.value) else lost || trace.at == Stopped || !key.History?)
    {
      if !key.History? { return None; }
      var choice := AnyChoice();
      var heard := false;
      if !Matches(objects, key, archiveEtag) || !objects[key].Cipher? || Sha(objects[key]) != key.digest {
        heard := AskRestore(key, current, Fetch(archiveEtag), choice, Quiet, Stopped);
        return None;
      }
      var body := objects[key];
      heard := AskRestore(key, current, Fetch(archiveEtag), choice, Quiet, Restoring(key, current, Guard(body)));
      if !heard { return None; }
      if Tflock in objects { heard := AskRestore(key, current, Guard(body), choice, Quiet, Stopped); return None; }
      heard := AskRestore(key, current, Guard(body), choice, Quiet, Restoring(key, current, Lock(body)));
      if !heard { return None; }
      var lock := LockBody(RecoveryLock(choice.uuid));
      if Tflock in objects { heard := AskRestore(key, current, Lock(body), choice, Quiet, Stopped); return None; }
      heard := AskRestore(key, current, Lock(body), choice, Put(Tflock, lock), Restoring(key, current, Verify(body, lock)));
      if !heard { return None; }
      r := RestoreLocked(key, current, body, lock);
    }

    /** The part of `restore` that holds the lock and leaves it behind on any failure. */
    method RestoreLocked(key: Key, current: Etag, body: Body, lock: Body) returns (r: Option<Outcome>)
      requires trace.at == Restoring(key, current, Verify(body, lock))
      modifies this
      ensures trace.start == old(trace.start) && (if r.Some? then trace.at == Finished(r.value) else lost || trace.at == Stopped)
    {
      var choice := AnyChoice();
      var heard := false;
      if !Matches(objects, State, current) || !objects[State].Cipher? {
        heard := AskRestore(key, current, Verify(body, lock), choice, Quiet, Stopped);
        return None;
      }
      heard := AskRestore(key, current, Verify(body, lock), choice, Quiet, Restoring(key, current, Copy(body, lock)));
      if !heard { return None; }
      if !Matches(objects, State, current) || !objects[State].Cipher? {
        heard := AskRestore(key, current, Copy(body, lock), choice, Quiet, Stopped);
        return None;
      }
      var backup := objects[State];
      ghost var copied := Backup(body, lock, backup);
      heard := AskRestore(key, current, Copy(body, lock), choice, Quiet, Restoring(key, current, copied));
      if !heard { return None; }
      var backupKey := History(Sha(backup), choice.uuid);
      if backupKey in objects { heard := AskRestore(key, current, copied, choice, Quiet, Stopped); return None; }
      heard := AskRestore(key, current, copied, choice, Put(backupKey, backup),
                          Restoring(key, current, PutState(body, lock, backup, backupKey)));
      if !heard { return None; }
      r := RestoreBackedUp(key, current, body, lock, backup, backupKey);
    }

    /** The overwrite of the archived state. */
    method RestoreBackedUp(key: Key, current: Etag, body: Body, lock: Body, backup: Body, backupKey: Key) returns (r: Option<Outcome>)
      requires trace.at == Restoring(key, current, PutState(body, lock, backup, backupKey))
      modifies this
      ensures trace.start == old(trace.start) && (if r.Some? then trace.at == Finished(r.value) else lost || trace.at == Stopped)
    {
      var choice := AnyChoice();
      var heard := false;
      ghost var putting := PutState(body, lock, backup, backupKey);
      if !Matches(objects, State, current) { heard := AskRestore(key, current, putting, choice, Quiet, Stopped); return None; }
      heard := AskRestore(key, current, putting, choice, Replace(body, backupKey), Restoring(key, current, Reread(body, lock)));
      if !heard { return None; }
      r := RestoreDone(key, current, body, lock);
    }

    /** The outcome is read back, and then the lock goes. */
    method RestoreDone(key: Key, current: Etag, body: Body, lock: Body) returns (r: Option<Outcome>)
      requires trace.at == Restoring(key, current, Reread(body, lock))
      modifies this
      ensures trace.start == old(trace.start) && (if r.Some? then trace.at == Finished(r.value) else lost || trace.at == Stopped)
    {
      var choice := AnyChoice();
      var heard := false;
      if State !in objects || objects[State] != body {
        heard := AskRestore(key, current, Reread(body, lock), choice, Quiet, Stopped);
        return None;
      }
      heard := AskRestore(key, current, Reread(body, lock), choice, Quiet, Restoring(key, current, Unlock(body, lock)));
      if !heard { return None; }
      if !Matches(objects, Tflock, Etag(lock)) { heard := AskRestore(key, current, Unlock(body, lock), choice, Quiet, Stopped); return None; }
      heard := AskRestore(key, current, Unlock(body, lock), choice, Drop(Tflock), Finished(Restored(key, body)));
      r := if heard then Some(Restored(key, body)) else None;
    }

    method ReleaseCheck() returns (r: Option<Outcome>)
      requires trace == Fresh(Inspecting(ReleaseGuard))
      modifies this
      ensures trace.start == old(trace.start) && (if r.Some? then trace.at == Finished(r.value) else lost || trace.at == Stopped)
    {
      var choice := AnyChoice();
      var heard := false;
      if Tflock in objects { heard := AskInspect(ReleaseGuard, choice, Stopped); return None; }
      heard := AskInspect(ReleaseGuard, choice, Inspecting(ReleaseGet));
      if !heard { return None; }
      if State !in objects || !objects[State].Cipher? { heard := AskInspect(ReleaseGet, choice, Stopped); return None; }
      var etag := Etag(objects[State]);
      heard := AskInspect(ReleaseGet, choice, Inspecting(ReleaseFence(etag)));
      if !heard { return None; }
      if Migration !in objects {
        heard := AskInspect(ReleaseFence(etag), choice, Inspecting(ReleaseReguard(etag, {})));
        if !heard { return None; }
        r := Recheck(etag, {});
      } else {
        heard := AskInspect(ReleaseFence(etag), choice, Inspecting(ReleaseFenceGet(etag)));
        if !heard { return None; }
        r := ReadFence(etag);
      }
    }

    /** The cutover marker was listed: it must read as completed. */
    method ReadFence(etag: Etag) returns (r: Option<Outcome>)
      requires trace.at == Inspecting(ReleaseFenceGet(etag))
      modifies this
      ensures trace.start == old(trace.start) && (if r.Some? then trace.at == Finished(r.value) else lost || trace.at == Stopped)
    {
      var choice := AnyChoice();
      var heard := false;
      if Migration !in objects || !objects[Migration].Cutover? || !objects[Migration].completed {
        heard := AskInspect(ReleaseFenceGet(etag), choice, Stopped);
        return None;
      }
      var fence := {objects[Migration]};
      heard := AskInspect(ReleaseFenceGet(etag), choice, Inspecting(ReleaseReguard(etag, fence)));
      if !heard { return None; }
      r := Recheck(etag, fence);
    }

    /** The second half of `release_check`: nothing has changed meanwhile. */
    method Recheck(etag: Etag, fence: set<Body>) returns (r: Option<Outcome>)
      requires trace.at == Inspecting(ReleaseReguard(etag, fence))
      modifies this
      ensures trace.start == old(trace.start) && (if r.Some? then trace.at == Finished(r.value) else lost || trace.at == Stopped)
    {
      var choice := AnyChoice();
      var heard := false;
      if Tflock in objects { heard := AskInspect(ReleaseReguard(etag, fence), choice, Stopped); return None; }
      heard := AskInspect(ReleaseReguard(etag, fence), choice, Inspecting(ReleaseReget(etag, fence)));
      if !heard { return None; }
      if !Matches(objects, State, etag) { heard := AskInspect(ReleaseReget(etag, fence), choice, Stopped); return None; }
      heard := AskInspect(ReleaseReget(etag, fence), choice, Inspecting(ReleaseRefence(etag, fence)));
      if !heard { return None; }
      r := RereadFence(etag, fence);
    }

    method RereadFence(etag: Etag, fence: set<Body>) returns (r: Option<Outcome>)
      requires trace.at == Inspecting(ReleaseRefence(etag, fence))
      modifies this
      ensures trace.start == old(trace.start) && (if r.Some? then trace.at == Finished(r.value) else lost || trace.at == Stopped)
    {
      var choice := AnyChoice();
      var heard := false;
      if Migration !in objects {
        if fence != {} { heard := AskInspect(ReleaseRefence(etag, fence), choice, Stopped); return None; }
        heard := AskInspect(ReleaseRefence(etag, fence), choice, Finished(ReleaseOutcome(etag, fence)));
      } else {
        heard := AskInspect(ReleaseRefence(etag, fence), choice, Inspecting(ReleaseRefenceGet(etag, fence)));
        if !heard { return None; }
        if Migration !in objects || !objects[Migration].Cutover? || fence != {objects[Migration]} {
          heard := AskInspect(ReleaseRefenceGet(etag, fence), choice, Stopped);
          return None;
        }
        heard := AskInspect(ReleaseRefenceGet(etag, fence), choice, Finished(ReleaseOutcome(etag, fence)));
      }
      r := if heard then Some(ReleaseOutcome(etag, fence)) else None;
    }
  }
}
