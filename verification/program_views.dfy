/** Exactly when each program of `archive-live-state.py` succeeds, and exactly what it has done then, in terms of
    what it finds at its requests, whatever others do between them. */
module ProgramViews {
  import opened Bucket
  import opened Store
  import ProtocolAlone

  // ---- what a view shows ----

  predicate Unlocked(v: View) {
    Tflock !in v.objects
  }

  /** An encrypted state. */
  predicate ShowsState(v: View, body: Body) {
    State in v.objects && v.objects[State] == body && body.Cipher?
  }

  predicate ShowsMarker(v: View, r: Receipt) {
    Admission in v.objects && v.objects[Admission] == Marker(r, Admitted)
  }

  predicate ShowsOnly(v: View, keys: set<Key>) {
    v.objects.Keys == keys
  }

  // ---- a program's steps ----

  /** The positions, views and effects of one program. */
  datatype Course = Course(at: seq<Proc>, seen: seq<View>, did: seq<Effect>)

  predicate StepAt(t: Course, i: nat)
    requires i < |t.seen| && |t.at| == |t.seen| + 1 && |t.did| == |t.seen|
  {
    Stepped(t.at[i], t.seen[i], t.did[i], t.at[i + 1])
  }

  predicate IsCourse(t: Course) {
    && |t.at| == |t.seen| + 1 && |t.did| == |t.seen|
    && forall i | 0 <= i < |t.seen| :: StepAt(t, i)
  }

  predicate Ended(p: Proc) {
    p.Finished? || p.Stopped?
  }

  /** Nothing is done from `i` on. */
  predicate QuietFrom(did: seq<Effect>, i: nat) {
    forall k | i <= k < |did| :: did[k] == Quiet
  }

  /** These are all the effects. */
  predicate Does(did: seq<Effect>, deeds: seq<Effect>) {
    deeds <= did && QuietFrom(did, |deeds|)
  }

  function End(t: Course): Proc
    requires t.at != []
  {
    t.at[|t.at| - 1]
  }

  lemma {:induction false} Rests(t: Course, i: nat)
    requires IsCourse(t) && i < |t.at| && Ended(t.at[i])
    ensures End(t) == t.at[i] && QuietFrom(t.did, i)
    decreases |t.at| - i
  {
    if i + 1 < |t.at| {
      assert StepAt(t, i);
      Rests(t, i + 1);
    }
  }

  lemma CourseLonger(t: Course, v: View, e: Effect, q: Proc)
    requires IsCourse(t) && Stepped(End(t), v, e, q)
    ensures IsCourse(Course(t.at + [q], t.seen + [v], t.did + [e]))
  {
    var longer := Course(t.at + [q], t.seen + [v], t.did + [e]);
    forall i | 0 <= i < |longer.seen| ensures StepAt(longer, i) {
      if i < |t.seen| {
        assert StepAt(t, i);
        assert longer.at[i] == t.at[i] && longer.at[i + 1] == t.at[i + 1];
        assert longer.seen[i] == t.seen[i] && longer.did[i] == t.did[i];
      } else {
        assert longer.at[i] == End(t) && longer.at[i + 1] == q && longer.seen[i] == v && longer.did[i] == e;
      }
    }
  }

  /** What follows a program, as the methods of `Store` do and every program of a run does, is a course of it. */
  lemma {:induction false} CourseOf(p: Proc, seen: seq<View>) returns (t: Course)
    ensures IsCourse(t) && t.at[0] == p && t.seen == seen && Follows(p, seen, t.did, End(t))
    decreases |seen|
  {
    if seen == [] { return Course([p], [], []); }
    var n := |seen| - 1;
    var v := seen[n];
    var earlier := CourseOf(p, seen[..n]);
    var step := Act(End(earlier), v.objects, v.files, v.choice);
    CourseLonger(earlier, v, step.1, step.0);
    FollowsOn(p, seen[..n], earlier.did, End(earlier), v, step.1, step.0);
    assert seen[..n] + [v] == seen;
    t := Course(earlier.at + [step.0], seen, earlier.did + [step.1]);
  }

  // ---- one step of each program ----

  lemma AdmitStep(t: Course, i: nat, r: Receipt, o: Path, at: AdmitAt)
    requires IsCourse(t) && i < |t.seen| && t.at[i] == Admitting(r, o, at)
    ensures (t.at[i + 1], t.did[i]) == ActAdmit(r, o, at, t.seen[i].objects, t.seen[i].files)
    ensures Ended(t.at[i + 1]) ==> End(t) == t.at[i + 1] && QuietFrom(t.did, i + 1)
  {
    assert StepAt(t, i);
    if Ended(t.at[i + 1]) { Rests(t, i + 1); }
  }

  lemma CheckStep(t: Course, i: nat, path: Path, goal: Goal, at: CheckAt)
    requires IsCourse(t) && i < |t.seen| && t.at[i] == Checking(path, goal, at)
    ensures (t.at[i + 1], t.did[i]) == ActCheck(path, goal, at, t.seen[i].objects, t.seen[i].files)
    ensures Ended(t.at[i + 1]) ==> End(t) == t.at[i + 1] && QuietFrom(t.did, i + 1)
  {
    assert StepAt(t, i);
    if Ended(t.at[i + 1]) { Rests(t, i + 1); }
  }

  lemma ArchiveStep(t: Course, i: nat, at: ArchiveAt)
    requires IsCourse(t) && i < |t.seen| && t.at[i] == Archiving(at)
    ensures (t.at[i + 1], t.did[i]) == ActArchive(at, t.seen[i].objects, t.seen[i].choice)
    ensures Ended(t.at[i + 1]) ==> End(t) == t.at[i + 1] && QuietFrom(t.did, i + 1)
  {
    assert StepAt(t, i);
    if Ended(t.at[i + 1]) { Rests(t, i + 1); }
  }

  lemma RestoreStep(t: Course, i: nat, key: Key, current: Etag, at: RestoreAt)
    requires IsCourse(t) && i < |t.seen| && t.at[i] == Restoring(key, current, at)
    ensures (t.at[i + 1], t.did[i]) == ActRestore(key, current, at, t.seen[i].objects, t.seen[i].choice)
    ensures Ended(t.at[i + 1]) ==> End(t) == t.at[i + 1] && QuietFrom(t.did, i + 1)
  {
    assert StepAt(t, i);
    if Ended(t.at[i + 1]) { Rests(t, i + 1); }
  }

  lemma InspectStep(t: Course, i: nat, at: InspectAt)
    requires IsCourse(t) && i < |t.seen| && t.at[i] == Inspecting(at)
    ensures (t.at[i + 1], t.did[i]) == (ActInspect(at, t.seen[i].objects), Quiet)
    ensures Ended(t.at[i + 1]) ==> End(t) == t.at[i + 1] && QuietFrom(t.did, i + 1)
  {
    assert StepAt(t, i);
    if Ended(t.at[i + 1]) { Rests(t, i + 1); }
  }

  // ---- initial_check, begin and the first apply ----

  /** An unused acknowledgement, its marker, no lock, and nothing but the marker. */
  predicate CheckSees(seen: seq<View>, i: nat, path: Path, r: Receipt) {
    && |seen| >= i + 4
    && path in seen[i].files && seen[i].files[path] == ProtocolAlone.Acknowledged(r, Admitted)
    && ShowsMarker(seen[i + 1], r) && Unlocked(seen[i + 2]) && ShowsOnly(seen[i + 3], {Admission})
  }

  /** Where a check that passes goes on. */
  function Passed(path: Path, goal: Goal, r: Receipt): Proc {
    match goal
    case JustCheck => Finished(Checked(r))
    case Resume => Finished(AdmissionHeld(r))
    case Begin => Checking(path, goal, BeginPut(r, Etag(Marker(r, Admitted))))
    case FirstApply(_) => Checking(path, goal, BeginPut(r, Etag(Marker(r, Admitted))))
  }

  lemma ListedOnly(b: Objects, key: Key)
    ensures Inventory(b, {key}) <==> b.Keys == {key}
    ensures Inventory(b, {}) <==> b.Keys == {}
  {
    assert b.Keys == {key} ==> |b.Keys| == 1;
  }

  lemma CheckPasses(t: Course, i: nat, path: Path, goal: Goal, r: Receipt)
    requires IsCourse(t) && i < |t.at| && t.at[i] == Checking(path, goal, ReadFile) && CheckSees(t.seen, i, path, r)
    ensures t.at[i + 4] == Passed(path, goal, r)
    ensures t.did[i] == t.did[i + 1] == t.did[i + 2] == t.did[i + 3] == Quiet
    ensures Ended(t.at[i + 4]) ==> End(t) == t.at[i + 4] && QuietFrom(t.did, i + 4)
  {
    var etag := Etag(Marker(r, Admitted));
    CheckStep(t, i, path, goal, ReadFile);
    CheckStep(t, i + 1, path, goal, GetMarker(r, etag));
    CheckStep(t, i + 2, path, goal, CheckLock(r, etag));
    ListedOnly(t.seen[i + 3].objects, Admission);
    CheckStep(t, i + 3, path, goal, CheckList(r, etag));
  }

  lemma CheckSaw(t: Course, i: nat, path: Path, goal: Goal) returns (r: Receipt)
    requires IsCourse(t) && i < |t.at| && t.at[i] == Checking(path, goal, ReadFile) && End(t).Finished?
    ensures CheckSees(t.seen, i, path, r)
  {
    CheckStep(t, i, path, goal, ReadFile);
    r := t.seen[i].files[path].receipt;
    var etag := t.seen[i].files[path].etag;
    CheckStep(t, i + 1, path, goal, GetMarker(r, etag));
    CheckStep(t, i + 2, path, goal, CheckLock(r, etag));
    ListedOnly(t.seen[i + 3].objects, Admission);
    CheckStep(t, i + 3, path, goal, CheckList(r, etag));
  }

  /** `initial_check` passes if and only if it sees this, and does nothing. */
  lemma CheckIff(t: Course, path: Path, r: Receipt)
    requires IsCourse(t) && t.at[0] == Checking(path, JustCheck, ReadFile)
    ensures End(t) == Finished(Checked(r)) <==> CheckSees(t.seen, 0, path, r)
    ensures End(t).Finished? ==> QuietFrom(t.did, 0)
  {
    if CheckSees(t.seen, 0, path, r) {
      CheckPasses(t, 0, path, JustCheck, r);
    } else if End(t).Finished? {
      var r' := CheckSaw(t, 0, path, JustCheck);
      CheckPasses(t, 0, path, JustCheck, r');
    }
  }

  /** And then the marker, unchanged, at its conditional replacement. */
  predicate BeginSees(seen: seq<View>, path: Path, r: Receipt) {
    CheckSees(seen, 0, path, r) && |seen| >= 6 && ShowsMarker(seen[4], r)
  }

  /** The marker is fenced first, and then the acknowledgement. */
  function BeginDeeds(path: Path, r: Receipt): seq<Effect> {
    [Quiet, Quiet, Quiet, Quiet, Fence(r), Write(path, ProtocolAlone.Acknowledged(r, Applying))]
  }

  lemma BeginFences(t: Course, path: Path, goal: Goal, r: Receipt)
    requires IsCourse(t) && |t.seen| >= 6 && ShowsMarker(t.seen[4], r)
    requires t.at[4] == Checking(path, goal, BeginPut(r, Etag(Marker(r, Admitted))))
    ensures t.did[4] == Fence(r) && t.did[5] == Write(path, ProtocolAlone.Acknowledged(r, Applying))
    ensures goal == Begin ==> End(t) == Finished(Begun(r)) && QuietFrom(t.did, 6)
    ensures goal.FirstApply? ==> t.at[6] == Checking(path, goal, FenceLedger(goal.machine))
  {
    var etag := Etag(Marker(r, Admitted));
    CheckStep(t, 4, path, goal, BeginPut(r, etag));
    CheckStep(t, 5, path, goal, BeginSave(r, etag));
  }

  lemma BeginSaw(t: Course, path: Path, goal: Goal, r: Receipt)
    requires IsCourse(t) && t.at != [] && End(t).Finished? && |t.seen| >= 4
    requires t.at[4] == Checking(path, goal, BeginPut(r, Etag(Marker(r, Admitted))))
    ensures |t.seen| >= 6 && ShowsMarker(t.seen[4], r)
  {
    CheckStep(t, 4, path, goal, BeginPut(r, Etag(Marker(r, Admitted))));
    CheckStep(t, 5, path, goal, BeginSave(r, Etag(Marker(r, Admitted))));
  }

  /** `begin` succeeds if and only if it sees this, and then both fences are written, the remote one first. */
  lemma BeginIff(t: Course, path: Path, r: Receipt)
    requires IsCourse(t) && t.at[0] == Checking(path, Begin, ReadFile)
    ensures End(t) == Finished(Begun(r)) <==> BeginSees(t.seen, path, r)
    ensures BeginSees(t.seen, path, r) ==> Does(t.did, BeginDeeds(path, r))
  {
    if BeginSees(t.seen, path, r) {
      CheckPasses(t, 0, path, Begin, r);
      BeginFences(t, path, Begin, r);
    } else if End(t).Finished? {
      var r' := CheckSaw(t, 0, path, Begin);
      CheckPasses(t, 0, path, Begin, r');
      BeginSaw(t, path, Begin, r');
      BeginFences(t, path, Begin, r');
    }
  }

  lemma FirstApplySpawns(t: Course, path: Path, machine: Machine)
    requires IsCourse(t) && |t.seen| >= 6 && t.at[6] == Checking(path, FirstApply(machine), FenceLedger(machine))
    ensures End(t).Finished? <==> |t.seen| >= 8
    ensures |t.seen| >= 8 ==>
              && End(t) == Finished(Applied(machine))
              && t.did[6] == SaveLedger(machine) && t.did[7] == Spawn(machine) && QuietFrom(t.did, 8)
  {
    if |t.seen| >= 7 { CheckStep(t, 6, path, FirstApply(machine), FenceLedger(machine)); }
    if |t.seen| >= 8 { CheckStep(t, 7, path, FirstApply(machine), SpawnApply(machine)); }
  }

  /** The first apply is spawned if and only if a begin succeeds, after both its fences and the ledger. */
  lemma FirstApplyIff(t: Course, path: Path, machine: Machine)
    requires IsCourse(t) && t.at[0] == Checking(path, FirstApply(machine), ReadFile)
    ensures End(t) == Finished(Applied(machine)) <==> |t.seen| >= 8 && exists r :: BeginSees(t.seen, path, r)
    ensures forall r :: End(t).Finished? && BeginSees(t.seen, path, r) ==>
              Does(t.did, BeginDeeds(path, r) + [SaveLedger(machine), Spawn(machine)])
  {
    var goal := FirstApply(machine);
    if End(t).Finished? {
      var r := CheckSaw(t, 0, path, goal);
      CheckPasses(t, 0, path, goal, r);
      BeginSaw(t, path, goal, r);
      BeginFences(t, path, goal, r);
      FirstApplySpawns(t, path, machine);
      assert BeginSees(t.seen, path, r);
    } else if r :| BeginSees(t.seen, path, r) {
      CheckPasses(t, 0, path, goal, r);
      BeginFences(t, path, goal, r);
      FirstApplySpawns(t, path, machine);
    }
  }

  // ---- admit ----

  /** The bucket is empty, also under the own lock, and the output file is new both times. */
  predicate AdmitTakes(seen: seq<View>, r: Receipt, o: Path) {
    && |seen| >= 7
    && o !in seen[0].files && ShowsOnly(seen[1], {}) && Unlocked(seen[2]) && ShowsOnly(seen[3], {Tflock})
    && Admission !in seen[4].objects && o !in seen[5].files
    && Tflock in seen[6].objects && seen[6].objects[Tflock] == AdmissionLockBody(r)
  }

  function TakeDeeds(r: Receipt, o: Path): seq<Effect> {
    [Quiet, Quiet, Put(Tflock, AdmissionLockBody(r)), Quiet, Put(Admission, Marker(r, Admitted)),
     Write(o, ProtocolAlone.Acknowledged(r, Admitted)), Drop(Tflock)]
  }

  /** The bucket holds nothing but this receipt's unused marker, and the check of the new file passes. */
  predicate AdmitResumes(seen: seq<View>, r: Receipt, o: Path, held: Receipt) {
    && |seen| >= 8
    && o !in seen[0].files && ShowsOnly(seen[1], {Admission}) && ShowsMarker(seen[2], r) && o !in seen[3].files
    && CheckSees(seen, 4, o, held)
  }

  function ResumeDeeds(r: Receipt, o: Path): seq<Effect> {
    [Quiet, Quiet, Quiet, Write(o, ProtocolAlone.Acknowledged(r, Admitted))]
  }

  lemma AdmitLocks(t: Course, r: Receipt, o: Path)
    requires IsCourse(t) && t.at[0] == Admitting(r, o, Opening) && AdmitTakes(t.seen, r, o)
    ensures t.at[4] == Admitting(r, o, Marking)
    ensures t.did[0] == t.did[1] == t.did[3] == Quiet && t.did[2] == Put(Tflock, AdmissionLockBody(r))
  {
    AdmitStep(t, 0, r, o, Opening);
    ListedOnly(t.seen[1].objects, Admission);
    AdmitStep(t, 1, r, o, Listing);
    AdmitStep(t, 2, r, o, Locking);
    ListedOnly(t.seen[3].objects, Tflock);
    AdmitStep(t, 3, r, o, Relisting);
  }

  lemma AdmitMarks(t: Course, r: Receipt, o: Path)
    requires IsCourse(t) && |t.seen| >= 7 && t.at[4] == Admitting(r, o, Marking) && AdmitTakes(t.seen, r, o)
    ensures End(t) == Finished(AdmissionHeld(r)) && QuietFrom(t.did, 7)
    ensures t.did[4] == Put(Admission, Marker(r, Admitted))
    ensures t.did[5] == Write(o, ProtocolAlone.Acknowledged(r, Admitted)) && t.did[6] == Drop(Tflock)
  {
    AdmitStep(t, 4, r, o, Marking);
    AdmitStep(t, 5, r, o, Saving);
    AdmitStep(t, 6, r, o, Unlocking);
  }

  lemma AdmitRewrites(t: Course, r: Receipt, o: Path, held: Receipt)
    requires IsCourse(t) && t.at[0] == Admitting(r, o, Opening) && AdmitResumes(t.seen, r, o, held)
    ensures End(t) == Finished(AdmissionHeld(held)) && Does(t.did, ResumeDeeds(r, o))
  {
    AdmitStep(t, 0, r, o, Opening);
    ListedOnly(t.seen[1].objects, Admission);
    AdmitStep(t, 1, r, o, Listing);
    AdmitRereads(t, r, o);
    CheckPasses(t, 4, o, Resume, held);
  }

  lemma AdmitRereads(t: Course, r: Receipt, o: Path)
    requires IsCourse(t) && |t.seen| >= 4 && t.at[2] == Admitting(r, o, ResumeGetting)
    requires ShowsMarker(t.seen[2], r) && o !in t.seen[3].files
    ensures t.at[4] == Checking(o, Resume, ReadFile)
    ensures t.did[2] == Quiet && t.did[3] == Write(o, ProtocolAlone.Acknowledged(r, Admitted))
  {
    AdmitStep(t, 2, r, o, ResumeGetting);
    AdmitStep(t, 3, r, o, ResumeSaving);
  }

  lemma AdmitSaw(t: Course, r: Receipt, o: Path) returns (held: Receipt)
    requires IsCourse(t) && t.at[0] == Admitting(r, o, Opening) && End(t).Finished?
    ensures AdmitTakes(t.seen, r, o) || AdmitResumes(t.seen, r, o, held)
  {
    held := r;
    AdmitStep(t, 0, r, o, Opening);
    ListedOnly(t.seen[1].objects, Admission);
    AdmitStep(t, 1, r, o, Listing);
    if t.at[2] == Admitting(r, o, Locking) { AdmitTook(t, r, o); } else { held := AdmitResumed(t, r, o); }
  }

  lemma AdmitTook(t: Course, r: Receipt, o: Path)
    requires IsCourse(t) && |t.seen| >= 2 && t.at[2] == Admitting(r, o, Locking) && End(t).Finished?
    requires o !in t.seen[0].files && ShowsOnly(t.seen[1], {})
    ensures AdmitTakes(t.seen, r, o)
  {
    AdmitStep(t, 2, r, o, Locking);
    ListedOnly(t.seen[3].objects, Tflock);
    AdmitStep(t, 3, r, o, Relisting);
    AdmitMarked(t, r, o);
  }

  lemma AdmitMarked(t: Course, r: Receipt, o: Path)
    requires IsCourse(t) && |t.seen| >= 4 && t.at[4] == Admitting(r, o, Marking) && End(t).Finished?
    ensures |t.seen| >= 7 && Admission !in t.seen[4].objects && o !in t.seen[5].files
    ensures Tflock in t.seen[6].objects && t.seen[6].objects[Tflock] == AdmissionLockBody(r)
  {
    AdmitStep(t, 4, r, o, Marking);
    AdmitStep(t, 5, r, o, Saving);
    AdmitStep(t, 6, r, o, Unlocking);
  }

  lemma AdmitResumed(t: Course, r: Receipt, o: Path) returns (held: Receipt)
    requires IsCourse(t) && |t.seen| >= 2 && t.at[2] == Admitting(r, o, ResumeGetting) && End(t).Finished?
    requires o !in t.seen[0].files && ShowsOnly(t.seen[1], {Admission})
    ensures AdmitResumes(t.seen, r, o, held)
  {
    AdmitStep(t, 2, r, o, ResumeGetting);
    AdmitStep(t, 3, r, o, ResumeSaving);
    held := CheckSaw(t, 4, o, Resume);
  }

  /** `admit` succeeds if and only if it takes a first admission or resumes one, and then it has done this. */
  lemma AdmitIff(t: Course, r: Receipt, o: Path, held: Receipt)
    requires IsCourse(t) && t.at[0] == Admitting(r, o, Opening)
    ensures End(t) == Finished(AdmissionHeld(held)) <==>
              (AdmitTakes(t.seen, r, o) && held == r) || AdmitResumes(t.seen, r, o, held)
    ensures AdmitTakes(t.seen, r, o) ==> Does(t.did, TakeDeeds(r, o))
    ensures AdmitResumes(t.seen, r, o, held) ==> Does(t.did, ResumeDeeds(r, o))
  {
    if AdmitTakes(t.seen, r, o) {
      AdmitLocks(t, r, o);
      AdmitMarks(t, r, o);
    } else if AdmitResumes(t.seen, r, o, held) {
      AdmitRewrites(t, r, o, held);
    } else if End(t).Finished? {
      var held' := AdmitSaw(t, r, o);
      AdmitRewrites(t, r, o, held');
    }
  }

  // ---- archive ----

  /** No lock, the state, a new key for its copy, and then no lock and the same state again. */
  predicate ArchiveSees(seen: seq<View>, key: Key, body: Body) {
    && |seen| >= 5
    && Unlocked(seen[0]) && ShowsState(seen[1], body)
    && key == History(Sha(body), seen[2].choice.uuid) && key !in seen[2].objects
    && Unlocked(seen[3]) && ShowsState(seen[4], body)
  }

  lemma ArchiveSucceeds(t: Course, key: Key, body: Body)
    requires IsCourse(t) && t.at[0] == Archiving(ArchiveGuard) && ArchiveSees(t.seen, key, body)
    ensures End(t) == Finished(Archived(key, body)) && Does(t.did, [Quiet, Quiet, Put(key, body)])
  {
    ArchiveStep(t, 0, ArchiveGuard);
    ArchiveStep(t, 1, ArchiveGet);
    ArchiveStep(t, 2, ArchivePut(body));
    ArchiveStep(t, 3, ArchiveReguard(key, body));
    ArchiveStep(t, 4, ArchiveReget(key, body));
  }

  lemma ArchiveSaw(t: Course, key: Key, body: Body)
    requires IsCourse(t) && t.at[0] == Archiving(ArchiveGuard) && End(t) == Finished(Archived(key, body))
    ensures ArchiveSees(t.seen, key, body)
  {
    ArchiveStep(t, 0, ArchiveGuard);
    ArchiveStep(t, 1, ArchiveGet);
    var found := t.seen[1].objects[State];
    ArchiveStep(t, 2, ArchivePut(found));
    ArchiveStep(t, 3, ArchiveReguard(t.did[2].key, found));
    ArchiveStep(t, 4, ArchiveReget(t.did[2].key, found));
  }

  /** `archive` succeeds if and only if it sees this, and then it has added exactly this copy. */
  lemma ArchiveIff(t: Course, key: Key, body: Body)
    requires IsCourse(t) && t.at[0] == Archiving(ArchiveGuard)
    ensures End(t) == Finished(Archived(key, body)) <==> ArchiveSees(t.seen, key, body)
    ensures ArchiveSees(t.seen, key, body) ==> Does(t.did, [Quiet, Quiet, Put(key, body)])
  {
    if ArchiveSees(t.seen, key, body) {
      ArchiveSucceeds(t, key, body);
    } else if End(t) == Finished(Archived(key, body)) {
      ArchiveSaw(t, key, body);
    }
  }

  // ---- restore ----

  function RestoreLock(seen: seq<View>): Body
    requires |seen| >= 3
  {
    LockBody(RecoveryLock(seen[2].choice.uuid))
  }

  function BackupKey(seen: seq<View>, current: Etag): Key
    requires |seen| >= 6
  {
    History(Sha(current.of), seen[5].choice.uuid)
  }

  /** The archived body, whose digest is in its key, and no lock, looked at twice. */
  predicate RestoreStarts(seen: seq<View>, key: Key, archive: Etag, body: Body) {
    && |seen| >= 3 && key.History? && Sha(body) == key.digest && body.Cipher?
    && Matches(seen[0].objects, key, archive) && seen[0].objects[key] == body
    && Unlocked(seen[1]) && Unlocked(seen[2])
  }

  /** Under the own lock the state that the operator named, at each look, a new key for its backup, and at the end
      the restored body and the own lock. */
  predicate RestoreSees(seen: seq<View>, key: Key, current: Etag, archive: Etag, body: Body) {
    && RestoreStarts(seen, key, archive, body) && |seen| >= 9
    && ShowsState(seen[3], current.of) && ShowsState(seen[4], current.of)
    && BackupKey(seen, current) !in seen[5].objects
    && ShowsState(seen[6], current.of)
    && ShowsState(seen[7], body)
    && Tflock in seen[8].objects && seen[8].objects[Tflock] == RestoreLock(seen)
  }

  function RestoreDeeds(seen: seq<View>, current: Etag, body: Body): seq<Effect>
    requires |seen| >= 6
  {
    [Quiet, Quiet, Put(Tflock, RestoreLock(seen)), Quiet, Quiet, Put(BackupKey(seen, current), current.of),
     Replace(body, BackupKey(seen, current)), Quiet, Drop(Tflock)]
  }

  lemma RestoreLocks(t: Course, key: Key, current: Etag, archive: Etag, body: Body)
    requires IsCourse(t) && t.at[0] == Restoring(key, current, Fetch(archive)) && RestoreStarts(t.seen, key, archive, body)
    ensures t.at[3] == Restoring(key, current, Verify(body, RestoreLock(t.seen)))
    ensures t.did[0] == t.did[1] == Quiet && t.did[2] == Put(Tflock, RestoreLock(t.seen))
  {
    RestoreStep(t, 0, key, current, Fetch(archive));
    RestoreStep(t, 1, key, current, Guard(body));
    RestoreStep(t, 2, key, current, Lock(body));
  }

  lemma RestoreBacksUp(t: Course, key: Key, current: Etag, archive: Etag, body: Body)
    requires IsCourse(t) && RestoreSees(t.seen, key, current, archive, body)
    requires t.at[3] == Restoring(key, current, Verify(body, RestoreLock(t.seen)))
    ensures t.at[6] == Restoring(key, current, PutState(body, RestoreLock(t.seen), current.of, BackupKey(t.seen, current)))
    ensures t.did[3] == t.did[4] == Quiet && t.did[5] == Put(BackupKey(t.seen, current), current.of)
  {
    var lock := RestoreLock(t.seen);
    RestoreStep(t, 3, key, current, Verify(body, lock));
    RestoreStep(t, 4, key, current, Copy(body, lock));
    RestoreStep(t, 5, key, current, Backup(body, lock, current.of));
  }

  lemma RestoreOverwrites(t: Course, key: Key, current: Etag, archive: Etag, body: Body)
    requires IsCourse(t) && RestoreSees(t.seen, key, current, archive, body)
    requires t.at[6] == Restoring(key, current, PutState(body, RestoreLock(t.seen), current.of, BackupKey(t.seen, current)))
    ensures End(t) == Finished(Restored(key, body)) && QuietFrom(t.did, 9)
    ensures t.did[6] == Replace(body, BackupKey(t.seen, current)) && t.did[7] == Quiet && t.did[8] == Drop(Tflock)
  {
    var lock := RestoreLock(t.seen);
    RestoreStep(t, 6, key, current, PutState(body, lock, current.of, BackupKey(t.seen, current)));
    RestoreStep(t, 7, key, current, Reread(body, lock));
    RestoreStep(t, 8, key, current, Unlock(body, lock));
  }

  lemma RestoreStarted(t: Course, key: Key, current: Etag, archive: Etag) returns (body: Body)
    requires IsCourse(t) && t.at[0] == Restoring(key, current, Fetch(archive)) && End(t).Finished?
    ensures RestoreStarts(t.seen, key, archive, body)
  {
    RestoreStep(t, 0, key, current, Fetch(archive));
    body := t.seen[0].objects[key];
    RestoreStep(t, 1, key, current, Guard(body));
    RestoreStep(t, 2, key, current, Lock(body));
  }

  lemma RestoreBackedUp(t: Course, key: Key, current: Etag, body: Body)
    requires IsCourse(t) && |t.seen| >= 3 && End(t).Finished?
    requires t.at[3] == Restoring(key, current, Verify(body, RestoreLock(t.seen)))
    ensures |t.seen| >= 6 && ShowsState(t.seen[3], current.of) && ShowsState(t.seen[4], current.of)
    ensures BackupKey(t.seen, current) !in t.seen[5].objects
    ensures t.at[6] == Restoring(key, current, PutState(body, RestoreLock(t.seen), current.of, BackupKey(t.seen, current)))
  {
    var lock := RestoreLock(t.seen);
    RestoreStep(t, 3, key, current, Verify(body, lock));
    RestoreStep(t, 4, key, current, Copy(body, lock));
    RestoreStep(t, 5, key, current, Backup(body, lock, current.of));
  }

  lemma RestoreOverwrote(t: Course, key: Key, current: Etag, body: Body)
    requires IsCourse(t) && |t.seen| >= 6 && End(t).Finished? && current.of.Cipher? && body.Cipher?
    requires t.at[6] == Restoring(key, current, PutState(body, RestoreLock(t.seen), current.of, BackupKey(t.seen, current)))
    ensures |t.seen| >= 9 && ShowsState(t.seen[6], current.of) && ShowsState(t.seen[7], body)
    ensures Tflock in t.seen[8].objects && t.seen[8].objects[Tflock] == RestoreLock(t.seen)
  {
    var lock := RestoreLock(t.seen);
    RestoreStep(t, 6, key, current, PutState(body, lock, current.of, BackupKey(t.seen, current)));
    RestoreStep(t, 7, key, current, Reread(body, lock));
    RestoreStep(t, 8, key, current, Unlock(body, lock));
  }

  /** `restore` succeeds if and only if it sees this, and then it has taken the lock, backed the state up, overwritten
      it and given the lock back, in this order. */
  lemma RestoreIff(t: Course, key: Key, current: Etag, archive: Etag, body: Body)
    requires IsCourse(t) && t.at[0] == Restoring(key, current, Fetch(archive))
    ensures End(t) == Finished(Restored(key, body)) <==> RestoreSees(t.seen, key, current, archive, body)
    ensures RestoreSees(t.seen, key, current, archive, body) ==> Does(t.did, RestoreDeeds(t.seen, current, body))
  {
    if RestoreSees(t.seen, key, current, archive, body) {
      RestoreLocks(t, key, current, archive, body);
      RestoreBacksUp(t, key, current, archive, body);
      RestoreOverwrites(t, key, current, archive, body);
    } else if End(t).Finished? {
      var found := RestoreStarted(t, key, current, archive);
      RestoreLocks(t, key, current, archive, found);
      RestoreBackedUp(t, key, current, found);
      RestoreOverwrote(t, key, current, found);
      RestoreOverwrites(t, key, current, archive, found);
    }
  }

  /** A lock is given back only by the step that succeeds. */
  lemma FailureKeepsLock(t: Course, i: nat)
    requires IsCourse(t) && i < |t.did| && t.did[i].Drop?
    ensures End(t).Finished?
  {
    assert StepAt(t, i);
    DropFinishes(t.at[i], t.seen[i]);
    Rests(t, i + 1);
  }

  lemma DropFinishes(p: Proc, v: View)
    ensures var (q, e) := Act(p, v.objects, v.files, v.choice); e.Drop? ==> q.Finished?
  {
  }

  // ---- check and release-check ----

  /** A plain `check` succeeds if and only if there is no lock and then an encrypted state, whose ETag it gives. */
  lemma StateCheckIff(t: Course, etag: Etag)
    requires IsCourse(t) && t.at[0] == Inspecting(StateGuard)
    ensures End(t) == Finished(StateChecked(etag)) <==>
              |t.seen| >= 2 && Unlocked(t.seen[0]) && ShowsState(t.seen[1], etag.of)
  {
    if |t.seen| >= 1 { InspectStep(t, 0, StateGuard); }
    if |t.seen| >= 2 && Unlocked(t.seen[0]) { InspectStep(t, 1, StateGet); }
  }

  predicate Listed(v: View) {
    Migration in v.objects
  }

  /** No lock, the state, and no cutover marker, in three requests; or a completed one, listed and read. */
  predicate ReleaseSees(seen: seq<View>, i: nat, body: Body, fence: set<Body>) {
    && |seen| >= i + 3 && Unlocked(seen[i]) && ShowsState(seen[i + 1], body) && (Listed(seen[i + 2]) <==> fence != {})
    && (Listed(seen[i + 2]) ==>
          && |seen| >= i + 4 && Listed(seen[i + 3])
          && seen[i + 3].objects[Migration].Cutover? && seen[i + 3].objects[Migration].completed
          && fence == {seen[i + 3].objects[Migration]})
  }

  function Requests(fence: set<Body>): nat {
    if fence == {} then 3 else 4
  }

  lemma ReleaseLooks(t: Course, body: Body, fence: set<Body>)
    requires IsCourse(t) && t.at[0] == Inspecting(ReleaseGuard) && ReleaseSees(t.seen, 0, body, fence)
    ensures t.at[Requests(fence)] == Inspecting(ReleaseReguard(Etag(body), fence))
  {
    InspectStep(t, 0, ReleaseGuard);
    InspectStep(t, 1, ReleaseGet);
    InspectStep(t, 2, ReleaseFence(Etag(body)));
    if fence != {} { InspectStep(t, 3, ReleaseFenceGet(Etag(body))); }
  }

  lemma ReleaseLooked(t: Course) returns (body: Body, fence: set<Body>)
    requires IsCourse(t) && t.at[0] == Inspecting(ReleaseGuard) && End(t).Finished?
    ensures ReleaseSees(t.seen, 0, body, fence)
  {
    InspectStep(t, 0, ReleaseGuard);
    InspectStep(t, 1, ReleaseGet);
    body, fence := t.seen[1].objects[State], {};
    InspectStep(t, 2, ReleaseFence(Etag(body)));
    if Listed(t.seen[2]) {
      InspectStep(t, 3, ReleaseFenceGet(Etag(body)));
      fence := {t.seen[3].objects[Migration]};
    }
  }

  lemma ReleaseLooksAgain(t: Course, n: nat, body: Body, fence: set<Body>)
    requires IsCourse(t) && n < |t.at| && t.at[n] == Inspecting(ReleaseReguard(Etag(body), fence)) && body.Cipher?
    requires forall m :: m in fence ==> m.Cutover? && m.completed
    ensures End(t).Finished? <==> ReleaseSees(t.seen, n, body, fence)
    ensures End(t).Finished? ==> End(t) == Finished(ReleaseChecked(Etag(body), Sha(body), fence))
  {
    if n >= |t.seen| { return; }
    InspectStep(t, n, ReleaseReguard(Etag(body), fence));
    if !Unlocked(t.seen[n]) || n + 1 >= |t.seen| { return; }
    InspectStep(t, n + 1, ReleaseReget(Etag(body), fence));
    if !ShowsState(t.seen[n + 1], body) || n + 2 >= |t.seen| { return; }
    InspectStep(t, n + 2, ReleaseRefence(Etag(body), fence));
    if Listed(t.seen[n + 2]) && n + 3 < |t.seen| { InspectStep(t, n + 3, ReleaseRefenceGet(Etag(body), fence)); }
  }

  /** A release check succeeds, with this state and marker, if and only if it sees them twice. */
  lemma ReleaseCheckIff(t: Course, etag: Etag, digest: Digest, fence: set<Body>)
    requires IsCourse(t) && t.at[0] == Inspecting(ReleaseGuard)
    ensures End(t) == Finished(ReleaseChecked(etag, digest, fence)) <==>
              && ReleaseSees(t.seen, 0, etag.of, fence) && ReleaseSees(t.seen, Requests(fence), etag.of, fence)
              && digest == Sha(etag.of)
  {
    if ReleaseSees(t.seen, 0, etag.of, fence) {
      ReleaseLooks(t, etag.of, fence);
      ReleaseLooksAgain(t, Requests(fence), etag.of, fence);
    } else if End(t).Finished? {
      var body', fence' := ReleaseLooked(t);
      ReleaseLooks(t, body', fence');
      ReleaseLooksAgain(t, Requests(fence'), body', fence');
    }
  }
}
