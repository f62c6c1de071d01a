/** What holds of every run of the state protocol. */
module ProtocolTheorems {
  import opened Bucket
  import opened Protocol

  // ---- runs ----

  lemma InitialIsInv(s: System)
    requires Initial(s)
    ensures Inv(s)
  {
  }

  lemma ReachedIsInv(start: System, events: seq<Event>)
    requires Initial(start)
    ensures Inv(Run(start, events))
  {
    InitialIsInv(start);
    RunKeepsInv(start, events);
  }

  lemma RunOne(s: System, event: Event)
    ensures Run(s, [event]) == Exec(s, event)
  {
  }

  lemma {:induction false} RunAppends(s: System, past: seq<Event>, future: seq<Event>)
    ensures Run(s, past + future) == Run(Run(s, past), future)
    decreases |past|
  {
    if past == [] {
      assert past + future == future;
    } else {
      RunAppends(Exec(s, past[0]), past[1..], future);
      assert (past + future)[1..] == past[1..] + future;
    }
  }

  // ---- the admission marker ----

  function MarkerRank(b: Objects): nat {
    if Admission !in b then 0 else if IsApplying(b) then 2 else 1
  }

  /** What no step undoes: the marker's phase and receipt, the effective begins, the applies, and every
      archived body. */
  predicate Extends(s: System, t: System) {
    && MarkerRank(s.bucket) <= MarkerRank(t.bucket)
    && (Admission in s.bucket && s.bucket[Admission].Marker? ==>
          Admission in t.bucket && t.bucket[Admission].Marker? && t.bucket[Admission].receipt == s.bucket[Admission].receipt)
    && s.begun <= t.begun
    && s.applied <= t.applied
    && s.fenced <= t.fenced
    && (forall k :: k in s.bucket && k.History? ==> k in t.bucket && t.bucket[k] == s.bucket[k])
  }

  lemma StepExtends(s: System, id: Id, c: Choice)
    requires Inv(s) && id in s.procs
    ensures Extends(s, Exec(s, Step(id, c)))
  {
    StepIsLegal(s.procs[id], s.bucket, s.files, c);
  }

  lemma ExecExtends(s: System, event: Event)
    requires Inv(s)
    ensures Extends(s, Exec(s, event))
  {
    if event.Step? && event.id in s.procs {
      StepExtends(s, event.id, event.choice);
    }
  }

  lemma {:induction false} RunExtends(s: System, events: seq<Event>)
    requires Inv(s)
    ensures Extends(s, Run(s, events))
    decreases |events|
  {
    if events != [] {
      var t := Exec(s, events[0]);
      ExecExtends(s, events[0]);
      ExecKeepsInv(s, events[0]);
      RunExtends(t, events[1..]);
    }
  }

  /** Over every run the marker only moves from absent to admitted to applying, keeps its receipt, and
      at most one `begin` ever takes effect; archives made by then are still there, unchanged. */
  lemma MarkerOnlyAdvances(start: System, past: seq<Event>, future: seq<Event>)
    requires Initial(start)
    ensures Extends(Run(start, past), Run(start, past + future))
    ensures |Run(start, past + future).begun| <= 1
  {
    ReachedIsInv(start, past);
    ReachedIsInv(start, past + future);
    RunAppends(start, past, future);
    RunExtends(Run(start, past), future);
  }

  /** The positions a program started behind an `applying` marker can reach. */
  predicate HeldOff(p: Proc) {
    match p
    case Admitting(_, _, at) => at.Opening? || at.Listing? || at.ResumeGetting?
    case Checking(_, _, at) => at.ReadFile? || at.GetMarker?
    case Finished(outcome) => !outcome.AdmissionHeld? && !outcome.Begun? && !outcome.Checked? && !outcome.Applied?
    case _ => true
  }

  lemma StepHeldOff(p: Proc, b: Objects, f: Files, c: Choice)
    requires IsApplying(b) && HeldOff(p)
    ensures HeldOff(Act(p, b, f, c).0)
  {
  }

  predicate NewcomersHeldOff(earlier: set<Id>, s: System) {
    forall i :: i in s.procs && i !in earlier ==> HeldOff(s.procs[i])
  }

  lemma {:induction false} RunHeldOff(earlier: set<Id>, s: System, events: seq<Event>)
    requires Inv(s) && IsApplying(s.bucket) && s.procs.Keys >= earlier && NewcomersHeldOff(earlier, s)
    ensures NewcomersHeldOff(earlier, Run(s, events))
    decreases |events|
  {
    if events != [] {
      var event, t := events[0], Exec(s, events[0]);
      ExecKeepsInv(s, event);
      ExecExtends(s, event);
      assert NewcomersHeldOff(earlier, t) by {
        if event.Step? && event.id in s.procs && event.id !in earlier {
          StepHeldOff(s.procs[event.id], s.bucket, s.files, event.choice);
        }
      }
      RunHeldOff(earlier, t, events[1..]);
    }
  }

  /** Once the marker says `applying`, no admission, admission check or begin started later succeeds,
      and no further begin takes effect, not even one that was already under way. */
  lemma ApplyingFencesLaterPrograms(start: System, past: seq<Event>, future: seq<Event>, id: Id)
    requires Initial(start) && IsApplying(Run(start, past).bucket) && id !in Run(start, past).procs
    ensures var t := Run(start, past + future);
            id in t.procs && t.procs[id].Finished? ==>
              var o := t.procs[id].outcome; !o.AdmissionHeld? && !o.Checked? && !o.Begun? && !o.Applied?
    ensures Run(start, past).begun == Run(start, past + future).begun
  {
    ReachedIsInv(start, past);
    RunAppends(start, past, future);
    var s := Run(start, past);
    RunHeldOff(s.procs.Keys, s, future);
    RunKeepsBegun(s, future);
  }

  lemma ApplyingKeepsBegun(s: System, event: Event)
    requires Inv(s) && IsApplying(s.bucket)
    ensures Exec(s, event).begun == s.begun
  {
    if event.Step? && event.id in s.procs {
      StepIsLegal(s.procs[event.id], s.bucket, s.files, event.choice);
    }
  }

  lemma {:induction false} RunKeepsBegun(s: System, events: seq<Event>)
    requires Inv(s) && IsApplying(s.bucket)
    ensures Run(s, events).begun == s.begun
    decreases |events|
  {
    if events != [] {
      var event := events[0];
      ExecKeepsInv(s, event);
      ExecExtends(s, event);
      ApplyingKeepsBegun(s, event);
      RunKeepsBegun(Exec(s, event), events[1..]);
    }
  }

  /** Across all machines that share the bucket at most one first `tofu apply` is ever spawned. The one
      that is spawned belongs to the single effective begin, and both the remote marker and its
      machine's ledger said `applying` beforehand. */
  lemma AtMostOneFirstApply(start: System, events: seq<Event>)
    requires Initial(start)
    ensures var t := Run(start, events);
            && |t.applied| <= 1
            && (t.applied != [] ==> t.applied == t.begun && IsApplying(t.bucket))
            && (forall i :: i in t.procs && HasApplied(t.procs[i]) ==>
                  t.applied == [i] && t.procs[i].outcome.machine in t.fenced)
  {
    ReachedIsInv(start, events);
  }

  lemma OnlySpawnApplies(s: System, id: Id, e: Effect)
    ensures Observe(s, id, e).applied != s.applied ==> e.Spawn?
  {
  }

  lemma SpawnStep(s: System, id: Id, c: Choice)
    requires OneApply(s) && id in s.procs && Act(s.procs[id], s.bucket, s.files, c).1.Spawn?
    ensures s.begun == [id] && s.applied == [] && AboutToSpawn(s.procs[id]) && s.procs[id].check.machine in s.fenced
  {
  }

  /** The moment of the spawn: the remote fence and the ledger fence are already durable. */
  lemma SpawnIsFenced(start: System, past: seq<Event>, id: Id, c: Choice)
    requires Initial(start) && id in Run(start, past).procs
    ensures var s := Run(start, past);
            Exec(s, Step(id, c)).applied != s.applied ==>
              && IsApplying(s.bucket) && s.begun == [id] && s.applied == []
              && AboutToSpawn(s.procs[id]) && s.procs[id].check.machine in s.fenced
  {
    ReachedIsInv(start, past);
    var s := Run(start, past);
    if Exec(s, Step(id, c)).applied != s.applied {
      OnlySpawnApplies(s, id, Act(s.procs[id], s.bucket, s.files, c).1);
      SpawnStep(s, id, c);
    }
  }

  // ---- the lock ----

  /** In every reachable state at most one program holds the lock, the lock object is the one it wrote,
      and only that program's own step can remove or replace the object. */
  lemma LockHasOneOwner(start: System, past: seq<Event>, event: Event)
    requires Initial(start)
    ensures var s := Run(start, past);
            && Exclusive(s.procs)
            && (forall i :: i in s.procs && Holding(s.procs[i]) ==> Tflock in s.bucket && s.bucket[Tflock] == LockOf(s.procs[i]))
    ensures var s, t := Run(start, past), Exec(Run(start, past), event);
            Tflock in s.bucket && (Tflock !in t.bucket || t.bucket[Tflock] != s.bucket[Tflock]) ==>
              && event.Step? && event.id in s.procs && Holding(s.procs[event.id])
              && forall i :: i in s.procs && i != event.id ==> !Holding(s.procs[i])
  {
    ReachedIsInv(start, past);
    var s := Run(start, past);
    forall i | i in s.procs && Holding(s.procs[i])
      ensures Tflock in s.bucket && s.bucket[Tflock] == LockOf(s.procs[i])
    {
      assert Served(s.procs[i], s.bucket);
    }
    if event.Step? && event.id in s.procs {
      LockTakenWhenFree(s.procs[event.id], s.bucket, s.files, event.choice);
      StepIsLegal(s.procs[event.id], s.bucket, s.files, event.choice);
    }
  }

  /** The lock is taken and nobody is left to remove it. */
  predicate Orphaned(s: System) {
    Tflock in s.bucket && forall i :: i in s.procs ==> !Holding(s.procs[i])
  }

  /** The positions a program started behind a taken lock can reach. */
  predicate Barred(p: Proc) {
    match p
    case Admitting(_, _, at) => at.Opening? || at.Listing?
    case Checking(_, _, at) => at.ReadFile? || at.GetMarker? || at.CheckLock?
    case Archiving(at) => at.ArchiveGuard?
    case Restoring(_, _, at) => at.Fetch? || at.Guard?
    case Inspecting(at) => at.StateGuard? || at.ReleaseGuard?
    case TofuWaiting(_) => true
    case TofuHolding(_) => false
    case Finished(_) => false
    case Stopped => true
  }

  lemma StepBarred(p: Proc, b: Objects, f: Files, c: Choice)
    requires Tflock in b && Barred(p)
    ensures Barred(Act(p, b, f, c).0)
  {
  }

  predicate NewcomersBarred(earlier: set<Id>, s: System) {
    forall i :: i in s.procs && i !in earlier ==> Barred(s.procs[i])
  }

  predicate SameState(b: Objects, d: Objects) {
    (State in b <==> State in d) && (State in b ==> b[State] == d[State])
  }

  lemma OrphanStays(s: System, event: Event)
    requires Inv(s) && Orphaned(s)
    ensures var t := Exec(s, event); Orphaned(t) && t.bucket[Tflock] == s.bucket[Tflock] && SameState(s.bucket, t.bucket)
  {
    if event.Step? && event.id in s.procs {
      LockTakenWhenFree(s.procs[event.id], s.bucket, s.files, event.choice);
      StepIsLegal(s.procs[event.id], s.bucket, s.files, event.choice);
    }
  }

  lemma {:induction false} OrphanBars(earlier: set<Id>, s: System, events: seq<Event>)
    requires Inv(s) && Orphaned(s) && s.procs.Keys >= earlier && NewcomersBarred(earlier, s)
    ensures var t := Run(s, events);
            && Tflock in t.bucket && t.bucket[Tflock] == s.bucket[Tflock]
            && SameState(s.bucket, t.bucket) && NewcomersBarred(earlier, t)
    decreases |events|
  {
    if events != [] {
      var event, t := events[0], Exec(s, events[0]);
      ExecKeepsInv(s, event);
      OrphanStays(s, event);
      assert NewcomersBarred(earlier, t) by {
        if event.Step? && event.id in s.procs && event.id !in earlier {
          StepBarred(s.procs[event.id], s.bucket, s.files, event.choice);
        }
      }
      OrphanBars(earlier, t, events[1..]);
    }
  }

  lemma RefusalIsQuiet(p: Proc, b: Objects, f: Files, c: Choice)
    ensures var (q, e) := Act(p, b, f, c); q.Stopped? ==> e.Quiet?
  {
  }

  /** This event ends the program for good, from outside or by a request that it finds refused. */
  predicate Ends(s: System, event: Event, id: Id) {
    && id in s.procs && id in Exec(s, event).procs && Exec(s, event).procs[id] == Stopped
    && (event == Stop(id) || (event.Step? && event.id == id))
  }

  lemma EndOrphans(s: System, event: Event, holder: Id)
    requires Inv(s) && Ends(s, event, holder) && Holding(s.procs[holder])
    ensures var t := Exec(s, event);
            && Tflock in s.bucket && t.bucket == s.bucket && Orphaned(t) && t.procs.Keys == s.procs.Keys
  {
    assert Served(s.procs[holder], s.bucket);
    if event.Step? { RefusalIsQuiet(s.procs[holder], s.bucket, s.files, event.choice); }
  }

  /** A program that stops while it holds the lock, or is refused at one of its own steps, leaves the lock in
      place for good: the lock object and the state object never change again, and nothing started later gets
      past its first lock check. */
  lemma StoppedHolderBarsEveryone(start: System, past: seq<Event>, holder: Id, end: Event, future: seq<Event>, later: Id)
    requires Initial(start) && Ends(Run(start, past), end, holder) && Holding(Run(start, past).procs[holder])
    requires later !in Run(start, past).procs
    ensures var s, t := Run(start, past), Run(start, past + [end] + future);
            && Tflock in s.bucket && Tflock in t.bucket && t.bucket[Tflock] == s.bucket[Tflock]
            && SameState(s.bucket, t.bucket)
            && (later in t.procs ==> Barred(t.procs[later]) && !t.procs[later].Finished?)
  {
    ReachedIsInv(start, past);
    var s := Run(start, past);
    RunAppends(start, past, [end]);
    RunAppends(start, past + [end], future);
    var t := Exec(s, end);
    RunOne(s, end);
    ExecKeepsInv(s, end);
    EndOrphans(s, end, holder);
    OrphanBars(s.procs.Keys, t, future);
  }

  // ---- restore ----

  lemma OverwriteIsArchived(s: System, event: Event)
    requires Inv(s)
    ensures var t := Exec(s, event);
            || t.replaced == s.replaced
            || (&& |t.replaced| == |s.replaced| + 1 && State in s.bucket
                && t.replaced[|s.replaced|].0 == s.bucket[State]
                && ArchiveKept(s.bucket, t.replaced[|s.replaced|].1, s.bucket[State]))
  {
    if event.Step? && event.id in s.procs {
      StepIsLegal(s.procs[event.id], s.bucket, s.files, event.choice);
    }
  }

  /** No state is lost: in every run each body that a restore overwrote is in the history under a key
      with its digest, and a restore overwrites only a body it has just archived. */
  lemma RestoreNeverLosesState(start: System, past: seq<Event>, event: Event, i: nat)
    requires Initial(start) && i < |Run(start, past + [event]).replaced|
    ensures var s, t := Run(start, past), Run(start, past + [event]);
            && ArchiveKept(t.bucket, t.replaced[i].1, t.replaced[i].0)
            && (|s.replaced| <= i ==>
                  && i == |s.replaced| && State in s.bucket && t.replaced[i].0 == s.bucket[State]
                  && ArchiveKept(s.bucket, t.replaced[i].1, s.bucket[State]))
  {
    ReachedIsInv(start, past);
    ReachedIsInv(start, past + [event]);
    RunAppends(start, past, [event]);
    RunOne(Run(start, past), event);
    OverwriteIsArchived(Run(start, past), event);
  }

  /** A restore that returns leaves exactly the archived body, whose digest is the one in its key, and
      has removed its lock. Its last two requests cannot fail. */
  lemma RestoreReturnsTheArchive(start: System, past: seq<Event>, id: Id, c: Choice)
    requires Initial(start) && id in Run(start, past).procs
    requires var p := Run(start, past).procs[id]; p.Restoring? && (p.restore.Reread? || p.restore.Unlock?)
    ensures var s := Run(start, past);
            var p, t := s.procs[id], Exec(s, Step(id, c));
            && State in t.bucket && t.bucket[State] == p.restore.body
            && ArchiveKept(t.bucket, p.key, t.bucket[State])
            && (p.restore.Reread? ==> t.procs[id] == Restoring(p.key, p.current, Unlock(p.restore.body, p.restore.lock)))
            && (p.restore.Unlock? ==> t.procs[id] == Finished(Restored(p.key, p.restore.body)) && Tflock !in t.bucket)
  {
    ReachedIsInv(start, past);
    var s := Run(start, past);
    assert Served(s.procs[id], s.bucket);
    RestoreServesItself(s.procs[id].key, s.procs[id].current, s.procs[id].restore, s.bucket, c);
  }
}
