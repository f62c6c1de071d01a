/** The archive calls that `plan` makes one after the other before it plans anything: with a receipt they can
    never both succeed, without one they can. */
module FirstPlan {
  import opened Bucket
  import opened Protocol
  import opened ProtocolTheorems
  import opened ProtocolAlone
  import opened ProtocolRuns

  // ---- state in the bucket ends every first deployment ----

  lemma StateStays(s: System, event: Event)
    requires Inv(s) && State in s.bucket
    ensures State in Exec(s, event).bucket
  {
    if event.Step? && event.id in s.procs {
      StepIsLegal(s.procs[event.id], s.bucket, s.files, event.choice);
    }
  }

  lemma {:induction false} RunKeepsState(s: System, events: seq<Event>)
    requires Inv(s) && State in s.bucket
    ensures State in Run(s, events).bucket
    decreases |events|
  {
    if events != [] {
      ExecKeepsInv(s, events[0]);
      StateStays(s, events[0]);
      RunKeepsState(Exec(s, events[0]), events[1..]);
    }
  }

  predicate FirstDeployment(outcome: Outcome) {
    outcome.AdmissionHeld? || outcome.Checked? || outcome.Begun? || outcome.Applied?
  }

  /** The positions that a program started behind existing state can reach. */
  predicate TooLate(p: Proc) {
    match p
    case Admitting(_, _, at) => at.Opening? || at.Listing?
    case Checking(_, _, at) => at.ReadFile? || at.GetMarker? || at.CheckLock? || at.CheckList?
    case Finished(outcome) => !FirstDeployment(outcome)
    case _ => true
  }

  lemma StepTooLate(p: Proc, b: Objects, f: Files, c: Choice)
    requires State in b && TooLate(p)
    ensures TooLate(Act(p, b, f, c).0)
  {
    assert State in b.Keys;
  }

  predicate NewcomersTooLate(earlier: set<Id>, s: System) {
    forall i :: i in s.procs && i !in earlier ==> TooLate(s.procs[i])
  }

  lemma NewcomersStay(earlier: set<Id>, s: System, event: Event)
    requires State in s.bucket && s.procs.Keys >= earlier && NewcomersTooLate(earlier, s)
    ensures NewcomersTooLate(earlier, Exec(s, event)) && Exec(s, event).procs.Keys >= earlier
  {
    if event.Step? && event.id in s.procs && event.id !in earlier {
      StepTooLate(s.procs[event.id], s.bucket, s.files, event.choice);
    }
  }

  lemma {:induction false} RunTooLate(earlier: set<Id>, s: System, events: seq<Event>)
    requires Inv(s) && State in s.bucket && s.procs.Keys >= earlier && NewcomersTooLate(earlier, s)
    ensures NewcomersTooLate(earlier, Run(s, events))
    decreases |events|
  {
    if events != [] {
      ExecKeepsInv(s, events[0]);
      StateStays(s, events[0]);
      NewcomersStay(earlier, s, events[0]);
      RunTooLate(earlier, Exec(s, events[0]), events[1..]);
    }
  }

  /** Once there is state in the bucket there always is, and no admission, admission check, begin or first
      apply started later succeeds, in any run. */
  lemma StateEndsFirstDeployment(start: System, past: seq<Event>, future: seq<Event>, id: Id)
    requires Initial(start) && State in Run(start, past).bucket && id !in Run(start, past).procs
    ensures var t := Run(start, past + future);
            State in t.bucket && (id in t.procs && t.procs[id].Finished? ==> !FirstDeployment(t.procs[id].outcome))
  {
    ReachedIsInv(start, past);
    RunAppends(start, past, future);
    var s := Run(start, past);
    RunKeepsState(s, future);
    RunTooLate(s.procs.Keys, s, future);
  }

  // ---- an archive has seen state ----

  predicate SawState(p: Proc) {
    || (p.Archiving? && !p.archive.ArchiveGuard? && !p.archive.ArchiveGet?)
    || (p.Finished? && p.outcome.Archived?)
  }

  predicate SightingsHold(s: System) {
    forall i :: i in s.procs && SawState(s.procs[i]) ==> State in s.bucket
  }

  lemma SightingStep(p: Proc, b: Objects, f: Files, c: Choice)
    ensures var (q, e) := Act(p, b, f, c); SawState(q) && !SawState(p) ==> State in b
  {
  }

  lemma SightingsStay(s: System, event: Event)
    requires Inv(s) && SightingsHold(s)
    ensures SightingsHold(Exec(s, event))
  {
    if State in s.bucket {
      StateStays(s, event);
    } else if event.Step? && event.id in s.procs {
      SightingStep(s.procs[event.id], s.bucket, s.files, event.choice);
    }
  }

  lemma {:induction false} RunKeepsSightings(s: System, events: seq<Event>)
    requires Inv(s) && SightingsHold(s)
    ensures SightingsHold(Run(s, events))
    decreases |events|
  {
    if events != [] {
      ExecKeepsInv(s, events[0]);
      SightingsStay(s, events[0]);
      RunKeepsSightings(Exec(s, events[0]), events[1..]);
    }
  }

  // ---- the two calls of `plan` ----

  /** A run of everything that shares the bucket, in which one call is made and, after `past`, another. */
  datatype Calls = Calls(start: System, past: seq<Event>, future: seq<Event>, first: Id, second: Id)

  predicate FirstArchived(calls: Calls) {
    var s := Run(calls.start, calls.past);
    calls.first in s.procs && s.procs[calls.first].Finished? && s.procs[calls.first].outcome.Archived?
  }

  /** With a receipt the second call is the admission check, otherwise it is another archive. */
  predicate SecondSucceeded(calls: Calls, receipt: bool) {
    var t := Run(calls.start, calls.past + calls.future);
    && calls.second !in Run(calls.start, calls.past).procs
    && calls.second in t.procs && t.procs[calls.second].Finished?
    && if receipt then t.procs[calls.second].outcome.Checked? else t.procs[calls.second].outcome.Archived?
  }

  predicate BothSucceeded(calls: Calls, receipt: bool) {
    FirstArchived(calls) && SecondSucceeded(calls, receipt)
  }

  /** With a receipt the two calls never both succeed: the first needs state, the second its absence, and
      state never goes away. So a plan that carries a receipt never gets as far as planning. */
  lemma ReceiptPlanNeverArchives(calls: Calls)
    requires Initial(calls.start)
    ensures !BothSucceeded(calls, true)
  {
    if FirstArchived(calls) && calls.second !in Run(calls.start, calls.past).procs {
      InitialIsInv(calls.start);
      RunKeepsSightings(calls.start, calls.past);
      StateEndsFirstDeployment(calls.start, calls.past, calls.future, calls.second);
    }
  }

  /** The first deployment as intended, undisturbed on an empty bucket: the admission succeeds and the very
      next call, the archive, stops. */
  lemma FirstDeploymentStops(r: Receipt, o: Path, f: Files, c: Choice, d: Choice)
    requires o !in f
    ensures var (p, b, f') := Alone(Admitting(r, o, Opening), map[], f, c, 8);
            p == Finished(AdmissionHeld(r)) && Alone(Archiving(ArchiveGuard), b, f', d, 5) == (Stopped, b, f')
  {
    AdmitAlone(r, o, map[], f, c);
    ArchiveAlone(OnlyMarker(r, Admitted), f[o := Acknowledged(r, Admitted)], d);
  }

  // ---- without a receipt ----

  predicate Archivable(b: Objects, c: Choice) {
    Tflock !in b && State in b && b[State].Cipher? && History(Sha(b[State]), c.uuid) !in b
  }

  /** One undisturbed archive in the whole system. */
  lemma ArchiveRuns(s: System, id: Id, c: Choice) returns (events: seq<Event>)
    requires id !in s.procs && Archivable(s.bucket, c)
    ensures var body := s.bucket[State]; var key := History(Sha(body), c.uuid);
            Run(s, events) == With(s, id, Finished(Archived(key, body)), s.bucket[key := body])
  {
    var b, body := s.bucket, s.bucket[State];
    var key := History(Sha(body), c.uuid);
    events := Starts(s, id, Archiving(ArchiveGuard));
    events := GoesOn(s, events, id, Archiving(ArchiveGuard), b, c, Archiving(ArchiveGet), Quiet);
    events := GoesOn(s, events, id, Archiving(ArchiveGet), b, c, Archiving(ArchivePut(body)), Quiet);
    events := GoesOn(s, events, id, Archiving(ArchivePut(body)), b, c, Archiving(ArchiveReguard(key, body)), Put(key, body));
    var b' := b[key := body];
    events := GoesOn(s, events, id, Archiving(ArchiveReguard(key, body)), b', c, Archiving(ArchiveReget(key, body)), Quiet);
    events := GoesOn(s, events, id, Archiving(ArchiveReget(key, body)), b', c, Finished(Archived(key, body)), Quiet);
  }

  /** Without a receipt both calls succeed whenever there is encrypted state, no lock and two unused keys. */
  lemma PlainPlanArchives(start: System, c: Choice, d: Choice) returns (calls: Calls)
    requires Initial(start) && Archivable(start.bucket, c) && Archivable(start.bucket, d) && c.uuid != d.uuid
    ensures calls.start == start && BothSucceeded(calls, false)
  {
    var past := ArchiveRuns(start, 0, c);
    var s := Run(start, past);
    var future := ArchiveRuns(s, 1, d);
    RunAppends(start, past, future);
    calls := Calls(start, past, future, 0, 1);
  }
}
