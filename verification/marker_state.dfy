/** The admission marker and the state: a marker is only ever created where there is no state; a begin, whose
    fence checks the marker alone, can take effect beside one. */
module MarkerAndState {
  import opened Bucket
  import opened Protocol
  import opened ProtocolTheorems
  import opened ProtocolAlone
  import opened ProtocolRuns
  import opened FirstPlan

  // ---- creating the marker ----

  predicate AboutToMark(p: Proc) {
    p.Admitting? && p.admit.Marking?
  }

  /** An admission that has found the bucket empty but for its lock still has no state beside it. */
  predicate MarkersMeetNoState(s: System) {
    forall i :: i in s.procs && AboutToMark(s.procs[i]) ==> State !in s.bucket
  }

  /** Who can put a state where there is none, and who can create a marker. */
  lemma FirstWriters(p: Proc, b: Objects, f: Files, c: Choice)
    ensures var (q, e) := Act(p, b, f, c);
            && (e.Put? && e.key == State ==> p.TofuHolding? && c.more && c.body.Cipher? && e.body == c.body)
            && (p.TofuHolding? && c.more && c.body.Cipher? ==> e == Put(State, c.body))
            && (e.Put? && e.key == Admission ==> AboutToMark(p))
            && (AboutToMark(q) && !AboutToMark(p) ==> State !in b && !e.Put?)
  {
    if p.Admitting? && p.admit.Relisting? && State in b { assert State in b.Keys; }
  }

  lemma StepMeetsNoState(s: System, id: Id, c: Choice)
    requires Inv(s) && MarkersMeetNoState(s) && id in s.procs
    ensures MarkersMeetNoState(Exec(s, Step(id, c)))
  {
    var p := s.procs[id];
    var (q, e) := Act(p, s.bucket, s.files, c);
    FirstWriters(p, s.bucket, s.files, c);
    StepIsLegal(p, s.bucket, s.files, c);
    var t := Exec(s, Step(id, c));
    forall i | i in t.procs && AboutToMark(t.procs[i]) ensures State !in t.bucket {
      if i != id { assert !(Holding(p) && Holding(s.procs[i])); }
    }
  }

  lemma ExecMeetsNoState(s: System, event: Event)
    requires Inv(s) && MarkersMeetNoState(s)
    ensures MarkersMeetNoState(Exec(s, event))
  {
    if event.Step? && event.id in s.procs { StepMeetsNoState(s, event.id, event.choice); }
  }

  lemma {:induction false} RunMeetsNoState(s: System, events: seq<Event>)
    requires Inv(s) && MarkersMeetNoState(s)
    ensures MarkersMeetNoState(Run(s, events))
    decreases |events|
  {
    if events != [] {
      ExecKeepsInv(s, events[0]);
      ExecMeetsNoState(s, events[0]);
      RunMeetsNoState(Exec(s, events[0]), events[1..]);
    }
  }

  /** In every run an admission marker is created only while there is no state in the bucket. */
  lemma MarkerMeetsNoState(start: System, past: seq<Event>, event: Event)
    requires Initial(start)
    ensures var s := Run(start, past);
            Admission !in s.bucket && Admission in Exec(s, event).bucket ==> State !in s.bucket && State !in Exec(s, event).bucket
  {
    InitialIsInv(start);
    RunKeepsInv(start, past);
    RunMeetsNoState(start, past);
    var s := Run(start, past);
    if event.Step? && event.id in s.procs {
      FirstWriters(s.procs[event.id], s.bucket, s.files, event.choice);
      StepIsLegal(s.procs[event.id], s.bucket, s.files, event.choice);
    }
  }

  // ---- beginning the apply ----

  /** An OpenTofu run that holds the lock writes a state. */
  predicate TofuWrites(s: System, event: Event) {
    && event.Step? && event.id in s.procs && s.procs[event.id].TofuHolding?
    && event.choice.more && event.choice.body.Cipher?
  }

  predicate SomeTofuWrites(s: System, events: seq<Event>)
    decreases |events|
  {
    events != [] && (TofuWrites(s, events[0]) || SomeTofuWrites(Exec(s, events[0]), events[1..]))
  }

  lemma FirstStateIff(s: System, event: Event)
    requires Inv(s) && State !in s.bucket
    ensures State in Exec(s, event).bucket <==> TofuWrites(s, event)
  {
    if event.Step? && event.id in s.procs {
      FirstWriters(s.procs[event.id], s.bucket, s.files, event.choice);
      StepIsLegal(s.procs[event.id], s.bucket, s.files, event.choice);
    }
  }

  lemma {:induction false} StateAppearsIff(s: System, events: seq<Event>)
    requires Inv(s) && State !in s.bucket
    ensures State in Run(s, events).bucket <==> SomeTofuWrites(s, events)
    decreases |events|
  {
    if events != [] {
      ExecKeepsInv(s, events[0]);
      FirstStateIff(s, events[0]);
      if TofuWrites(s, events[0]) {
        RunKeepsState(Exec(s, events[0]), events[1..]);
      } else {
        StateAppearsIff(Exec(s, events[0]), events[1..]);
      }
    }
  }

  predicate AboutToList(p: Proc) {
    p.Checking? && p.check.CheckList? && (p.goal == Begin || p.goal.FirstApply?)
  }

  predicate AboutToFence(p: Proc) {
    p.Checking? && p.check.BeginPut?
  }

  /** A begin whose inventory passes, and which then comes to its fence, finds a state beside the marker there
      if and only if an OpenTofu run wrote one in between. */
  lemma FenceMeetsStateIff(start: System, past: seq<Event>, id: Id, c: Choice, between: seq<Event>)
    requires Initial(start) && id in Run(start, past).procs && AboutToList(Run(start, past).procs[id])
    requires Inventory(Run(start, past).bucket, {Admission})
    ensures var s := Exec(Run(start, past), Step(id, c));
            && AboutToFence(s.procs[id])
            && (State in Run(s, between).bucket <==> SomeTofuWrites(s, between))
  {
    InitialIsInv(start);
    RunKeepsInv(start, past);
    var s := Run(start, past);
    assert State !in s.bucket.Keys;
    ExecKeepsInv(s, Step(id, c));
    StateAppearsIff(Exec(s, Step(id, c)), between);
  }

  /** The fence itself takes effect if and only if the marker is still the admitted one, state or no state. */
  lemma FenceIgnoresState(s: System, id: Id, c: Choice)
    requires id in s.procs && AboutToFence(s.procs[id])
    ensures Exec(s, Step(id, c)).begun == s.begun + [id] <==> Matches(s.bucket, Admission, s.procs[id].check.etag)
    ensures State in Exec(s, Step(id, c)).bucket <==> State in s.bucket
  {
  }

  // ---- a run in which the fence falls beside a state ----

  /** A begin whose check passes comes to its fence. */
  lemma ComesToFence(s: System, id: Id, path: Path, c: Choice) returns (events: seq<Event>)
    requires id !in s.procs && CheckPasses(path, s.bucket, s.files)
    ensures var file := s.files[path];
            Run(s, events) == With(s, id, Checking(path, Begin, BeginPut(file.receipt, file.etag)), s.bucket)
  {
    var b, r, etag := s.bucket, s.files[path].receipt, s.files[path].etag;
    OneKey(b, Admission);
    events := Starts(s, id, Checking(path, Begin, ReadFile));
    events := GoesOn(s, events, id, Checking(path, Begin, ReadFile), b, c, Checking(path, Begin, GetMarker(r, etag)), Quiet);
    events := GoesOn(s, events, id, Checking(path, Begin, GetMarker(r, etag)), b, c, Checking(path, Begin, CheckLock(r, etag)), Quiet);
    events := GoesOn(s, events, id, Checking(path, Begin, CheckLock(r, etag)), b, c, Checking(path, Begin, CheckList(r, etag)), Quiet);
    events := GoesOn(s, events, id, Checking(path, Begin, CheckList(r, etag)), b, c, Checking(path, Begin, BeginPut(r, etag)), Quiet);
  }

  /** An OpenTofu run takes the lock and writes a state. */
  lemma TofuAppears(s: System, id: Id, c: Choice) returns (events: seq<Event>)
    requires id !in s.procs && Tflock !in s.bucket && c.more && c.body.Cipher?
    ensures var lock := LockBody(TofuLock(c.uuid));
            Run(s, events) == With(s, id, TofuHolding(lock), s.bucket[Tflock := lock][State := c.body])
  {
    var lock := LockBody(TofuLock(c.uuid));
    var locked := s.bucket[Tflock := lock];
    events := Starts(s, id, TofuWaiting(c.uuid));
    events := GoesOn(s, events, id, TofuWaiting(c.uuid), s.bucket, c, TofuHolding(lock), Put(Tflock, lock));
    events := GoesOn(s, events, id, TofuHolding(lock), locked, c, TofuHolding(lock), Put(State, c.body));
  }

  /** From every initial system whose admission check passes, there is a run in which the begin takes effect
      although there is a state in the bucket by then. */
  lemma FenceBesideState(start: System, path: Path, c: Choice) returns (events: seq<Event>)
    requires Initial(start) && CheckPasses(path, start.bucket, start.files) && c.more && c.body.Cipher?
    ensures var t := Run(start, events);
            t.begun == [0] && IsApplying(t.bucket) && State in t.bucket && t.bucket[State] == c.body
  {
    var first := ComesToFence(start, 0, path, c);
    var s := Run(start, first);
    var second := TofuAppears(s, 1, c);
    RunAppends(start, first, second);
    RunThen(start, first + second, Step(0, c));
    events := first + second + [Step(0, c)];
  }
}
