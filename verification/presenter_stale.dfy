/** What becomes of a preparation that was aborted, superseded, reset or freed: nothing. */
module PresenterStale {
  import opened Common
  import opened Presenter
  import opened PresenterTheorems
  import opened PresenterHistory

  // ---- aborts, frees and the newest token, by the events ----

  /** The adapter's own record of aborts and of `free`, and its newest token. */
  predicate FlagsMove(s: State, e: Event, s': State) {
    && s'.aborted == (if e.Abort? then s.aborted + {e.token} else s.aborted)
    && s'.freed == (s.freed || e.Free?)
    && s.serial <= s'.serial
  }

  predicate SameFlags(s: State, s': State) {
    s'.aborted == s.aborted && s'.freed == s.freed && s.serial <= s'.serial
  }

  lemma DiscardFlags(s: State, t: Token)
    ensures SameFlags(s, DiscardTransaction(s, t)) && SameFlags(s, DiscardPending(s))
  {
  }

  lemma PrepareFlags(s: State, valid: bool)
    ensures SameFlags(s, StartPrepare(s, valid))
  {
    DiscardFlags(Entered(s), 0);
  }

  lemma CommitFlags(s: State, t: Token, fault: Fault, redrawFails: bool)
    ensures SameFlags(s, CommitTransaction(s, t, fault, redrawFails))
  {
  }

  lemma JobFlags(s: State, event: Event)
    ensures SameFlags(s, StartJob(s))
    ensures s.running.Some? && Running(s) in s.preps ==> SameFlags(s, RunJob(s, event))
  {
  }

  lemma LoadingFlags(s: State, event: Event)
    requires event.Resource? || event.Layout?
    ensures SameFlags(s, Exec(s, event))
  {
  }

  lemma RestartFlags(s: State)
    ensures SameFlags(s, ResetRenderer(s)) && FlagsMove(s, Free, FreeRenderer(s))
  {
    DiscardFlags(s, 0);
  }

  lemma FlagsStep(s: State, event: Event)
    ensures FlagsMove(s, event, Exec(s, event))
  {
    match event {
      case Prepare(valid) => PrepareFlags(s, valid);
      case Resource(_, _) => LoadingFlags(s, event);
      case Layout(_, _, _) => LoadingFlags(s, event);
      case Resume(_) =>
      case Commit(t, fault, redrawFails) => CommitFlags(s, t, fault, redrawFails);
      case Discard(t) => DiscardFlags(s, t);
      case Reset => RestartFlags(s);
      case Free => RestartFlags(s);
      case Abort(_) =>
      case Release =>
      case Leave =>
      case _ => JobFlags(s, event);
    }
  }

  lemma {:induction false} FlagsOfRun(s: State, events: seq<Event>, t: Token)
    ensures t in Run(s, events).aborted <==> t in s.aborted || Abort(t) in events
    ensures Run(s, events).freed <==> s.freed || Free in events
    ensures s.serial <= Run(s, events).serial
    decreases |events|
  {
    if events != [] {
      FlagsStep(s, events[0]);
      FlagsOfRun(Exec(s, events[0]), events[1..], t);
      assert events == [events[0]] + events[1..];
    }
  }

  /** This token is the newest, and neither it was aborted nor the renderer freed. */
  predicate Current(events: seq<Event>, t: Token) {
    t == Run(INITIAL, events).serial && Free !in events && Abort(t) !in events
  }

  lemma CurrentIsLive(events: seq<Event>, t: Token)
    ensures Live(Run(INITIAL, events), t) <==> Current(events, t)
  {
    FlagsOfRun(INITIAL, events, t);
  }

  // ---- each stage is reached only by a current preparation ----

  /** The layout is taken and queued if and only if the preparation is current, and its layout is visible. */
  lemma LayoutIff(events: seq<Event>, t: Token, ok: bool, geometry: Geometry)
    requires var s := Run(INITIAL, events); t in s.preps && s.preps[t].Loading?
    ensures var s, s' := Run(INITIAL, events), Exec(Run(INITIAL, events), Layout(t, ok, geometry));
            && (s'.engine.pending == Some(t) && s'.queue == s.queue + [t] && s'.preps[t] == Queued(geometry) <==>
                  ok && Visible(geometry) && Current(events, t))
            && (s'.preps[t].Over? <==> !(ok && Visible(geometry) && Current(events, t)))
  {
    CurrentIsLive(events, t);
  }

  /** A raster job starts if and only if it is the first in the queue, no other runs, and it is current. */
  lemma JobStartIff(events: seq<Event>, t: Token)
    requires var s := Run(INITIAL, events);
             s.running.None? && s.queue != [] && s.queue[0] == t && t in s.preps && s.preps[t].Queued?
    ensures var s, s' := Run(INITIAL, events), Exec(Run(INITIAL, events), JobStart);
            && s'.queue == s.queue[1..]
            && (s'.running == Some(t) && s'.staging == Blank <==> Current(events, t))
            && (s'.preps[t].Rejected? && s'.running.None? <==> !Current(events, t))
  {
    CurrentIsLive(events, t);
  }

  /** Its picture is copied off the staging canvas if and only if it is still current. */
  lemma SnapshotIff(events: seq<Event>, t: Token, ok: bool)
    requires var s := Run(INITIAL, events); s.running == Some(t) && t in s.preps && s.preps[t].Painted?
    ensures var s' := Exec(Run(INITIAL, events), JobSnapshot(ok));
            && (s'.preps[t].Composing? && s'.preps[t].canvas.picture == Frame(t) <==> ok && Current(events, t))
            && (s'.preps[t].Rejected? && s'.running.None? <==> !(ok && Current(events, t)))
  {
    CurrentIsLive(events, t);
    RunKeeps(INITIAL, events);
    assert PrepOk(Run(INITIAL, events), t);
  }

  /** A loaded resource goes to the engine if and only if the preparation is current; otherwise it is over. */
  lemma ResourceIff(events: seq<Event>, t: Token, ok: bool)
    requires var s := Run(INITIAL, events); t in s.preps && s.preps[t].Loading?
    ensures var s' := Exec(Run(INITIAL, events), Resource(t, ok));
            && (s'.preps[t].Loading? <==> ok && Current(events, t))
            && (s'.preps[t].Over? <==> !(ok && Current(events, t)))
  {
    CurrentIsLive(events, t);
  }

  /** An embedded surface is drawn onto it if and only if it is still current; otherwise the job is over. */
  lemma SurfaceIff(events: seq<Event>, t: Token, ok: bool)
    requires var s := Run(INITIAL, events); s.running == Some(t) && t in s.preps && s.preps[t].Composing?
    ensures var s, s' := Run(INITIAL, events), Exec(Run(INITIAL, events), JobSurface(ok));
            && (s' == s <==> ok && Current(events, t))
            && (s'.preps[t].Rejected? && s'.running.None? <==> !(ok && Current(events, t)))
  {
    CurrentIsLive(events, t);
  }

  predicate StartsNext(s: State, s': State) {
    && s'.serial == s.serial + 1 && s'.serial in s'.preps && s'.preps[s'.serial].Loading?
    && s'.inFlight == s.inFlight + 1
  }

  /** A preparation starts, with the next token, if and only if fewer than two are under way, the renderer is not freed
      and the envelope is valid. */
  lemma PrepareIff(events: seq<Event>, valid: bool)
    ensures var s, s' := Run(INITIAL, events), Exec(Run(INITIAL, events), Prepare(valid));
            StartsNext(s, s') <==> s.inFlight < 2 && Free !in events && valid
  {
    FlagsOfRun(INITIAL, events, 0);
    RunKeeps(INITIAL, events);
    NextIsFresh(Run(INITIAL, events));
    PrepareStarts(Run(INITIAL, events), valid);
  }

  lemma PrepareStarts(s: State, valid: bool)
    requires s.serial + 1 !in s.preps
    ensures var s' := StartPrepare(s, valid);
            StartsNext(s, s') <==> s.inFlight < 2 && !s.freed && valid
  {
    PendingKeepsPreps(Entered(s));
  }

  lemma PendingKeepsPreps(s: State)
    ensures var s' := DiscardPending(s); s'.preps == s.preps && s'.serial == s.serial && s'.inFlight == s.inFlight
  {
  }

  predicate Opens(s: State, s': State, t: Token) {
    !Open(s, t) && Open(s', t)
  }

  lemma ResumeOpens(s: State, t: Token, u: Token)
    requires Inv(s)
    ensures Opens(s, ResumePrepare(s, t), u) <==> u == t && t in s.preps && s.preps[t].Ready? && Live(s, t)
  {
    if t in s.transactions { assert TransactionOk(s, t); }
  }

  lemma CommitOpensNone(s: State, t: Token, fault: Fault, redrawFails: bool, u: Token)
    ensures !Opens(s, CommitTransaction(s, t, fault, redrawFails), u)
  {
  }

  lemma DiscardOpensNone(s: State, t: Token, u: Token)
    ensures !Opens(s, DiscardTransaction(s, t), u) && !Opens(s, DiscardPending(s), u)
  {
  }

  lemma PrepareOpensNone(s: State, valid: bool, u: Token)
    ensures !Opens(s, StartPrepare(s, valid), u)
  {
    DiscardOpensNone(Entered(s), 0, u);
  }

  /** The events that touch no transaction. */
  predicate Apart(event: Event) {
    !(event.Prepare? || event.Resume? || event.Commit? || event.Discard? || event.Reset? || event.Free?)
  }

  lemma ApartKeepsTransactions(s: State, event: Event)
    requires Apart(event)
    ensures Exec(s, event).transactions == s.transactions
  {
  }

  lemma OthersOpenNone(s: State, event: Event, u: Token)
    requires !event.Resume?
    ensures !Opens(s, Exec(s, event), u)
  {
    if Apart(event) {
      ApartKeepsTransactions(s, event);
    } else if event.Prepare? {
      PrepareOpensNone(s, event.valid, u);
    } else if event.Commit? {
      CommitOpensNone(s, event.token, event.fault, event.redrawFails, u);
    } else {
      DiscardOpensNone(s, if event.Discard? then event.token else 0, u);
    }
  }

  /** A transaction is opened by the resumption of its own preparation, if and only if the raster job has resolved and
      the preparation is current. */
  lemma OpensIff(events: seq<Event>, event: Event, t: Token)
    ensures var s, s' := Run(INITIAL, events), Exec(Run(INITIAL, events), event);
            Opens(s, s', t) <==> event == Resume(t) && t in s.preps && s.preps[t].Ready? && Current(events, t)
  {
    CurrentIsLive(events, t);
    RunKeeps(INITIAL, events);
    var s := Run(INITIAL, events);
    if event.Resume? { ResumeOpens(s, event.token, t); } else { OthersOpenNone(s, event, t); }
  }

  // ---- commits ----

  /** The preparation on record has settled its transaction. */
  predicate RecordSettled(s: State) {
    s.committed.Some? ==> s.committed.value.token in s.transactions && s.transactions[s.committed.value.token].settled
  }

  predicate StaysSettled(s: State, s': State) {
    forall t :: t in s.transactions && s.transactions[t].settled ==> t in s'.transactions && s'.transactions[t].settled
  }

  lemma CommitStaysSettled(s: State, t: Token, fault: Fault, redrawFails: bool)
    requires RecordSettled(s)
    ensures RecordSettled(CommitTransaction(s, t, fault, redrawFails))
  {
  }

  lemma PrepareStaysSettled(s: State, valid: bool)
    ensures StaysSettled(s, StartPrepare(s, valid))
  {
  }

  lemma ResumeStaysSettled(s: State, t: Token)
    requires Inv(s)
    ensures StaysSettled(s, ResumePrepare(s, t))
  {
    if t in s.transactions { assert TransactionOk(s, t); }
  }

  lemma DiscardStaysSettled(s: State, event: Event)
    requires event.Discard? || event.Reset? || event.Free?
    ensures StaysSettled(s, Exec(s, event))
  {
  }

  lemma OthersStaySettled(s: State, event: Event)
    requires Inv(s) && !event.Commit?
    ensures StaysSettled(s, Exec(s, event))
  {
    if Apart(event) {
      ApartKeepsTransactions(s, event);
    } else if event.Prepare? {
      PrepareStaysSettled(s, event.valid);
    } else if event.Resume? {
      ResumeStaysSettled(s, event.token);
    } else {
      DiscardStaysSettled(s, event);
    }
  }

  lemma {:induction false} RunSettles(s: State, events: seq<Event>)
    requires Inv(s) && RecordSettled(s)
    ensures RecordSettled(Run(s, events))
    decreases |events|
  {
    if events != [] {
      var event := events[0];
      ExecKeeps(s, event);
      if event.Commit? {
        CommitStaysSettled(s, event.token, event.fault, event.redrawFails);
      } else {
        OthersStaySettled(s, event);
        RecordComesFromCommit(s, event);
      }
      RunSettles(Exec(s, event), events[1..]);
    }
  }

  lemma CommitRecords(s: State, t: Token, fault: Fault, redrawFails: bool)
    requires Inv(s) && RecordSettled(s)
    ensures var s' := CommitTransaction(s, t, fault, redrawFails);
            s'.committed != s.committed <==> Open(s, t) && Live(s, t) && fault == NoFault
  {
    if Open(s, t) { assert TransactionOk(s, t); }
    if !(Open(s, t) && Live(s, t) && fault == NoFault) { FailedCommit(s, t, fault, redrawFails); }
  }

  /** Canvas, scene and record are all this preparation's. */
  predicate ShowsAll(s: State, s': State, t: Token)
    requires t in s.transactions
  {
    && s'.committed == Some(Record(t, s.transactions[t].canvas.geometry))
    && s'.canvas == s.transactions[t].canvas && s'.canvas.picture == Frame(t)
    && s'.engine.committed == Some(t) && s'.engine.pending.None? && !Open(s', t)
  }

  /** A commit changes the record exactly when it is `allowed`, and then to its own. */
  predicate CommitMeans(s: State, s': State, t: Token, allowed: bool) {
    && (s'.committed != s.committed <==> allowed)
    && (allowed ==> t in s.transactions && ShowsAll(s, s', t))
  }

  lemma InstallShowsAll(s: State, t: Token, redrawFails: bool)
    requires Inv(s) && Open(s, t) && Live(s, t)
    ensures ShowsAll(s, CommitTransaction(s, t, NoFault, redrawFails), t)
  {
    assert TransactionOk(s, t);
  }

  lemma CommitStep(s: State, t: Token, fault: Fault, redrawFails: bool)
    requires Inv(s) && RecordSettled(s)
    ensures CommitMeans(s, CommitTransaction(s, t, fault, redrawFails), t, Open(s, t) && Live(s, t) && fault == NoFault)
  {
    CommitRecords(s, t, fault, redrawFails);
    if Open(s, t) && Live(s, t) && fault == NoFault { InstallShowsAll(s, t, redrawFails); }
  }

  /** A commit changes the record if and only if its transaction is open, its preparation is current and nothing fails;
      and then canvas, scene and record are all its own. */
  lemma CommitIff(events: seq<Event>, t: Token, fault: Fault, redrawFails: bool)
    ensures var s, s' := Run(INITIAL, events), Exec(Run(INITIAL, events), Commit(t, fault, redrawFails));
            CommitMeans(s, s', t, Open(s, t) && Current(events, t) && fault == NoFault)
  {
    CurrentIsLive(events, t);
    RunKeeps(INITIAL, events);
    RunSettles(INITIAL, events);
    CommitStep(Run(INITIAL, events), t, fault, redrawFails);
  }

  // ---- for ever ----

  /** These events end every preparation so far: an accepted preparation, a reset, and `free`. */
  predicate Supersedes(s: State, event: Event) {
    (event.Prepare? && s.inFlight < 2 && !s.freed) || event.Reset? || (event.Free? && !s.freed)
  }

  lemma SerialRises(s: State, event: Event)
    requires Supersedes(s, event)
    ensures Exec(s, event).serial == s.serial + 1
  {
    DiscardFlags(s, 0);
    DiscardFlags(Entered(s), 0);
  }

  /** Once a preparation was aborted or superseded, no later event opens its transaction or puts it on record. */
  lemma StaleForEver(past: seq<Event>, end: Event, future: seq<Event>, event: Event, t: Token)
    requires t <= Run(INITIAL, past).serial
    requires end == Abort(t) || Supersedes(Run(INITIAL, past), end)
    ensures var s := Run(INITIAL, past + [end] + future);
            var s' := Exec(s, event);
            && !Opens(s, s', t)
            && (s'.committed.Some? && s'.committed != s.committed ==> s'.committed.value.token != t)
  {
    var events := past + [end] + future;
    assert !Current(events, t) by { NeverCurrent(past, end, future, t); }
    OpensIff(events, event, t);
    var s := Run(INITIAL, events);
    OnlyTheNewestCommits(events, event);
    if event.Commit? { CommitIff(events, event.token, event.fault, event.redrawFails); }
  }

  lemma NeverCurrent(past: seq<Event>, end: Event, future: seq<Event>, t: Token)
    requires t <= Run(INITIAL, past).serial
    requires end == Abort(t) || Supersedes(Run(INITIAL, past), end)
    ensures !Current(past + [end] + future, t)
  {
    if end == Abort(t) {
      assert (past + [end] + future)[|past|] == Abort(t);
    } else {
      RunAppends(INITIAL, past, [end]);
      RunOne(Run(INITIAL, past), end);
      SerialRises(Run(INITIAL, past), end);
      RunAppends(INITIAL, past + [end], future);
      FlagsOfRun(Run(INITIAL, past + [end]), future, t);
    }
  }

  // ---- settled transactions ----

  lemma CommitKeepsSettled(s: State, t: Token, fault: Fault, redrawFails: bool)
    ensures StaysSettled(s, CommitTransaction(s, t, fault, redrawFails))
  {
  }

  lemma {:induction false} RunKeepsSettled(s: State, events: seq<Event>, t: Token)
    requires Inv(s) && t in s.transactions && s.transactions[t].settled
    ensures !Open(Run(s, events), t)
    decreases |events|
  {
    if events != [] {
      var event := events[0];
      ExecKeeps(s, event);
      if event.Commit? {
        CommitKeepsSettled(s, event.token, event.fault, event.redrawFails);
      } else {
        OthersStaySettled(s, event);
      }
      RunKeepsSettled(Exec(s, event), events[1..], t);
    }
  }

  lemma Settles(s: State, end: Event, t: Token)
    requires Open(s, t) && (end == Discard(t) || (end.Commit? && end.token == t))
    ensures var s' := Exec(s, end); t in s'.transactions && s'.transactions[t].settled
  {
  }

  /** Once committed, with whatever outcome, or discarded, a transaction is never open again. */
  lemma SettledForEver(past: seq<Event>, end: Event, future: seq<Event>, t: Token)
    requires Open(Run(INITIAL, past), t) && (end == Discard(t) || (end.Commit? && end.token == t))
    ensures !Open(Run(INITIAL, past + [end] + future), t)
  {
    RunKeeps(INITIAL, past);
    var s := Run(INITIAL, past);
    Settles(s, end, t);
    ExecKeeps(s, end);
    RunAppends(INITIAL, past, [end]);
    RunOne(s, end);
    RunAppends(INITIAL, past + [end], future);
    RunKeepsSettled(Exec(s, end), future, t);
  }

  // ---- reset and free ----

  /** After a reset there is no record, no scene and no open transaction; the canvas is left as it is. */
  lemma ResetClears(events: seq<Event>, t: Token)
    ensures var s, s' := Run(INITIAL, events), Exec(Run(INITIAL, events), Reset);
            && s'.committed.None? && s'.engine.committed.None? && s'.engine.pending.None?
            && s'.canvas == s.canvas && !Open(s', t)
  {
    RunOneOpen(INITIAL, events);
    RunKeeps(INITIAL, events);
    PendingCloses(Run(INITIAL, events));
  }

  predicate Bare(s: State) {
    s.canvas.picture == Blank && s.canvas.geometry.width == 0 && s.canvas.geometry.height == 0 && s.committed.None?
  }

  lemma BareStays(s: State, event: Event)
    requires Inv(s) && s.freed && Bare(s)
    ensures Bare(Exec(s, event))
  {
    if event.Commit? {
      FailedCommit(s, event.token, event.fault, event.redrawFails);
    } else {
      RecordComesFromCommit(s, event);
      OthersKeepCanvas(s, event);
    }
  }

  lemma OthersKeepCanvas(s: State, event: Event)
    requires s.freed && !event.Commit?
    ensures Exec(s, event).canvas == s.canvas
  {
    match event {
      case Prepare(valid) =>
      case Resume(t) => ThrowKeepsScreen(s, t);
      case Resource(t, _) => ThrowKeepsScreen(s, t);
      case Layout(t, _, _) => ThrowKeepsScreen(s, t);
      case Discard(t) =>
      case Reset =>
      case _ =>
    }
  }

  lemma {:induction false} RunStaysBare(s: State, events: seq<Event>)
    requires Inv(s) && (s.freed ==> Bare(s))
    ensures Run(s, events).freed ==> Bare(Run(s, events))
    decreases |events|
  {
    if events != [] {
      ExecKeeps(s, events[0]);
      FlagsStep(s, events[0]);
      if s.freed { BareStays(s, events[0]); } else if events[0].Free? { DiscardFlags(s, 0); }
      RunStaysBare(Exec(s, events[0]), events[1..]);
    }
  }

  /** Once the renderer is freed its canvas is blank and has no backing size, and there is no record, for ever. */
  lemma FreedIsBare(events: seq<Event>)
    requires Free in events
    ensures Bare(Run(INITIAL, events))
  {
    RunStaysBare(INITIAL, events);
    FlagsOfRun(INITIAL, events, 0);
  }
}
