/** What holds of the audience renderer in every interleaving. */
module PresenterTheorems {
  import opened Common
  import opened Presenter

  // ---- the invariant ----

  /** A preparation whose layout the engine holds, as long as it is the newest. */
  predicate LaidOut(p: Prep) {
    p.Queued? || p.Painting? || p.Painted? || p.Composing? || p.Ready? || p.Rejected?
  }

  predicate InJob(p: Prep) {
    p.Painting? || p.Painted? || p.Composing?
  }

  predicate OwnCanvas(c: Canvas, t: Token) {
    c.picture == Frame(t) && Visible(c.geometry)
  }

  predicate PrepOk(s: State, t: Token)
    requires t in s.preps
  {
    var p := s.preps[t];
    && t <= s.serial
    && (LaidOut(p) && t == s.serial && !s.freed ==> s.engine.pending == Some(t))
    && (InJob(p) ==> s.running == Some(t))
    && (p.Painted? ==> s.staging == Frame(t))
    && ((p.Queued? || p.Painting? || p.Painted?) ==> Visible(p.geometry))
    && ((p.Composing? || p.Ready?) ==> OwnCanvas(p.canvas, t))
  }

  predicate TransactionOk(s: State, t: Token)
    requires t in s.transactions
  {
    && t <= s.serial && t in s.preps && s.preps[t].Over?
    && (!s.transactions[t].settled ==> OwnCanvas(s.transactions[t].canvas, t))
    && (!s.transactions[t].settled && t == s.serial && !s.freed ==> s.engine.pending == Some(t))
  }

  /** The visible canvas, the engine's committed scene and the record belong together. */
  predicate Agree(s: State) {
    && (s.committed.Some? ==>
          && s.engine.committed == Some(s.committed.value.token)
          && s.canvas.geometry == s.committed.value.geometry && Visible(s.canvas.geometry)
          && s.canvas.picture in {Blank, Frame(s.committed.value.token)})
    && (!Visible(s.canvas.geometry) ==> s.canvas.picture == Blank)
  }

  predicate PrepsOk(s: State) {
    forall t :: t in s.preps ==> PrepOk(s, t)
  }

  predicate TransactionsOk(s: State) {
    forall t :: t in s.transactions ==> TransactionOk(s, t)
  }

  predicate Inv(s: State) {
    && PrepsOk(s)
    && TransactionsOk(s)
    && (s.engine.pending.Some? ==> s.engine.pending.value == s.serial)
    && (s.freed ==> s.engine.pending.None? && s.committed.None?)
    && (s.freed ==> s.serial !in s.preps && s.serial !in s.transactions)
    && (s.pendingTransaction.Some? ==> Open(s, s.pendingTransaction.value))
    && (s.running.Some? ==> Running(s) in s.preps && InJob(s.preps[Running(s)]))
    && Agree(s)
  }

  // ---- every event keeps it ----

  lemma SettleKeeps(s: State, t: Token)
    requires Inv(s) && Open(s, t)
    ensures Inv(DiscardIfCurrent(Settle(s, t), t))
  {
  }

  lemma DiscardPendingKeeps(s: State)
    requires Inv(s)
    ensures Inv(DiscardPending(s)) && DiscardPending(s).pendingTransaction.None?
  {
  }

  lemma ThrowKeeps(s: State, t: Token)
    requires Inv(s) && t in s.preps && !s.preps[t].Over? && s.running != Some(t)
    ensures Inv(Throw(s, t))
  {
  }

  lemma SlotsKeep(s: State, s': State)
    requires Inv(s) && s' == s.(inFlight := s'.inFlight, leaving := s'.leaving)
    ensures Inv(s')
  {
    assert PrepsOk(s') by { forall u | u in s'.preps ensures PrepOk(s', u) { assert PrepOk(s, u); } }
    assert TransactionsOk(s') by { forall u | u in s'.transactions ensures TransactionOk(s', u) { assert TransactionOk(s, u); } }
  }

  lemma InnerKeeps(s: State, valid: bool)
    requires Inv(s)
    ensures Inv(Inner(s, valid))
  {
    var s' := Inner(s, valid);
    if !s.freed {
      DiscardPendingKeeps(s);
      var s1 := DiscardPending(s);
      assert PrepsOk(s') by { forall u | u in s'.preps ensures PrepOk(s', u) { if u in s1.preps { assert PrepOk(s1, u); } } }
      assert TransactionsOk(s') by { forall u | u in s'.transactions ensures TransactionOk(s', u) { assert TransactionOk(s1, u); } }
    }
  }

  lemma PrepareKeeps(s: State, valid: bool)
    requires Inv(s)
    ensures Inv(StartPrepare(s, valid))
  {
    if s.inFlight < 2 {
      var entered := Entered(s);
      SlotsKeep(s, entered);
      InnerKeeps(entered, valid);
      SlotsKeep(Inner(entered, valid), StartPrepare(s, valid));
    }
  }

  lemma LayoutKeeps(s: State, t: Token, geometry: Geometry)
    requires Inv(s) && t in s.preps && s.preps[t].Loading? && Live(s, t) && Visible(geometry)
    ensures Inv(Exec(s, Layout(t, true, geometry)))
  {
  }

  lemma RejectKeeps(s: State, t: Token)
    requires Inv(s) && t in s.preps && LaidOut(s.preps[t]) && (s.running.None? || s.running == Some(t))
    ensures Inv(RejectJob(s, t))
  {
  }

  lemma JobStartKeeps(s: State)
    requires Inv(s)
    ensures Inv(StartJob(s))
  {
    var s' := StartJob(s);
    if s.running.None? && s.queue != [] {
      var t, s1 := s.queue[0], s.(queue := s.queue[1..]);
      assert Inv(s1) by {
        assert PrepsOk(s1) by { forall u | u in s1.preps ensures PrepOk(s1, u) { assert PrepOk(s, u); } }
        assert TransactionsOk(s1) by { forall u | u in s1.transactions ensures TransactionOk(s1, u) { assert TransactionOk(s, u); } }
      }
      if t in s.preps && s.preps[t].Queued? {
        if !Live(s, t) {
          RejectKeeps(s1, t);
        } else {
          assert PrepsOk(s') by { forall u | u in s'.preps ensures PrepOk(s', u) { assert PrepOk(s, u); } }
          assert TransactionsOk(s') by { forall u | u in s'.transactions ensures TransactionOk(s', u) { assert TransactionOk(s, u); } }
        }
      }
    }
  }

  lemma JobKeeps(s: State, event: Event)
    requires Inv(s) && s.running.Some? && Running(s) in s.preps
    ensures Inv(RunJob(s, event))
  {
    var t, s' := Running(s), RunJob(s, event);
    if s' == s {
    } else if s' == RejectJob(s, t) {
      RejectKeeps(s, t);
    } else {
      assert PrepsOk(s') by { forall u | u in s'.preps ensures PrepOk(s', u) { assert PrepOk(s, u); } }
      assert TransactionsOk(s') by { forall u | u in s'.transactions ensures TransactionOk(s', u) { assert TransactionOk(s, u); } }
    }
  }

  lemma ResumeKeeps(s: State, t: Token)
    requires Inv(s)
    ensures Inv(ResumePrepare(s, t))
  {
    var s' := ResumePrepare(s, t);
    if t in s.preps && (s.preps[t].Rejected? || s.preps[t].Ready?) {
      assert PrepOk(s, t);
      if s.preps[t].Rejected? || !Live(s, t) {
        ThrowKeeps(s, t);
      } else {
        assert PrepsOk(s') by { forall u | u in s'.preps ensures PrepOk(s', u) { assert PrepOk(s, u); } }
        assert TransactionsOk(s') by { forall u | u in s'.transactions ensures TransactionOk(s', u) { if u != t { assert TransactionOk(s, u); } } }
      }
    }
  }

  lemma RollbackKeeps(s: State, redrawFails: bool)
    requires Inv(s)
    ensures Inv(RolledBack(s, redrawFails))
  {
  }

  lemma InstallKeeps(s: State, t: Token)
    requires Inv(s) && Open(s, t) && Live(s, t)
    ensures Inv(Installed(Settle(s, t), t))
  {
  }

  lemma CommitKeeps(s: State, t: Token, fault: Fault, redrawFails: bool)
    requires Inv(s)
    ensures Inv(CommitTransaction(s, t, fault, redrawFails))
  {
    if Open(s, t) {
      if !Live(s, t) || fault == EarlyFault {
        SettleKeeps(s, t);
      } else if fault != NoFault {
        RollbackKeeps(s, redrawFails);
        SettleKeeps(RolledBack(s, redrawFails), t);
      } else {
        assert TransactionOk(s, t);
        InstallKeeps(s, t);
      }
    }
  }

  lemma RestartKeeps(s: State, event: Event)
    requires Inv(s) && (event.Reset? || event.Free?)
    ensures Inv(Exec(s, event))
  {
    DiscardPendingKeeps(s);
    var s1, s' := DiscardPending(s), Exec(s, event);
    if s' != s {
      assert PrepsOk(s') by { forall u | u in s'.preps ensures PrepOk(s', u) { assert PrepOk(s1, u); } }
      assert TransactionsOk(s') by { forall u | u in s'.transactions ensures TransactionOk(s', u) { assert TransactionOk(s1, u); } }
    }
  }

  lemma QuietKeeps(s: State, event: Event)
    requires Inv(s) && (event.Abort? || event.Release? || event.Leave?)
    ensures Inv(Exec(s, event))
  {
  }

  lemma ExecKeeps(s: State, event: Event)
    requires Inv(s)
    ensures Inv(Exec(s, event))
  {
    match event {
      case Prepare(valid) => PrepareKeeps(s, valid);
      case Resource(t, ok) =>
        if t in s.preps && s.preps[t].Loading? { ThrowKeeps(s, t); }
      case Layout(t, ok, geometry) =>
        if t in s.preps && s.preps[t].Loading? {
          if ok && Live(s, t) && Visible(geometry) { LayoutKeeps(s, t, geometry); } else { ThrowKeeps(s, t); }
        }
      case JobStart => JobStartKeeps(s);
      case Resume(t) => ResumeKeeps(s, t);
      case Commit(t, fault, redrawFails) => CommitKeeps(s, t, fault, redrawFails);
      case Discard(t) => if Open(s, t) { SettleKeeps(s, t); }
      case Reset => RestartKeeps(s, event);
      case Free => RestartKeeps(s, event);
      case Abort(_) => QuietKeeps(s, event);
      case Release => QuietKeeps(s, event);
      case Leave => QuietKeeps(s, event);
      case _ => if s.running.Some? { JobKeeps(s, event); }
    }
  }

  // ---- runs ----

  lemma {:induction false} RunKeeps(s: State, events: seq<Event>)
    requires Inv(s)
    ensures Inv(Run(s, events))
    decreases |events|
  {
    if events != [] {
      ExecKeeps(s, events[0]);
      RunKeeps(Exec(s, events[0]), events[1..]);
    }
  }

  /** A commit succeeds exactly when its transaction is open, it is the newest preparation, nobody
      aborted or freed it, and neither the canvas nor the engine throws. Then all three parts are its
      own. Only a commit ever installs a record. */
  lemma OnlyTheNewestCommits(events: seq<Event>, event: Event)
    ensures var s, s' := Run(INITIAL, events), Exec(Run(INITIAL, events), event);
            && (s'.committed.Some? && s'.committed != s.committed ==>
                  event.Commit? && event.token == s.serial && s'.committed.value.token == s.serial)
            && (event.Commit? && Open(s, event.token) && Live(s, event.token) && event.fault == NoFault ==>
                  && s'.committed.Some? && s'.committed.value.token == event.token
                  && s'.engine.committed == Some(event.token) && s'.canvas == s.transactions[event.token].canvas
                  && s'.canvas.picture == Frame(event.token) && !Open(s', event.token))
  {
    RunKeeps(INITIAL, events);
    var s := Run(INITIAL, events);
    RecordComesFromCommit(s, event);
    if event.Commit? && Open(s, event.token) { assert TransactionOk(s, event.token); }
  }

  lemma DiscardingKeepsRecord(s: State, t: Token)
    ensures DiscardTransaction(s, t).committed == s.committed && Throw(s, t).committed == s.committed
    ensures DiscardPending(s).committed == s.committed
  {
  }

  lemma OthersKeepRecord(s: State, event: Event)
    requires !event.Commit?
    ensures Exec(s, event).committed == s.committed || Exec(s, event).committed.None?
  {
    match event {
      case Resource(t, _) => DiscardingKeepsRecord(s, t);
      case Layout(t, _, _) => DiscardingKeepsRecord(s, t);
      case Resume(t) => DiscardingKeepsRecord(s, t);
      case Discard(t) => DiscardingKeepsRecord(s, t);
      case Prepare(_) => DiscardingKeepsRecord(s, 0);
      case _ =>
    }
  }

  lemma RecordComesFromCommit(s: State, event: Event)
    ensures var s' := Exec(s, event);
            s'.committed.Some? && s'.committed != s.committed ==>
              event.Commit? && event.token == s.serial && s'.committed.value.token == s.serial
  {
    if !event.Commit? { OthersKeepRecord(s, event); }
  }

  /** The record, the engine's committed scene and the canvas geometry are as before. */
  predicate Untouched(s: State, s': State) {
    && s'.committed == s.committed && s'.engine.committed == s.engine.committed
    && s'.canvas.geometry == s.canvas.geometry
  }

  lemma SettlingLeaves(s: State, t: Token)
    requires t in s.transactions
    ensures var s' := DiscardIfCurrent(Settle(s, t), t);
            Untouched(s, s') && s'.canvas.picture == s.canvas.picture && !Open(s', t)
  {
  }

  lemma RollbackLeaves(s: State, redrawFails: bool)
    requires Agree(s)
    ensures var s' := RolledBack(s, redrawFails);
            && Untouched(s, s') && s'.transactions == s.transactions
            && (s'.canvas.picture == s.canvas.picture <==> !(redrawFails && s.canvas.picture != Blank))
  {
  }

  lemma FailedCommit(s: State, t: Token, fault: Fault, redrawFails: bool)
    requires Inv(s) && !(Open(s, t) && Live(s, t) && fault == NoFault)
    ensures var s' := CommitTransaction(s, t, fault, redrawFails);
            && Untouched(s, s') && !Open(s', t)
            && (s'.canvas.picture == s.canvas.picture <==>
                  !(Open(s, t) && Live(s, t) && fault != EarlyFault && redrawFails && s.canvas.picture != Blank))
  {
    if Open(s, t) {
      SettlingLeaves(s, t);
      RollbackLeaves(s, redrawFails);
      SettlingLeaves(RolledBack(s, redrawFails), t);
    }
  }

  /** A commit that does not succeed leaves the record, the engine's committed scene and the canvas
      geometry as they were, and the picture too unless the rollback's own redraw fails. */
  lemma FailedCommitChangesNothing(events: seq<Event>, t: Token, fault: Fault, redrawFails: bool)
    requires var s := Run(INITIAL, events); !(Open(s, t) && Live(s, t) && fault == NoFault)
    ensures var s := Run(INITIAL, events);
            var s' := Exec(s, Commit(t, fault, redrawFails));
            && Untouched(s, s') && !Open(s', t)
            && (s'.canvas.picture == s.canvas.picture <==>
                  !(Open(s, t) && Live(s, t) && fault != EarlyFault && redrawFails && s.canvas.picture != Blank))
  {
    RunKeeps(INITIAL, events);
    FailedCommit(Run(INITIAL, events), t, fault, redrawFails);
  }

  lemma {:induction false} RunAppends(s: State, past: seq<Event>, future: seq<Event>)
    ensures Run(s, past + future) == Run(Run(s, past), future)
    decreases |past|
  {
    if past == [] {
      assert past + future == future;
    } else {
      RunAppends(Exec(s, past[0]), past[1..], future);
      assert (past + future)[0] == past[0] && (past + future)[1..] == past[1..] + future;
    }
  }

  lemma RunOne(s: State, event: Event)
    ensures Run(s, [event]) == Exec(s, event)
  {
  }

  // ---- the freed engine ----

  /** Was the renderer reset after it was freed? */
  predicate ResetAfterFree(events: seq<Event>) {
    exists i, j :: 0 <= i < j < |events| && events[i].Free? && events[j].Reset?
  }

  predicate EngineSpared(s: State, s': State) {
    s'.engine.misused == s.engine.misused && s'.freed == s.freed
  }

  lemma DiscardSpares(s: State, t: Token)
    requires Inv(s)
    ensures EngineSpared(s, DiscardTransaction(s, t)) && EngineSpared(s, DiscardPending(s))
    ensures t in s.preps ==> EngineSpared(s, Throw(s, t))
    ensures t in s.transactions ==> EngineSpared(s, DiscardIfCurrent(s, t))
  {
  }

  lemma CommitSpares(s: State, t: Token, fault: Fault, redrawFails: bool)
    requires Inv(s)
    ensures EngineSpared(s, CommitTransaction(s, t, fault, redrawFails))
  {
    if Open(s, t) {
      DiscardSpares(s, t);
      if Live(s, t) && fault != EarlyFault && fault != NoFault {
        RollbackKeeps(s, redrawFails);
        DiscardSpares(RolledBack(s, redrawFails), t);
      }
    }
  }

  lemma JobSpares(s: State, event: Event)
    ensures EngineSpared(s, StartJob(s))
    ensures s.running.Some? && Running(s) in s.preps ==> EngineSpared(s, RunJob(s, event))
  {
  }

  lemma PrepareSpares(s: State, valid: bool)
    requires Inv(s)
    ensures EngineSpared(s, StartPrepare(s, valid))
  {
  }

  lemma LoadingSpares(s: State, event: Event)
    requires Inv(s) && (event.Resource? || event.Layout? || event.Resume?)
    ensures EngineSpared(s, Exec(s, event))
  {
    DiscardSpares(s, event.token);
  }

  lemma ResetEngine(s: State)
    requires Inv(s)
    ensures ResetRenderer(s).freed == s.freed && ResetRenderer(s).engine.misused == (s.engine.misused || s.freed)
  {
  }

  lemma FreeEngine(s: State)
    requires Inv(s)
    ensures FreeRenderer(s).freed && FreeRenderer(s).engine.misused == s.engine.misused
  {
  }

  predicate EngineMoves(s: State, event: Event, s': State) {
    && s'.freed == (s.freed || event.Free?)
    && s'.engine.misused == (s.engine.misused || (s.freed && event.Reset?))
  }

  lemma OtherEventsSpare(s: State, event: Event)
    requires Inv(s) && !event.Reset? && !event.Free?
    ensures EngineSpared(s, Exec(s, event))
  {
    match event {
      case Prepare(valid) => PrepareSpares(s, valid);
      case Resource(_, _) => LoadingSpares(s, event);
      case Layout(_, _, _) => LoadingSpares(s, event);
      case Resume(_) => LoadingSpares(s, event);
      case Commit(t, fault, redrawFails) => CommitSpares(s, t, fault, redrawFails);
      case Discard(t) => DiscardSpares(s, t);
      case Abort(_) =>
      case Release =>
      case Leave =>
      case _ => JobSpares(s, event);
    }
  }

  lemma EngineStep(s: State, event: Event)
    requires Inv(s)
    ensures EngineMoves(s, event, Exec(s, event))
  {
    if event.Reset? {
      ResetEngine(s);
    } else if event.Free? {
      FreeEngine(s);
    } else {
      OtherEventsSpare(s, event);
    }
  }

  /** The engine is called after it was freed if and only if the host resets the renderer after freeing
      it: every other path checks first. */
  lemma {:induction false} EngineMisusedIff(events: seq<Event>)
    ensures var s := Run(INITIAL, events);
            && (s.freed <==> exists i :: 0 <= i < |events| && events[i].Free?)
            && (s.engine.misused <==> ResetAfterFree(events))
    decreases |events|
  {
    if events != [] {
      var n := |events| - 1;
      var past, last := events[..n], events[n];
      assert events == past + [last];
      EngineMisusedIff(past);
      RunKeeps(INITIAL, past);
      RunAppends(INITIAL, past, [last]);
      RunOne(Run(INITIAL, past), last);
      EngineStep(Run(INITIAL, past), last);
      assert forall i :: 0 <= i < n ==> events[i] == past[i];
      assert ResetAfterFree(events) ==> ResetAfterFree(past) || (last.Reset? && exists i :: 0 <= i < n && past[i].Free?);
    }
  }

  // ---- backpressure ----

  function Active(preps: map<Token, Prep>): set<Token> {
    set t | t in preps && !preps[t].Over?
  }

  /** `inFlight` counts the preparations under way and those whose `finally` is still to run, and is at most
      two. */
  predicate Counted(s: State) {
    s.inFlight == |Active(s.preps)| + s.leaving && s.inFlight <= 2
  }

  lemma Started(preps: map<Token, Prep>, t: Token, p: Prep)
    requires t !in preps && !p.Over?
    ensures |Active(preps[t := p])| == |Active(preps)| + 1
  {
    assert Active(preps[t := p]) == Active(preps) + {t};
  }

  lemma Moved(preps: map<Token, Prep>, t: Token, p: Prep)
    requires t in preps && !preps[t].Over? && !p.Over?
    ensures Active(preps[t := p]) == Active(preps)
  {
  }

  lemma Ended(preps: map<Token, Prep>, t: Token)
    requires t in preps && !preps[t].Over?
    ensures |Active(preps)| > 0 && |Active(preps[t := Over])| == |Active(preps)| - 1
  {
    assert t in Active(preps);
    assert Active(preps[t := Over]) == Active(preps) - {t};
  }

  predicate SameCounts(s: State, s': State) {
    s'.preps == s.preps && s'.inFlight == s.inFlight && s'.leaving == s.leaving
  }

  lemma DiscardingKeepsPreps(s: State, t: Token)
    ensures SameCounts(s, DiscardTransaction(s, t)) && SameCounts(s, DiscardPending(s))
    ensures DiscardPending(s).serial == s.serial
  {
  }

  lemma CommitKeepsPreps(s: State, t: Token, fault: Fault, redrawFails: bool)
    ensures SameCounts(s, CommitTransaction(s, t, fault, redrawFails))
  {
  }

  lemma JobMoves(s: State, event: Event)
    requires s.running.Some? && Running(s) in s.preps && InJob(s.preps[Running(s)])
    ensures var t, s' := Running(s), RunJob(s, event);
            && t in s'.preps && !s'.preps[t].Over? && s'.preps == s.preps[t := s'.preps[t]]
            && s'.inFlight == s.inFlight && s'.leaving == s.leaving
  {
  }

  lemma JobCounts(s: State, event: Event)
    requires Inv(s) && Counted(s) && s.running.Some?
    ensures Counted(RunJob(s, event))
  {
    JobMoves(s, event);
    Moved(s.preps, Running(s), RunJob(s, event).preps[Running(s)]);
  }

  lemma InnerMoves(s: State, valid: bool)
    ensures var s' := Inner(s, valid);
            && s'.inFlight == s.inFlight && s'.leaving == s.leaving
            && s'.preps == if !s.freed && valid then s.preps[s.serial + 1 := Loading] else s.preps
  {
    DiscardingKeepsPreps(s, 0);
  }

  lemma StartMoves(s: State, valid: bool)
    requires s.inFlight < 2
    ensures var s', begins := StartPrepare(s, valid), !s.freed && valid;
            && s'.inFlight == s.inFlight + 1
            && s'.leaving == (if begins then s.leaving else s.leaving + 1)
            && s'.preps == if begins then s.preps[s.serial + 1 := Loading] else s.preps
  {
    InnerMoves(Entered(s), valid);
  }

  lemma NextIsFresh(s: State)
    requires PrepsOk(s)
    ensures s.serial + 1 !in s.preps
  {
  }

  lemma PrepareCounts(s: State, valid: bool)
    requires Inv(s) && Counted(s)
    ensures Counted(StartPrepare(s, valid))
  {
    if s.inFlight < 2 {
      StartMoves(s, valid);
      NextIsFresh(s);
      Started(s.preps, s.serial + 1, Loading);
    }
  }

  lemma ThrowCounts(s: State, t: Token)
    requires Counted(s) && t in s.preps && !s.preps[t].Over?
    ensures Counted(Throw(s, t))
  {
    Ended(s.preps, t);
  }

  lemma JobStartCounts(s: State)
    requires Counted(s)
    ensures Counted(StartJob(s))
  {
    if s.queue != [] && s.queue[0] in s.preps && s.preps[s.queue[0]].Queued? {
      Moved(s.preps, s.queue[0], Rejected);
      Moved(s.preps, s.queue[0], Painting(s.preps[s.queue[0]].geometry));
    }
  }

  lemma ResumeCounts(s: State, t: Token)
    requires Counted(s)
    ensures Counted(ResumePrepare(s, t))
  {
    if t in s.preps && (s.preps[t].Ready? || s.preps[t].Rejected?) {
      Ended(s.preps, t);
      ThrowCounts(s, t);
    }
  }

  lemma LoadingCounts(s: State, event: Event)
    requires Counted(s) && (event.Resource? || event.Layout?)
    ensures Counted(Exec(s, event))
  {
    var t := event.token;
    if t in s.preps && s.preps[t].Loading? {
      ThrowCounts(s, t);
      if event.Layout? { Moved(s.preps, t, Queued(event.geometry)); }
    }
  }

  lemma ExecCounts(s: State, event: Event)
    requires Inv(s) && Counted(s)
    ensures Counted(Exec(s, event))
  {
    match event {
      case Prepare(valid) => PrepareCounts(s, valid);
      case Resource(_, _) => LoadingCounts(s, event);
      case Layout(_, _, _) => LoadingCounts(s, event);
      case JobStart => JobStartCounts(s);
      case Resume(t) => ResumeCounts(s, t);
      case Commit(t, fault, redrawFails) => CommitKeepsPreps(s, t, fault, redrawFails);
      case Discard(t) => DiscardingKeepsPreps(s, t);
      case Reset => DiscardingKeepsPreps(s, 0);
      case Free => DiscardingKeepsPreps(s, 0);
      case Abort(_) =>
      case Release =>
      case Leave =>
      case _ => if s.running.Some? { JobCounts(s, event); }
    }
  }

  /** In every interleaving `inFlight` is exactly the number of preparations that hold a slot, and at most
      two do. */
  lemma {:induction false} AtMostTwoInFlight(s: State, events: seq<Event>)
    requires Inv(s) && Counted(s)
    ensures Counted(Run(s, events))
    decreases |events|
  {
    if events != [] {
      ExecKeeps(s, events[0]);
      ExecCounts(s, events[0]);
      AtMostTwoInFlight(Exec(s, events[0]), events[1..]);
    }
  }
}
