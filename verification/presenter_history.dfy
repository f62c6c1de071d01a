/** What the past events say about the transactions and about the picture on the canvas. */
module PresenterHistory {
  import opened Common
  import opened Presenter
  import opened PresenterTheorems

  // ---- one open transaction ----

  predicate NoneOpen(s: State) {
    forall t :: t in s.transactions ==> s.transactions[t].settled
  }

  /** An open transaction is the pending one and belongs to the newest preparation, so there is at most one. */
  predicate OneOpen(s: State) {
    forall t :: t in s.transactions && !s.transactions[t].settled ==> s.pendingTransaction == Some(t) && t == s.serial
  }

  predicate SameTransactions(s: State, s': State) {
    s'.transactions == s.transactions && s'.pendingTransaction == s.pendingTransaction && s'.serial == s.serial
  }

  lemma DiscardCloses(s: State, t: Token)
    requires OneOpen(s) && Open(s, t)
    ensures NoneOpen(DiscardTransaction(s, t)) && NoneOpen(Settle(s, t)) && NoneOpen(DiscardIfCurrent(Settle(s, t), t))
  {
  }

  lemma PendingCloses(s: State)
    requires OneOpen(s) && PendingIsOpen(s)
    ensures NoneOpen(DiscardPending(s))
  {
    if s.pendingTransaction.Some? { DiscardCloses(s, s.pendingTransaction.value); }
  }

  lemma SameStaysOpen(s: State, s': State)
    requires OneOpen(s) && SameTransactions(s, s')
    ensures OneOpen(s')
  {
  }

  lemma ThrowLeavesOpen(s: State, t: Token)
    requires OneOpen(s)
    ensures OneOpen(Throw(s, t))
  {
    SameStaysOpen(s, Throw(s, t));
  }

  lemma JobLeavesOpen(s: State, event: Event)
    requires OneOpen(s)
    ensures OneOpen(StartJob(s))
    ensures s.running.Some? && Running(s) in s.preps ==> OneOpen(RunJob(s, event))
  {
    SameStaysOpen(s, StartJob(s));
    if s.running.Some? && Running(s) in s.preps { SameStaysOpen(s, RunJob(s, event)); }
  }

  lemma LoadingLeavesOpen(s: State, event: Event)
    requires OneOpen(s) && (event.Resource? || event.Layout?)
    ensures OneOpen(Exec(s, event))
  {
    SameStaysOpen(s, Exec(s, event));
  }

  lemma QuietLeavesOpen(s: State, event: Event)
    requires OneOpen(s) && (event.Abort? || event.Release? || event.Leave?)
    ensures OneOpen(Exec(s, event))
  {
    SameStaysOpen(s, Exec(s, event));
  }

  predicate PendingIsOpen(s: State) {
    s.pendingTransaction.Some? ==> Open(s, s.pendingTransaction.value)
  }

  lemma InnerCloses(s: State, valid: bool)
    requires OneOpen(s) && PendingIsOpen(s)
    ensures OneOpen(Inner(s, valid))
  {
    if !s.freed { PendingCloses(s); }
  }

  lemma PrepareCloses(s: State, valid: bool)
    requires OneOpen(s) && PendingIsOpen(s)
    ensures OneOpen(StartPrepare(s, valid))
  {
    if s.inFlight < 2 {
      var entered := Entered(s);
      InnerCloses(entered, valid);
      SameStaysOpen(Inner(entered, valid), StartPrepare(s, valid));
    }
  }

  lemma ResumeOpensOne(s: State, t: Token)
    requires TransactionsOk(s) && OneOpen(s)
    ensures OneOpen(ResumePrepare(s, t))
  {
    ThrowLeavesOpen(s, t);
    if t in s.preps && s.preps[t].Ready? && Live(s, t) {
      forall u | u in s.transactions && !s.transactions[u].settled ensures u == t {
        assert TransactionOk(s, u);
      }
    }
  }

  lemma CommitCloses(s: State, t: Token, fault: Fault, redrawFails: bool)
    requires OneOpen(s)
    ensures OneOpen(CommitTransaction(s, t, fault, redrawFails))
  {
    if Open(s, t) {
      DiscardCloses(s, t);
      DiscardCloses(RolledBack(s, redrawFails), t);
    }
  }

  lemma RestartCloses(s: State)
    requires OneOpen(s) && PendingIsOpen(s)
    ensures OneOpen(ResetRenderer(s)) && OneOpen(FreeRenderer(s))
  {
    PendingCloses(s);
  }

  lemma DiscardLeavesOne(s: State, t: Token)
    requires OneOpen(s)
    ensures OneOpen(DiscardTransaction(s, t))
  {
    if Open(s, t) { DiscardCloses(s, t); }
  }

  lemma ExecOneOpen(s: State, event: Event)
    requires Inv(s) && OneOpen(s)
    ensures OneOpen(Exec(s, event))
  {
    match event {
      case Prepare(valid) => PrepareCloses(s, valid);
      case Resource(_, _) => LoadingLeavesOpen(s, event);
      case Layout(_, _, _) => LoadingLeavesOpen(s, event);
      case Resume(t) => ResumeOpensOne(s, t);
      case Commit(t, fault, redrawFails) => CommitCloses(s, t, fault, redrawFails);
      case Discard(t) => DiscardLeavesOne(s, t);
      case Reset => RestartCloses(s);
      case Free => RestartCloses(s);
      case Abort(_) => QuietLeavesOpen(s, event);
      case Release => QuietLeavesOpen(s, event);
      case Leave => QuietLeavesOpen(s, event);
      case _ => JobLeavesOpen(s, event);
    }
  }

  lemma {:induction false} RunOneOpen(s: State, events: seq<Event>)
    requires Inv(s) && OneOpen(s)
    ensures OneOpen(Run(s, events))
    decreases |events|
  {
    if events != [] {
      ExecKeeps(s, events[0]);
      ExecOneOpen(s, events[0]);
      RunOneOpen(Exec(s, events[0]), events[1..]);
    }
  }

  /** In every interleaving at most one transaction is open; it is the pending one and the newest. */
  lemma OneOpenTransaction(events: seq<Event>, t: Token, u: Token)
    requires Open(Run(INITIAL, events), t) && Open(Run(INITIAL, events), u)
    ensures var s := Run(INITIAL, events); t == u == s.serial && s.pendingTransaction == Some(t)
  {
    RunOneOpen(INITIAL, events);
  }

  // ---- the picture ----

  /** This commit installs its preparation. */
  predicate Installs(s: State, event: Event) {
    event.Commit? && Open(s, event.token) && Live(s, event.token) && event.fault == NoFault
  }

  /** This commit fails after it has cleared the canvas, and cannot redraw what was on it. */
  predicate LosesPicture(s: State, event: Event) {
    && event.Commit? && Open(s, event.token) && Live(s, event.token)
    && event.fault in {DrawFault, EngineFault} && event.redrawFails && s.canvas.picture != Blank
  }

  predicate InstalledAt(events: seq<Event>, i: nat)
    requires i < |events|
  {
    Installs(Run(INITIAL, events[..i]), events[i])
  }

  predicate LostAt(events: seq<Event>, i: nat)
    requires i < |events|
  {
    LosesPicture(Run(INITIAL, events[..i]), events[i])
  }

  /** Some commit lost the picture, and none has installed another since. */
  predicate LostSince(events: seq<Event>) {
    exists i :: 0 <= i < |events| && LostAt(events, i) && forall j :: i < j < |events| ==> !InstalledAt(events, j)
  }

  /** The record's own frame is on the canvas. */
  predicate Shows(s: State) {
    s.committed.Some? && s.canvas.picture == Frame(s.committed.value.token)
  }

  lemma CommitPicture(s: State, event: Event)
    requires Inv(s) && event.Commit?
    ensures var s' := CommitTransaction(s, event.token, event.fault, event.redrawFails);
            if Installs(s, event) then Shows(s')
            else s'.committed == s.committed
                 && s'.canvas.picture == if LosesPicture(s, event) then Blank else s.canvas.picture
  {
    if Open(s, event.token) { assert TransactionOk(s, event.token); }
    if !Installs(s, event) { FailedCommit(s, event.token, event.fault, event.redrawFails); }
  }

  lemma OthersKeepPicture(s: State, event: Event)
    requires !event.Commit?
    ensures var s' := Exec(s, event);
            s'.committed.None? || (s'.committed == s.committed && s'.canvas == s.canvas)
  {
    match event {
      case Prepare(valid) => PrepareKeepsScreen(s, valid);
      case Resource(t, _) => ThrowKeepsScreen(s, t);
      case Layout(t, _, _) => ThrowKeepsScreen(s, t);
      case Resume(t) => ThrowKeepsScreen(s, t);
      case _ =>
    }
  }

  predicate SameScreen(s: State, s': State) {
    s'.committed == s.committed && s'.canvas == s.canvas
  }

  lemma PrepareKeepsScreen(s: State, valid: bool)
    ensures SameScreen(s, StartPrepare(s, valid))
  {
  }

  lemma ThrowKeepsScreen(s: State, t: Token)
    ensures SameScreen(s, Throw(s, t))
  {
  }

  /** One event's effect on what is shown. */
  lemma PictureStep(s: State, event: Event)
    requires Inv(s)
    ensures var s' := Exec(s, event);
            s'.committed.Some? ==>
              if Installs(s, event) then Shows(s')
              else s.committed.Some? && (Shows(s') <==> Shows(s) && !LosesPicture(s, event))
  {
    if event.Commit? { CommitPicture(s, event); } else { OthersKeepPicture(s, event); }
  }

  /** The past of an extended run is the past of the run. */
  lemma PastStays(past: seq<Event>, last: Event, i: nat)
    requires i < |past|
    ensures LostAt(past + [last], i) == LostAt(past, i) && InstalledAt(past + [last], i) == InstalledAt(past, i)
  {
    assert (past + [last])[..i] == past[..i];
  }

  lemma LostSinceStep(past: seq<Event>, last: Event)
    ensures var s := Run(INITIAL, past);
            LostSince(past + [last]) <==> !Installs(s, last) && (LostSince(past) || LosesPicture(s, last))
  {
    var events, n := past + [last], |past|;
    assert events[..n] == past;
    forall i | 0 <= i < n ensures LostAt(events, i) == LostAt(past, i) && InstalledAt(events, i) == InstalledAt(past, i) {
      PastStays(past, last, i);
    }
    assert InstalledAt(events, n) == Installs(Run(INITIAL, past), last);
    assert LostAt(events, n) == LosesPicture(Run(INITIAL, past), last);
  }

  lemma {:induction false} ShownIff(events: seq<Event>)
    ensures var s := Run(INITIAL, events); s.committed.Some? ==> (Shows(s) <==> !LostSince(events))
    decreases |events|
  {
    if events != [] {
      var past, last := events[..|events| - 1], events[|events| - 1];
      assert events == past + [last];
      ShownIff(past);
      RunKeeps(INITIAL, past);
      RunAppends(INITIAL, past, [last]);
      RunOne(Run(INITIAL, past), last);
      PictureStep(Run(INITIAL, past), last);
      LostSinceStep(past, last);
    }
  }

  /** In every interleaving, whenever there is a committed record the engine's committed scene and the canvas
      geometry are that record's, and the canvas shows that record's frame if and only if no commit has lost
      the picture since the last one that succeeded. */
  lemma CommittedPartsAgree(events: seq<Event>)
    ensures var s := Run(INITIAL, events);
            s.committed.Some? ==>
              && s.engine.committed == Some(s.committed.value.token)
              && s.canvas.geometry == s.committed.value.geometry
              && (s.canvas.picture == Frame(s.committed.value.token) <==> !LostSince(events))
  {
    RunKeeps(INITIAL, events);
    ShownIff(events);
  }
}
