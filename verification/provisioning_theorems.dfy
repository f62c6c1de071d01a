/** What holds of a provisioning directory after any sequence of commands, interruptions and changes by
    other parties. */
module ProvisioningTheorems {
  import opened Common
  import opened Provisioning

  function Rank(phase: Phase): nat {
    match phase
    case Planned => 0
    case Applying => 1
    case Complete => 2
  }

  predicate LedgerOk(w: World) {
    w.ledger.Some? ==>
      var l := w.ledger.value;
      && (l.phase == Complete <==> l.observed.Some?)
      && (l.expected.Some? && l.phase == Complete ==> l.observed == l.expected)
      && (l.phase == Planned ==> w.posted == [] && w.journal.None?)
      && (w.posted != [] || w.journal.Some? ==> l.expected.None?)
      && (l.phase == Complete && l.expected.None? && w.journal.None? ==>
            |w.posted| == 1 && w.posted[0].created.Some? && l.observed == Seen(w.posted[0].created))
  }

  predicate Valid(w: World) {
    && LedgerOk(w)
    && |w.posted| <= 1
    && (w.ledger.None? ==> w.posted == [] && w.journal.None? && w.receipts == map[])
    && (w.posted != [] ==> w.posted[0].operation == w.ledger.value.operation)
    && (w.journal.Some? ==>
          var j, l := w.journal.value, w.ledger.value;
          && j.operation == l.operation && j.binding == l.binding && Timely(j.auditTime, j.started, j.identity)
          && (l.phase == Applying ==> j.started == w.ledgerTime)
          && (l.phase == Complete ==> l.observed == Some(j.identity)))
    && (w.checkpoint.Some? ==>
          && w.journal.Some? && w.checkpoint.value.phase == Applying && w.checkpoint.value.observed.None?
          && w.ledger == Some(w.checkpoint.value.(phase := w.ledger.value.phase, observed := w.ledger.value.observed)))
    && (forall p :: p in w.receipts ==>
          && w.ledger.value.phase == Complete && w.ledger.value.expected.None? && w.ledger.value.observed.Some?
          && w.receipts[p] == ReceiptOf(w.ledger.value))
  }

  /** What no command undoes: the operation and its plan, the phase, the requests made, the journal, the
      checkpoint and the receipts; and a completed ledger never changes. */
  predicate Moves(w: World, w': World) {
    && (w.ledger.Some? ==>
          && w'.ledger.Some?
          && w'.ledger.value == w.ledger.value.(phase := w'.ledger.value.phase, observed := w'.ledger.value.observed)
          && Rank(w.ledger.value.phase) <= Rank(w'.ledger.value.phase)
          && (w.ledger.value.phase == Complete ==> w'.ledger == w.ledger))
    && w.posted <= w'.posted
    && (w.journal.Some? ==> w'.journal == w.journal)
    && (w.checkpoint.Some? ==> w'.checkpoint == w.checkpoint)
    && (forall p :: p in w.receipts ==> p in w'.receipts && w'.receipts[p] == w.receipts[p])
  }

  lemma PlanKeeps(w: World, w': World, binding: Binding)
    requires Valid(w) && PlanReaches(w, w', binding)
    ensures Valid(w') && Moves(w, w')
  {
  }

  lemma ApplyKeeps(w: World, w': World, binding: Binding, operation: Operation)
    requires Valid(w) && ApplyReaches(w, w', binding, operation)
    ensures Valid(w') && Moves(w, w')
  {
  }

  lemma RecoverKeeps(w: World, w': World, binding: Binding, operation: Operation)
    requires Valid(w) && RecoverReaches(w, w', binding, operation)
    ensures Valid(w') && Moves(w, w')
  {
  }

  lemma OthersKeep(w: World, w': World, binding: Binding, operation: Operation, path: Path)
    requires Valid(w)
    requires ReconcileReaches(w, w', binding, operation) || CompletionReaches(w, w', binding, operation, path) || Meddled(w, w')
    ensures Valid(w') && Moves(w, w')
  {
  }

  lemma StepKeeps(w: World, w': World)
    requires Valid(w) && Step(w, w')
    ensures Valid(w') && Moves(w, w')
  {
    var binding, operation, path :| Command(w, w', binding, operation, path);
    if PlanReaches(w, w', binding) {
      PlanKeeps(w, w', binding);
    } else if ApplyReaches(w, w', binding, operation) {
      ApplyKeeps(w, w', binding, operation);
    } else if RecoverReaches(w, w', binding, operation) {
      RecoverKeeps(w, w', binding, operation);
    } else {
      OthersKeep(w, w', binding, operation, path);
    }
  }

  /** A command under another binding, or for another operation, changes nothing in the directory, and neither does a plan
      once there is an operation. */
  lemma OthersAreRefused(w: World, w': World, binding: Binding, operation: Operation, path: Path)
    requires w.ledger.Some?
    ensures PlanReaches(w, w', binding) ==> Local(w') == Local(w)
    ensures (w.ledger.value.binding != binding || w.ledger.value.operation != operation) &&
            (|| ApplyReaches(w, w', binding, operation) || ReconcileReaches(w, w', binding, operation)
             || CompletionReaches(w, w', binding, operation, path) || RecoverReaches(w, w', binding, operation)) ==>
              Local(w') == Local(w)
  {
  }

  // ---- runs ----

  ghost predicate StepAt(run: seq<World>, i: nat)
    requires i + 1 < |run|
  {
    Step(run[i], run[i + 1])
  }

  ghost predicate IsRun(run: seq<World>) {
    && run != [] && Initial(run[0])
    && forall i :: 0 <= i && i + 1 < |run| ==> StepAt(run, i)
  }

  lemma {:induction false} RunIsValid(run: seq<World>, j: nat)
    requires IsRun(run) && j < |run|
    ensures Valid(run[j])
  {
    if j > 0 {
      RunIsValid(run, j - 1);
      assert StepAt(run, j - 1);
      StepKeeps(run[j - 1], run[j]);
    }
  }

  lemma MovesTransitive(u: World, v: World, w: World)
    requires Moves(u, v) && Moves(v, w)
    ensures Moves(u, w)
  {
  }

  lemma {:induction false} RunMoves(run: seq<World>, i: nat, j: nat)
    requires IsRun(run) && i <= j < |run|
    ensures Moves(run[i], run[j])
    decreases j
  {
    if i < j {
      RunMoves(run, i, j - 1);
      RunIsValid(run, j - 1);
      assert StepAt(run, j - 1);
      StepKeeps(run[j - 1], run[j]);
      MovesTransitive(run[i], run[j - 1], run[j]);
    }
  }

  /** At most one bucket-creation request is made over the life of a state directory. If the operation
      completes without recovery, the identity on record is that of the generation this request created,
      whatever other parties did to the name meanwhile. */
  lemma OneCreationRequest(run: seq<World>, j: nat)
    requires IsRun(run) && j < |run|
    ensures |run[j].posted| <= 1
    ensures var w := run[j];
            w.ledger.Some? && w.ledger.value.phase == Complete && w.ledger.value.expected.None? && w.journal.None? ==>
              && |w.posted| == 1 && w.posted[0].operation == w.ledger.value.operation
              && w.posted[0].created.Some? && w.ledger.value.observed == Some(w.posted[0].created.value.created)
  {
    RunIsValid(run, j);
  }

  /** All receipts ever written are equal, at any two moments and any two paths. */
  lemma ReceiptsAgree(run: seq<World>, i: nat, j: nat, p: Path, q: Path)
    requires IsRun(run) && i <= j < |run| && p in run[i].receipts && q in run[j].receipts
    ensures run[i].receipts[p] == run[j].receipts[q] && p in run[j].receipts
  {
    RunIsValid(run, i);
    RunIsValid(run, j);
    RunMoves(run, i, j);
  }

  /** A receipt names the operation of its directory, and the generation created by its one request; or, after a
      recovery, the identity in the journal. */
  lemma ReceiptIdentity(run: seq<World>, j: nat, p: Path)
    requires IsRun(run) && j < |run| && p in run[j].receipts
    ensures var w, receipt := run[j], run[j].receipts[p];
            && w.ledger.Some? && receipt.operation == w.ledger.value.operation && receipt.binding == w.ledger.value.binding
            && (w.journal.None? ==>
                  && |w.posted| == 1 && w.posted[0].operation == receipt.operation
                  && w.posted[0].created.Some? && receipt.identity == w.posted[0].created.value.created)
            && (w.journal.Some? ==> receipt.identity == w.journal.value.identity)
  {
    RunIsValid(run, j);
  }

  // ---- recovery ----

  /** A recovery that completes an operation, or could, has the evidence twice. */
  lemma RecoveryNeedsBoth(w: World, binding: Binding, operation: Operation, audit: Audit,
                          first: AuditRow, second: AuditRow, between: Meddling)
    requires CanRecover(w, binding, operation, audit, first, second, between)
    ensures w.bucket.Some? && Proves(first, w.bucket.value.created, audit, StartedAt(w))
    ensures w.ledger.value.phase != Complete ==> Proved(w, audit, first, second, between)
  {
  }

  /** A directory somewhere between an interrupted creation and its recovery by one journal. */
  predicate Recovering(w0: World, j: Journal, w: World)
    requires w0.ledger.Some?
  {
    || Local(w) == Local(w0)
    || Local(w) == Local(Journaled(w0, j))
    || Local(w) == Local(Checkpointed(w0, j))
    || Local(w) == Local(Recovered(w0, j, w.ledgerTime))
  }

  /** The record and the bucket that the journal is about. */
  predicate ShowsAgain(row: AuditRow, bucket: Option<Generation>, j: Journal) {
    bucket.Some? && bucket.value.created == j.identity && Proves(row, j.identity, Audit(j.auditId, j.auditTime), j.started)
  }

  lemma RecoveryStep(w0: World, j: Journal, w: World, w': World, binding: Binding, operation: Operation)
    requires Recoverable(w0, binding, operation) && w0.journal.None? && w0.checkpoint.None?
    requires Recovering(w0, j, w) && RecoverReaches(w, w', binding, operation)
    requires w'.journal.Some? ==> w'.journal == Some(j)
    ensures Recovering(w0, j, w')
    ensures Local(w) == Local(Recovered(w0, j, w.ledgerTime)) ==> Local(w') == Local(w)
  {
  }

  /** At every stage, with j's evidence still there, a rerun can complete, and completing it leaves what an
      undisturbed recovery leaves. */
  lemma RerunCompletes(w0: World, j: Journal, w: World, binding: Binding, operation: Operation,
                       first: AuditRow, second: AuditRow, between: Meddling, time: Instant)
    requires Recoverable(w0, binding, operation) && w0.journal.None? && w0.checkpoint.None?
    requires j.operation == operation && j.binding == binding && j.started == w0.ledgerTime && Recovering(w0, j, w)
    requires ShowsAgain(first, w.bucket, j) && ShowsAgain(second, Interfered(w, between).bucket, j)
    ensures CanRecover(w, binding, operation, Audit(j.auditId, j.auditTime), first, second, between)
    ensures j == JournalOf(w, Audit(j.auditId, j.auditTime), j.identity)
    ensures w.ledger.value.phase == Applying ==> Local(Recovered(w, j, time)) == Local(Recovered(w0, j, time))
  {
    assert Local(w).ledger == w.ledger && Local(w).journal == w.journal && Local(w).checkpoint == w.checkpoint;
    assert Local(w).ledgerTime == w.ledgerTime;
  }

  /** The same of every directory that any run can reach with a journal on disk. */
  lemma ReachedCanRecover(run: seq<World>, k: nat, first: AuditRow, second: AuditRow, between: Meddling)
    requires IsRun(run) && k < |run| && run[k].journal.Some?
    requires var w, j := run[k], run[k].journal.value;
             ShowsAgain(first, w.bucket, j) && ShowsAgain(second, Interfered(w, between).bucket, j)
    ensures var w, j := run[k], run[k].journal.value;
            CanRecover(w, j.binding, j.operation, Audit(j.auditId, j.auditTime), first, second, between)
  {
    RunIsValid(run, k);
  }

  ghost predicate RecoveryRun(run: seq<World>, binding: Binding, operation: Operation) {
    && run != [] && Recoverable(run[0], binding, operation) && run[0].journal.None? && run[0].checkpoint.None?
    && forall i :: 0 <= i < |run| - 1 ==> RecoverReaches(run[i], run[i + 1], binding, operation)
  }

  lemma {:induction false} JournalIsKept(run: seq<World>, binding: Binding, operation: Operation, i: nat, k: nat)
    requires RecoveryRun(run, binding, operation) && i <= k < |run| && run[i].journal.Some?
    ensures run[k].journal == run[i].journal
    decreases k
  {
    if i < k {
      JournalIsKept(run, binding, operation, i, k - 1);
      assert Local(run[k]).journal == run[k].journal && Local(run[k - 1]).journal == run[k - 1].journal;
    }
  }

  /** Recovery is crash-idempotent. However often it is interrupted and rerun, the directory is always at
      one of the four stages of the one journal first written; so any rerun that completes reaches the
      same journal, checkpoint and ledger, and nothing changes after that. */
  lemma {:induction false} RecoveryIsIdempotent(run: seq<World>, binding: Binding, operation: Operation, j: Journal, k: nat)
    requires RecoveryRun(run, binding, operation) && k < |run|
    requires var last := run[|run| - 1]; last.journal.Some? ==> last.journal == Some(j)
    ensures Recovering(run[0], j, run[k])
    ensures k > 0 && Local(run[k - 1]) == Local(Recovered(run[0], j, run[k - 1].ledgerTime)) ==> Local(run[k]) == Local(run[k - 1])
    decreases k
  {
    if k > 0 {
      RecoveryIsIdempotent(run, binding, operation, j, k - 1);
      if run[k].journal.Some? { JournalIsKept(run, binding, operation, k, |run| - 1); }
      RecoveryStep(run[0], j, run[k - 1], run[k], binding, operation);
    }
  }
}
