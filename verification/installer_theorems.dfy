/** What holds of a state directory after any sequence of installer commands and interruptions. */
module InstallerTheorems {
  import opened Common
  import opened Installer

  function Rank(phase: Phase): nat {
    match phase
    case Planning => 0
    case Planned => 1
    case Reviewed => 2
    case Applying => 3
    case Applied => 4
    case PagesUploading => 5
    case Published => 6
    case Complete => 7
  }

  predicate NotSpawned(w: World, operation: Operation) {
    forall i :: 0 <= i < |w.spawned| ==> w.spawned[i].operation != operation
  }

  predicate LedgerOk(w: World) {
    w.ledger.Some? ==>
      var l := w.ledger.value;
      && l.operation < w.nextOperation
      && l.phase != PagesUploading
      && (l.phase == Planning ==> l.plan.None?)
      && (l.plan.None? || l.account.None? ==> l.phase == Planning || (l.phase == Complete && l.abandoned))
      && (l.plan.Some? ==> l.operation in w.planned && w.planned[l.operation] == (l.plan.value, l.binding))
      && (Rank(l.phase) >= 2 && !l.abandoned ==> l.operation in w.reviewed && w.reviewed[l.operation] == (l.plan, l.binding))
      && (l.operation in w.reviewed ==> w.reviewed[l.operation] == (l.plan, l.binding))
      && (Rank(l.phase) <= 2 ==> NotSpawned(w, l.operation) && !l.abandoned)
      && (l.abandoned ==> l.phase == Complete)
      && (l.receipt ==> l.phase == Planning || l.abandoned)
      && (l.operation in w.completed ==> l.phase == Complete && w.completed[l.operation] == l)
  }

  predicate CompletedOk(op: Operation, l: Ledger) {
    l.operation == op && l.phase == Complete && (l.receipt ==> l.abandoned)
  }

  predicate FilesOk(w: World) {
    && (forall op :: op in w.completed ==> op < w.nextOperation && CompletedOk(op, w.completed[op]))
    && (forall op :: op in w.abandoned ==> op < w.nextOperation && w.abandoned[op].operation == op)
    && (forall op :: op in w.planned ==> op < w.nextOperation)
    && (forall op :: op in w.reviewed ==> op < w.nextOperation)
  }

  /** An operation's record: the current ledger past its fence, or its completed file. */
  predicate Recorded(w: World, s: Spawn) {
    || (w.ledger.Some? && RecordOf(w.ledger.value, s) && Rank(w.ledger.value.phase) >= 3)
    || (s.operation in w.completed && RecordOf(w.completed[s.operation], s))
  }

  predicate RecordOf(l: Ledger, s: Spawn) {
    l.operation == s.operation && l.plan == Some(s.plan) && l.binding == s.binding && !l.receipt
  }

  /** The file applied is the one planned and the one reviewed, all three under the binding of the applying
      invocation, and it is on record. */
  predicate SpawnOk(w: World, s: Spawn) {
    && s.operation < w.nextOperation
    && s.operation in w.planned && w.planned[s.operation] == (s.plan, s.binding)
    && s.operation in w.reviewed && w.reviewed[s.operation] == (Some(s.plan), s.binding)
    && Recorded(w, s)
  }

  predicate SpawnsOk(w: World) {
    && (forall i :: 0 <= i < |w.spawned| ==> SpawnOk(w, w.spawned[i]))
    && (forall i, j :: 0 <= i < j < |w.spawned| ==> w.spawned[i].operation != w.spawned[j].operation)
  }

  predicate Valid(w: World) {
    LedgerOk(w) && FilesOk(w) && SpawnsOk(w)
  }

  predicate LedgerMoves(l: Ledger, l': Ledger, nextOperation: Operation) {
    || l'.operation >= nextOperation
    || (l'.operation == l.operation && l'.binding == l.binding && Rank(l.phase) <= Rank(l'.phase))
  }

  /** What no command undoes. */
  predicate Moves(w: World, w': World) {
    && w.nextOperation <= w'.nextOperation
    && w.spawned <= w'.spawned
    && (forall op :: op in w.reviewed ==> op in w'.reviewed && w'.reviewed[op] == w.reviewed[op])
    && (forall op :: op in w.planned ==> op in w'.planned && w'.planned[op] == w.planned[op])
    && (forall op :: op in w.completed ==> op in w'.completed && w'.completed[op] == w.completed[op])
    && (forall op :: op in w.abandoned ==> op in w'.abandoned)
    && (w.ledger.Some? ==> w'.ledger.Some? && LedgerMoves(w.ledger.value, w'.ledger.value, w.nextOperation))
  }

  // ---- every command keeps the invariant ----

  lemma FiledKeeps(w: World)
    requires Valid(w)
    ensures Valid(Filed(w)) && Moves(w, Filed(w))
  {
  }

  lemma PlanningKeeps(w: World, binding: Binding, receipt: bool, account: Option<Account>, planFile: Option<Digest>)
    requires Valid(w) && CanPlan(w, binding)
    ensures var w' := PlanningFrom(w, binding, receipt, account, planFile); Valid(w') && Moves(w, w')
  {
    FiledKeeps(w);
    var w' := PlanningFrom(w, binding, receipt, account, planFile);
    forall i | 0 <= i < |w.spawned| ensures SpawnOk(w', w.spawned[i]) {
      assert SpawnOk(w, w.spawned[i]);
    }
  }

  lemma PlanSavedKeeps(w: World, binding: Binding, digest: Digest)
    requires Valid(w) && w.ledger.Some? && w.ledger.value.phase == Planning && w.ledger.value.account.Some?
    requires w.ledger.value.operation !in w.planned && !w.ledger.value.receipt && w.ledger.value.binding == binding
    requires w.ledger.value.operation !in w.reviewed
    ensures Valid(PlanSaved(w, binding, digest)) && Moves(w, PlanSaved(w, binding, digest))
  {
  }

  lemma MovesTransitive(u: World, v: World, w: World)
    requires Moves(u, v) && Moves(v, w)
    ensures Moves(u, w)
  {
  }

  lemma PlanDoneKeeps(w: World, w': World, binding: Binding)
    requires Valid(w) && PlanDone(w, w', binding)
    ensures Valid(w') && Moves(w, w')
  {
    var mid := PlanningFrom(w, binding, false, w'.ledger.value.account, w'.planFile);
    PlanningKeeps(w, binding, false, w'.ledger.value.account, w'.planFile);
    PlanSavedKeeps(mid, binding, w'.planFile.value);
    MovesTransitive(w, mid, w');
  }

  lemma PlanKeeps(w: World, w': World, binding: Binding)
    requires Valid(w) && PlanReaches(w, w', binding)
    ensures Valid(w') && Moves(w, w')
  {
    if PlanStarted(w, w', binding) {
      PlanningKeeps(w, binding, w'.ledger.value.receipt, w'.ledger.value.account, w'.planFile);
    } else if PlanDone(w, w', binding) {
      PlanDoneKeeps(w, w', binding);
    } else {
      FiledKeeps(w);
    }
  }

  lemma ReviewKeeps(w: World, w': World, binding: Binding)
    requires Valid(w) && ReviewReaches(w, w', binding)
    ensures Valid(w') && Moves(w, w')
  {
  }

  /** Advancing an operation that is past its fence. */
  lemma AdvanceKeeps(w: World, phase: Phase)
    requires Valid(w) && w.ledger.Some? && !w.ledger.value.abandoned && phase != PagesUploading
    requires 2 <= Rank(w.ledger.value.phase) < Rank(phase)
    ensures Valid(SavePhase(w, phase)) && Moves(w, SavePhase(w, phase))
  {
  }

  lemma SpawnKeeps(w: World, binding: Binding)
    requires Valid(w) && w.ledger.Some? && w.ledger.value.phase == Applying && NotSpawned(w, w.ledger.value.operation)
    requires w.planFile.Some? && w.planFile == w.ledger.value.plan && w.ledger.value.binding == binding
    ensures Valid(Spawned(w, binding)) && Moves(w, Spawned(w, binding))
  {
  }

  lemma FinishKeeps(w: World, w': World)
    requires Valid(w) && w.ledger.Some? && !w.ledger.value.abandoned && w.ledger.value.phase in {Applied, Published}
    requires FinishReaches(w, w')
    ensures Valid(w') && Moves(w, w')
  {
    AdvanceKeeps(w, Complete);
    if w.ledger.value.phase == Applied { AdvanceKeeps(w, Published); }
  }

  lemma ApplyKeeps(w: World, w': World, binding: Binding, operation: Operation)
    requires Valid(w) && ApplyReaches(w, w', binding, operation)
    ensures Valid(w') && Moves(w, w')
  {
    if w' == w {
    } else if w.ledger.value.phase != Reviewed {
      FinishKeeps(w, w');
    } else {
      var fenced := SavePhase(w, Applying);
      AdvanceKeeps(w, Applying);
      SpawnKeeps(fenced, binding);
      var applied := SavePhase(Spawned(fenced, binding), Applied);
      AdvanceKeeps(Spawned(fenced, binding), Applied);
      MovesTransitive(w, fenced, Spawned(fenced, binding));
      if w' != fenced && w' != Spawned(fenced, binding) {
        FinishKeeps(applied, w');
        MovesTransitive(w, Spawned(fenced, binding), applied);
        MovesTransitive(w, applied, w');
      }
    }
  }

  lemma AbandonFiledKeeps(w: World)
    requires Valid(w) && w.ledger.Some?
    ensures Valid(AbandonFiled(w)) && Moves(w, AbandonFiled(w))
  {
  }

  lemma AbandonedKeeps(w: World)
    requires Valid(w) && w.ledger.Some? && Unfinished(w.ledger.value.phase)
    ensures Valid(Abandoned(w)) && Moves(w, Abandoned(w))
  {
    var w' := Abandoned(w);
    forall i | 0 <= i < |w.spawned| ensures SpawnOk(w', w.spawned[i]) {
      assert SpawnOk(w, w.spawned[i]);
    }
  }

  lemma AbandonKeeps(w: World, w': World, binding: Binding, operation: Operation)
    requires Valid(w) && AbandonReaches(w, w', binding, operation)
    ensures Valid(w') && Moves(w, w')
  {
    if w' != w {
      AbandonFiledKeeps(w);
      AbandonedKeeps(w);
    }
  }

  lemma TamperKeeps(w: World, w': World)
    requires Valid(w) && TamperReaches(w, w')
    ensures Valid(w') && Moves(w, w')
  {
  }

  lemma StepKeeps(w: World, w': World)
    requires Valid(w) && Step(w, w')
    ensures Valid(w') && Moves(w, w')
  {
    var binding, operation :| Command(w, w', binding, operation);
    if PlanReaches(w, w', binding) {
      PlanKeeps(w, w', binding);
    } else if ReviewReaches(w, w', binding) {
      ReviewKeeps(w, w', binding);
    } else if ApplyReaches(w, w', binding, operation) {
      ApplyKeeps(w, w', binding, operation);
    } else if ReconcileReaches(w, w', binding, operation) {
      AdvanceKeeps(w, Applied);
    } else if AbandonReaches(w, w', binding, operation) {
      AbandonKeeps(w, w', binding, operation);
    } else if TamperReaches(w, w') {
      TamperKeeps(w, w');
    }
  }

  // ---- runs ----

  ghost predicate StepAt(run: seq<World>, i: nat)
    requires i + 1 < |run|
  {
    Step(run[i], run[i + 1])
  }

  ghost predicate IsRun(run: seq<World>) {
    && run != [] && Initial(run[0])
    && forall i :: 0 <= i && i + 1 < |run| ==> StepAt(run, i)
  }

  lemma {:induction false} RunIsValid(run: seq<World>, j: nat)
    requires IsRun(run) && j < |run|
    ensures Valid(run[j])
  {
    if j > 0 {
      RunIsValid(run, j - 1);
      assert StepAt(run, j - 1);
      StepKeeps(run[j - 1], run[j]);
    }
  }

  lemma {:induction false} RunMoves(run: seq<World>, i: nat, j: nat)
    requires IsRun(run) && i <= j < |run|
    ensures Moves(run[i], run[j])
    decreases j
  {
    if i < j {
      RunMoves(run, i, j - 1);
      RunIsValid(run, j - 1);
      assert StepAt(run, j - 1);
      StepKeeps(run[j - 1], run[j]);
    }
  }

  /** Over any sequence of commands and interruptions each operation's `tofu apply` is spawned at most
      once, and the plan applied is the one whose digest was saved at planning and checked at review,
      under the same choices and candidate. */
  lemma AppliedAtMostOnce(run: seq<World>, j: nat, a: nat, b: nat)
    requires IsRun(run) && j < |run| && a < b < |run[j].spawned|
    ensures run[j].spawned[a].operation != run[j].spawned[b].operation
    ensures SpawnOk(run[j], run[j].spawned[a]) && SpawnOk(run[j], run[j].spawned[b])
  {
    RunIsValid(run, j);
  }

  /** An operation only advances: once it is past the fence it is never again reviewed or planned, and an
      operation that has been replaced never becomes current again. */
  lemma PhaseNeverReturns(run: seq<World>, i: nat, j: nat)
    requires IsRun(run) && i <= j < |run| && run[i].ledger.Some?
    ensures run[j].ledger.Some?
    ensures var l, l' := run[i].ledger.value, run[j].ledger.value;
            && l.operation <= l'.operation
            && (l.operation == l'.operation ==> Rank(l.phase) <= Rank(l'.phase) && l.binding == l'.binding)
            && (l.operation == l'.operation && l.phase == Applying ==> l'.phase != Reviewed)
  {
    RunIsValid(run, i);
    RunMoves(run, i, j);
  }

  /** Every operation whose apply was spawned stays on record for ever, with the plan it applied. */
  lemma SpawnStaysOnRecord(run: seq<World>, i: nat, j: nat, a: nat)
    requires IsRun(run) && i <= j < |run| && a < |run[i].spawned|
    ensures a < |run[j].spawned| && run[j].spawned[a] == run[i].spawned[a]
    ensures SpawnOk(run[j], run[i].spawned[a])
    ensures SpawnOk(run[i], run[i].spawned[a])
  {
    RunIsValid(run, i);
    RunIsValid(run, j);
    RunMoves(run, i, j);
  }

  /** No operation that carries a receipt is ever planned, let alone applied: its ledger stays in planning
      until it is abandoned. */
  lemma ReceiptIsNeverApplied(run: seq<World>, j: nat, a: nat)
    requires IsRun(run) && j < |run|
    ensures var w := run[j];
            && (w.ledger.Some? && w.ledger.value.receipt ==> w.ledger.value.phase == Planning || w.ledger.value.abandoned)
            && (a < |w.spawned| ==>
                  var op := w.spawned[a].operation;
                  || (w.ledger.Some? && w.ledger.value.operation == op && !w.ledger.value.receipt)
                  || (op in w.completed && !w.completed[op].receipt))
  {
    RunIsValid(run, j);
  }

  // ---- which operations can still be applied ----

  /** A saved ledger can still lead to an apply exactly when it is the current one and is planned or
      reviewed. An `abandoned-` file does not matter. */
  predicate StillApplicable(w: World, operation: Operation) {
    w.ledger.Some? && w.ledger.value.operation == operation && w.ledger.value.phase in {Planned, Reviewed}
  }

  /** What a command can do to the ledger, the plan file and the applies: leave them, start another
      operation, or move the current one, and apply it only from reviewed with the plan file in place. */
  predicate Shape(w: World, w': World) {
    || (w'.spawned == w.spawned && w'.ledger == w.ledger && w'.planFile == w.planFile)
    || (w'.spawned == w.spawned && w'.ledger.Some? && w'.ledger.value.operation == w.nextOperation)
    || (w.ledger.Some? && w'.ledger.Some? && w'.planFile == w.planFile && Advances(w, w'))
  }

  predicate Advances(w: World, w': World)
    requires w.ledger.Some? && w'.ledger.Some?
  {
    var l, l' := w.ledger.value, w'.ledger.value;
    && l'.operation == l.operation && l'.plan == l.plan
    && (l.phase in {Planned, Reviewed} || Rank(l'.phase) >= 3)
    && (|| w'.spawned == w.spawned
        || (&& l.phase == Reviewed && w.planFile == l.plan && |w'.spawned| == |w.spawned| + 1
            && w'.spawned[|w.spawned|].operation == l.operation))
  }

  lemma PlanStartedShape(w: World, w': World, binding: Binding)
    requires PlanStarted(w, w', binding)
    ensures w'.spawned == w.spawned && w'.ledger.Some? && w'.ledger.value.operation == w.nextOperation
  {
  }

  lemma PlanDoneShape(w: World, w': World, binding: Binding)
    requires PlanDone(w, w', binding)
    ensures w'.spawned == w.spawned && w'.ledger.Some? && w'.ledger.value.operation == w.nextOperation
  {
  }

  lemma PlanShape(w: World, w': World, binding: Binding)
    requires PlanReaches(w, w', binding)
    ensures Shape(w, w')
  {
    if PlanStarted(w, w', binding) {
      PlanStartedShape(w, w', binding);
    } else if PlanDone(w, w', binding) {
      PlanDoneShape(w, w', binding);
    }
  }

  lemma FinishShape(w: World, w': World)
    requires w.ledger.Some? && w.ledger.value.phase in {Applied, Published} && FinishReaches(w, w')
    ensures w'.spawned == w.spawned && w'.planFile == w.planFile && w'.ledger.Some?
    ensures var l, l' := w.ledger.value, w'.ledger.value;
            l'.operation == l.operation && l'.plan == l.plan && Rank(l'.phase) >= 3
  {
  }

  lemma ApplyShape(w: World, w': World, binding: Binding, current: Operation)
    requires ApplyReaches(w, w', binding, current)
    ensures Shape(w, w')
  {
    if w' != w {
      if w.ledger.value.phase in {Applied, Published} {
        FinishShape(w, w');
      } else {
        var spawned := Spawned(SavePhase(w, Applying), binding);
        if FinishReaches(SavePhase(spawned, Applied), w') { FinishShape(SavePhase(spawned, Applied), w'); }
      }
    }
  }

  lemma ReviewShape(w: World, w': World, binding: Binding)
    requires ReviewReaches(w, w', binding)
    ensures Shape(w, w')
  {
  }

  lemma AbandonShape(w: World, w': World, binding: Binding, current: Operation)
    requires AbandonReaches(w, w', binding, current)
    ensures Shape(w, w')
  {
  }

  lemma OtherShape(w: World, w': World, binding: Binding, current: Operation)
    requires ReconcileReaches(w, w', binding, current) || AckReaches(w, w', binding, current)
    ensures Shape(w, w')
  {
  }

  lemma CommandShape(w: World, w': World, binding: Binding, current: Operation)
    requires ProperCommand(w, w', binding, current)
    ensures Shape(w, w')
  {
    if PlanReaches(w, w', binding) {
      PlanShape(w, w', binding);
    } else if ApplyReaches(w, w', binding, current) {
      ApplyShape(w, w', binding, current);
    } else if ReviewReaches(w, w', binding) {
      ReviewShape(w, w', binding);
    } else if AbandonReaches(w, w', binding, current) {
      AbandonShape(w, w', binding, current);
    } else {
      OtherShape(w, w', binding, current);
    }
  }

  lemma StepShape(w: World, w': World)
    requires Step(w, w')
    ensures Shape(w, w') || TamperReaches(w, w')
  {
    var binding, current :| Command(w, w', binding, current);
    if ProperCommand(w, w', binding, current) { CommandShape(w, w', binding, current); }
  }

  lemma InapplicableShape(w: World, w': World, operation: Operation)
    requires Shape(w, w') || TamperReaches(w, w')
    requires operation < w.nextOperation && !StillApplicable(w, operation)
    ensures !StillApplicable(w', operation)
    ensures forall a :: |w.spawned| <= a < |w'.spawned| ==> w'.spawned[a].operation != operation
  {
  }

  lemma InapplicableStep(w: World, w': World, operation: Operation)
    requires Step(w, w') && operation < w.nextOperation && !StillApplicable(w, operation)
    ensures !StillApplicable(w', operation)
    ensures forall a :: |w.spawned| <= a < |w'.spawned| ==> w'.spawned[a].operation != operation
  {
    StepShape(w, w');
    InapplicableShape(w, w', operation);
  }

  ghost predicate RunFrom(w: World, run: seq<World>) {
    run != [] && run[0] == w && forall i :: 0 <= i && i + 1 < |run| ==> StepAt(run, i)
  }

  predicate SpawnedSince(w: World, w': World, operation: Operation) {
    exists a :: |w.spawned| <= a < |w'.spawned| && w'.spawned[a].operation == operation
  }

  ghost predicate LeadsToApply(w: World, run: seq<World>, operation: Operation) {
    RunFrom(w, run) && SpawnedSince(w, run[|run| - 1], operation)
  }

  lemma {:induction false} InapplicableRun(w: World, run: seq<World>, j: nat, operation: Operation)
    requires Valid(w) && RunFrom(w, run) && j < |run|
    requires operation < w.nextOperation && !StillApplicable(w, operation)
    ensures Valid(run[j]) && Moves(w, run[j])
    ensures !StillApplicable(run[j], operation) && !SpawnedSince(w, run[j], operation)
    decreases j
  {
    if j > 0 {
      InapplicableRun(w, run, j - 1, operation);
      assert StepAt(run, j - 1);
      InapplicableStep(run[j - 1], run[j], operation);
      assert StepAt(run, j - 1);
      StepKeeps(run[j - 1], run[j]);
      MovesTransitive(w, run[j - 1], run[j]);
    }
  }

  /** From a planned or reviewed operation three commands lead to its apply. */
  lemma ApplicableRun(w: World, operation: Operation) returns (run: seq<World>)
    requires Valid(w) && StillApplicable(w, operation)
    ensures LeadsToApply(w, run, operation)
  {
    var l := w.ledger.value;
    var w1 := w.(planFile := l.plan);
    var w2 := ReviewSaved(w1, l.binding);
    var w3 := Spawned(SavePhase(w2, Applying), l.binding);
    assert Command(w, w1, l.binding, operation);
    assert Command(w1, w2, l.binding, operation);
    assert Command(w2, w3, l.binding, operation);
    assert w3.spawned[|w.spawned|].operation == operation;
    run := [w, w1, w2, w3];
  }

  /** Some sequence of commands, with the plan file put back if it was replaced, applies an operation if and
      only if it is the current one and it is planned or reviewed. Nothing else decides it, in particular no
      `abandoned-` record. */
  lemma ApplicableIff(w: World, operation: Operation)
    requires Valid(w) && operation < w.nextOperation
    ensures StillApplicable(w, operation) <==> exists run :: LeadsToApply(w, run, operation)
  {
    if StillApplicable(w, operation) {
      var run := ApplicableRun(w, operation);
    } else {
      forall run | RunFrom(w, run) ensures !LeadsToApply(w, run, operation) {
        InapplicableRun(w, run, |run| - 1, operation);
      }
    }
  }

  /** As long as nobody touches the plan file, it must also be the planned one. */
  predicate Ready(w: World, operation: Operation) {
    StillApplicable(w, operation) && w.planFile.Some? && w.planFile == w.ledger.value.plan
  }

  ghost predicate ProperStep(w: World, w': World) {
    exists binding, operation :: ProperCommand(w, w', binding, operation)
  }

  ghost predicate ProperStepAt(run: seq<World>, i: nat)
    requires i + 1 < |run|
  {
    ProperStep(run[i], run[i + 1])
  }

  ghost predicate CommandsLeadToApply(w: World, run: seq<World>, operation: Operation) {
    && run != [] && run[0] == w && (forall i :: 0 <= i && i + 1 < |run| ==> ProperStepAt(run, i))
    && SpawnedSince(w, run[|run| - 1], operation)
  }

  lemma ProperShape(w: World, w': World)
    requires ProperStep(w, w')
    ensures Shape(w, w') && Step(w, w')
  {
    var binding, current :| ProperCommand(w, w', binding, current);
    CommandShape(w, w', binding, current);
    assert Command(w, w', binding, current);
  }

  lemma UnreadyShape(w: World, w': World, operation: Operation)
    requires LedgerOk(w) && Shape(w, w') && operation < w.nextOperation && !Ready(w, operation)
    ensures !Ready(w', operation)
    ensures forall a :: |w.spawned| <= a < |w'.spawned| ==> w'.spawned[a].operation != operation
  {
  }

  lemma UnreadyStep(w: World, w': World, operation: Operation)
    requires Valid(w) && ProperStep(w, w') && operation < w.nextOperation && !Ready(w, operation)
    ensures Valid(w') && Moves(w, w') && !Ready(w', operation)
    ensures forall a :: |w.spawned| <= a < |w'.spawned| ==> w'.spawned[a].operation != operation
  {
    ProperShape(w, w');
    UnreadyShape(w, w', operation);
    StepKeeps(w, w');
  }

  lemma {:induction false} UnreadyRun(w: World, run: seq<World>, j: nat, operation: Operation)
    requires Valid(w) && run != [] && run[0] == w && j < |run| && operation < w.nextOperation && !Ready(w, operation)
    requires forall i :: 0 <= i && i + 1 < |run| ==> ProperStepAt(run, i)
    ensures Valid(run[j]) && Moves(w, run[j]) && !Ready(run[j], operation) && !SpawnedSince(w, run[j], operation)
    decreases j
  {
    if j > 0 {
      UnreadyRun(w, run, j - 1, operation);
      assert ProperStepAt(run, j - 1);
      UnreadyStep(run[j - 1], run[j], operation);
      MovesTransitive(w, run[j - 1], run[j]);
    }
  }

  /** From a ready operation a review and an apply lead to its apply. */
  lemma ReadyRun(w: World, operation: Operation) returns (run: seq<World>)
    requires Valid(w) && Ready(w, operation)
    ensures CommandsLeadToApply(w, run, operation)
  {
    var l := w.ledger.value;
    var w1 := ReviewSaved(w, l.binding);
    var w2 := Spawned(SavePhase(w1, Applying), l.binding);
    assert ProperCommand(w, w1, l.binding, operation);
    assert ProperCommand(w1, w2, l.binding, operation);
    assert w2.spawned[|w.spawned|].operation == operation;
    run := [w, w1, w2];
  }

  /** The commands alone apply an operation if and only if it is current, planned or reviewed, and the plan
      file is the one that was planned. */
  lemma ReadyIff(w: World, operation: Operation)
    requires Valid(w) && operation < w.nextOperation
    ensures Ready(w, operation) <==> exists run :: CommandsLeadToApply(w, run, operation)
  {
    if Ready(w, operation) {
      var run := ReadyRun(w, operation);
    } else {
      forall run ensures !CommandsLeadToApply(w, run, operation) {
        if run != [] && run[0] == w && forall i :: 0 <= i && i + 1 < |run| ==> ProperStepAt(run, i) {
          UnreadyRun(w, run, |run| - 1, operation);
        }
      }
    }
  }

  /** An abandon that is interrupted between its two writes leaves an `abandoned-` record of an operation
      that the next `apply` still applies. */
  lemma AbandonedRecordIsNoFence() returns (run: seq<World>)
    ensures IsRun(run) && |run| == 5
    ensures 0 in run[3].abandoned && run[3].spawned == [] && run[4].spawned == [Spawn(0, 7, 1)]
  {
    var w0 := World(None, map[], map[], None, 0, [], map[], map[]);
    var w1 := PlanSaved(PlanningFrom(w0, 1, false, Some(5), Some(7)), 1, 7);
    var w2 := ReviewSaved(w1, 1);
    var w3 := AbandonFiled(w2);
    var w4 := Spawned(SavePhase(w3, Applying), 1);
    assert Command(w0, w1, 1, 0);
    assert Command(w1, w2, 1, 0);
    assert Command(w2, w3, 1, 0);
    assert Command(w3, w4, 1, 0);
    run := [w0, w1, w2, w3, w4];
  }
}
