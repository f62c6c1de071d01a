/** Which commands a state directory accepts, and the only ways in which its ledger can change, phase by phase. */
module InstallerPhases {
  import opened Common
  import opened Installer
  import opened InstallerTheorems

  // ---- which commands are accepted ----

  /** In every directory a run can reach: a plan is accepted without a ledger, over a complete one, and over one still in
      planning under the same binding; a review over a planned or reviewed one whose plan file is in place; an apply over
      one that is applied, published or complete and not abandoned, or reviewed with its plan file in place. */
  lemma CommandsAccept(run: seq<World>, j: nat, binding: Binding, operation: Operation)
    requires IsRun(run) && j < |run|
    ensures var w := run[j];
            && (CanPlan(w, binding) <==>
                  || w.ledger.None? || w.ledger.value.phase == Complete
                  || (w.ledger.value.phase == Planning && w.ledger.value.binding == binding))
            && (CanReview(w, binding) <==>
                  && w.ledger.Some? && w.ledger.value.binding == binding
                  && (w.ledger.value.phase == Planned || w.ledger.value.phase == Reviewed)
                  && w.planFile == w.ledger.value.plan)
            && (CanApply(w, binding, operation) <==>
                  && w.ledger.Some? && w.ledger.value.binding == binding && w.ledger.value.operation == operation
                  && (|| w.ledger.value.phase == Applied || w.ledger.value.phase == Published
                      || (w.ledger.value.phase == Complete && !w.ledger.value.abandoned)
                      || (w.ledger.value.phase == Reviewed && w.planFile == w.ledger.value.plan)))
            && (Exact(w, binding, operation) <==>
                  w.ledger.Some? && w.ledger.value.binding == binding && w.ledger.value.operation == operation)
  {
    RunIsValid(run, j);
  }

  /** A command that names an operation. */
  predicate Naming(w: World, w': World, binding: Binding, operation: Operation) {
    || ApplyReaches(w, w', binding, operation) || ReconcileReaches(w, w', binding, operation)
    || AbandonReaches(w, w', binding, operation) || AckReaches(w, w', binding, operation)
  }

  /** While an operation is not complete, no command under another binding changes anything; and one that names an
      operation changes nothing unless it names the current one. */
  lemma OthersAreRefused(w: World, w': World, binding: Binding, operation: Operation)
    requires w.ledger.Some?
    ensures var l := w.ledger.value;
            l.phase != Complete && l.binding != binding && ProperCommand(w, w', binding, operation) ==> w' == w
    ensures w.ledger.value.operation != operation && Naming(w, w', binding, operation) ==> w' == w
  {
  }

  // ---- how the ledger changes ----

  /** The operation is over, and a new one is in planning or planned. */
  predicate Replaced(w: World, w': World)
    requires w.ledger.Some? && w'.ledger.Some?
  {
    var l, l' := w.ledger.value, w'.ledger.value;
    && (l.phase == Planning || l.phase == Complete)
    && l'.operation == w.nextOperation && (l'.phase == Planning || l'.phase == Planned)
    && w'.spawned == w.spawned
    && (l.phase == Complete ==> l.operation in w'.completed && w'.completed[l.operation] == l)
  }

  /** The plan in place is reviewed. */
  predicate WasReviewed(w: World, w': World)
    requires w.ledger.Some? && w'.ledger.Some?
  {
    var l := w.ledger.value;
    && (l.phase == Planned || l.phase == Reviewed) && w'.ledger.value == l.(phase := Reviewed)
    && w.planFile == l.plan && w'.spawned == w.spawned
  }

  /** The reviewed plan in place is applied, or only its fence is saved. */
  predicate WasApplied(w: World, w': World)
    requires w.ledger.Some? && w'.ledger.Some?
  {
    var l, l' := w.ledger.value, w'.ledger.value;
    && l.phase == Reviewed && w.planFile.Some? && w.planFile == l.plan && l' == l.(phase := l'.phase)
    && (|| (l'.phase == Applying && w'.spawned == w.spawned)
        || (&& (l'.phase == Applying || l'.phase == Applied || l'.phase == Published || l'.phase == Complete)
            && w'.spawned == w.spawned + [Spawn(l.operation, w.planFile.value, l.binding)]))
  }

  /** An ambiguous apply is reconciled, or an applied operation finished. */
  predicate WentOn(w: World, w': World)
    requires w.ledger.Some? && w'.ledger.Some?
  {
    var l, l' := w.ledger.value, w'.ledger.value;
    && w'.spawned == w.spawned && l' == l.(phase := l'.phase)
    && (|| (l.phase == Applying && l'.phase == Applied)
        || (l.phase == Applied && (l'.phase == Published || l'.phase == Complete))
        || (l.phase == Published && l'.phase == Complete))
  }

  /** It is abandoned, which is on record. */
  predicate WasAbandoned(w: World, w': World)
    requires w.ledger.Some? && w'.ledger.Some?
  {
    var l := w.ledger.value;
    && (l.phase == Planning || l.phase == Planned || l.phase == Reviewed || l.phase == Applying)
    && w'.ledger.value == l.(phase := Complete, abandoned := true) && w'.spawned == w.spawned
    && l.operation in w'.abandoned && w'.abandoned[l.operation] == l
  }

  predicate Unmoved(w: World, w': World) {
    w'.ledger == w.ledger && w'.spawned == w.spawned
  }

  predicate Graph(w: World, w': World)
    requires w.ledger.Some?
  {
    || Unmoved(w, w')
    || (&& w'.ledger.Some?
        && (Replaced(w, w') || WasReviewed(w, w') || WasApplied(w, w') || WentOn(w, w') || WasAbandoned(w, w')))
  }

  lemma PlanStartedGraph(w: World, w': World, binding: Binding)
    requires w.ledger.Some? && PlanStarted(w, w', binding)
    ensures w'.ledger.Some? && Replaced(w, w')
  {
  }

  lemma PlanDoneGraph(w: World, w': World, binding: Binding)
    requires w.ledger.Some? && PlanDone(w, w', binding)
    ensures w'.ledger.Some? && Replaced(w, w')
  {
  }

  lemma PlanGraph(w: World, w': World, binding: Binding)
    requires w.ledger.Some? && PlanReaches(w, w', binding)
    ensures Graph(w, w')
  {
    if PlanStarted(w, w', binding) {
      PlanStartedGraph(w, w', binding);
    } else if PlanDone(w, w', binding) {
      PlanDoneGraph(w, w', binding);
    } else {
      assert Unmoved(w, w');
    }
  }

  lemma FinishGraph(w: World, w': World)
    requires w.ledger.Some? && (w.ledger.value.phase == Applied || w.ledger.value.phase == Published) && FinishReaches(w, w')
    ensures Unmoved(w, w') || (w'.ledger.Some? && WentOn(w, w'))
  {
  }

  lemma SpawnGraph(w: World, w': World, binding: Binding)
    requires w.ledger.Some? && w.ledger.value.phase == Reviewed && w.ledger.value.binding == binding
    requires w.planFile.Some? && w.planFile == w.ledger.value.plan
    requires FinishReaches(SavePhase(Spawned(SavePhase(w, Applying), binding), Applied), w')
    ensures w'.ledger.Some? && WasApplied(w, w')
  {
  }

  lemma ApplyGraph(w: World, w': World, binding: Binding, operation: Operation)
    requires w.ledger.Some? && ApplyReaches(w, w', binding, operation)
    ensures Graph(w, w')
  {
    if w' == w { return; }
    var fenced := SavePhase(w, Applying);
    if w.ledger.value.phase != Reviewed {
      FinishGraph(w, w');
    } else if w' == fenced || w' == Spawned(fenced, binding) {
      assert WasApplied(w, w');
    } else {
      SpawnGraph(w, w', binding);
    }
  }

  lemma OthersGraph(w: World, w': World, binding: Binding, operation: Operation)
    requires w.ledger.Some? && w.ledger.value.phase != PagesUploading
    requires || ReviewReaches(w, w', binding) || ReconcileReaches(w, w', binding, operation)
             || AbandonReaches(w, w', binding, operation) || AckReaches(w, w', binding, operation) || TamperReaches(w, w')
    ensures Graph(w, w')
  {
  }

  /** The whole phase graph: in every run, each step leaves ledger and applies alone, or changes them in one of these
      ways. */
  lemma LedgerGraph(run: seq<World>, i: nat)
    requires IsRun(run) && i + 1 < |run| && run[i].ledger.Some?
    ensures Graph(run[i], run[i + 1])
  {
    RunIsValid(run, i);
    assert StepAt(run, i);
    var w, w' := run[i], run[i + 1];
    var binding, operation :| Command(w, w', binding, operation);
    if PlanReaches(w, w', binding) {
      PlanGraph(w, w', binding);
    } else if ApplyReaches(w, w', binding, operation) {
      ApplyGraph(w, w', binding, operation);
    } else {
      OthersGraph(w, w', binding, operation);
    }
  }

  // ---- what follows ----

  predicate IsCurrent(w: World, operation: Operation) {
    w.ledger.Some? && w.ledger.value.operation == operation
  }

  predicate IsOver(w: World, operation: Operation) {
    IsCurrent(w, operation) && w.ledger.value.phase == Complete
  }

  /** An operation that was planned stays the current one until it is complete. */
  lemma {:induction false} PlannedStaysCurrent(run: seq<World>, i: nat, j: nat)
    requires IsRun(run) && i <= j < |run| && run[i].ledger.Some? && run[i].ledger.value.phase != Planning
    ensures var op := run[i].ledger.value.operation;
            IsCurrent(run[j], op) || exists k :: i <= k < j && IsOver(run[k], op)
    decreases j
  {
    if i < j {
      PlannedStaysCurrent(run, i, j - 1);
      var op := run[i].ledger.value.operation;
      if IsCurrent(run[j - 1], op) {
        LedgerGraph(run, j - 1);
        PhaseNeverReturns(run, i, j - 1);
        if !IsCurrent(run[j], op) { assert IsOver(run[j - 1], op); }
      }
    }
  }

  predicate WasSpawned(w: World, operation: Operation) {
    exists a :: 0 <= a < |w.spawned| && w.spawned[a].operation == operation
  }

  /** Past its apply, and not abandoned. */
  predicate PastApply(w: World) {
    && w.ledger.Some? && !w.ledger.value.abandoned
    && (w.ledger.value.phase == Applied || w.ledger.value.phase == Published || w.ledger.value.phase == Complete)
  }

  predicate WasFenced(run: seq<World>, j: nat, operation: Operation) {
    exists k :: 0 <= k < j && k < |run| && IsCurrent(run[k], operation) && run[k].ledger.value.phase == Applying
  }

  /** Nothing is ever recorded as applied that was not: its apply was spawned, or it was at least at its fence and the
      provider agreed with the plan. */
  lemma {:induction false} AppliedWasFenced(run: seq<World>, j: nat)
    requires IsRun(run) && j < |run| && PastApply(run[j])
    ensures WasSpawned(run[j], run[j].ledger.value.operation) || WasFenced(run, j, run[j].ledger.value.operation)
    decreases j
  {
    if j > 0 {
      var w, w' := run[j - 1], run[j];
      var op := w'.ledger.value.operation;
      FirstLedger(run, j);
      LedgerGraph(run, j - 1);
      if PastApply(w) && IsCurrent(w, op) {
        AppliedWasFenced(run, j - 1);
        RunMoves(run, j - 1, j);
        if WasSpawned(w, op) {
          var a :| 0 <= a < |w.spawned| && w.spawned[a].operation == op;
          assert w'.spawned[a].operation == op;
        }
      } else if w'.spawned != w.spawned {
        assert w'.spawned[|w.spawned|].operation == op;
      } else {
        assert IsCurrent(w, op) && w.ledger.value.phase == Applying;
      }
    }
  }

  /** The first ledger of a directory is that of a plan. */
  lemma FirstLedger(run: seq<World>, j: nat)
    requires IsRun(run) && 0 < j < |run|
    ensures run[j - 1].ledger.None? ==>
              run[j].ledger.None? || run[j].ledger.value.phase == Planning || run[j].ledger.value.phase == Planned
  {
    assert StepAt(run, j - 1);
  }
}
