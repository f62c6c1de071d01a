/** The operation ledger of `live-install.py`: the commands of one state directory, which its file lock
    runs one at a time, each able to be interrupted after any durable write. */
module Installer {
  import opened Common
  import Protocol
  import opened FirstPlan

  type Operation = nat    // a random identifier; drawn from a counter because it never repeats
  type Binding = nat      // the identity of the choices and the candidate together
  type Digest = nat       // the SHA-256 of a plan file
  type Account = nat

  datatype Phase = Planning | Planned | Reviewed | Applying | Applied | PagesUploading | Published | Complete

  datatype Ledger = Ledger(
    operation: Operation, binding: Binding, phase: Phase,
    receipt: bool, account: Option<Account>, plan: Option<Digest>, abandoned: bool)

  /** One `tofu apply` of the saved plan file. */
  datatype Spawn = Spawn(operation: Operation, plan: Digest, binding: Binding)

  /** The files of a state directory, and what the run has shown so far: the applies spawned, and for
      each operation the plan digest and binding when it was planned, and the plan file and binding when it
      was reviewed. */
  datatype World = World(
    ledger: Option<Ledger>,                  // ledger.json
    completed: map<Operation, Ledger>,       // completed-OP.json
    abandoned: map<Operation, Ledger>,       // abandoned-OP.json
    planFile: Option<Digest>,                // reviewed.plan
    nextOperation: Operation,
    spawned: seq<Spawn>,
    planned: map<Operation, (Digest, Binding)>,
    reviewed: map<Operation, (Option<Digest>, Binding)>)

  datatype Outcome = Done | Refused | Interrupted

  // ---- the ledger checks ----

  /** Can the constructor accept a saved ledger for this binding? */
  predicate Loads(l: Ledger, binding: Binding) {
    && (l.binding == binding || l.phase == Complete)
    && (l.phase == Planning || (l.phase == Complete && l.abandoned) || (l.plan.Some? && l.account.Some?))
  }

  /** `exact`: the approval names the current operation under the current binding. */
  predicate Exact(w: World, binding: Binding, operation: Operation) {
    && w.ledger.Some? && Loads(w.ledger.value, binding)
    && w.ledger.value.operation == operation && w.ledger.value.binding == binding
  }

  function Save(w: World, l: Ledger): World {
    w.(ledger := Some(l))
  }

  function SavePhase(w: World, phase: Phase): World
    requires w.ledger.Some?
  {
    Save(w, w.ledger.value.(phase := phase))
  }

  // ---- what each command can leave behind, whether or not it was interrupted ----

  predicate CanPlan(w: World, binding: Binding) {
    w.ledger.Some? ==> Loads(w.ledger.value, binding) && w.ledger.value.phase in {Planning, Complete}
  }

  /** The directory once a finished operation has been filed away. */
  function Filed(w: World): World {
    if w.ledger.Some? && w.ledger.value.phase == Complete then
      w.(completed := w.completed[w.ledger.value.operation := w.ledger.value])
    else w
  }

  function FreshLedger(w: World, binding: Binding): Ledger {
    Ledger(w.nextOperation, binding, Planning, false, None, None, false)
  }

  /** The new operation has been saved and its plan has not: the fresh ledger may have gained its receipt
      and account, and the plan file may have been rewritten. */
  function PlanningFrom(w: World, binding: Binding, receipt: bool, account: Option<Account>, planFile: Option<Digest>): World {
    Save(Filed(w), FreshLedger(w, binding).(receipt := receipt, account := account))
      .(nextOperation := w.nextOperation + 1, planFile := planFile)
  }

  function PlanSaved(w: World, binding: Binding, digest: Digest): World
    requires w.ledger.Some?
  {
    var l := w.ledger.value;
    Save(w, l.(phase := Planned, plan := Some(digest))).(planned := w.planned[l.operation := (digest, binding)])
  }

  /** The new operation is saved. */
  predicate PlanStarted(w: World, w': World, binding: Binding) {
    && CanPlan(w, binding) && w'.ledger.Some?
    && w' == PlanningFrom(w, binding, w'.ledger.value.receipt, w'.ledger.value.account, w'.planFile)
  }

  /** And then its plan; never with a receipt. */
  predicate PlanDone(w: World, w': World, binding: Binding) {
    && CanPlan(w, binding) && w'.ledger.Some? && w'.planFile.Some? && w'.ledger.value.account.Some?
    && w' == PlanSaved(PlanningFrom(w, binding, false, w'.ledger.value.account, w'.planFile), binding, w'.planFile.value)
  }

  predicate PlanReaches(w: World, w': World, binding: Binding) {
    w' == w || (CanPlan(w, binding) && w' == Filed(w)) || PlanStarted(w, w', binding) || PlanDone(w, w', binding)
  }

  predicate CanReview(w: World, binding: Binding) {
    && w.ledger.Some? && Exact(w, binding, w.ledger.value.operation)
    && w.ledger.value.phase in {Planned, Reviewed} && w.planFile == w.ledger.value.plan
  }

  /** A review under `binding` of the plan file there is. */
  function ReviewSaved(w: World, binding: Binding): World
    requires w.ledger.Some?
  {
    SavePhase(w, Reviewed).(reviewed := w.reviewed[w.ledger.value.operation := (w.planFile, binding)])
  }

  predicate ReviewReaches(w: World, w': World, binding: Binding) {
    w' == w || (CanReview(w, binding) && w' == ReviewSaved(w, binding))
  }

  predicate CanApply(w: World, binding: Binding, operation: Operation) {
    && Exact(w, binding, operation)
    && var l := w.ledger.value;
    || (l.phase == Complete && !l.abandoned) || l.phase in {Applied, Published}
    || (l.phase == Reviewed && w.planFile.Some? && w.planFile == l.plan)
  }

  /** The end of `apply`, from an applied or published operation. */
  predicate FinishReaches(w: World, w': World)
    requires w.ledger.Some?
  {
    w' == w || w' == SavePhase(w, Complete) || (w.ledger.value.phase == Applied && w' == SavePhase(w, Published))
  }

  /** An apply under `binding` of the plan file there is. */
  function Spawned(w: World, binding: Binding): World
    requires w.ledger.Some? && w.planFile.Some?
  {
    w.(spawned := w.spawned + [Spawn(w.ledger.value.operation, w.planFile.value, binding)])
  }

  predicate ApplyReaches(w: World, w': World, binding: Binding, operation: Operation) {
    || w' == w
    || (Exact(w, binding, operation) && w.ledger.value.phase in {Applied, Published} && FinishReaches(w, w'))
    || (Exact(w, binding, operation) && w.ledger.value.phase == Reviewed &&
        w.planFile.Some? && w.planFile == w.ledger.value.plan &&
        var fenced := SavePhase(w, Applying);
        w' == fenced || w' == Spawned(fenced, binding) || FinishReaches(SavePhase(Spawned(fenced, binding), Applied), w'))
  }

  predicate ReconcileReaches(w: World, w': World, binding: Binding, operation: Operation) {
    w' == w || (Exact(w, binding, operation) && w.ledger.value.phase == Applying && w' == SavePhase(w, Applied))
  }

  function AbandonFiled(w: World): World
    requires w.ledger.Some?
  {
    w.(abandoned := w.abandoned[w.ledger.value.operation := w.ledger.value])
  }

  predicate Unfinished(phase: Phase) {
    phase in {Planning, Planned, Reviewed, Applying}
  }

  function Abandoned(w: World): World
    requires w.ledger.Some?
  {
    Save(AbandonFiled(w), w.ledger.value.(phase := Complete, abandoned := true))
  }

  predicate AbandonReaches(w: World, w': World, binding: Binding, operation: Operation) {
    || w' == w
    || (Exact(w, binding, operation) && Unfinished(w.ledger.value.phase) &&
        (w' == AbandonFiled(w) || w' == Abandoned(w)))
  }

  predicate AckReaches(w: World, w': World, binding: Binding, operation: Operation) {
    w' == w || (Exact(w, binding, operation) && w.ledger.value.phase == PagesUploading && w' == SavePhase(w, Published))
  }

  /** Somebody replaces the plan file between two commands. */
  predicate TamperReaches(w: World, w': World) {
    w' == w.(planFile := w'.planFile)
  }

  predicate ProperCommand(w: World, w': World, binding: Binding, operation: Operation) {
    || PlanReaches(w, w', binding) || ReviewReaches(w, w', binding)
    || ApplyReaches(w, w', binding, operation) || ReconcileReaches(w, w', binding, operation)
    || AbandonReaches(w, w', binding, operation) || AckReaches(w, w', binding, operation)
  }

  predicate Command(w: World, w': World, binding: Binding, operation: Operation) {
    ProperCommand(w, w', binding, operation) || TamperReaches(w, w')
  }

  /** One command, or a plan file replaced between commands. */
  ghost predicate Step(w: World, w': World) {
    exists binding, operation :: Command(w, w', binding, operation)
  }

  // ---- the commands ----

  /** The state directory. A command stops where a tool refuses, or after a durable write; the contracts say
      what it can leave wherever it stops, and that it succeeds when nothing stops it. */
  class StateDirectory {
    var ledger: Option<Ledger>
    var completed: map<Operation, Ledger>
    var abandoned: map<Operation, Ledger>
    var planFile: Option<Digest>
    var nextOperation: Operation
    var spawned: seq<Spawn>
    var planned: map<Operation, (Digest, Binding)>
    var reviewed: map<Operation, (Option<Digest>, Binding)>

    function Now(): World
      reads this
    {
      World(ledger, completed, abandoned, planFile, nextOperation, spawned, planned, reviewed)
    }

    constructor ()
      ensures Initial(Now())
    {
      ledger, completed, abandoned, planFile := None, map[], map[], None;
      nextOperation, spawned, planned, reviewed := 0, [], map[], map[];
    }

    /** `calls` is how the two archive calls went among everything that shares the bucket. They never both
        succeed with a receipt, so a plan that carries one is never done. */
    method Plan(binding: Binding, withReceipt: bool, account: Account, produced: Digest, calls: Calls, stop: Stop)
      returns (r: Outcome)
      requires Protocol.Initial(calls.start)
      modifies this
      ensures PlanReaches(old(Now()), Now(), binding)
      ensures stop == Never && CanPlan(old(Now()), binding) ==> (r == Done <==> BothSucceeded(calls, withReceipt))
      ensures r == Done ==>
                && CanPlan(old(Now()), binding) && !withReceipt
                && Now() == PlanSaved(PlanningFrom(old(Now()), binding, false, Some(account), Some(produced)), binding, produced)
    {
      ghost var w := Now();
      r := StartPlan(binding, stop);
      if r != Done { return; }
      r := Admit(w, binding, withReceipt, account, stop);
      if r != Done { return; }
      r := SavePlan(w, binding, withReceipt, account, produced, calls, stop);
    }

    /** A finished operation is filed and a new one saved. */
    method StartPlan(binding: Binding, stop: Stop) returns (r: Outcome)
      modifies this`completed, this`ledger, this`nextOperation
      ensures stop == Never ==> (r == Done <==> CanPlan(old(Now()), binding))
      ensures r == Done ==> CanPlan(old(Now()), binding) && Now() == PlanningFrom(old(Now()), binding, false, None, planFile)
      ensures r != Done ==> PlanReaches(old(Now()), Now(), binding)
    {
      if ledger.Some? && !Loads(ledger.value, binding) { return Refused; }
      if ledger.Some? && ledger.value.phase !in {Planning, Complete} { return Refused; }
      if stop == At(0) { return Refused; }               // imports without approval
      if ledger.Some? && ledger.value.phase == Complete {
        completed := completed[ledger.value.operation := ledger.value];
        if stop == At(1) { return Interrupted; }
      }
      ledger := Some(Ledger(nextOperation, binding, Planning, false, None, None, false));
      nextOperation := nextOperation + 1;
      r := if stop == At(2) then Interrupted else Done;
    }

    /** The receipt is recorded and admitted, if there is one, and then the account. */
    method Admit(ghost w: World, binding: Binding, withReceipt: bool, account: Account, stop: Stop) returns (r: Outcome)
      requires CanPlan(w, binding) && Now() == PlanningFrom(w, binding, false, None, planFile)
      modifies this`ledger
      ensures stop == Never ==> r == Done
      ensures r == Done ==> Now() == PlanningFrom(w, binding, withReceipt, Some(account), planFile)
      ensures PlanStarted(w, Now(), binding)
    {
      if withReceipt {
        r := AdmitReceipt(w, binding, stop);
        if r != Done { return; }
      }
      if stop == At(5) { return Refused; }               // preflight
      ledger := Some(ledger.value.(account := Some(account)));
      r := if stop == At(6) then Interrupted else Done;  // also: init or discovery failed
    }

    method AdmitReceipt(ghost w: World, binding: Binding, stop: Stop) returns (r: Outcome)
      requires CanPlan(w, binding) && Now() == PlanningFrom(w, binding, false, None, planFile)
      modifies this`ledger
      ensures stop == Never ==> r == Done
      ensures r == Done ==> Now() == PlanningFrom(w, binding, true, None, planFile)
      ensures PlanStarted(w, Now(), binding)
    {
      if stop == At(3) { return Refused; }               // receipt already consumed, or not production
      ledger := Some(ledger.value.(receipt := true));
      r := if stop == At(4) then Interrupted else Done;  // also: `admit` refused
    }

    /** The end of `plan`: the archives, the plan file and the planned ledger. */
    method SavePlan(ghost w: World, binding: Binding, withReceipt: bool, account: Account, produced: Digest, calls: Calls, stop: Stop)
      returns (r: Outcome)
      requires Protocol.Initial(calls.start) && CanPlan(w, binding)
      requires Now() == PlanningFrom(w, binding, withReceipt, Some(account), planFile)
      modifies this`ledger, this`planFile, this`planned
      ensures stop == Never ==> (r == Done <==> BothSucceeded(calls, withReceipt))
      ensures r == Done ==>
                !withReceipt && Now() == PlanSaved(PlanningFrom(w, binding, withReceipt, Some(account), Some(produced)), binding, produced)
      ensures if r == Done then PlanDone(w, Now(), binding) else PlanStarted(w, Now(), binding)
    {
      ReceiptPlanNeverArchives(calls);
      if !BothSucceeded(calls, withReceipt) { return Refused; }
      planFile := Some(produced);
      if stop == At(7) { return Interrupted; }           // also: the plan is destructive
      var l := ledger.value.(phase := Planned, plan := Some(produced));
      ledger, planned := Some(l), planned[l.operation := (produced, binding)];
      r := Done;
    }

    method Review(binding: Binding, stop: Stop) returns (r: Outcome)
      modifies this
      ensures ReviewReaches(old(Now()), Now(), binding)
      ensures stop == Never && CanReview(old(Now()), binding) ==> r == Done
      ensures r == Done ==> CanReview(old(Now()), binding) && Now() == ReviewSaved(old(Now()), binding)
    {
      if ledger.None? || !Loads(ledger.value, binding) { return Refused; }
      if ledger.value.phase !in {Planned, Reviewed} { return Refused; }
      if ledger.value.binding != binding { return Refused; }
      if stop == At(0) { return Refused; }               // the candidate changed
      if planFile != ledger.value.plan { return Refused; }
      ledger := Some(ledger.value.(phase := Reviewed));
      reviewed := reviewed[ledger.value.operation := (planFile, binding)];
      r := Done;
    }

    method Apply(binding: Binding, operation: Operation, stop: Stop) returns (r: Outcome)
      modifies this
      ensures ApplyReaches(old(Now()), Now(), binding, operation)
      ensures stop == Never && CanApply(old(Now()), binding, operation) ==> r == Done
      ensures r == Done ==>
                && Exact(old(Now()), binding, operation)
                && (old(ledger).value.phase == Complete ==> !old(ledger).value.abandoned && Now() == old(Now()))
                && (old(ledger).value.phase in {Applied, Published} ==> Now() == SavePhase(old(Now()), Complete))
                && (old(ledger).value.phase == Reviewed ==>
                      old(planFile).Some? && Now() == SavePhase(Spawned(old(Now()), binding), Complete))
                && old(ledger).value.phase in {Complete, Applied, Published, Reviewed}
    {
      if ledger.None? || !Loads(ledger.value, binding) { return Refused; }
      if ledger.value.operation != operation || ledger.value.binding != binding { return Refused; }
      if stop == At(0) { return Refused; }               // the candidate changed
      var phase := ledger.value.phase;
      if phase == Complete {
        if ledger.value.abandoned { return Refused; }
        return Done;
      }
      if phase in {Applying, PagesUploading} { return Refused; }
      if phase !in {Reviewed, Applied, Published} { return Refused; }
      if stop == At(1) { return Refused; }               // preflight, another account, or init
      if phase == Reviewed {
        if planFile.None? || planFile != ledger.value.plan { return Refused; }
        if ledger.value.receipt {
          if stop == At(2) { return Refused; }           // `begin` refused
        }
        ledger := Some(ledger.value.(phase := Applying));
        if stop == At(3) { return Interrupted; }
        spawned := spawned + [Spawn(ledger.value.operation, planFile.value, binding)];
        if stop == At(4) { return Interrupted; }         // also: the apply or the archive failed
        ledger := Some(ledger.value.(phase := Applied));
        if stop == At(5) { return Interrupted; }
      }
      if ledger.value.phase == Applied {
        ledger := Some(ledger.value.(phase := Published));
        if stop == At(6) { return Interrupted; }         // also: the smoke test failed
      }
      if stop == At(7) { return Refused; }
      ledger := Some(ledger.value.(phase := Complete));
      r := Done;
    }

    method Reconcile(binding: Binding, operation: Operation, stop: Stop) returns (r: Outcome)
      modifies this
      ensures ReconcileReaches(old(Now()), Now(), binding, operation)
      ensures stop == Never && Exact(old(Now()), binding, operation) && old(ledger).value.phase == Applying ==> r == Done
      ensures r == Done ==>
                && Exact(old(Now()), binding, operation) && old(ledger).value.phase == Applying
                && Now() == SavePhase(old(Now()), Applied)
    {
      if ledger.None? || !Loads(ledger.value, binding) { return Refused; }
      if ledger.value.operation != operation || ledger.value.binding != binding { return Refused; }
      if ledger.value.phase != Applying { return Refused; }
      if stop == At(0) { return Refused; }               // the provider differs from the plan
      ledger := Some(ledger.value.(phase := Applied));
      r := Done;
    }

    method Abandon(binding: Binding, operation: Operation, stop: Stop) returns (r: Outcome)
      modifies this
      ensures AbandonReaches(old(Now()), Now(), binding, operation)
      ensures stop == Never && Exact(old(Now()), binding, operation) && Unfinished(old(ledger).value.phase) ==> r == Done
      ensures r == Done ==>
                && Exact(old(Now()), binding, operation) && Unfinished(old(ledger).value.phase)
                && Now() == Abandoned(old(Now()))
    {
      if ledger.None? || !Loads(ledger.value, binding) { return Refused; }
      if ledger.value.operation != operation || ledger.value.binding != binding { return Refused; }
      if !Unfinished(ledger.value.phase) { return Refused; }
      abandoned := abandoned[operation := ledger.value];
      if stop == At(0) { return Interrupted; }
      ledger := Some(ledger.value.(phase := Complete, abandoned := true));
      r := Done;
    }

    method AckPages(binding: Binding, operation: Operation, stop: Stop) returns (r: Outcome)
      modifies this
      ensures AckReaches(old(Now()), Now(), binding, operation)
      ensures stop == Never && Exact(old(Now()), binding, operation) && old(ledger).value.phase == PagesUploading ==> r == Done
      ensures r == Done ==>
                && Exact(old(Now()), binding, operation) && old(ledger).value.phase == PagesUploading
                && Now() == SavePhase(old(Now()), Published)
    {
      if ledger.None? || !Loads(ledger.value, binding) { return Refused; }
      if ledger.value.operation != operation || ledger.value.binding != binding { return Refused; }
      if ledger.value.phase != PagesUploading { return Refused; }
      if stop == At(0) { return Refused; }               // the published revision is another one
      ledger := Some(ledger.value.(phase := Published));
      r := Done;
    }
  }

  predicate Initial(w: World) {
    w == World(None, map[], map[], None, 0, [], map[], map[])
  }
}
