/** Creating the state bucket (`provision-live-state.py`) and recovering an interrupted creation
    (`live-state-recovery.py`): one state directory, one bucket name at the provider, other parties who
    may delete and create that name at any time, and interruptions after any durable write. */
module Provisioning {
  import opened Common

  type Operation = nat
  type Binding = nat       // the identity of the choices and the provisioning code together
  type Path = nat

  type Instant = real      // in seconds

  /** One creation of the bucket name. No two share a serial, but the scripts only see the creation date. */
  datatype Generation = Generation(serial: nat, created: Instant)

  datatype Phase = Planned | Applying | Complete

  datatype Ledger = Ledger(
    operation: Operation, binding: Binding, phase: Phase,
    expected: Option<Instant>, observed: Option<Instant>)

  /** The receipt that admits the first deployment. */
  datatype Receipt = Receipt(operation: Operation, binding: Binding, identity: Instant)

  /** The recovery journal: the audit record that proves the creation, and the bucket's identity. */
  datatype Journal = Journal(
    operation: Operation, binding: Binding,
    auditId: nat, auditTime: Instant, started: Instant, identity: Instant)

  /** One bucket-creation request, and the generation it created unless the provider refused it. */
  datatype Posting = Posting(operation: Operation, created: Option<Generation>)

  datatype World = World(
    ledger: Option<Ledger>,               // operation.json
    ledgerTime: Instant,                      // its modification time
    journal: Option<Journal>,             // creation-recovery-OP.json
    checkpoint: Option<Ledger>,           // before-creation-recovery-OP.json
    receipts: map<Path, Receipt>,
    posted: seq<Posting>,
    bucket: Option<Generation>,           // at the provider
    nextSerial: nat)

  /** What other parties do at the provider between two requests, after using up some serials. */
  datatype Meddling = Idle(burned: nat) | Delete(burned: nat) | Create(burned: nat, created: Instant)

  datatype Outcome = Done | Refused | Interrupted

  /** What the provider's audit log answers for an audit identity: whether the action succeeded and was a creation, of
      an R2 bucket, of this one, through the API, and in this account. */
  datatype AuditRow = AuditRow(
    id: nat, succeeded: bool, creation: bool, ofBucket: bool, ownBucket: bool, viaApi: bool, ownAccount: bool, when: Instant)

  // ---- pure checks ----

  function ReceiptOf(l: Ledger): Receipt
    requires l.observed.Some?
  {
    Receipt(l.operation, l.binding, l.observed.value)
  }

  predicate Exact(w: World, binding: Binding, operation: Operation) {
    w.ledger.Some? && w.ledger.value.binding == binding && w.ledger.value.operation == operation
  }

  /** The checks of `evidence` on the two times. */
  predicate Timely(auditTime: Instant, started: Instant, identity: Instant) {
    0.0 <= auditTime - started <= 300.0 && -5.0 <= identity - auditTime <= 5.0
  }

  /** `snapshot`: the identity of the bucket, if there is one. */
  function Seen(bucket: Option<Generation>): Option<Instant> {
    if bucket.None? then None else Some(bucket.value.created)
  }

  /** The audit record an operator names. */
  datatype Audit = Audit(id: nat, time: Instant)

  /** The record is that of a successful creation, through the API, of this bucket in this account, at the time the
      operator gave and within five minutes of the start; and the bucket was created within five seconds of it. */
  predicate Proves(row: AuditRow, created: Instant, audit: Audit, started: Instant) {
    && row.id == audit.id && row.when == audit.time
    && row.succeeded && row.creation && row.ofBucket && row.ownBucket && row.viaApi && row.ownAccount
    && started <= audit.time <= started + 300.0
    && audit.time - 5.0 <= created <= audit.time + 5.0
  }

  /** `evidence`: the identity that the audit record and the live bucket together prove. */
  function Evidence(row: AuditRow, bucket: Option<Generation>, auditId: nat, auditTime: Instant, started: Instant): (g: Option<Instant>)
    ensures g.Some? <==> bucket.Some? && Proves(row, bucket.value.created, Audit(auditId, auditTime), started)
    ensures g.Some? ==> g == Seen(bucket) && Timely(auditTime, started, g.value)
  {
    if row.id != auditId || !row.succeeded || !row.creation || !row.ofBucket || !row.ownBucket || !row.viaApi
       || !row.ownAccount then None
    else if row.when != auditTime then None
    else if !(0.0 <= row.when - started <= 300.0) then None
    else if bucket.None? || Distance(bucket.value.created, row.when) > 5.0 then None
    else Seen(bucket)
  }

  function Distance(x: Instant, y: Instant): Instant {
    if x < y then y - x else x - y
  }

  // ---- what each command can leave behind in the state directory ----

  /** The directory and the requests made, without what other parties do at the provider. */
  function Local(w: World): World {
    w.(bucket := None, nextSerial := 0)
  }

  /** Other parties may delete the bucket or create it again, but a serial is never used twice. */
  predicate Meddled(w: World, w': World) {
    && Local(w') == Local(w) && w.nextSerial <= w'.nextSerial
    && (w'.bucket == w.bucket || w'.bucket.None? || w.nextSerial <= w'.bucket.value.serial < w'.nextSerial)
  }

  function Interfered(w: World, m: Meddling): World {
    match m
    case Idle(burned) => w.(nextSerial := w.nextSerial + burned)
    case Delete(burned) => w.(bucket := None, nextSerial := w.nextSerial + burned)
    case Create(burned, created) =>
      w.(bucket := Some(Generation(w.nextSerial + burned, created)), nextSerial := w.nextSerial + burned + 1)
  }

  lemma InterferedIsMeddled(w: World, m: Meddling)
    ensures Meddled(w, Interfered(w, m))
  {
  }

  function Saved(w: World, l: Ledger, time: Instant): World {
    w.(ledger := Some(l), ledgerTime := time)
  }

  predicate PlanReaches(w: World, w': World, binding: Binding) {
    && w.nextSerial <= w'.nextSerial
    && (|| Local(w') == Local(w)
        || (&& w.ledger.None? && w'.ledger.Some?
            && w'.ledger.value == Ledger(w'.ledger.value.operation, binding, Planned, w'.ledger.value.expected, None)
            && Local(w') == Local(Saved(w, w'.ledger.value, w'.ledgerTime))))
  }

  /** Between the two worlds the operation requested, and got, a generation that did not exist before. */
  predicate OwnGeneration(w: World, w': World, operation: Operation, own: Option<Generation>) {
    && w'.posted == w.posted + [Posting(operation, own)]
    && own.Some? && w.nextSerial <= own.value.serial < w'.nextSerial
  }

  /** Everything `apply` can leave: nothing, the fence alone, the fence and the request, or a completed
      operation. A completed creation has recorded the identity of the generation its own request
      created. */
  predicate ApplyReaches(w: World, w': World, binding: Binding, operation: Operation) {
    && w.nextSerial <= w'.nextSerial
    && (|| Local(w') == Local(w)
        || (&& Exact(w, binding, operation) && w.ledger.value.phase == Planned && w'.ledger.Some?
            && var l, t := w.ledger.value, w'.ledgerTime;
               if l.expected.Some? then
                 || Local(w') == Local(Saved(w, l.(phase := Applying), t))
                 || Local(w') == Local(Saved(w, l.(phase := Complete, observed := l.expected), t))
               else
                 || Local(w') == Local(Saved(w, l.(phase := Applying), t))
                 || (&& |w'.posted| == |w.posted| + 1 && w.posted <= w'.posted && w'.posted[|w.posted|].operation == operation
                     && Local(w') == Local(Saved(w, l.(phase := Applying), t).(posted := w'.posted)))
                 || (&& |w'.posted| == |w.posted| + 1 && OwnGeneration(w, w', operation, w'.posted[|w.posted|].created)
                     && Local(w') == Local(Saved(w, l.(phase := Complete, observed := Seen(w'.posted[|w.posted|].created)), t)
                                             .(posted := w'.posted)))))
  }

  predicate CanApply(w: World, binding: Binding, operation: Operation) {
    Exact(w, binding, operation) && w.ledger.value.phase == Planned && Seen(w.bucket) == w.ledger.value.expected
  }

  predicate ReconcileReaches(w: World, w': World, binding: Binding, operation: Operation) {
    && w.nextSerial <= w'.nextSerial
    && (|| Local(w') == Local(w)
        || (&& Exact(w, binding, operation) && w.ledger.value.phase == Applying && w.ledger.value.expected.Some?
            && Local(w') == Local(Saved(w, w.ledger.value.(phase := Complete, observed := w.ledger.value.expected), w'.ledgerTime))))
  }

  predicate CompletionReaches(w: World, w': World, binding: Binding, operation: Operation, path: Path) {
    || w' == w
    || (&& Exact(w, binding, operation) && w.ledger.value.phase == Complete && w.ledger.value.expected.None?
        && w.ledger.value.observed.Some? && path !in w.receipts
        && w' == w.(receipts := w.receipts[path := ReceiptOf(w.ledger.value)]))
  }

  /** An operation whose creation was interrupted before its outcome was known. */
  predicate Recoverable(w: World, binding: Binding, operation: Operation) {
    && Exact(w, binding, operation) && w.ledger.value.phase == Applying
    && w.ledger.value.expected.None? && w.ledger.value.observed.None?
  }

  predicate JournalFits(w: World, j: Journal, binding: Binding, operation: Operation) {
    && j.operation == operation && j.binding == binding && j.started == w.ledgerTime
    && Timely(j.auditTime, j.started, j.identity)
    && (w.journal.Some? ==> w.journal == Some(j))
  }

  function Journaled(w: World, j: Journal): World {
    w.(journal := Some(j))
  }

  function Checkpointed(w: World, j: Journal): World {
    Journaled(w, j).(checkpoint := w.ledger)
  }

  /** When the creation was started: the ledger's modification time, kept in the journal once it is done. */
  function StartedAt(w: World): Instant
    requires w.ledger.Some?
  {
    if w.ledger.value.phase == Complete && w.journal.Some? then w.journal.value.started else w.ledgerTime
  }

  function JournalOf(w: World, audit: Audit, identity: Instant): Journal
    requires w.ledger.Some?
  {
    Journal(w.ledger.value.operation, w.ledger.value.binding, audit.id, audit.time, StartedAt(w), identity)
  }

  /** The first evidence proves an identity, which agrees with the ledger and the journal. */
  predicate Examined(w: World, binding: Binding, operation: Operation, audit: Audit, first: AuditRow) {
    && Exact(w, binding, operation) && w.ledger.value.expected.None?
    && w.bucket.Some? && Proves(first, w.bucket.value.created, audit, StartedAt(w))
    && var j := JournalOf(w, audit, w.bucket.value.created);
       if w.ledger.value.phase == Complete then w.journal == Some(j) && w.ledger.value.observed == Some(j.identity)
       else w.ledger.value.phase == Applying && w.ledger.value.observed.None? && (w.journal.Some? ==> w.journal == Some(j))
  }

  /** And, unless the operation is complete, the second proves the same one, and the checkpoint agrees. */
  predicate CanRecover(w: World, binding: Binding, operation: Operation, audit: Audit,
                       first: AuditRow, second: AuditRow, between: Meddling) {
    && Examined(w, binding, operation, audit, first)
    && (w.ledger.value.phase != Complete ==>
          Proved(w, audit, first, second, between) && (w.checkpoint.Some? ==> w.checkpoint == w.ledger))
  }

  /** The evidence was there both times, for one identity. */
  predicate Proved(w: World, audit: Audit, first: AuditRow, second: AuditRow, between: Meddling)
    requires w.ledger.Some?
  {
    && w.bucket.Some? && Interfered(w, between).bucket.Some?
    && Interfered(w, between).bucket.value.created == w.bucket.value.created
    && Proves(first, w.bucket.value.created, audit, StartedAt(w)) && Proves(second, w.bucket.value.created, audit, StartedAt(w))
  }

  /** The directory a completed recovery leaves. */
  function Recovered(w: World, j: Journal, time: Instant): World
    requires w.ledger.Some?
  {
    Saved(Checkpointed(w, j), w.ledger.value.(phase := Complete, observed := Some(j.identity)), time)
  }

  /** What a recovery with this journal can leave besides nothing. */
  predicate StageOf(w: World, j: Journal, time: Instant, w': World)
    requires w.ledger.Some?
  {
    || Local(w') == Local(Journaled(w, j)) || Local(w') == Local(Checkpointed(w, j))
    || Local(w') == Local(Recovered(w, j, time))
  }

  predicate RecoverReaches(w: World, w': World, binding: Binding, operation: Operation) {
    && w.nextSerial <= w'.nextSerial
    && (|| Local(w') == Local(w)
        || (&& Recoverable(w, binding, operation) && w'.journal.Some?
            && JournalFits(w, w'.journal.value, binding, operation)
            && var j := w'.journal.value;
               || Local(w') == Local(Journaled(w, j))
               || (&& (w.checkpoint.Some? ==> w.checkpoint == w.ledger)
                   && (Local(w') == Local(Checkpointed(w, j)) || Local(w') == Local(Recovered(w, j, w'.ledgerTime))))))
  }

  predicate Command(w: World, w': World, binding: Binding, operation: Operation, path: Path) {
    || PlanReaches(w, w', binding) || ApplyReaches(w, w', binding, operation)
    || ReconcileReaches(w, w', binding, operation) || CompletionReaches(w, w', binding, operation, path)
    || RecoverReaches(w, w', binding, operation) || Meddled(w, w')
  }

  ghost predicate Step(w: World, w': World) {
    exists binding, operation, path :: Command(w, w', binding, operation, path)
  }

  predicate Initial(w: World) {
    w.ledger.None? && w.journal.None? && w.checkpoint.None? && w.receipts == map[] && w.posted == []
  }

  // ---- the commands ----

  /** The state directory and the provider. A command stops after a durable write or a request whose reply is
      lost; the contracts say what it can leave wherever it stops, and when it succeeds. */
  class Provisioner {
    var ledger: Option<Ledger>
    var ledgerTime: Instant
    var journal: Option<Journal>
    var checkpoint: Option<Ledger>
    var receipts: map<Path, Receipt>
    var posted: seq<Posting>
    var bucket: Option<Generation>
    var nextSerial: nat

    function Now(): World
      reads this
    {
      World(ledger, ledgerTime, journal, checkpoint, receipts, posted, bucket, nextSerial)
    }

    constructor (existing: Option<Generation>, serial: nat)
      ensures Initial(Now())
    {
      ledger, ledgerTime, journal, checkpoint := None, 0.0, None, None;
      receipts, posted, bucket, nextSerial := map[], [], existing, serial;
    }

    /** Other parties act between two requests. */
    method Meddle(m: Meddling)
      modifies this`bucket, this`nextSerial
      ensures Now() == Interfered(old(Now()), m) && Meddled(old(Now()), Now())
    {
      nextSerial := nextSerial + m.burned;
      if m.Delete? {
        bucket := None;
      } else if m.Create? {
        bucket, nextSerial := Some(Generation(nextSerial, m.created)), nextSerial + 1;
      }
      InterferedIsMeddled(old(Now()), m);
    }

    /** The creation request; the provider refuses a name in use. */
    method Post(operation: Operation, created: Instant) returns (own: Option<Generation>)
      modifies this`bucket, this`nextSerial, this`posted
      ensures posted == old(posted) + [Posting(operation, own)] && (own.Some? <==> old(bucket).None?)
      ensures own.Some? ==> own == bucket == Some(Generation(old(nextSerial), created)) && nextSerial == old(nextSerial) + 1
      ensures own.None? ==> bucket == old(bucket) && nextSerial == old(nextSerial)
    {
      own := None;
      if bucket.None? {
        own := Some(Generation(nextSerial, created));
        bucket, nextSerial := own, nextSerial + 1;
      }
      posted := posted + [Posting(operation, own)];
    }

    /** The request, and the confirmation that the bucket there is has the identity it replied. */
    method CreateBucket(operation: Operation, created: Instant, after: Meddling, stop: Stop) returns (r: Outcome)
      modifies this`bucket, this`nextSerial, this`posted
      ensures |posted| == |old(posted)| + 1 && posted[..|old(posted)|] == old(posted)
      ensures var posting := posted[|old(posted)|];
              && posting.operation == operation && (posting.created.Some? <==> old(bucket).None?)
              && (posting.created.Some? ==> old(nextSerial) == posting.created.value.serial < nextSerial)
              && (r == Done ==> posting.created.Some? && Seen(bucket) == Seen(posting.created))
      ensures old(nextSerial) <= nextSerial
      ensures stop == Never && after.Idle? ==> (r == Done <==> old(bucket).None?)
    {
      var own := Post(operation, created);
      if own.None? { return Refused; }
      if stop == At(1) { return Interrupted; }                // also: a malformed reply
      Meddle(after);
      r := if Seen(bucket) == Seen(own) then Done else Refused;
    }

    method Plan(binding: Binding, operation: Operation, approveImport: bool, time: Instant) returns (r: Outcome)
      modifies this
      ensures PlanReaches(old(Now()), Now(), binding)
      ensures r == Done <==> old(ledger).None? && (old(bucket).Some? ==> approveImport)
      ensures r == Done ==>
                && old(ledger).None? && bucket == old(bucket) && (bucket.Some? ==> approveImport)
                && ledger == Some(Ledger(operation, binding, Planned, Seen(bucket), None))
    {
      if ledger.Some? { return Refused; }
      var expected := Seen(bucket);
      if expected.Some? && !approveImport { return Refused; }
      ledger, ledgerTime := Some(Ledger(operation, binding, Planned, expected, None)), time;
      r := Done;
    }

    method Apply(binding: Binding, operation: Operation, acceptCost: bool, time: Instant, created: Instant,
                 before: Meddling, between: Meddling, after: Meddling, stop: Stop) returns (r: Outcome)
      modifies this
      ensures ApplyReaches(old(Now()), Now(), binding, operation)
      ensures stop == Never && before.Idle? && between.Idle? && after.Idle? ==>
                (r == Done <==> acceptCost && CanApply(old(Now()), binding, operation))
      ensures Local(Now()) != Local(old(Now())) ==>
                && acceptCost && old(ledger).Some? && old(ledger).value.binding == binding && old(ledger).value.operation == operation
                && old(ledger).value.phase == Planned
                && (old(bucket).None? <==> old(ledger).value.expected.None?)
                && (old(bucket).Some? ==> old(ledger).value.expected == Some(old(bucket).value.created))
      ensures r == Done ==>
                && acceptCost && Exact(old(Now()), binding, operation) && old(ledger).value.phase == Planned
                && ledger == Some(old(ledger).value.(phase := Complete, observed := ledger.value.observed))
                && (if old(ledger).value.expected.Some? then
                      ledger.value.observed == old(ledger).value.expected && posted == old(posted)
                    else
                      |posted| == |old(posted)| + 1 && OwnGeneration(old(Now()), Now(), operation, posted[|old(posted)|].created)
                      && ledger.value.observed == Seen(posted[|old(posted)|].created) == Seen(bucket))
    {
      if ledger.None? || ledger.value.binding != binding || ledger.value.operation != operation { return Refused; }
      if !acceptCost || ledger.value.phase != Planned { return Refused; }
      if Seen(bucket) != ledger.value.expected { return Refused; }
      Meddle(before);
      ledger, ledgerTime := Some(ledger.value.(phase := Applying)), time;
      if stop == At(0) { return Interrupted; }
      r := AfterFence(operation, time, created, between, after, stop);
    }

    /** `apply` behind its fence: an adoption is complete, a creation makes its one request. */
    method AfterFence(operation: Operation, time: Instant, created: Instant, between: Meddling, after: Meddling, stop: Stop)
      returns (r: Outcome)
      requires ledger.Some?
      modifies this`bucket, this`nextSerial, this`posted, this`ledger, this`ledgerTime
      ensures old(nextSerial) <= nextSerial && (r != Done ==> ledger == old(ledger) && ledgerTime == old(ledgerTime))
      ensures old(ledger).value.expected.Some? ==> r == Done && posted == old(posted)
      ensures old(ledger).value.expected.None? ==>
                && |posted| == |old(posted)| + 1 && posted[..|old(posted)|] == old(posted)
                && posted[|old(posted)|].operation == operation
                && (r == Done ==> OwnGeneration(old(Now()), Now(), operation, posted[|old(posted)|].created))
      ensures r == Done ==>
                && ledgerTime == time && ledger.Some?
                && ledger == Some(old(ledger).value.(phase := Complete, observed := ledger.value.observed))
                && ledger.value.observed == (if old(ledger).value.expected.Some? then old(ledger).value.expected
                                             else Seen(posted[|old(posted)|].created))
                && (old(ledger).value.expected.None? ==> ledger.value.observed == Seen(bucket))
      ensures stop == Never && between.Idle? && after.Idle? ==>
                (r == Done <==> old(ledger).value.expected.Some? || old(bucket).None?)
    {
      Meddle(between);
      var observed := ledger.value.expected;
      if observed.None? {
        r := CreateBucket(operation, created, after, stop);
        if r != Done { return; }
        observed := Seen(bucket);
      }
      ledger, ledgerTime := Some(ledger.value.(phase := Complete, observed := observed)), time;
      r := Done;
    }

    method Reconcile(binding: Binding, operation: Operation, time: Instant) returns (r: Outcome)
      modifies this
      ensures ReconcileReaches(old(Now()), Now(), binding, operation)
      ensures r == Done <==>
                && Exact(old(Now()), binding, operation) && old(ledger).value.phase == Applying
                && old(ledger).value.expected.Some? && Seen(old(bucket)) == old(ledger).value.expected
      ensures r == Done ==>
                && Exact(old(Now()), binding, operation) && old(ledger).value.phase == Applying
                && old(ledger).value.expected.Some? && Seen(bucket) == old(ledger).value.expected
                && ledger == Some(old(ledger).value.(phase := Complete, observed := Seen(bucket)))
    {
      if ledger.None? || ledger.value.binding != binding || ledger.value.operation != operation { return Refused; }
      if ledger.value.phase != Applying || ledger.value.expected.None? { return Refused; }
      if Seen(bucket) != ledger.value.expected { return Refused; }
      ledger, ledgerTime := Some(ledger.value.(phase := Complete, observed := ledger.value.expected)), time;
      r := Done;
    }

    method Completion(binding: Binding, operation: Operation, path: Path) returns (r: Outcome)
      modifies this`receipts
      ensures CompletionReaches(old(Now()), Now(), binding, operation, path)
      ensures r == Done <==>
                && Exact(old(Now()), binding, operation) && ledger.value.phase == Complete && ledger.value.expected.None?
                && ledger.value.observed.Some? && (path in old(receipts) ==> old(receipts)[path] == ReceiptOf(ledger.value))
      ensures r == Done ==>
                && Exact(old(Now()), binding, operation) && ledger.value.phase == Complete
                && ledger.value.observed.Some? && path in receipts && receipts[path] == ReceiptOf(ledger.value)
    {
      if ledger.None? || ledger.value.binding != binding || ledger.value.operation != operation { return Refused; }
      if ledger.value.phase != Complete || ledger.value.expected.Some? || ledger.value.observed.None? { return Refused; }
      var value := Receipt(operation, ledger.value.binding, ledger.value.observed.value);
      if path in receipts {
        if receipts[path] != value { return Refused; }
        return Done;
      }
      receipts := receipts[path := value];
      r := Done;
    }

    /** `recover`: with the operator's confirmation and nothing to stop it, it is done if and only if the
        evidence is there and fits what is on disk; another audit identity than the journal's is refused. */
    method Recover(binding: Binding, operation: Operation, audit: Audit, first: AuditRow, second: AuditRow,
                   between: Meddling, confirmed: bool, time: Instant, stop: Stop) returns (r: Outcome)
      modifies this
      ensures RecoverReaches(old(Now()), Now(), binding, operation)
      ensures stop == Never && confirmed ==> (r == Done <==> CanRecover(old(Now()), binding, operation, audit, first, second, between))
      ensures r == Done ==>
                && Exact(old(Now()), binding, operation) && old(bucket).Some?
                && journal == Some(JournalOf(old(Now()), audit, old(bucket).value.created))
                && Local(Now()) == if old(ledger).value.phase == Complete then Local(old(Now()))
                                   else Local(Recovered(old(Now()), journal.value, time))
      ensures bucket == old(bucket) || bucket == Interfered(old(Now()), between).bucket
      ensures Local(Now()) != Local(old(Now())) ==>
                && old(ledger).Some? && old(bucket).Some? && Proved(old(Now()), audit, first, second, between)
                && StageOf(old(Now()), JournalOf(old(Now()), audit, old(bucket).value.created), time, Now())
      ensures r == Refused && !(old(checkpoint).Some? && old(checkpoint) != old(ledger)) ==> Local(Now()) == Local(old(Now()))
      ensures old(journal).Some? && (old(journal).value.auditId != audit.id || old(journal).value.auditTime != audit.time) ==>
                r == Refused && Now() == old(Now())
    {
      var expected := Examine(binding, operation, audit, first);
      if expected.None? { return Refused; }
      if ledger.value.phase == Complete { return Done; }
      if !confirmed { return Refused; }
      Meddle(between);
      var j := expected.value;
      if Evidence(second, bucket, audit.id, audit.time, j.started) != Some(j.identity) { return Refused; }
      r := Reconciled(j, time, stop);
    }

    /** The first look: the ledger, the evidence and the journal. */
    method Examine(binding: Binding, operation: Operation, audit: Audit, first: AuditRow) returns (expected: Option<Journal>)
      ensures expected.Some? <==> Examined(Now(), binding, operation, audit, first)
      ensures expected.Some? ==> expected == Some(JournalOf(Now(), audit, bucket.value.created))
    {
      if ledger.None? || ledger.value.binding != binding || ledger.value.operation != operation { return None; }
      if ledger.value.expected.Some? { return None; }
      var started: Instant;
      if ledger.value.phase == Complete {
        if journal.None? || journal.value.operation != operation || journal.value.binding != binding
           || journal.value.auditId != audit.id || journal.value.auditTime != audit.time
           || Some(journal.value.identity) != ledger.value.observed { return None; }
        started := journal.value.started;
      } else if ledger.value.phase == Applying && ledger.value.observed.None? {
        started := ledgerTime;
      } else {
        return None;
      }
      var observed := Evidence(first, bucket, audit.id, audit.time, started);
      if observed.None? { return None; }
      expected := Some(Journal(operation, binding, audit.id, audit.time, started, observed.value));
      if journal.Some? && journal != expected { return None; }
    }

    /** The durable writes of `recover`, each skipped if it was made before. */
    method Reconciled(expected: Journal, time: Instant, stop: Stop) returns (r: Outcome)
      requires ledger.Some? && (journal.Some? ==> journal == Some(expected))
      modifies this`journal, this`checkpoint, this`ledger, this`ledgerTime
      ensures stop == Never ==> (r == Done <==> (old(checkpoint).Some? ==> old(checkpoint) == old(ledger)))
      ensures r == Done ==> Now() == Recovered(old(Now()), expected, time) && (old(checkpoint).Some? ==> old(checkpoint) == old(ledger))
      ensures r == Interrupted ==>
                || Now() == Journaled(old(Now()), expected)
                || (old(checkpoint).None? && Now() == Checkpointed(old(Now()), expected))
      ensures r == Refused ==> Now() == Journaled(old(Now()), expected) && old(checkpoint).Some? && old(checkpoint) != old(ledger)
    {
      if journal.None? {
        journal := Some(expected);
        if stop == At(0) { return Interrupted; }
      }
      if checkpoint.Some? {
        if checkpoint != ledger { return Refused; }
      } else {
        checkpoint := ledger;
        if stop == At(1) { return Interrupted; }
      }
      ledger, ledgerTime := Some(ledger.value.(phase := Complete, observed := Some(expected.identity))), time;
      r := Done;
    }

    /** A recovery that is stopped anywhere and then rerun with the same evidence completes, and leaves exactly
        what a recovery that was never stopped leaves. */
    method StopAndRerun(binding: Binding, operation: Operation, audit: Audit, row: AuditRow, burned: nat,
                        confirmed: bool, time: Instant, stop: Stop) returns (r: Outcome)
      requires Recoverable(Now(), binding, operation) && journal.None? && checkpoint.None?
      requires Evidence(row, bucket, audit.id, audit.time, ledgerTime).Some?
      modifies this
      ensures r == Done && bucket == old(bucket) && bucket.Some?
      ensures Local(Now()) == Local(Recovered(old(Now()), JournalOf(old(Now()), audit, bucket.value.created), time))
    {
      var _ := Recover(binding, operation, audit, row, row, Idle(burned), confirmed, time, stop);
      r := Recover(binding, operation, audit, row, row, Idle(burned), true, time, Never);
    }
  }
}
