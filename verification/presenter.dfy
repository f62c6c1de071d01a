/** The audience renderer of `presenter-adapter.js`: preparations that race through several awaits, a
    queue of raster jobs over one staging canvas, and transactions that commit or discard. Every stretch
    of code between two awaits is one event. */
module Presenter {
  import opened Common

  type Token = nat

  /** What a canvas shows: nothing, or the frame of one preparation. */
  datatype Picture = Blank | Frame(token: Token)

  /** Backing size and CSS size. */
  datatype Geometry = Geometry(width: nat, height: nat, cssWidth: nat, cssHeight: nat)

  const NOTHING := Geometry(0, 0, 0, 0)

  predicate Visible(g: Geometry) {
    g.width != 0 && g.height != 0
  }

  datatype Canvas = Canvas(picture: Picture, geometry: Geometry)

  /** The layout engine: a speculative scene and the committed one. `misused` records a call after it
      was freed. */
  datatype Engine = Engine(pending: Option<Token>, committed: Option<Token>, misused: bool)

  datatype Prep =
    | Loading                        // awaiting resources
    | Queued(geometry: Geometry)     // laid out, raster job not started
    | Painting(geometry: Geometry)   // raster job started, staging cleared
    | Painted(geometry: Geometry)    // staging painted, not yet copied
    | Composing(canvas: Canvas)      // snapshot taken, embedded surfaces pending
    | Ready(canvas: Canvas)          // raster job resolved
    | Rejected                       // raster job rejected
    | Over                           // the preparation returned or threw

  datatype Transaction = Transaction(canvas: Canvas, settled: bool)

  /** The record that `scroll` and `inspectCommittedFrame` read. */
  datatype Record = Record(token: Token, geometry: Geometry)

  /** `leaving` counts the preparations that have returned or thrown and whose `finally` is still to run. */
  datatype State = State(
    serial: Token, freed: bool, inFlight: nat, leaving: nat, aborted: set<Token>,
    preps: map<Token, Prep>, queue: seq<Token>, running: Option<Token>, staging: Picture,
    transactions: map<Token, Transaction>, pendingTransaction: Option<Token>,
    engine: Engine, canvas: Canvas, committed: Option<Record>)

  /** Where a commit can throw: before it touches the canvas, while it draws, or in the engine. */
  datatype Fault = NoFault | EarlyFault | DrawFault | EngineFault

  datatype Event =
    | Prepare(valid: bool)
    | Resource(token: Token, ok: bool)
    | Layout(token: Token, ok: bool, geometry: Geometry)
    | JobStart
    | JobPaint(ok: bool)
    | JobSnapshot(ok: bool)
    | JobSurface(ok: bool)
    | JobResolve(ok: bool)
    | Resume(token: Token)
    | Abort(token: Token)
    | Commit(token: Token, fault: Fault, redrawFails: bool)
    | Discard(token: Token)
    | Leave                          // the `finally` of a preparation that is over
    | Reset
    | Free
    | Release                        // the deferred release after a reset, between jobs

  const INITIAL := State(0, false, 0, 0, {}, map[], [], None, Blank, map[], None,
                         Engine(None, None, false), Canvas(Blank, NOTHING), None)

  // ---- pieces of the adapter ----

  predicate Live(s: State, t: Token) {
    !s.freed && t == s.serial && t !in s.aborted
  }

  /** Every call to the engine goes through here. */
  function EngineCalled(s: State): State {
    s.(engine := s.engine.(misused := s.engine.misused || s.freed))
  }

  function EngineDiscard(s: State): State {
    var s' := EngineCalled(s);
    s'.(engine := s'.engine.(pending := None))
  }

  /** `engine.discard()` guarded by `token === serial`. */
  function DiscardIfCurrent(s: State, t: Token): State {
    if t == s.serial then EngineDiscard(s) else s
  }

  predicate Open(s: State, t: Token) {
    t in s.transactions && !s.transactions[t].settled
  }

  function Settle(s: State, t: Token): State
    requires t in s.transactions
  {
    s.(transactions := s.transactions[t := s.transactions[t].(settled := true)],
       pendingTransaction := if s.pendingTransaction == Some(t) then None else s.pendingTransaction)
  }

  function DiscardTransaction(s: State, t: Token): State {
    if Open(s, t) then DiscardIfCurrent(Settle(s, t), t) else s
  }

  function DiscardPending(s: State): State {
    if s.pendingTransaction.Some? then DiscardTransaction(s, s.pendingTransaction.value) else s
  }

  /** The preparation throws: its catch block. Its slot is given back later, by a `Leave`. */
  function Throw(s: State, t: Token): State {
    var s' := DiscardIfCurrent(s, t);
    s'.(preps := s'.preps[t := Over], leaving := s'.leaving + 1)
  }

  function LeavePrepare(s: State): State {
    if s.leaving == 0 then s
    else s.(leaving := s.leaving - 1, inFlight := if s.inFlight == 0 then 0 else s.inFlight - 1)
  }

  /** A new token: the pending transaction is discarded and the speculative scene dropped. */
  function Superseded(s: State): State {
    var s' := DiscardPending(s);
    EngineDiscard(s'.(serial := s'.serial + 1))
  }

  /** `prepareInner` up to its first await or its first exception. */
  function Inner(s: State, valid: bool): State {
    if s.freed then s
    else
      var s' := Superseded(s);
      if valid then s'.(preps := s'.preps[s'.serial := Loading]) else s'
  }

  function Entered(s: State): State {
    s.(inFlight := s.inFlight + 1)
  }

  /** One more preparation is over, and its `finally` is still to run. */
  function Thrown(s: State): State {
    s.(leaving := s.leaving + 1)
  }

  /** A preparation takes a slot even if it throws at once. */
  function StartPrepare(s: State, valid: bool): State {
    if s.inFlight >= 2 then s
    else if !s.freed && valid then Inner(Entered(s), valid)
    else Thrown(Inner(Entered(s), valid))
  }

  /** The raster job rejects; the preparation learns of it when it resumes. */
  function RejectJob(s: State, t: Token): State {
    s.(preps := s.preps[t := Rejected], running := None)
  }

  function Running(s: State): Token
    requires s.running.Some?
  {
    s.running.value
  }

  function StartJob(s: State): State {
    if s.running.Some? || s.queue == [] then s
    else
      var t, s' := s.queue[0], s.(queue := s.queue[1..]);
      if t !in s.preps || !s.preps[t].Queued? then s'
      else if !Live(s, t) then RejectJob(s', t)
      else s'.(running := Some(t), staging := Blank, preps := s'.preps[t := Painting(s.preps[t].geometry)])
  }

  function RunJob(s: State, event: Event): State
    requires s.running.Some? && Running(s) in s.preps
  {
    var t := Running(s);
    var prep := s.preps[t];
    match event
    case JobPaint(ok) =>
      if !prep.Painting? then s
      else if !ok then RejectJob(s, t)
      else s.(staging := Frame(t), preps := s.preps[t := Painted(prep.geometry)])
    case JobSnapshot(ok) =>
      if !prep.Painted? then s
      else if !ok || !Live(s, t) then RejectJob(s, t)
      else s.(preps := s.preps[t := Composing(Canvas(s.staging, prep.geometry))])
    case JobSurface(ok) =>
      if prep.Composing? && (!ok || !Live(s, t)) then RejectJob(s, t) else s
    case JobResolve(ok) =>
      if !prep.Composing? then s
      else if !ok then RejectJob(s, t)
      else s.(preps := s.preps[t := Ready(prep.canvas)], running := None)
    case _ => s
  }

  function ResumePrepare(s: State, t: Token): State {
    if t !in s.preps then s
    else if s.preps[t].Rejected? then Throw(s, t)
    else if s.preps[t].Ready? then
      if !Live(s, t) then Throw(s, t)
      else
        s.(transactions := s.transactions[t := Transaction(s.preps[t].canvas, false)],
           pendingTransaction := Some(t), preps := s.preps[t := Over], leaving := s.leaving + 1)
    else s
  }

  /** What the visible canvas shows after a rollback. */
  function RolledBack(s: State, redrawFails: bool): State {
    if Visible(s.canvas.geometry) && redrawFails then
      s.(canvas := s.canvas.(picture := Blank))
    else s
  }

  /** The canvas, the engine and the record all move to one preparation. */
  function Installed(s: State, t: Token): State
    requires t in s.transactions
  {
    s.(canvas := s.transactions[t].canvas,
       engine := EngineCalled(s).engine.(pending := None, committed := s.engine.pending),
       committed := Some(Record(t, s.transactions[t].canvas.geometry)))
  }

  /** `commit`, in one step: everything changes, or nothing does except that the transaction is settled
      and the speculative scene is dropped. */
  function CommitTransaction(s: State, t: Token, fault: Fault, redrawFails: bool): State {
    if !Open(s, t) then s
    else if !Live(s, t) || fault == EarlyFault then DiscardIfCurrent(Settle(s, t), t)
    else if fault == DrawFault || fault == EngineFault || s.engine.pending.None? then
      DiscardIfCurrent(Settle(RolledBack(s, redrawFails), t), t)
    else Installed(Settle(s, t), t)
  }

  function ResetRenderer(s: State): State {
    var s1 := DiscardPending(s);
    s1.(serial := s1.serial + 1, committed := None,
        engine := Engine(None, None, EngineCalled(s1).engine.misused))
  }

  function Released(s: State): State {
    s.(freed := true, serial := s.serial + 1, committed := None,
       canvas := Canvas(Blank, s.canvas.geometry.(width := 0, height := 0)),
       engine := Engine(None, None, s.engine.misused || s.freed))
  }

  function FreeRenderer(s: State): State {
    if s.freed then s else Released(DiscardPending(s))
  }

  function Exec(s: State, event: Event): State {
    match event
    case Prepare(valid) => StartPrepare(s, valid)
    case Resource(t, ok) =>
      if t !in s.preps || !s.preps[t].Loading? then s
      else if !ok || !Live(s, t) then Throw(s, t)
      else EngineCalled(s)
    case Layout(t, ok, geometry) =>
      if t !in s.preps || !s.preps[t].Loading? then s
      else if !ok || !Live(s, t) || !Visible(geometry) then Throw(s, t)
      else
        var s' := EngineCalled(s);
        s'.(engine := s'.engine.(pending := Some(t)), preps := s.preps[t := Queued(geometry)], queue := s.queue + [t])
    case JobStart => StartJob(s)
    case JobPaint(_) => if s.running.Some? && Running(s) in s.preps then RunJob(s, event) else s
    case JobSnapshot(_) => if s.running.Some? && Running(s) in s.preps then RunJob(s, event) else s
    case JobSurface(_) => if s.running.Some? && Running(s) in s.preps then RunJob(s, event) else s
    case JobResolve(_) => if s.running.Some? && Running(s) in s.preps then RunJob(s, event) else s
    case Resume(t) => ResumePrepare(s, t)
    case Abort(t) => s.(aborted := s.aborted + {t})
    case Commit(t, fault, redrawFails) => CommitTransaction(s, t, fault, redrawFails)
    case Discard(t) => DiscardTransaction(s, t)
    case Leave => LeavePrepare(s)
    case Reset => ResetRenderer(s)
    case Free => FreeRenderer(s)
    case Release => if s.running.None? then s.(staging := Blank) else s
  }

  function Run(s: State, events: seq<Event>): State
    decreases |events|
  {
    if events == [] then s else Run(Exec(s, events[0]), events[1..])
  }
}
