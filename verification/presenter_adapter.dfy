/** The synchronous operations of the adapter as it writes them: closure variables updated one after the
    other, exceptions, and a rollback. Each is proved to be one event of `Presenter`. */
module PresenterAdapter {
  import opened Common
  import opened Presenter

  /** The order of the last bookkeeping does not matter. */
  lemma SettlingCommutes(s: State, t: Token)
    requires t in s.transactions
    ensures Settle(DiscardIfCurrent(s, t), t) == DiscardIfCurrent(Settle(s, t), t)
    ensures Settle(Installed(s, t), t) == Installed(Settle(s, t), t)
  {
  }

  class Adapter {
    var serial: Token
    var freed: bool
    var inFlight: nat
    var leaving: nat
    var aborted: set<Token>
    var preps: map<Token, Prep>
    var queue: seq<Token>
    var running: Option<Token>
    var staging: Picture
    var transactions: map<Token, Transaction>
    var pendingTransaction: Option<Token>
    var engine: Engine
    var canvas: Canvas
    var committed: Option<Record>

    function Now(): State
      reads this
    {
      State(serial, freed, inFlight, leaving, aborted, preps, queue, running, staging, transactions,
            pendingTransaction, engine, canvas, committed)
    }

    constructor ()
      ensures Now() == INITIAL
    {
      serial, freed, inFlight, leaving, aborted, preps, queue, running := 0, false, 0, 0, {}, map[], [], None;
      staging, transactions, pendingTransaction, engine := Blank, map[], None, Engine(None, None, false);
      canvas, committed := Canvas(Blank, NOTHING), None;
    }

    method DiscardEngine()
      modifies this`engine
      ensures Now() == EngineDiscard(old(Now()))
    {
      engine := Engine(None, engine.committed, engine.misused || freed);
    }

    method Discard(t: Token)
      modifies this`transactions, this`pendingTransaction, this`engine
      ensures Now() == DiscardTransaction(old(Now()), t)
    {
      if t !in transactions || transactions[t].settled { return; }
      transactions := transactions[t := transactions[t].(settled := true)];
      if pendingTransaction == Some(t) { pendingTransaction := None; }
      if t == serial { DiscardEngine(); }
    }

    method DiscardPendingTransaction()
      modifies this`transactions, this`pendingTransaction, this`engine
      ensures Now() == DiscardPending(old(Now()))
    {
      if pendingTransaction.Some? { Discard(pendingTransaction.value); }
    }

    /** Supersede every earlier preparation. */
    method TakeToken()
      modifies this`serial, this`transactions, this`pendingTransaction, this`engine
      ensures Now() == Superseded(old(Now()))
    {
      DiscardPendingTransaction();
      serial := serial + 1;
      DiscardEngine();
    }

    /** The synchronous start of `prepareInner`, up to its first await or its first exception. */
    method PrepareInner(valid: bool) returns (token: Option<Token>)
      modifies this`serial, this`transactions, this`pendingTransaction, this`engine, this`preps
      ensures token == if !freed && valid then Some(serial) else None
      ensures Now() == Inner(old(Now()), valid)
    {
      if freed { return None; }
      TakeToken();
      if !valid { return None; }
      preps := preps[serial := Loading];
      token := Some(serial);
    }

    method Enter()
      modifies this`inFlight
      ensures Now() == Entered(old(Now()))
    {
      inFlight := inFlight + 1;
    }

    /** A preparation that throws at once keeps its slot until its `finally` runs. */
    method Throw()
      modifies this`leaving
      ensures Now() == Thrown(old(Now()))
    {
      leaving := leaving + 1;
    }

    method TryInner(valid: bool) returns (token: Option<Token>)
      modifies this`leaving, this`serial, this`transactions, this`pendingTransaction, this`engine, this`preps
      ensures token.Some? <==> !old(freed) && valid
      ensures Now() == if token.Some? then Inner(old(Now()), valid) else Thrown(Inner(old(Now()), valid))
    {
      token := PrepareInner(valid);
      if token.None? { Throw(); }
    }

    /** `prepare`: backpressure around `prepareInner`. */
    method Prepare(valid: bool) returns (token: Option<Token>)
      modifies this`inFlight, this`leaving, this`serial, this`transactions, this`pendingTransaction, this`engine, this`preps
      ensures Now() == StartPrepare(old(Now()), valid)
      ensures token.Some? <==> old(inFlight) < 2 && !old(freed) && valid
    {
      if inFlight >= 2 { return None; }
      Enter();
      token := TryInner(valid);
    }

    /** The `finally` of a preparation that is over. */
    method Finally()
      modifies this`inFlight, this`leaving
      ensures Now() == LeavePrepare(old(Now()))
    {
      if leaving > 0 {
        leaving := leaving - 1;
        if inFlight > 0 { inFlight := inFlight - 1; }
      }
    }

    /** Resize the visible canvas, draw the prepared one and set its footprint. */
    method Draw(prepared: Canvas, fault: Fault) returns (thrown: bool)
      modifies this`canvas
      ensures thrown <==> fault == DrawFault
      ensures !thrown ==> canvas == prepared
    {
      canvas := Canvas(Blank, canvas.geometry.(width := 0, height := 0));
      canvas := canvas.(geometry := canvas.geometry.(width := prepared.geometry.width, height := prepared.geometry.height));
      if fault == DrawFault { return true; }
      canvas := canvas.(picture := prepared.picture);
      canvas := canvas.(geometry := canvas.geometry.(cssWidth := prepared.geometry.cssWidth, cssHeight := prepared.geometry.cssHeight));
      thrown := false;
    }

    /** The body of `commit`: draw the prepared canvas, then commit the engine, then keep the record. */
    method Install(t: Token, fault: Fault) returns (thrown: bool)
      requires t in transactions
      modifies this`canvas, this`engine, this`committed
      ensures thrown <==> fault == DrawFault || fault == EngineFault || old(engine).pending.None?
      ensures thrown ==> Now() == old(Now()).(canvas := canvas)
      ensures !thrown ==> Now() == Installed(old(Now()), t)
    {
      thrown := Draw(transactions[t].canvas, fault);
      if thrown { return; }
      if fault == EngineFault || engine.pending.None? { return true; }
      engine := Engine(None, engine.pending, engine.misused || freed);
      committed := Some(Record(t, canvas.geometry));
    }

    /** The rollback in the catch block. */
    method Rollback(was: Geometry, backup: Picture, redrawFails: bool)
      modifies this`canvas
      ensures canvas == Canvas(if Visible(was) && !redrawFails then backup else Blank, was)
    {
      canvas := Canvas(Blank, canvas.geometry.(width := 0, height := 0));
      canvas := canvas.(geometry := canvas.geometry.(width := was.width, height := was.height));
      canvas := canvas.(geometry := canvas.geometry.(cssWidth := was.cssWidth, cssHeight := was.cssHeight));
      if Visible(was) && !redrawFails { canvas := canvas.(picture := backup); }
    }

    /** The `try` and `catch` of `commit`, without the guarded engine discard. */
    method Attempt(t: Token, fault: Fault, redrawFails: bool) returns (thrown: bool)
      requires t in transactions && (!Visible(canvas.geometry) ==> canvas.picture == Blank)
      modifies this`canvas, this`engine, this`committed
      ensures !thrown <==> Live(old(Now()), t) && fault == NoFault && old(engine).pending.Some?
      ensures Now() == (if !thrown then Installed(old(Now()), t)
                        else if !Live(old(Now()), t) || fault == EarlyFault then old(Now())
                        else RolledBack(old(Now()), redrawFails))
    {
      if freed || t != serial || t in aborted || fault == EarlyFault { return true; }
      var was, backup := canvas.geometry, canvas.picture;
      thrown := Install(t, fault);
      if thrown { Rollback(was, backup, redrawFails); }
    }

    method SettleTransaction(t: Token)
      requires t in transactions
      modifies this`transactions, this`pendingTransaction
      ensures Now() == Settle(old(Now()), t)
    {
      transactions := transactions[t := transactions[t].(settled := true)];
      if pendingTransaction == Some(t) { pendingTransaction := None; }
    }

    /** `commit`: the fault says where it throws, and `redrawFails` whether the rollback's own redraw
        throws as well. */
    method Commit(t: Token, fault: Fault, redrawFails: bool) returns (thrown: bool)
      requires !Visible(canvas.geometry) ==> canvas.picture == Blank
      modifies this`canvas, this`engine, this`committed, this`transactions, this`pendingTransaction
      ensures Now() == CommitTransaction(old(Now()), t, fault, redrawFails)
      ensures !thrown <==> Open(old(Now()), t) && Live(old(Now()), t) && fault == NoFault && old(engine).pending.Some?
    {
      if t !in transactions || transactions[t].settled { return true; }
      thrown := Attempt(t, fault, redrawFails);
      ghost var attempted := Now();
      if thrown && t == serial { DiscardEngine(); }
      SettleTransaction(t);
      SettlingCommutes(attempted, t);
      SettlingCommutes(old(Now()), t);
    }

    method Reset()
      modifies this`serial, this`transactions, this`pendingTransaction, this`engine, this`committed
      ensures Now() == ResetRenderer(old(Now()))
    {
      DiscardPendingTransaction();
      serial := serial + 1;
      committed := None;
      engine := Engine(None, None, engine.misused || freed);
    }

    method Free()
      modifies this`freed, this`serial, this`transactions, this`pendingTransaction, this`engine, this`canvas, this`committed
      ensures Now() == FreeRenderer(old(Now()))
    {
      if freed { return; }
      DiscardPendingTransaction();
      Release();
    }

    method Release()
      modifies this`freed, this`serial, this`engine, this`canvas, this`committed
      ensures Now() == Released(old(Now()))
    {
      engine := Engine(None, None, engine.misused || freed);
      freed, serial := true, serial + 1;
      canvas := Canvas(Blank, canvas.geometry.(width := 0, height := 0));
      committed := None;
    }
  }
}
