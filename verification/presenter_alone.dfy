/** A preparation that nothing disturbs, and what a failed rollback can leave. */
module PresenterAlone {
  import opened Common
  import opened Presenter
  import opened PresenterTheorems

  /** The events that take one preparation from its request to an open transaction. */
  function Undisturbed(t: Token, g: Geometry): seq<Event> {
    LayoutEvents(t, g) + RasterEvents() + [Resume(t), Leave]
  }

  function LayoutEvents(t: Token, g: Geometry): seq<Event> {
    [Prepare(true), Layout(t, true, g), JobStart]
  }

  function RasterEvents(): seq<Event> {
    [JobPaint(true), JobSnapshot(true), JobResolve(true)]
  }

  /** A renderer at rest, ready for its next preparation. */
  predicate Idle(s: State) {
    && !s.freed && s.inFlight == 0 && s.leaving == 0 && s.queue == [] && s.running.None? && s.pendingTransaction.None?
    && s.aborted == {}
    && (forall t :: t in s.preps ==> t <= s.serial) && (forall t :: t in s.transactions ==> t <= s.serial)
  }

  /** The renderer with one new preparation under way. */
  function Underway(s: State, t: Token, p: Prep, laidOut: bool, queue: seq<Token>, running: Option<Token>, staging: Picture): State {
    s.(serial := t, inFlight := 1, preps := s.preps[t := p], queue := queue, running := running, staging := staging,
       engine := s.engine.(pending := if laidOut then Some(t) else None))
  }

  lemma Overwritten(preps: map<Token, Prep>, t: Token, p: Prep, q: Prep)
    ensures preps[t := p][t := q] == preps[t := q]
  {
  }

  lemma Loads(s: State)
    requires Idle(s)
    ensures Exec(s, Prepare(true)) == Underway(s, s.serial + 1, Loading, false, [], None, s.staging)
  {
  }

  lemma LaysOut(s: State, t: Token, g: Geometry)
    requires Idle(s) && Visible(g)
    ensures Exec(Underway(s, t, Loading, false, [], None, s.staging), Layout(t, true, g))
         == Underway(s, t, Queued(g), true, [t], None, s.staging)
  {
    Overwritten(s.preps, t, Loading, Queued(g));
  }

  lemma StartsJob(s: State, t: Token, g: Geometry)
    requires Idle(s) && Visible(g)
    ensures Exec(Underway(s, t, Queued(g), true, [t], None, s.staging), JobStart)
         == Underway(s, t, Painting(g), true, [], Some(t), Blank)
  {
    Overwritten(s.preps, t, Queued(g), Painting(g));
  }

  lemma SecondHalf(s: State, g: Geometry)
    requires Idle(s) && Visible(g)
    ensures var t := s.serial + 1;
            var c := Canvas(Frame(t), g);
            && Exec(Underway(s, t, Painting(g), true, [], Some(t), Blank), JobPaint(true))
                 == Underway(s, t, Painted(g), true, [], Some(t), Frame(t))
            && Exec(Underway(s, t, Painted(g), true, [], Some(t), Frame(t)), JobSnapshot(true))
                 == Underway(s, t, Composing(c), true, [], Some(t), Frame(t))
            && Exec(Underway(s, t, Composing(c), true, [], Some(t), Frame(t)), JobResolve(true))
                 == Underway(s, t, Ready(c), true, [], None, Frame(t))
  {
    var t := s.serial + 1;
    var c := Canvas(Frame(t), g);
    Overwritten(s.preps, t, Painting(g), Painted(g));
    Overwritten(s.preps, t, Painted(g), Composing(c));
    Overwritten(s.preps, t, Composing(c), Ready(c));
  }

  /** The renderer with the new preparation's transaction open. */
  function Opened(s: State, t: Token, g: Geometry): State {
    s.(serial := t, preps := s.preps[t := Over], staging := Frame(t),
       transactions := s.transactions[t := Transaction(Canvas(Frame(t), g), false)],
       pendingTransaction := Some(t), engine := s.engine.(pending := Some(t)))
  }

  lemma Opens(s: State, g: Geometry)
    requires Idle(s) && Visible(g)
    ensures var t := s.serial + 1;
            Exec(Exec(Underway(s, t, Ready(Canvas(Frame(t), g)), true, [], None, Frame(t)), Resume(t)), Leave) == Opened(s, t, g)
  {
  }

  lemma RunThree(s: State, a: Event, b: Event, c: Event)
    ensures Run(s, [a, b, c]) == Exec(Exec(Exec(s, a), b), c)
  {
    assert [a, b, c] == [a] + [b] + [c];
    RunChain(s, [a], [b], [c]);
    RunOne(s, a);
    RunOne(Exec(s, a), b);
    RunOne(Exec(Exec(s, a), b), c);
  }

  lemma RunChain(s: State, a: seq<Event>, b: seq<Event>, c: seq<Event>)
    ensures Run(s, a + b + c) == Run(Run(Run(s, a), b), c)
  {
    RunAppends(s, a + b, c);
    RunAppends(s, a, b);
  }

  /** An undisturbed preparation opens a transaction that carries its own frame. */
  lemma PreparationOpens(s: State, g: Geometry)
    requires Idle(s) && Visible(g)
    ensures Run(s, Undisturbed(s.serial + 1, g)) == Opened(s, s.serial + 1, g)
  {
    var t := s.serial + 1;
    RunChain(s, LayoutEvents(t, g), RasterEvents(), [Resume(t), Leave]);
    LayoutRuns(s, g);
    RasterRuns(s, g);
    Opens(s, g);
    var ready := Underway(s, t, Ready(Canvas(Frame(t), g)), true, [], None, Frame(t));
    RunThen(ready, [Resume(t)], Leave, Exec(ready, Resume(t)));
    assert [Resume(t)] + [Leave] == [Resume(t), Leave];
  }

  lemma LayoutRuns(s: State, g: Geometry)
    requires Idle(s) && Visible(g)
    ensures var t := s.serial + 1; Run(s, LayoutEvents(t, g)) == Underway(s, t, Painting(g), true, [], Some(t), Blank)
  {
    Loads(s);
    LaysOut(s, s.serial + 1, g);
    StartsJob(s, s.serial + 1, g);
    RunThree(s, Prepare(true), Layout(s.serial + 1, true, g), JobStart);
  }

  lemma RasterRuns(s: State, g: Geometry)
    requires Idle(s) && Visible(g)
    ensures var t := s.serial + 1;
            Run(Underway(s, t, Painting(g), true, [], Some(t), Blank), RasterEvents())
              == Underway(s, t, Ready(Canvas(Frame(t), g)), true, [], None, Frame(t))
  {
    SecondHalf(s, g);
    var t := s.serial + 1;
    RunThree(Underway(s, t, Painting(g), true, [], Some(t), Blank), JobPaint(true), JobSnapshot(true), JobResolve(true));
  }

  lemma RunThen(s: State, past: seq<Event>, event: Event, mid: State)
    requires Run(s, past) == mid
    ensures Run(s, past + [event]) == Exec(mid, event)
  {
    RunAppends(s, past, [event]);
    RunOne(mid, event);
  }

  lemma SomeRunOpens(s: State, g: Geometry) returns (events: seq<Event>)
    requires Idle(s) && Visible(g)
    ensures Run(s, events) == Opened(s, s.serial + 1, g)
  {
    events := Undisturbed(s.serial + 1, g);
    PreparationOpens(s, g);
  }

  /** An undisturbed preparation and its commit. */
  lemma CycleRuns(s: State, g: Geometry, fault: Fault, redrawFails: bool) returns (events: seq<Event>)
    requires Idle(s) && Visible(g)
    ensures var t := s.serial + 1; Run(s, events) == CommitTransaction(Opened(s, t, g), t, fault, redrawFails)
  {
    var t := s.serial + 1;
    events := SomeRunOpens(s, g);
    RunThen(s, events, Commit(t, fault, redrawFails), Opened(s, t, g));
    events := events + [Commit(t, fault, redrawFails)];
  }

  /** The commit of an undisturbed preparation shows its frame and leaves the renderer at rest again. */
  lemma CommitShows(s: State, g: Geometry)
    requires Idle(s) && Visible(g)
    ensures var t := s.serial + 1;
            var s' := CommitTransaction(Opened(s, t, g), t, NoFault, false);
            && Idle(s') && s'.serial == t && s'.committed == Some(Record(t, g))
            && s'.canvas == Canvas(Frame(t), g) && s'.engine.committed == Some(t)
  {
  }

  lemma FailedCommitSmudges(s: State, g: Geometry)
    requires Idle(s) && Visible(g) && Visible(s.canvas.geometry)
    ensures var t := s.serial + 1;
            var s' := CommitTransaction(Opened(s, t, g), t, EngineFault, true);
            s'.committed == s.committed && s'.canvas == s.canvas.(picture := Blank) && s'.engine.committed == s.engine.committed
  {
  }

  /** The canvas can fall out of step with the record: after one commit, a second commit whose engine and
      whose rollback redraw both throw leaves the first record over a blank canvas. */
  lemma LostRedraw(s: State, g: Geometry) returns (events: seq<Event>)
    requires Idle(s) && Visible(g)
    ensures var s', t := Run(s, events), s.serial + 1;
            s'.committed == Some(Record(t, g)) && s'.canvas == Canvas(Blank, g) && s'.engine.committed == Some(t)
  {
    CommitShows(s, g);
    var first := CycleRuns(s, g, NoFault, false);
    var mid := Run(s, first);
    FailedCommitSmudges(mid, g);
    var second := CycleRuns(mid, g, EngineFault, true);
    RunAppends(s, first, second);
    events := first + second;
  }

  lemma InitiallyIdle()
    ensures Idle(INITIAL) && Inv(INITIAL) && Counted(INITIAL)
  {
  }
}
