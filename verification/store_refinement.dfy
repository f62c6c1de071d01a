/** Every run of the interleaved system drives each program exactly as the methods of `Store` drive theirs. */
module StoreRefinement {
  import opened Bucket
  import opened Protocol
  import opened Store

  /** What one program finds at its steps in a run. */
  function Views(s: System, id: Id, events: seq<Event>): seq<View>
    decreases |events|
  {
    if events == [] then []
    else
      var later := Views(Exec(s, events[0]), id, events[1..]);
      if events[0].Step? && events[0].id == id then [View(s.bucket, s.files, events[0].choice)] + later else later
  }

  /** What one program does at its steps in a run. */
  function Deeds(s: System, id: Id, events: seq<Event>): seq<Effect>
    decreases |events|
  {
    if events == [] then []
    else
      var later := Deeds(Exec(s, events[0]), id, events[1..]);
      if events[0].Step? && events[0].id == id && id in s.procs
      then [Act(s.procs[id], s.bucket, s.files, events[0].choice).1] + later else later
  }

  lemma {:induction false} FromFront(p: Proc, v: View, later: seq<View>)
    ensures var (q, e) := Act(p, v.objects, v.files, v.choice);
            Driven(p, [v] + later) == Driven(q, later) && Effects(p, [v] + later) == [e] + Effects(q, later)
    decreases |later|
  {
    var seen := [v] + later;
    if later == [] {
      assert seen[..0] == [];
    } else {
      FromFront(p, v, later[..|later| - 1]);
      assert seen[..|seen| - 1] == [v] + later[..|later| - 1];
    }
  }

  /** A program that is not stopped from outside is, after any run, where the views of its own steps drive
      it, and has done exactly the effects of those steps, whatever the others did between them. */
  lemma {:induction false} RunIsDriven(s: System, id: Id, events: seq<Event>)
    requires id in s.procs && forall i | 0 <= i < |events| :: events[i] != Stop(id)
    ensures id in Run(s, events).procs
    ensures Follows(s.procs[id], Views(s, id, events), Deeds(s, id, events), Run(s, events).procs[id])
    decreases |events|
  {
    if events != [] {
      var event, t := events[0], Exec(s, events[0]);
      assert event != Stop(id);
      assert forall i | 0 <= i < |events| - 1 :: events[1..][i] == events[i + 1];
      RunIsDriven(t, id, events[1..]);
      if event.Step? && event.id == id {
        FromFront(s.procs[id], View(s.bucket, s.files, event.choice), Views(t, id, events[1..]));
      }
    }
  }

  /** And one that is stopped takes no further step. */
  lemma {:induction false} StoppedStays(s: System, id: Id, events: seq<Event>)
    requires id in s.procs && s.procs[id] == Stopped
    ensures id in Run(s, events).procs && Run(s, events).procs[id] == Stopped
    ensures forall e <- Deeds(s, id, events) :: e.Quiet?
    decreases |events|
  {
    if events != [] { StoppedStays(Exec(s, events[0]), id, events[1..]); }
  }
}
