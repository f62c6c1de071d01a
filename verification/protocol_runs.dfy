/** Building runs of the whole system one step at a time. */
module ProtocolRuns {
  import opened Bucket
  import opened Protocol
  import opened ProtocolTheorems

  lemma RunThen(s: System, events: seq<Event>, event: Event)
    ensures Run(s, events + [event]) == Exec(Run(s, events), event)
  {
    RunAppends(s, events, [event]);
    RunOne(Run(s, events), event);
  }

  /** The system with one program at this position and this bucket. */
  function With(s: System, id: Id, p: Proc, b: Objects): System {
    s.(procs := s.procs[id := p], bucket := b)
  }

  lemma StepsOn(s: System, id: Id, p: Proc, b: Objects, c: Choice, q: Proc, e: Effect)
    requires Act(p, b, s.files, c) == (q, e) && (e.Quiet? || e.Put?)
    ensures Exec(With(s, id, p, b), Step(id, c)) == With(s, id, q, After(b, e))
  {
    assert s.procs[id := p][id := q] == s.procs[id := q];
  }

  lemma GoesOn(s: System, events: seq<Event>, id: Id, p: Proc, b: Objects, c: Choice, q: Proc, e: Effect) returns (longer: seq<Event>)
    requires Run(s, events) == With(s, id, p, b) && Act(p, b, s.files, c) == (q, e) && (e.Quiet? || e.Put?)
    ensures Run(s, longer) == With(s, id, q, After(b, e))
  {
    longer := events + [Step(id, c)];
    RunThen(s, events, Step(id, c));
    StepsOn(s, id, p, b, c, q, e);
  }

  lemma Starts(s: System, id: Id, p: Proc) returns (events: seq<Event>)
    requires id !in s.procs && Startable(p)
    ensures Run(s, events) == With(s, id, p, s.bucket)
  {
    events := [Start(id, p)];
    RunOne(s, Start(id, p));
  }
}
