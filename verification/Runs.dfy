/** Concrete runs: a path is grown event by event, and notes every event that is not what a
    theorem would like to see. */
module Runs {
  import opened Tables
  import opened Protocol

  /** A failing call, a stop that did not find its process, an activation of a container, and a
      respawn by hand. */
  datatype Deviation =
    | Fails(pc: Pc)
    | Overlooks(pc: Pc)
    | Activates(e: Event)
    | ByHand(a: AgentId)

  function Deviates(s: State, e: Event): seq<Deviation> {
    match e
    case Step(t, c) =>
      if t !in s.threads then []
      else if c.Fail? then [Fails(s.threads[t])]
      else if c.Missed? then [Overlooks(s.threads[t])]
      else []
    case Begin(_, pc) => if pc.Resume? then [ByHand(pc.res.a)] else []
    case ActivateRepo(_) => [Activates(e)]
    case ActivateWorkstream(_) => [Activates(e)]
    case ActivateSprint(_) => [Activates(e)]
    case _ => []
  }

  /** All deviations of a run, in order. */
  function Deviations(states: seq<State>, events: seq<Event>): seq<Deviation>
    requires |states| == |events| + 1
  {
    if events == [] then []
    else
      var k := |events| - 1;
      Deviations(states[..k + 1], events[..k]) + Deviates(states[k], events[k])
  }

  datatype Path = Start(s: State) | Then(before: Path, e: Event, s: State) {
    ghost predicate Valid() {
      Then? ==> before.Valid() && Apply(before.s, e) == Some(s)
    }

    function First(): State { if Start? then s else before.First() }

    function States(): (states: seq<State>)
      ensures |states| == |Events()| + 1 && states[0] == First() && states[|Events()|] == s
    {
      if Start? then [s] else before.States() + [s]
    }

    function Events(): seq<Event> { if Start? then [] else before.Events() + [e] }

    function Noted(): seq<Deviation> {
      if Start? then [] else before.Noted() + Deviates(before.s, e)
    }
  }

  lemma {:induction false} PathFollows(p: Path)
    requires p.Valid()
    ensures forall i :: 0 <= i < |p.Events()| ==> Follows(p.States(), p.Events(), i)
    ensures Deviations(p.States(), p.Events()) == p.Noted()
  {
    hide Apply, Deviates;
    if p.Then? {
      PathFollows(p.before);
      var states, events, k := p.before.States(), p.before.Events(), |p.before.Events()|;
      assert p.States()[..k + 1] == states && p.Events()[..k] == events;
      forall i | 0 <= i < |p.Events()| ensures Follows(p.States(), p.Events(), i) {
        if i < k { assert Follows(states, events, i); }
      }
    }
  }

  /** A path from an initial state is a run. */
  lemma PathIsRun(p: Path)
    requires p.Valid() && Init(p.First())
    ensures IsRun(p.States(), p.Events()) && p.States()[|p.Events()|] == p.s
    ensures Deviations(p.States(), p.Events()) == p.Noted()
  {
    hide Init, Apply, Deviates;
    PathFollows(p);
  }

  /** q goes on where p ends, with these deviations. */
  ghost predicate Extends(p: Path, q: Path, noted: seq<Deviation>) {
    q.Valid() && q.First() == p.First() && q.Noted() == p.Noted() + noted
  }

  lemma Starts(s: State) returns (p: Path)
    requires Init(s)
    ensures p.Valid() && Init(p.First()) && p.Noted() == [] && p.s == s
  {
    hide Init;
    p := Start(s);
  }

  lemma Grow(p: Path, e: Event, s': State) returns (q: Path)
    requires p.Valid() && Apply(p.s, e) == Some(s')
    ensures Extends(p, q, Deviates(p.s, e)) && q.s == s'
  {
    hide Apply, Deviates;
    q := Then(p, e, s');
  }

  /** One step of t, with whatever effect the code there has. */
  lemma Go(p: Path, t: Tid, c: Choice) returns (q: Path)
    requires p.Valid() && t in p.s.threads && Plan(p.s, p.s.threads[t], c).Some?
    requires Grantable(p.s, Plan(p.s, p.s.threads[t], c).value)
    ensures Extends(p, q, if c.Fail? then [Fails(p.s.threads[t])]
                          else if c.Missed? then [Overlooks(p.s.threads[t])] else [])
    ensures q.s == Perform(p.s, t, Plan(p.s, p.s.threads[t], c).value)
  {
    hide Plan, Perform, Extends, Path.Valid;
    q := Grow(p, Step(t, c), Perform(p.s, t, Plan(p.s, p.s.threads[t], c).value));
  }

  /** A request or a lane begins. */
  lemma Begins(p: Path, t: Tid, pc: Pc) returns (q: Path)
    requires p.Valid() && t !in p.s.threads && Entry(p.s, pc)
    ensures Extends(p, q, if pc.Resume? then [ByHand(pc.res.a)] else [])
    ensures q.s == p.s.(threads := p.s.threads[t := pc], named := Named(p.s, pc))
  {
    hide Entry, Named, StepThread, Extends, Path.Valid;
    q := Grow(p, Begin(t, pc), p.s.(threads := p.s.threads[t := pc], named := Named(p.s, pc)));
  }

  /** A terminal disappears from the enumeration. */
  lemma Vanishes(p: Path, h: Handle) returns (q: Path)
    requires p.Valid()
    ensures Extends(p, q, []) && q.s == p.s.(world := p.s.world.Kill(h))
  {
    hide Entry, StepThread, Extends, Path.Valid;
    q := Grow(p, TerminalVanishes(h), p.s.(world := p.s.world.Kill(h)));
  }

  lemma Reopens(p: Path, sprint: SprintId) returns (q: Path)
    requires p.Valid()
    ensures Extends(p, q, [Activates(ActivateSprint(sprint))])
    ensures q.s == p.s.(db := p.s.db.SetSprintStatus(sprint, Active))
  {
    hide Entry, StepThread, Extends, Path.Valid;
    q := Grow(p, ActivateSprint(sprint), p.s.(db := p.s.db.SetSprintStatus(sprint, Active)));
  }
}
