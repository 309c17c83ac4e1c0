/** What the supervisor's lanes do not overlook: a tick settles every Active agent of its workstream
    whose terminal is missing, or that it finds stale and whose child has exited, and a child-exit
    report settles the incarnation it is about. */
module Ticks {
  import opened Tables
  import opened Protocol
  import opened Interference
  import opened Homes
  import opened Sections
  import opened Requests
  import IncarnationCoherence

  /** What a lane is to settle: agent a on terminal h, missing or with its child exited; or agent a
      in the incarnation of nonce n. */
  datatype Matter = Lost(a: AgentId, h: Handle) | Idle(a: AgentId, h: Handle) | Told(a: AgentId, n: Nonce)

  function ItemOf(x: Matter): Item {
    match x
    case Lost(a, h) => Vanished(a, h)
    case Idle(a, _) => Stale(a)
    case Told(a, n) => Reported(a, n)
  }

  /** The agent is Active as before. */
  ghost predicate Open(db: Db, x: Matter) {
    && IsActive(db, x.a)
    && match x
       case Lost(a, h) => db.agents[a].handle == h
       case Idle(a, h) => db.agents[a].handle == h
       case Told(a, n) => db.agents[a].nonce == n
  }

  /** It will not come back by itself. */
  ghost predicate Hopeless(world: World, x: Matter) {
    match x
    case Lost(_, h) => Gone(world, h)
    case Idle(_, h) => h in world.spawned && h !in world.alive
    case Told(_, n) => IncarnationCoherence.UsedNonce(world, n)
  }

  /** The code is dealing with the matter. */
  ghost predicate InHand(pc: Pc, x: Matter) {
    match pc
    case Lane(LaneProbe(item, _, _)) => item == ItemOf(x) && x.Idle?
    case Lane(Mark(item, _, _, _)) => item == ItemOf(x)
    case Lane(KillOld(item, _, _)) => item == ItemOf(x)
    case Lane(AbandonLog(item, _, _)) => item == ItemOf(x)
    case Resume(Respawn(b, _)) => b == x.a
    case Resume(Persist(b, g, m, _)) => b == x.a && (if x.Told? then m != x.n else g != x.h)
    case Exit(ExitFlip(b, _, kill, after)) => b == x.a && after.ToLane?
    case _ => false
  }

  /** Or it is on its way to it. */
  ghost predicate Pursues(db: Db, pc: Pc, x: Matter) {
    match pc
    case Lane(TickList(w, stale)) =>
      !stale && x.Lost? && x.a in db.AgentsOfWorkstream(w)
    case Lane(TickEnum(rows)) => x.Lost? && ItemOf(x) in rows
    case Resume(KillNew(_, _, _)) => false
    case _ => InHand(pc, x) || ItemOf(x) in Queue(pc)
  }

  lemma ListsRow(db: Db, xs: seq<nat>, stale: bool, a: AgentId)
    requires a in xs && IsActive(db, a)
    ensures (if stale then Stale(a) else Vanished(a, db.agents[a].handle)) in RowItems(db, xs, stale)
  {}

  lemma {:induction rows} MissingStays(rows: seq<Item>, live: set<Handle>, item: Item)
    requires item in rows && item.Vanished? && item.h !in live
    ensures item in Missing(rows, live)
  {}

  ghost predicate OnIt(s: State, eff: Effect, x: Matter) {
    Open(Run(s.db, eff.stmt), x) ==> eff.next.Some? && Pursues(Run(s.db, eff.stmt), eff.next.value, x)
  }

  lemma TickOn(s: State, k: LanePc, c: Choice, eff: Effect, x: Matter)
    requires (k.TickList? || k.TickEnum? || k.LaneNext?) && Pursues(s.db, Lane(k), x) && StepLane(s, k, c) == Some(eff)
    requires Open(s.db, x) && Hopeless(s.world, x) && (c.Fail? ==> CallAt(Lane(k)) == NoCall)
    ensures OnIt(s, eff, x)
  {
    if k.TickList? { ListsRow(s.db, c.xs, k.stale, x.a); }
    if k.TickEnum? { MissingStays(k.rows, s.world.present, ItemOf(x)); }
  }

  lemma ReadOn(s: State, k: LanePc, c: Choice, eff: Effect, x: Matter)
    requires k.LaneRead? && Pursues(s.db, Lane(k), x) && StepLane(s, k, c) == Some(eff)
    requires Open(s.db, x) && !c.Fail? && QueueOk(s.db, s.world, Queue(Lane(k)))
    ensures OnIt(s, eff, x)
  {
    hide RowItems, Missing;
    if k.item != ItemOf(x) { assert ItemOf(x) in k.rest && k.item in Queue(Lane(k)); }
  }

  lemma LaneOn(s: State, k: LanePc, c: Choice, eff: Effect, x: Matter)
    requires !k.TickList? && !k.TickEnum? && !k.LaneNext? && !k.LaneRead?
    requires Pursues(s.db, Lane(k), x) && StepLane(s, k, c) == Some(eff)
    requires Open(s.db, x) && Hopeless(s.world, x) && !c.Fail? && Homes.ThreadOk(s.db, s.world, Lane(k))
    ensures OnIt(s, eff, x)
  {
    hide RowItems, Missing, QueueOk;
  }

  lemma ResumeOn(s: State, k: ResumePc, c: Choice, eff: Effect, x: Matter)
    requires Pursues(s.db, Resume(k), x) && StepResume(s, k, c) == Some(eff)
    requires Open(s.db, x) && Hopeless(s.world, x) && (c.Fail? ==> CallAt(Resume(k)) == NoCall)
    ensures OnIt(s, eff, x)
  {}

  lemma ExitOn(s: State, k: ExitPc, c: Choice, eff: Effect, x: Matter)
    requires Pursues(s.db, Exit(k), x) && StepExit(s, k, c) == Some(eff)
    requires Open(s.db, x) && (c.Fail? ==> CallAt(Exit(k)) == NoCall)
    ensures OnIt(s, eff, x)
  {}

  lemma PursuitStep(s: State, pc: Pc, c: Choice, eff: Effect, x: Matter)
    requires Pursues(s.db, pc, x) && Plan(s, pc, c) == Some(eff) && Homes.ThreadOk(s.db, s.world, pc)
    requires Open(s.db, x) && Hopeless(s.world, x) && (c.Fail? ==> CallAt(pc) == NoCall)
    ensures OnIt(s, eff, x)
  {
    hide StepLane, StepResume, StepExit, StepCheck, StepLaunch, StepAdopt, StepCascade, OnIt, Open, Hopeless;
    match pc
    case Lane(k) =>
      if k.TickList? || k.TickEnum? || k.LaneNext? { TickOn(s, k, c, eff, x); }
      else if k.LaneRead? { ReadOn(s, k, c, eff, x); }
      else { LaneOn(s, k, c, eff, x); }
    case Resume(k) => ResumeOn(s, k, c, eff, x);
    case Exit(k) => ExitOn(s, k, c, eff, x);
  }

  lemma PursuitNext(s: State, t: Tid, c: Choice, s': State, x: Matter)
    requires Homes.Inv(s) && t in s.threads && Pursues(s.db, s.threads[t], x) && Apply(s, Step(t, c)) == Some(s')
    requires Open(s.db, x) && Hopeless(s.world, x) && (c.Fail? ==> CallAt(s.threads[t]) == NoCall)
    ensures Open(s'.db, x) ==> t in s'.threads && Pursues(s'.db, s'.threads[t], x)
  {
    hide Plan, Pursues, Open, Hopeless, CallAt, Homes.ThreadOk;
    PursuitStep(s, s.threads[t], c, Plan(s, s.threads[t], c).value, x);
  }

  lemma StillHopeless(world: World, world': World, x: Matter)
    requires Hopeless(world, x) && GrowsWorld(world, world')
    ensures Hopeless(world', x)
  {
    if x.Told? { IncarnationCoherence.UsedStays(world, world', x.n); }
  }

  lemma StillPursues(db: Db, db': Db, pc: Pc, x: Matter)
    requires Pursues(db, pc, x) && GrowsDb(db, db')
    ensures Pursues(db', pc, x)
  {}

  /** The matter is settled before the thread ends. */
  lemma {:induction false} Settles(states: seq<State>, events: seq<Event>, b: nat, j: nat, k: nat, t: Tid, x: Matter)
    returns (n: nat)
    requires IsRun(states, events) && b < j <= k < |events| && NoneFails(states, events, b, k + 1, t)
    requires (forall m :: b < m <= k ==> t in states[m].threads) && t !in states[k + 1].threads
    requires Pursues(states[j].db, states[j].threads[t], x) && Hopeless(states[j].world, x)
    ensures j <= n <= k + 1 && !Open(states[n].db, x)
    decreases k - j
  {
    hide Init, Apply, Pursues, Open, Hopeless, CallAt, Homes.Inv, GrowsDb, GrowsWorld;
    var m := NextOwn(states, events, j, k, t);
    assert !FailsAt(states, events, m, t) && Follows(states, events, m);
    Homes.Along(states, events, m);
    GrowsAlong(states, events, j, m);
    GrowsAlong(states, events, j, m + 1);
    StillPursues(states[j].db, states[m].db, states[j].threads[t], x);
    StillHopeless(states[j].world, states[m].world, x);
    StillHopeless(states[j].world, states[m + 1].world, x);
    if !Open(states[m].db, x) {
      n := m;
    } else if !Open(states[m + 1].db, x) {
      n := m + 1;
    } else {
      PursuitNext(states[m], t, events[m].c, states[m + 1], x);
      n := Settles(states, events, b, m + 1, k, t, x);
    }
  }

  /** A tick none of whose calls fails settles every agent of its workstream that is Active with a
      missing terminal when it begins: at some moment of the tick the agent is not Active or has
      another terminal. */
  lemma TickSettles(states: seq<State>, events: seq<Event>, b: nat, k: nat, t: Tid, w: WorkstreamId, a: AgentId)
    returns (n: nat)
    requires Request(states, events, b, k, t, Lane(TickList(w, false))) && NoneFails(states, events, b, k + 1, t)
    requires IsActive(states[b].db, a) && a in states[b].db.AgentsOfWorkstream(w)
    requires states[b].db.agents[a].handle !in states[b].world.present
    ensures b < n <= k + 1
    ensures !(IsActive(states[n].db, a) && states[n].db.agents[a].handle == states[b].db.agents[a].handle)
  {
    hide Init, Follows, Homes.Inv, GrowsDb, GrowsWorld;
    var x := Lost(a, states[b].db.agents[a].handle);
    Begun(states, events, b, k, t, Lane(TickList(w, false)));
    Spawned(states, events, b, a);
    GrowsAlong(states, events, b, b + 1);
    StillPursues(states[b].db, states[b + 1].db, Lane(TickList(w, false)), x);
    StillHopeless(states[b].world, states[b + 1].world, x);
    n := Settles(states, events, b, b + 1, k, t, x);
  }

  lemma StaleStarts(s: State, t: Tid, w: WorkstreamId, c: Choice, s': State, a: AgentId)
    requires t in s.threads && s.threads[t] == Lane(TickList(w, true)) && Apply(s, Step(t, c)) == Some(s')
    requires c.Order? && a in c.xs && IsActive(s.db, a)
    ensures s'.world == s.world && t in s'.threads
    ensures Pursues(s'.db, s'.threads[t], Idle(a, s.db.agents[a].handle))
  {
    hide StepResume, StepExit, StepCheck, StepLaunch, StepAdopt, StepCascade;
    ListsRow(s.db, c.xs, true, a);
  }

  /** A tick that looks for stale agents, at event m, and none of whose calls fails settles every
      Active agent it finds stale whose child has exited: the same. */
  lemma StaleSettles(states: seq<State>, events: seq<Event>, b: nat, m: nat, k: nat, t: Tid, w: WorkstreamId,
                     a: AgentId)
    returns (n: nat)
    requires Request(states, events, b, k, t, Lane(TickList(w, true))) && NoneFails(states, events, b, k + 1, t)
    requires b < m <= k && Own(events[m], t) && states[m].threads[t] == Lane(TickList(w, true))
    requires events[m].c.Order? && a in events[m].c.xs && IsActive(states[m].db, a)
    requires states[m].db.agents[a].handle !in states[m].world.alive
    ensures m < n <= k + 1
    ensures !(IsActive(states[n].db, a) && states[n].db.agents[a].handle == states[m].db.agents[a].handle)
  {
    hide Init, Apply, Homes.Inv, Pursues;
    Spawned(states, events, m, a);
    assert Follows(states, events, m);
    StaleStarts(states[m], t, w, events[m].c, states[m + 1], a);
    n := Settles(states, events, b, m + 1, k, t, Idle(a, states[m].db.agents[a].handle));
  }

  lemma Spawned(states: seq<State>, events: seq<Event>, n: nat, a: AgentId)
    requires IsRun(states, events) && n < |states| && a in states[n].db.agents
    ensures states[n].db.agents[a].handle in states[n].world.spawned
    ensures states[n].world.spawned[states[n].db.agents[a].handle].nonce == states[n].db.agents[a].nonce
  {
    hide Init, Follows;
    IncarnationCoherence.Along(states, events, n);
    assert IncarnationCoherence.CoherentRow(states[n].world, a, states[n].db.agents[a]);
  }

  /** A child-exit report none of whose calls fails settles the incarnation it is about: at some
      moment the agent is not Active or in another incarnation. */
  lemma ReportSettles(states: seq<State>, events: seq<Event>, b: nat, k: nat, t: Tid, a: AgentId, m: Nonce)
    returns (n: nat)
    requires Request(states, events, b, k, t, Lane(LaneNext([Reported(a, m)])))
    requires NoneFails(states, events, b, k + 1, t)
    ensures b < n <= k + 1 && !(IsActive(states[n].db, a) && states[n].db.agents[a].nonce == m)
  {
    hide Init, Follows, Homes.Inv, GrowsDb, GrowsWorld;
    Begun(states, events, b, k, t, Lane(LaneNext([Reported(a, m)])));
    ReportIsUsed(states[b], a, m);
    GrowsAlong(states, events, b, b + 1);
    StillHopeless(states[b].world, states[b + 1].world, Told(a, m));
    assert Reported(a, m) in [Reported(a, m)];
    n := Settles(states, events, b, b + 1, k, t, Told(a, m));
  }

  lemma ReportIsUsed(s: State, a: AgentId, m: Nonce)
    requires Entry(s, Lane(LaneNext([Reported(a, m)])))
    ensures IncarnationCoherence.UsedNonce(s.world, m)
  {}
}
