/** Where terminals run: a row's terminal lives in the workspace of its agent's workstream, so a
    workspace's teardown takes it along; and a step kills nobody else's terminal. */
module Homes {
  import opened Tables
  import opened Protocol
  import opened Interference
  import IncarnationCoherence

  /** Terminal h runs in the workspace of the sprint's workstream. */
  ghost predicate AtHome(db: Db, world: World, p: SprintId, h: Handle) {
    h in world.spawned && p in db.sprints && world.spawned[h].home == db.sprints[p].workstream
  }

  ghost predicate RowsHome(db: Db, world: World) {
    forall a :: a in db.agents ==> AtHome(db, world, db.agents[a].sprint, db.agents[a].handle)
  }

  /** The terminal was spawned and is not enumerated any more: it never will be again. */
  ghost predicate Gone(world: World, h: Handle) { h in world.spawned && h !in world.present }

  /** The agent's row, if it has one, but for a restart count that a live status may have cleared. */
  ghost predicate RowIs(db: Db, a: AgentId, row: Option<AgentRow>) {
    match row
    case None => a !in db.agents
    case Some(r) => a in db.agents && (db.agents[a] == r || db.agents[a] == r.(restarts := 0))
  }

  /** What a lane was told vanished is gone; a tick looks at rows there are, and a report comes alone. */
  ghost predicate QueueOk(db: Db, world: World, xs: seq<Item>) {
    && (forall x :: x in xs && x.Vanished? ==> Gone(world, x.h))
    && (forall x :: x in xs && !x.Reported? ==> x.a in db.agents)
    && (forall x :: x in xs && x.Reported? ==> |xs| == 1)
  }

  /** A cascade visits agents that there are, and only one that tears down workspaces visits
      workstreams. */
  ghost predicate Listed(db: Db, pc: Pc) {
    && (WorkOf(pc).Some? ==>
          && (forall b :: b in WorkOf(pc).value.ags ==> b in db.agents)
          && (WorkOf(pc).value.perAgent ==> WorkOf(pc).value.wss == []))
    && (pc.Cascade? && pc.cas.FlipRead? ==> pc.cas.a in db.agents)
  }

  ghost predicate ThreadOk(db: Db, world: World, pc: Pc) {
    && QueueOk(db, world, Queue(pc)) && Listed(db, pc)
    && match pc
       case Lane(TickEnum(rows)) =>
         forall x :: x in rows ==> !x.Reported? && x.a in db.agents && (x.Vanished? ==> x.h in world.spawned)
       case Lane(LaneProbe(item, row, _)) => RowIs(db, item.a, Some(row)) && row.status == Active
       case Resume(Persist(a, h, _, _)) => a in db.agents && AtHome(db, world, db.agents[a].sprint, h)
       case Launch(LockNew(_, p, h, _)) => AtHome(db, world, p, h)
       case Launch(Insert(_, p, h, _, _)) => AtHome(db, world, p, h)
       case _ => true
  }

  ghost predicate Inv(s: State) {
    && IncarnationCoherence.Inv(s) && RowsHome(s.db, s.world)
    && forall t :: t in s.threads ==> ThreadOk(s.db, s.world, s.threads[t])
  }

  lemma Stable(s: State, s': State, pc: Pc)
    requires ThreadOk(s.db, s.world, pc) && Rely(s, s', Holds(pc))
    ensures ThreadOk(s'.db, s'.world, pc)
  {}

  ghost predicate Good(s: State, eff: Effect) {
    var db, world := Run(s.db, eff.stmt), CallOutside(s.world, eff.out);
    && (eff.next.Some? ==> ThreadOk(db, world, eff.next.value))
    && (eff.stmt.AddAgent? ==> AtHome(s.db, s.world, eff.stmt.row.sprint, eff.stmt.row.handle))
    && (eff.stmt.SetIncarnation? ==>
          eff.stmt.a in s.db.agents && AtHome(s.db, s.world, s.db.agents[eff.stmt.a].sprint, eff.stmt.h))
  }

  lemma GoodTick(s: State, k: LanePc, c: Choice, eff: Effect)
    requires IncarnationCoherence.CoherentRows(s.db, s.world) && ThreadOk(s.db, s.world, Lane(k))
    requires (k.TickList? || k.TickEnum? || k.LaneNext?) && StepLane(s, k, c) == Some(eff)
    ensures Good(s, eff)
  {
    hide Lists;
  }

  lemma GoodLane(s: State, k: LanePc, c: Choice, eff: Effect)
    requires ThreadOk(s.db, s.world, Lane(k)) && !k.TickList? && !k.TickEnum? && !k.LaneNext?
    requires StepLane(s, k, c) == Some(eff)
    ensures Good(s, eff)
  {
    hide RowItems, Missing;
  }

  lemma GoodResume(s: State, k: ResumePc, c: Choice, eff: Effect)
    requires IncarnationCoherence.ThreadOk(s.db, s.world, Resume(k)) && ThreadOk(s.db, s.world, Resume(k))
    requires StepResume(s, k, c) == Some(eff)
    ensures Good(s, eff)
  {}

  lemma GoodExit(s: State, k: ExitPc, c: Choice, eff: Effect)
    requires ThreadOk(s.db, s.world, Exit(k)) && StepExit(s, k, c) == Some(eff)
    ensures Good(s, eff)
  {}

  lemma GoodCheck(s: State, k: CheckPc, c: Choice, eff: Effect)
    requires StepCheck(s, k, c) == Some(eff)
    ensures Good(s, eff)
  {}

  lemma GoodLaunch(s: State, k: LaunchPc, c: Choice, eff: Effect)
    requires ThreadOk(s.db, s.world, Launch(k)) && StepLaunch(s, k, c) == Some(eff)
    ensures Good(s, eff)
  {}

  lemma GoodAdopt(s: State, k: AdoptPc, c: Choice, eff: Effect)
    requires StepAdopt(s, k, c) == Some(eff)
    ensures Good(s, eff)
  {}

  lemma NextListed(s: State, work: Work, c: Choice)
    requires Listed(s.db, Cascade(CascadePc.Next(work)))
    ensures StepNext(s, work, c).next.Some? && Listed(s.db, StepNext(s, work, c).next.value)
  {
    hide NextSprint, NextWorkstream;
    if AtSprints(work) { SprintListed(s.db, work, c); }
    if AtWorkstreams(work) { WorkstreamListed(s.db, work, c); }
  }

  lemma SprintListed(db: Db, work: Work, c: Choice)
    requires work.sps != [] && Listed(db, Cascade(CascadePc.Next(work)))
    ensures NextSprint(db, work, c).next.Some? && Listed(db, NextSprint(db, work, c).next.value)
  {}

  lemma WorkstreamListed(db: Db, work: Work, c: Choice)
    requires work.wss != [] && Listed(db, Cascade(CascadePc.Next(work)))
    ensures NextWorkstream(db, work, c).next.Some? && Listed(db, NextWorkstream(db, work, c).next.value)
  {}

  lemma CascadeListed(s: State, k: CascadePc, c: Choice, eff: Effect)
    requires Listed(s.db, Cascade(k)) && StepCascade(s, k, c) == Some(eff)
    ensures eff.next.Some? ==> Listed(s.db, eff.next.value)
  {
    hide StepNext;
    if k.Next? { NextListed(s, k.work, c); }
  }

  lemma ListedOn(db: Db, db': Db, pc: Pc)
    requires Listed(db, pc) && GrowsDb(db, db')
    ensures Listed(db', pc)
  {}

  lemma QueuesNothing(s: State, k: CascadePc, c: Choice, eff: Effect)
    requires StepCascade(s, k, c) == Some(eff)
    ensures eff.next.Some? ==> Queue(eff.next.value) == []
    ensures eff.next.Some? ==> !eff.next.value.Lane? && !eff.next.value.Resume? && !eff.next.value.Launch?
  {
    hide StepNext;
    if k.Next? { NextLoops(s, k.work, c); }
  }

  lemma GoodCascade(s: State, k: CascadePc, c: Choice, eff: Effect)
    requires Listed(s.db, Cascade(k)) && StepCascade(s, k, c) == Some(eff)
    ensures Good(s, eff)
  {
    hide StepCascade, Listed;
    CascadesOnlyFlip(s, k, c, eff);
    QueuesNothing(s, k, c, eff);
    CascadeListed(s, k, c, eff);
    GrowsRun(s.db, eff.stmt);
    if eff.next.Some? { ListedOn(s.db, Run(s.db, eff.stmt), eff.next.value); }
  }

  lemma GoodPlan(s: State, pc: Pc, c: Choice, eff: Effect)
    requires IncarnationCoherence.CoherentRows(s.db, s.world) && IncarnationCoherence.ThreadOk(s.db, s.world, pc)
    requires ThreadOk(s.db, s.world, pc) && Plan(s, pc, c) == Some(eff)
    ensures Good(s, eff)
  {
    match pc
    case Lane(k) =>
      if k.TickList? || k.TickEnum? || k.LaneNext? { GoodTick(s, k, c, eff); } else { GoodLane(s, k, c, eff); }
    case Resume(k) => GoodResume(s, k, c, eff);
    case Exit(k) => GoodExit(s, k, c, eff);
    case Check(k) => GoodCheck(s, k, c, eff);
    case Launch(k) => GoodLaunch(s, k, c, eff);
    case Adopt(k) => GoodAdopt(s, k, c, eff);
    case Cascade(k) => GoodCascade(s, k, c, eff);
  }

  lemma HomeStays(db: Db, db': Db, world: World, world': World, p: SprintId, h: Handle)
    requires AtHome(db, world, p, h) && GrowsDb(db, db') && GrowsWorld(world, world')
    ensures AtHome(db', world', p, h)
  {}

  /** A row's sprint and handle are what they were, or what the statement says. */
  lemma RowFrom(db: Db, stmt: Statement, a: AgentId)
    requires a in Run(db, stmt).agents
    ensures var row := Run(db, stmt).agents[a];
      || (stmt.AddAgent? && stmt.row == row)
      || (stmt.SetIncarnation? && a in db.agents && stmt.a == a && row.sprint == db.agents[a].sprint
          && row.handle == stmt.h)
      || (a in db.agents && row.sprint == db.agents[a].sprint && row.handle == db.agents[a].handle)
  {}

  lemma RowsAfter(s: State, eff: Effect)
    requires RowsHome(s.db, s.world) && Good(s, eff)
    requires GrowsDb(s.db, Run(s.db, eff.stmt)) && GrowsWorld(s.world, CallOutside(s.world, eff.out))
    ensures RowsHome(Run(s.db, eff.stmt), CallOutside(s.world, eff.out))
  {
    hide Run, CallOutside, GrowsDb, GrowsWorld, AtHome, ThreadOk;
    var db, world := Run(s.db, eff.stmt), CallOutside(s.world, eff.out);
    forall a | a in db.agents ensures AtHome(db, world, db.agents[a].sprint, db.agents[a].handle) {
      RowFrom(s.db, eff.stmt, a);
      HomeStays(s.db, db, s.world, world, db.agents[a].sprint, db.agents[a].handle);
    }
  }

  lemma StepHomes(s: State, t: Tid, c: Choice, s': State)
    requires Inv(s) && Apply(s, Step(t, c)) == Some(s')
    ensures RowsHome(s'.db, s'.world) && forall u :: u in s'.threads ==> ThreadOk(s'.db, s'.world, s'.threads[u])
  {
    hide Apply, Plan, Scoped, ThreadOk, RowsHome, Rely, GrowsDb, GrowsWorld, GrowsIds, KilledStays, Holds, Base;
    var eff := Unpack(s, t, c, s');
    GoodPlan(s, s.threads[t], c, eff);
    RowsAfter(s, eff);
    forall u | u in s'.threads ensures ThreadOk(s'.db, s'.world, s'.threads[u]) {
      if u != t { Stable(s, s', s.threads[u]); }
    }
  }

  lemma EntryOk(s: State, s': State, pc: Pc)
    requires Entry(s, pc)
    ensures ThreadOk(s'.db, s'.world, pc)
  {}

  lemma OutsideHomes(s: State, e: Event, s': State)
    requires Inv(s) && !e.Step? && Apply(s, e) == Some(s')
    ensures RowsHome(s'.db, s'.world) && forall u :: u in s'.threads ==> ThreadOk(s'.db, s'.world, s'.threads[u])
  {
    hide Apply, Plan, ThreadOk, Rely, KilledStays, GrowsIds, Entry, AtHome, Named, Listed;
    GrowsOutside(s, e, s');
    forall a | a in s'.db.agents ensures AtHome(s'.db, s'.world, s'.db.agents[a].sprint, s'.db.agents[a].handle) {
      assert SameRow(s.db, s'.db, a);
      HomeStays(s.db, s'.db, s.world, s'.world, s.db.agents[a].sprint, s.db.agents[a].handle);
    }
    forall u | u in s'.threads ensures ThreadOk(s'.db, s'.world, s'.threads[u]) {
      if u in s.threads {
        RelyOutside(s, e, s', Holds(s.threads[u]));
        Stable(s, s', s.threads[u]);
      } else {
        EntryOk(s, s', e.pc);
      }
    }
  }

  lemma Next(s: State, e: Event, s': State)
    requires Inv(s) && Apply(s, e) == Some(s')
    ensures Inv(s')
  {
    hide Apply, Plan, ThreadOk, RowsHome;
    IncarnationCoherence.Next(s, e, s');
    if e.Step? { StepHomes(s, e.t, e.c, s'); } else { OutsideHomes(s, e, s'); }
  }

  lemma First(s: State)
    requires Init(s)
    ensures Inv(s)
  {
    IncarnationCoherence.First(s);
  }

  /** In every reachable state each row's terminal was spawned into its workstream's workspace,
      and what a lane was told vanished is not enumerated. */
  lemma {:induction false} Along(states: seq<State>, events: seq<Event>, n: nat)
    requires IsRun(states, events) && n < |states|
    ensures Inv(states[n])
  {
    hide Init, Apply, Inv;
    if n == 0 {
      First(states[0]);
    } else {
      Along(states, events, n - 1);
      assert Follows(states, events, n - 1);
      Next(states[n - 1], events[n - 1], states[n]);
    }
  }

  // ---------------------------------------------------------------- whose terminals a step stops

  /** The terminal of one session, or all of one workspace's. */
  ghost predicate KillsOwn(pc: Pc, world: World, eff: Effect) {
    match eff.out
    case KillTerminal(h) => h in world.spawned && world.spawned[h].session in Holds(pc)
    case StopSession(a) => a in Holds(pc)
    case _ => true
  }

  lemma KillsLane(s: State, k: LanePc, c: Choice, eff: Effect)
    requires IncarnationCoherence.CoherentRows(s.db, s.world) && IncarnationCoherence.ThreadOk(s.db, s.world, Lane(k))
    requires StepLane(s, k, c) == Some(eff)
    ensures KillsOwn(Lane(k), s.world, eff)
  {
    hide RowItems, Missing;
  }

  lemma KillsResume(s: State, k: ResumePc, c: Choice, eff: Effect)
    requires IncarnationCoherence.ThreadOk(s.db, s.world, Resume(k)) && StepResume(s, k, c) == Some(eff)
    ensures KillsOwn(Resume(k), s.world, eff)
  {}

  lemma KillsExit(s: State, k: ExitPc, c: Choice, eff: Effect)
    requires IncarnationCoherence.CoherentRows(s.db, s.world) && IncarnationCoherence.ThreadOk(s.db, s.world, Exit(k))
    requires StepExit(s, k, c) == Some(eff)
    ensures KillsOwn(Exit(k), s.world, eff)
  {}

  lemma KillsLaunch(s: State, k: LaunchPc, c: Choice, eff: Effect)
    requires IncarnationCoherence.ThreadOk(s.db, s.world, Launch(k)) && StepLaunch(s, k, c) == Some(eff)
    ensures KillsOwn(Launch(k), s.world, eff)
  {}

  lemma KillsOther(s: State, pc: Pc, c: Choice, eff: Effect)
    requires pc.Check? || pc.Adopt? || pc.Cascade?
    requires Plan(s, pc, c) == Some(eff)
    ensures KillsOwn(pc, s.world, eff)
  {
    hide StepCascade;
    if pc.Cascade? { CascadesOnlyFlip(s, pc.cas, c, eff); }
  }

  lemma KillsPlan(s: State, pc: Pc, c: Choice, eff: Effect)
    requires IncarnationCoherence.CoherentRows(s.db, s.world) && IncarnationCoherence.ThreadOk(s.db, s.world, pc)
    requires Plan(s, pc, c) == Some(eff)
    ensures KillsOwn(pc, s.world, eff)
  {
    hide KillsOwn, StepLane, StepResume, StepExit, StepCheck, StepLaunch, StepAdopt, StepCascade;
    match pc
    case Lane(k) => KillsLane(s, k, c, eff);
    case Resume(k) => KillsResume(s, k, c, eff);
    case Exit(k) => KillsExit(s, k, c, eff);
    case Launch(k) => KillsLaunch(s, k, c, eff);
    case _ => KillsOther(s, pc, c, eff);
  }

  ghost predicate AllOf(world: World, world': World, w: WorkstreamId) {
    forall g :: g in world.spawned && world.spawned[g].home == w ==> g !in world'.present && g !in world'.alive
  }

  lemma CallStops(world: World, pc: Pc, eff: Effect, h: Handle)
    requires KillsOwn(pc, world, eff) && h in world.spawned
    requires var world' := CallOutside(world, eff.out);
      h in (world.alive - world'.alive) + (world.present - world'.present)
    ensures world.spawned[h].session in Holds(pc) || AllOf(world, CallOutside(world, eff.out), world.spawned[h].home)
  {
    hide Holds;
  }

  /** A step stops a terminal, or its child, only of a session whose lock its thread holds, or
      along with the whole workspace it is in. */
  lemma KillsItsOwn(states: seq<State>, events: seq<Event>, n: nat, t: Tid, c: Choice, h: Handle)
    requires IsRun(states, events) && n < |events| && events[n] == Step(t, c) && h in states[n].world.spawned
    requires var world, world' := states[n].world, states[n + 1].world;
      h in (world.alive - world'.alive) + (world.present - world'.present)
    ensures var a := states[n].world.spawned[h].session;
      || (a in states[n].locks && states[n].locks[a] == t)
      || AllOf(states[n].world, states[n + 1].world, states[n].world.spawned[h].home)
  {
    hide Init, Apply, Inv;
    Along(states, events, n);
    assert Follows(states, events, n);
    StepKills(states[n], t, c, states[n + 1], h);
  }

  lemma StepKills(s: State, t: Tid, c: Choice, s': State, h: Handle)
    requires Inv(s) && Apply(s, Step(t, c)) == Some(s') && h in s.world.spawned
    requires h in (s.world.alive - s'.world.alive) + (s.world.present - s'.world.present)
    ensures var a := s.world.spawned[h].session;
      (a in s.locks && s.locks[a] == t) || AllOf(s.world, s'.world, s.world.spawned[h].home)
  {
    hide Plan, Scoped, Rely, GrowsDb, GrowsWorld, GrowsIds, KilledStays, RowsHome, ThreadOk, AllOf, Holds, KillsOwn,
      IncarnationCoherence.ThreadOk, IncarnationCoherence.CoherentRows, Run, CallOutside, Recount, Relock;
    var eff := Unpack(s, t, c, s');
    KillsPlan(s, s.threads[t], c, eff);
    CallStops(s.world, s.threads[t], eff, h);
  }
}
