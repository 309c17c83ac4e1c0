/** Incarnation coherence: a row's terminal handle and spawn nonce always come from one Spawn
    call, so a child-exit report acts on the incarnation that sent it or on nothing. */
module IncarnationCoherence {
  import opened Tables
  import opened Protocol
  import opened Interference

  /** Handle h was returned by the Spawn call that ran session a under nonce n. */
  ghost predicate SpawnedAs(world: World, h: Handle, a: AgentId, n: Nonce) {
    h in world.spawned && world.spawned[h].session == a && world.spawned[h].nonce == n
  }

  ghost predicate CoherentRow(world: World, a: AgentId, row: AgentRow) {
    SpawnedAs(world, row.handle, a, row.nonce) && row.status != Killed
  }

  ghost predicate CoherentRows(db: Db, world: World) {
    forall a :: a in db.agents ==> CoherentRow(world, a, db.agents[a])
  }

  ghost predicate Coherent(db: Db, world: World) {
    && world.alive <= world.present <= world.spawned.Keys
    && UniqueNonces(world.spawned)
    && Rooted(db)
    && CoherentRows(db, world)
  }

  /** The row read earlier in this critical section still names the row's incarnation. */
  ghost predicate RowStill(db: Db, a: AgentId, h: Handle, n: Nonce) {
    a in db.agents && db.agents[a].handle == h && db.agents[a].nonce == n
  }

  ghost predicate HandleStill(db: Db, a: AgentId, h: Handle) {
    a in db.agents && db.agents[a].handle == h
  }

  /** A report that got past the nonce check is about the row's incarnation. */
  ghost predicate Justified(db: Db, item: Item) {
    item.Reported? ==> item.a in db.agents && db.agents[item.a].nonce == item.n
  }

  ghost predicate ThreadOk(db: Db, world: World, pc: Pc) {
    match pc
    case Lane(l) =>
      (match l
       case LaneProbe(item, row, _) => RowStill(db, item.a, row.handle, row.nonce) && !item.Reported?
       case Mark(item, row, _, _) => RowStill(db, item.a, row.handle, row.nonce) && Justified(db, item)
       case AbandonLog(item, h, _) => HandleStill(db, item.a, h) && Justified(db, item)
       case KillOld(item, h, _) => HandleStill(db, item.a, h) && Justified(db, item)
       case _ => true)
    case Resume(r) =>
      (match r
       case RespawnLock(_) => true
       case RespawnRead(_) => true
       case Persist(a, h, n, _) =>
         a in db.agents && db.agents[a].nonce != n && SpawnedAs(world, h, a, n)
       case KillNew(a, h, _) => a in db.agents && h in world.spawned && world.spawned[h].session == a
       case _ => r.a in db.agents)
    case Exit(x) =>
      (match x
       case ExitFlip(a, h, _, _) => HandleStill(db, a, h)
       case ExitLog(a, h, _, _) => HandleStill(db, a, h)
       case KillTerm(a, h, _) => HandleStill(db, a, h)
       case _ => true)
    case Check(k) => !k.use.PreSpawn? ==> k.use.a in db.agents
    case Launch(n) =>
      (match n
       case LaunchChild(_) => true
       case LockNew(a, p, h, nonce) => p in db.sprints && SpawnedAs(world, h, a, nonce)
       case Insert(a, p, h, nonce, _) => p in db.sprints && SpawnedAs(world, h, a, nonce)
       case KillOrphan(a, h, _) => h in world.spawned && world.spawned[h].session == a
       case CompFlip(a, row, _) =>
         a in db.agents && (row.Some? ==> HandleStill(db, a, row.value.handle))
       case UndoLaunch(_, _) => true
       case _ => n.a in db.agents)
    case Adopt(d) => d.AdoptSprint? ==> d.w in db.workstreams
    case Cascade(_) => true
  }

  ghost predicate Inv(s: State) {
    && Base(s) && Coherent(s.db, s.world)
    && forall t :: t in s.threads ==> ThreadOk(s.db, s.world, s.threads[t])
  }

  lemma Stable(s: State, s': State, pc: Pc)
    requires ThreadOk(s.db, s.world, pc) && Rely(s, s', Holds(pc))
    ensures ThreadOk(s'.db, s'.world, pc)
  {}

  /** Progress: the next program counter's assertion holds after the step. */
  ghost predicate Good(s: State, eff: Effect) {
    var db, world := Run(s.db, eff.stmt), CallOutside(s.world, eff.out);
    && (eff.next.Some? ==> ThreadOk(db, world, eff.next.value))
    && (eff.stmt.AddAgent? ==>
          CoherentRow(s.world, eff.stmt.a, eff.stmt.row) && eff.stmt.row.sprint in s.db.sprints)
    && (eff.stmt.SetIncarnation? ==> SpawnedAs(s.world, eff.stmt.h, eff.stmt.a, eff.stmt.n))
    && (eff.stmt.SetStatus? ==> eff.stmt.status != Killed)
    && (eff.stmt.AddSprint? ==> eff.stmt.w in s.db.workstreams)
    && (eff.stmt.AddWorkstream? ==> eff.stmt.r in s.db.repos)
  }

  lemma GoodLane(s: State, k: LanePc, c: Choice, eff: Effect)
    requires ThreadOk(s.db, s.world, Lane(k)) && StepLane(s, k, c) == Some(eff)
    ensures Good(s, eff)
  {}

  lemma GoodResume(s: State, k: ResumePc, c: Choice, eff: Effect)
    requires CoherentRows(s.db, s.world) && ThreadOk(s.db, s.world, Resume(k)) && StepResume(s, k, c) == Some(eff)
    ensures Good(s, eff)
  {}

  lemma GoodExit(s: State, k: ExitPc, c: Choice, eff: Effect)
    requires ThreadOk(s.db, s.world, Exit(k)) && StepExit(s, k, c) == Some(eff)
    ensures Good(s, eff)
  {}

  lemma GoodCheck(s: State, k: CheckPc, c: Choice, eff: Effect)
    requires ThreadOk(s.db, s.world, Check(k)) && StepCheck(s, k, c) == Some(eff)
    ensures Good(s, eff)
  {}

  lemma GoodLaunch(s: State, k: LaunchPc, c: Choice, eff: Effect)
    requires ThreadOk(s.db, s.world, Launch(k)) && StepLaunch(s, k, c) == Some(eff)
    ensures Good(s, eff)
  {}

  lemma GoodAdopt(s: State, k: AdoptPc, c: Choice, eff: Effect)
    requires ThreadOk(s.db, s.world, Adopt(k)) && StepAdopt(s, k, c) == Some(eff)
    ensures Good(s, eff)
  {}

  /** Where a cascade goes nothing about incarnations is claimed but for the exit it starts. */
  lemma ExitsListed(s: State, k: CascadePc, c: Choice, eff: Effect)
    requires StepCascade(s, k, c) == Some(eff)
    ensures eff.next.Some? ==> ThreadOk(s.db, s.world, eff.next.value)
  {
    hide StepNext;
    if k.Next? { NextLoops(s, k.work, c); }
  }

  lemma GoodCascade(s: State, k: CascadePc, c: Choice, eff: Effect)
    requires StepCascade(s, k, c) == Some(eff)
    ensures Good(s, eff)
  {
    hide StepCascade;
    CascadesOnlyFlip(s, k, c, eff);
    ExitsListed(s, k, c, eff);
  }

  lemma GoodPlan(s: State, pc: Pc, c: Choice, eff: Effect)
    requires Coherent(s.db, s.world) && ThreadOk(s.db, s.world, pc) && Plan(s, pc, c) == Some(eff)
    ensures Good(s, eff)
  {
    match pc
    case Lane(k) => GoodLane(s, k, c, eff);
    case Resume(k) => GoodResume(s, k, c, eff);
    case Exit(k) => GoodExit(s, k, c, eff);
    case Check(k) => GoodCheck(s, k, c, eff);
    case Launch(k) => GoodLaunch(s, k, c, eff);
    case Adopt(k) => GoodAdopt(s, k, c, eff);
    case Cascade(k) => GoodCascade(s, k, c, eff);
  }

  lemma RootedAfter(db: Db, stmt: Statement)
    requires Rooted(db)
    requires stmt.AddAgent? ==> stmt.row.sprint in db.sprints
    requires stmt.AddSprint? ==> stmt.w in db.workstreams
    requires stmt.AddWorkstream? ==> stmt.r in db.repos
    ensures Rooted(Run(db, stmt))
  {}

  lemma NoncesAfter(world: World, out: Outside)
    requires UniqueNonces(world.spawned)
    requires out.SpawnChild? ==> world.Fresh(out.h, out.inc.nonce)
    ensures UniqueNonces(CallOutside(world, out).spawned)
  {}

  lemma RowsAfter(s: State, eff: Effect)
    requires Coherent(s.db, s.world) && Good(s, eff)
    requires eff.out.SpawnChild? ==> eff.out.h !in s.world.spawned
    ensures var db, world := Run(s.db, eff.stmt), CallOutside(s.world, eff.out);
      forall a :: a in db.agents ==> CoherentRow(world, a, db.agents[a])
  {
    GrowsCall(s.world, eff.out);
    var db := Run(s.db, eff.stmt);
    forall a | a in db.agents ensures CoherentRow(s.world, a, db.agents[a]) {}
  }

  lemma CoherentAfter(s: State, eff: Effect)
    requires Coherent(s.db, s.world) && Good(s, eff)
    requires eff.out.SpawnChild? ==> s.world.Fresh(eff.out.h, eff.out.inc.nonce)
    ensures Coherent(Run(s.db, eff.stmt), CallOutside(s.world, eff.out))
  {
    RootedAfter(s.db, eff.stmt);
    NoncesAfter(s.world, eff.out);
    RowsAfter(s, eff);
  }

  lemma CoherentOutside(s: State, e: Event)
    requires Coherent(s.db, s.world) && Possible(s, e)
    ensures Coherent(OutsideDb(s.db, e), OutsideWorld(s.world, e))
  {}

  lemma Next(s: State, e: Event, s': State)
    requires Inv(s) && Apply(s, e) == Some(s')
    ensures Inv(s')
  {
    hide Apply, Plan;
    BaseNext(s, e, s');
    if e.Step? {
      var eff := Unpack(s, e.t, e.c, s');
      GoodPlan(s, s.threads[e.t], e.c, eff);
      CoherentAfter(s, eff);
      forall u | u in s'.threads ensures ThreadOk(s'.db, s'.world, s'.threads[u]) {
        if u != e.t { Stable(s, s', s.threads[u]); }
      }
    } else {
      GrowsOutside(s, e, s');
      CoherentOutside(s, e);
      forall u | u in s'.threads ensures ThreadOk(s'.db, s'.world, s'.threads[u]) {
        if u in s.threads {
          RelyOutside(s, e, s', Holds(s.threads[u]));
          Stable(s, s', s.threads[u]);
        }
      }
    }
  }

  lemma First(s: State)
    requires Init(s)
    ensures Inv(s)
  {}

  lemma {:induction false} Along(states: seq<State>, events: seq<Event>, n: nat)
    requires IsRun(states, events) && n < |states|
    ensures Inv(states[n])
  {
    hide Init, Apply, Inv;
    if n == 0 {
      First(states[0]);
    } else {
      Along(states, events, n - 1);
      assert Follows(states, events, n - 1);
      Next(states[n - 1], events[n - 1], states[n]);
    }
  }

  // ---------------------------------------------------------------- the property

  /** In every reachable state the row's handle and nonce name one Spawn call of its session,
      and no other call was made under that nonce. */
  lemma RowIsOneSpawn(states: seq<State>, events: seq<Event>, n: nat, a: AgentId)
    requires IsRun(states, events) && n < |states| && a in states[n].db.agents
    ensures var row := states[n].db.agents[a];
      forall h :: SpawnedAs(states[n].world, h, a, row.nonce) <==> h == row.handle
  {
    Along(states, events, n);
  }

  /** A terminal torn down on a child-exit report is the reporting incarnation's own. */
  lemma ReportKillsItsOwn(states: seq<State>, events: seq<Event>, n: nat, t: Tid, item: Item, h: Handle,
                          rest: seq<Item>)
    requires IsRun(states, events) && n < |states| && item.Reported?
    requires t in states[n].threads && states[n].threads[t] == Lane(KillOld(item, h, rest))
    ensures SpawnedAs(states[n].world, h, item.a, item.n)
  {
    Along(states, events, n);
    assert ThreadOk(states[n].db, states[n].world, states[n].threads[t]);
  }

  ghost predicate UsedNonce(world: World, n: Nonce) {
    exists h :: h in world.spawned && world.spawned[h].nonce == n
  }

  lemma UsedStays(world: World, world': World, n: Nonce)
    requires UsedNonce(world, n) && GrowsWorld(world, world')
    ensures UsedNonce(world', n)
  {}

  lemma RowNonceUsed(db: Db, world: World, a: AgentId)
    requires CoherentRows(db, world) && a in db.agents
    ensures UsedNonce(world, db.agents[a].nonce)
  {}

  /** The row has left incarnation n behind, and no thread is about to bring it back. */
  ghost predicate Retired(s: State, a: AgentId, n: Nonce) {
    && a in s.db.agents && s.db.agents[a].nonce != n
    && UsedNonce(s.world, n)
    && (forall t :: t in s.threads ==> !Restores(s.threads[t], a, n))
  }

  ghost predicate Restores(pc: Pc, a: AgentId, n: Nonce) {
    pc.Resume? && pc.res.Persist? && pc.res.a == a && pc.res.n == n
  }

  /** A thread comes to persist a nonce only by spawning under it, and only that writes rows. */
  ghost predicate OneWay(pc: Pc, eff: Effect) {
    && (forall a, n :: eff.next.Some? && Restores(eff.next.value, a, n) ==>
          eff.out.SpawnChild? && eff.out.inc.nonce == n)
    && (eff.stmt.SetIncarnation? ==> Restores(pc, eff.stmt.a, eff.stmt.n))
  }

  lemma ResumesOneWay(s: State, k: ResumePc, c: Choice, eff: Effect)
    requires StepResume(s, k, c) == Some(eff)
    ensures OneWay(Resume(k), eff)
  {}

  lemma CascadesOneWay(s: State, k: CascadePc, c: Choice, eff: Effect)
    requires StepCascade(s, k, c) == Some(eff)
    ensures OneWay(Cascade(k), eff)
  {
    hide StepNext;
    if k.Next? { NextLoops(s, k.work, c); }
  }

  lemma AdoptsOneWay(s: State, k: AdoptPc, c: Choice, eff: Effect)
    requires StepAdopt(s, k, c) == Some(eff)
    ensures OneWay(Adopt(k), eff)
  {}

  lemma OthersOneWay(s: State, pc: Pc, c: Choice, eff: Effect)
    requires !pc.Resume? && !pc.Cascade? && !pc.Adopt? && Plan(s, pc, c) == Some(eff)
    ensures OneWay(pc, eff)
  {
    hide StepResume, StepCascade, StepAdopt, RowItems, Missing;
  }

  lemma PlansOneWay(s: State, pc: Pc, c: Choice, eff: Effect)
    requires Plan(s, pc, c) == Some(eff)
    ensures OneWay(pc, eff)
  {
    match pc
    case Resume(k) => ResumesOneWay(s, k, c, eff);
    case Cascade(k) => CascadesOneWay(s, k, c, eff);
    case Adopt(k) => AdoptsOneWay(s, k, c, eff);
    case _ => OthersOneWay(s, pc, c, eff);
  }

  ghost predicate RetiredOr(s: State, a: AgentId, n: Nonce) {
    Retired(s, a, n) || (a in s.db.agents && s.db.agents[a].nonce == n)
  }

  /** No thread is about to write the nonce the row already has. */
  ghost predicate NoRewrite(s: State) {
    forall t, a, n :: t in s.threads && Restores(s.threads[t], a, n) ==>
      a in s.db.agents && s.db.agents[a].nonce != n
  }

  lemma NonceAfter(db: Db, pc: Pc, eff: Effect, a: AgentId, n: Nonce)
    requires a in db.agents && OneWay(pc, eff) && (eff.stmt.AddAgent? ==> eff.stmt.a !in db.agents)
    ensures a in Run(db, eff.stmt).agents
    ensures Run(db, eff.stmt).agents[a].nonce == n ==> db.agents[a].nonce == n || Restores(pc, a, n)
  {}

  lemma RetiredAfter(s: State, t: Tid, eff: Effect, a: AgentId, n: Nonce)
    requires Coherent(s.db, s.world) && NoRewrite(s) && RetiredOr(s, a, n)
    requires t in s.threads && Scoped(s, s.threads[t], eff) && OneWay(s.threads[t], eff)
    ensures RetiredOr(Perform(s, t, eff), a, n)
    ensures Retired(s, a, n) ==> Retired(Perform(s, t, eff), a, n)
  {
    var s' := Perform(s, t, eff);
    RowNonceUsed(s.db, s.world, a);
    GrowsCall(s.world, eff.out);
    UsedStays(s.world, s'.world, n);
    NonceAfter(s.db, s.threads[t], eff, a, n);
    assert forall u :: u in s'.threads && Restores(s'.threads[u], a, n) ==> u != t;
  }

  lemma RetiredOutside(s: State, e: Event, s': State, a: AgentId, n: Nonce)
    requires Coherent(s.db, s.world) && RelocsExist(s) && NoRewrite(s) && RetiredOr(s, a, n)
    requires !e.Step? && Apply(s, e) == Some(s')
    ensures RetiredOr(s', a, n) && (Retired(s, a, n) ==> Retired(s', a, n))
  {
    hide Apply, Plan;
    GrowsOutside(s, e, s');
    assert SameRow(s.db, s'.db, a);
    RowNonceUsed(s.db, s.world, a);
    UsedStays(s.world, s'.world, n);
    assert e.Begin? ==> !Restores(e.pc, a, n);
  }

  lemma RetiredNext(s: State, e: Event, s': State, a: AgentId, n: Nonce)
    requires Inv(s) && Apply(s, e) == Some(s') && RetiredOr(s, a, n)
    ensures RetiredOr(s', a, n) && (Retired(s, a, n) ==> Retired(s', a, n))
  {
    hide Apply, Plan;
    assert NoRewrite(s) by {
      forall t, b, m | t in s.threads && Restores(s.threads[t], b, m)
        ensures b in s.db.agents && s.db.agents[b].nonce != m
      {
        assert ThreadOk(s.db, s.world, s.threads[t]);
      }
    }
    if e.Step? {
      var eff := Unpack(s, e.t, e.c, s');
      PlansOneWay(s, s.threads[e.t], e.c, eff);
      RetiredAfter(s, e.t, eff, a, n);
    } else {
      RetiredOutside(s, e, s', a, n);
    }
  }

  ghost predicate Beyond(s: State, a: AgentId, n: Nonce, gone: bool) {
    if gone then Retired(s, a, n) else RetiredOr(s, a, n)
  }

  lemma BeyondNext(states: seq<State>, events: seq<Event>, i: nat, a: AgentId, n: Nonce, gone: bool)
    requires IsRun(states, events) && i < |events| && Beyond(states[i], a, n, gone)
    ensures Beyond(states[i + 1], a, n, gone)
  {
    Along(states, events, i);
    assert Follows(states, events, i);
    RetiredNext(states[i], events[i], states[i + 1], a, n);
  }

  /** Once a row leaves an incarnation it never returns to it. */
  lemma {:induction false} NeverBack(states: seq<State>, events: seq<Event>, i: nat, j: nat, a: AgentId,
                                     n: Nonce, gone: bool)
    requires IsRun(states, events) && i <= j < |states| && Beyond(states[i], a, n, gone)
    ensures Beyond(states[j], a, n, gone)
    decreases j - i
  {
    if i < j {
      NeverBack(states, events, i, j - 1, a, n, gone);
      BeyondNext(states, events, j - 1, a, n, gone);
    }
  }

  /** A child-exit report delayed past any number of respawns changes no row and kills nothing:
      the row carried nonce n at i, had moved on by j, and the report is looked at at k. */
  lemma LateReportDoesNothing(states: seq<State>, events: seq<Event>, i: nat, j: nat, k: nat,
                              a: AgentId, t: Tid, c: Choice, rest: seq<Item>)
    requires IsRun(states, events) && i <= j <= k < |events|
    requires a in states[i].db.agents && a in states[j].db.agents
    requires states[j].db.agents[a].nonce != states[i].db.agents[a].nonce
    requires t in states[k].threads && events[k] == Step(t, c)
    requires states[k].threads[t] == Lane(LaneRead(Reported(a, states[i].db.agents[a].nonce), rest))
    ensures states[k + 1].db == states[k].db && states[k + 1].world == states[k].world
    ensures t in states[k + 1].threads && states[k + 1].threads[t].Exit?
      && states[k + 1].threads[t].ex.Leave?
  {
    var n := states[i].db.agents[a].nonce;
    NeverBack(states, events, i, j, a, n, false);
    NeverBack(states, events, j, k, a, n, true);
    assert Follows(states, events, k);
  }
}
