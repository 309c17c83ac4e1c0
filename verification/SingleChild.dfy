/** Single live child: no session ever has two running children.

    Every running child is its row's terminal, or is carried by the one thread that spawned it,
    or belongs to a failed launch and is the only one of a session without a row. A lane respawns
    only what it has seen dead under the agent's lock: the row lists came before the enumeration,
    the row's handle still is the one that was missing, or the probe or the nonce says so. A
    manual respawn finds an Exited row, which keeps a running child only while its killer holds
    the lock or under a container that is not Active. An adopt launches only after it has stopped
    what runs under the session, the child of a spawn that has not got the lock yet included. */
module SingleChild {
  import opened Tables
  import opened Protocol
  import opened Interference
  import IncarnationCoherence
  import SessionIds

  /** No child of the session runs. */
  ghost predicate NoLive(world: World, a: AgentId) {
    forall h :: h in world.alive && h in world.spawned ==> world.spawned[h].session != a
  }

  /** No child of the session runs but the one at h. */
  ghost predicate OnlyLive(world: World, a: AgentId, h: Handle) {
    forall g :: g in world.alive && g in world.spawned && world.spawned[g].session == a ==> g == h
  }

  ghost predicate SingleLive(world: World) {
    forall g, h :: (g in world.alive && h in world.alive && g in world.spawned && h in world.spawned
                    && world.spawned[g].session == world.spawned[h].session) ==> g == h
  }

  // ---------------------------------------------------------------- observations

  /** What a lane was told about an agent stays true. */
  ghost predicate ItemOk(world: World, x: Item) {
    match x
    case Vanished(_, h) => h in world.spawned && h !in world.present
    case Stale(_) => true
    case Reported(a, n) =>
      exists h ::
        h in world.spawned && h !in world.alive && world.spawned[h].session == a && world.spawned[h].nonce == n
  }

  ghost predicate ItemsOk(world: World, xs: seq<Item>) {
    forall x :: x in xs ==> ItemOk(world, x)
  }

  // ---------------------------------------------------------------- program counters

  ghost predicate DeadUnder(db: Db, a: AgentId) {
    a in db.agents && DeadHierarchy(db, db.agents[a].sprint)
  }

  ghost predicate DeadSprintOf(db: Db, a: AgentId) {
    a in db.agents && DeadSprint(db, db.agents[a].sprint)
  }

  /** A manual respawn of an agent whose child may still run will read a dead container. */
  ghost predicate WillRefuse(db: Db, k: CheckPc) {
    k.use.ForRespawn? && k.use.a in db.agents &&
    var p := db.agents[k.use.a].sprint;
    match k
    case CheckSprint(q, _) => q == p && DeadHierarchy(db, p)
    case CheckWorkstream(sp, w, _) =>
      p in db.sprints && w == db.sprints[p].workstream && (sp != Active || DeadWorkstream(db, p) || DeadRepo(db, p))
    case CheckRepo(sp, ws, r, _) =>
      p in db.sprints && db.sprints[p].workstream in db.workstreams
      && r == db.workstreams[db.sprints[p].workstream].repo && (sp != Active || ws != Active || DeadRepo(db, p))
  }

  /** A cascade visits agents only under sprints that it found flipped. */
  ghost predicate VisitsDead(db: Db, pc: Pc) {
    && (WorkOf(pc).Some? ==> forall b :: b in WorkOf(pc).value.ags ==> DeadSprintOf(db, b))
    && (pc.Cascade? && pc.cas.ListAgents? ==> DeadSprint(db, pc.cas.p))
    && (pc.Cascade? && pc.cas.FlipRead? ==> DeadSprintOf(db, pc.cas.a))
  }

  ghost predicate ThreadOk(db: Db, world: World, pc: Pc) {
    ItemsOk(world, Queue(pc)) && VisitsDead(db, pc) && PcOk(db, world, pc)
  }

  /** The child at h, just launched, is the session's only one, or an adopt has stopped it and
      inserted its own row. */
  ghost predicate Launched(db: Db, world: World, a: AgentId, h: Handle, origin: Origin) {
    && (origin.Adopted? ==> a !in db.agents)
    && (if a in db.agents then h !in world.alive else OnlyLive(world, a, h))
  }

  /** The row's child is running, and no container above it is killed. */
  ghost predicate Runs(db: Db, world: World, a: AgentId) {
    a in db.agents && db.agents[a].handle in world.alive && !DeadUnder(db, a)
  }

  ghost predicate PcOk(db: Db, world: World, pc: Pc) {
    match pc
    case Lane(l) =>
      (match l
       case TickEnum(rows) => forall x :: x in rows ==> !x.Reported? && (x.Vanished? ==> x.h in world.spawned)
       case AbandonLog(item, _, _) => NoLive(world, item.a) && IsActive(db, item.a)
       case Mark(item, _, _, _) => NoLive(world, item.a) && IsActive(db, item.a)
       case KillOld(item, _, _) => NoLive(world, item.a) && IsActive(db, item.a)
       case LaneProbe(item, _, _) => IsActive(db, item.a)
       case _ => true)
    case Resume(r) =>
      (match r
       case RespawnMark(a) => NoLive(world, a)
       case RespawnActivate(a) => NoLive(world, a)
       case Respawn(a, _) => NoLive(world, a) && IsActive(db, a)
       case Persist(a, h, _, _) => OnlyLive(world, a, h) && IsActive(db, a)
       case KillNew(a, h, _) => OnlyLive(world, a, h)
       case _ => true)
    case Exit(x) =>
      x.ExitFlip? ==>
        if x.kill then x.after.ToUndo? || IsActive(db, x.a)
        else (x.after.ToLane? && NoLive(world, x.a)) || (x.after.ToCascade? && DeadSprintOf(db, x.a))
    case Check(k) =>
      && (k.use.PostInsert? ==> IsActive(db, k.use.a))
      && (k.use.ForRespawn? ==> NoLive(world, k.use.a) || WillRefuse(db, k))
    case Launch(n) =>
      (match n
       case LaunchChild(_) => true
       case LockNew(_, _, _, _) => true
       case Insert(a, _, h, _, origin) => Launched(db, world, a, h, origin)
       case KillOrphan(a, h, origin) => Launched(db, world, a, h, origin)
       case CompFlip(a, row, _) =>
         IsActive(db, a) && (if row.Some? then row.value.status == Active else !Runs(db, world, a))
       case UndoLaunch(_, _) => true
       case _ => IsActive(db, n.a))
    case Adopt(d) =>
      if d.AdoptLock? || d.AdoptCheck? || d.AdoptFail? || d.UndoRead? || d.Refused? then true
      else d.a !in db.agents && (d.AdoptStop? || NoLive(world, d.a))
    case Cascade(_) => true
  }

  // ---------------------------------------------------------------- whole states

  /** The code at pc spawned the child at h and has neither recorded nor killed it yet. */
  ghost predicate Carries(pc: Pc, a: AgentId, h: Handle) {
    || (pc.Launch? && (pc.lau.LockNew? || pc.lau.Insert? || pc.lau.KillOrphan?) && pc.lau.a == a && pc.lau.h == h)
    || (pc.Resume? && (pc.res.Persist? || pc.res.KillNew?) && pc.res.a == a && pc.res.h == h)
  }

  ghost predicate CarriesAny(pc: Pc, a: AgentId) {
    || (pc.Launch? && (pc.lau.LockNew? || pc.lau.Insert? || pc.lau.KillOrphan?) && pc.lau.a == a)
    || (pc.Resume? && (pc.res.Persist? || pc.res.KillNew?) && pc.res.a == a)
  }

  /** No spawn is about to insert a row for the session. */
  ghost predicate NobodyDraws(threads: map<Tid, Pc>, a: AgentId) {
    forall t :: t in threads ==> !SessionIds.Draws(threads[t], a)
  }

  /** The child of a launch that failed to insert its row and to kill it. */
  ghost predicate Stray(s: State, a: AgentId, h: Handle) {
    a !in s.db.agents && OnlyLive(s.world, a, h) && NobodyDraws(s.threads, a)
  }

  ghost predicate Carried(threads: map<Tid, Pc>, a: AgentId, h: Handle) {
    exists t :: t in threads && Carries(threads[t], a, h)
  }

  ghost predicate Housed(s: State, h: Handle)
    requires h in s.world.spawned
  {
    var a := s.world.spawned[h].session;
    (a in s.db.agents && s.db.agents[a].handle == h) || Carried(s.threads, a, h) || Stray(s, a, h)
  }

  ghost predicate AllHoused(s: State) {
    forall h :: h in s.world.alive && h in s.world.spawned ==> Housed(s, h)
  }

  /** The code at pc has flipped the row and kills the terminal before it lets go of the lock. */
  ghost predicate Closing(pc: Option<Pc>, a: AgentId) {
    pc.Some? && pc.value.Exit? && pc.value.ex.a == a
    && (pc.value.ex.KillTerm? || ((pc.value.ex.ExitFlip? || pc.value.ex.ExitLog?) && pc.value.ex.kill))
  }

  /** The row is terminal and its child still runs. */
  ghost predicate LivesOn(db: Db, world: World, a: AgentId) {
    a in db.agents && db.agents[a].status != Active && db.agents[a].handle in world.alive
  }

  ghost predicate ExitedChildren(s: State) {
    forall a :: LivesOn(s.db, s.world, a) ==> DeadUnder(s.db, a) || Closing(HolderPc(s, a), a)
  }

  ghost predicate Threads(s: State) {
    forall t :: t in s.threads ==> ThreadOk(s.db, s.world, s.threads[t])
  }

  /** An adopt of the session that is past its stop and has not inserted its row yet. */
  ghost predicate PastStop(pc: Pc, a: AgentId) {
    || (pc.Adopt? && pc.ado.a == a
        && !(pc.ado.AdoptLock? || pc.ado.AdoptCheck? || pc.ado.AdoptStop? || pc.ado.AdoptFail? || pc.ado.UndoRead?
             || pc.ado.Refused?))
    || (pc.Launch? && pc.lau.Insert? && pc.lau.a == a && pc.lau.origin.Adopted?)
  }

  ghost predicate NobodyPast(threads: map<Tid, Pc>, a: AgentId) {
    forall t :: t in threads ==> !PastStop(threads[t], a)
  }

  /** A spawn waiting for its lock whose child is still running has its session to itself. */
  ghost predicate AloneAt(s: State, pc: Pc) {
    pc.Launch? && pc.lau.LockNew? && pc.lau.h in s.world.alive ==>
      pc.lau.a !in s.db.agents && OnlyLive(s.world, pc.lau.a, pc.lau.h) && NobodyPast(s.threads, pc.lau.a)
  }

  ghost predicate Alone(s: State) {
    forall t :: t in s.threads ==> AloneAt(s, s.threads[t])
  }

  ghost predicate Single(s: State) { Threads(s) && AllHoused(s) && ExitedChildren(s) && Alone(s) }

  /** What the argument takes from the other invariants. */
  ghost predicate Facts(s: State) { IncarnationCoherence.Inv(s) && SessionIds.Inv(s) }

  // ---------------------------------------------------------------- the runs considered

  /** Failing here leaves a child running that the store no longer accounts for: a fresh terminal
      that could neither be recorded nor killed, or the child of a row that has been exited or is
      about to be. It is harmless if the child has died or a container above it is killed. */
  ghost predicate LeavesChild(s: State, pc: Pc) {
    match pc
    case Resume(KillNew(_, h, _)) => h in s.world.alive
    case Launch(KillOrphan(a, h, origin)) =>
      origin.Adopted? && h in s.world.alive && !NobodyDraws(s.threads, a)
    case Launch(CompRead(a, _)) => Runs(s.db, s.world, a)
    case Exit(ExitFlip(a, _, _, after)) => after.ToUndo? && Runs(s.db, s.world, a)
    case Exit(ExitLog(a, _, kill, _)) => kill && Runs(s.db, s.world, a)
    case Exit(KillTerm(a, _, _)) => Runs(s.db, s.world, a)
    case _ => false
  }

  /** The adopt does not find the process that runs under the session. */
  ghost predicate Overlooks(s: State, pc: Pc) {
    pc.Adopt? && pc.ado.AdoptStop? && !NoLive(s.world, pc.ado.a)
  }

  ghost predicate Sound(s: State, pc: Pc, c: Choice) {
    (c.Fail? ==> !LeavesChild(s, pc)) && (c.Missed? ==> !Overlooks(s, pc))
  }

  /** Those calls succeed while it matters, an adopt stops what runs, and no container is
      reactivated. Every other call may fail at any time, children die and terminals vanish. */
  ghost predicate Allowed(s: State, e: Event) {
    (e.Step? && e.t in s.threads ==> Sound(s, s.threads[e.t], e.c)) && !Reactivates(e)
  }

  // ---------------------------------------------------------------- the property in one state

  /** The session's only child, if it is housed without a row. */
  lemma CarriedAlone(s: State, t: Tid, a: AgentId, h: Handle)
    requires Single(s) && t in s.threads && Carries(s.threads[t], a, h) && h in s.world.alive
    ensures OnlyLive(s.world, a, h)
  {
    assert ThreadOk(s.db, s.world, s.threads[t]) && AloneAt(s, s.threads[t]);
  }

  lemma HousedOnce(s: State, g: Handle, h: Handle)
    requires Single(s) && g in s.world.alive && h in s.world.alive && g in s.world.spawned && h in s.world.spawned
    requires s.world.spawned[g].session == s.world.spawned[h].session
    ensures g == h
  {
    hide Single, Threads, Alone, ExitedChildren, Carries, NobodyDraws;
    var a := s.world.spawned[g].session;
    assert Housed(s, g) && Housed(s, h) by { assert AllHoused(s) by { AllAreHoused(s); } }
    if t :| t in s.threads && Carries(s.threads[t], a, g) {
      CarriedAlone(s, t, a, g);
    } else if t :| t in s.threads && Carries(s.threads[t], a, h) {
      CarriedAlone(s, t, a, h);
    }
  }

  lemma AllAreHoused(s: State)
    requires Single(s)
    ensures AllHoused(s)
  {}

  // ---------------------------------------------------------------- what a lock holder sees

  lemma OneDraws(s: State, t: Tid, u: Tid, a: AgentId)
    requires SessionIds.Inv(s) && t in s.threads && u in s.threads
    requires SessionIds.Draws(s.threads[t], a) && SessionIds.Draws(s.threads[u], a)
    ensures t == u
  {
    assert SessionIds.ThreadOk(s.minted, t, s.threads[t]) && SessionIds.ThreadOk(s.minted, u, s.threads[u]);
  }

  lemma OtherDraws(s: State, t: Tid, u: Tid, a: AgentId)
    requires SessionIds.Inv(s) && t in s.threads && u in s.threads && t != u && SessionIds.Draws(s.threads[t], a)
    ensures !SessionIds.Draws(s.threads[u], a)
  {
    if SessionIds.Draws(s.threads[u], a) { OneDraws(s, t, u, a); }
  }

  /** In an agent's critical section its only running child is the row's, if the code there
      carries none itself. */
  ghost predicate RowOnly(db: Db, world: World, a: AgentId) {
    a in db.agents ==> OnlyLive(world, a, db.agents[a].handle)
  }

  lemma OneHolder(s: State, t: Tid, u: Tid, a: AgentId)
    requires Base(s) && t in s.threads && u in s.threads && a in Holds(s.threads[t])
    ensures a in Holds(s.threads[u]) ==> u == t
  {
    assert s.locks[a] == t;
  }

  lemma NotCarried(s: State, t: Tid, u: Tid, a: AgentId, h: Handle)
    requires Base(s) && Alone(s) && t in s.threads && a in Holds(s.threads[t]) && u in s.threads
    requires !CarriesAny(s.threads[t], a) && a in s.db.agents && h in s.world.alive
    ensures !Carries(s.threads[u], a, h)
  {
    OneHolder(s, t, u, a);
    assert AloneAt(s, s.threads[u]);
  }

  lemma HolderSeesRow(s: State, t: Tid, a: AgentId)
    requires Base(s) && AllHoused(s) && Alone(s) && t in s.threads && a in Holds(s.threads[t])
    requires !CarriesAny(s.threads[t], a) && a in s.db.agents
    ensures OnlyLive(s.world, a, s.db.agents[a].handle)
  {
    forall h | h in s.world.alive && h in s.world.spawned && s.world.spawned[h].session == a
      ensures s.db.agents[a].handle == h
    {
      assert Housed(s, h);
      if u :| u in s.threads && Carries(s.threads[u], a, h) { NotCarried(s, t, u, a, h); }
    }
  }

  /** A spawn that gets its lock finds its child the session's only one, or stopped. */
  lemma GetsLock(s: State, t: Tid)
    requires Base(s) && SessionIds.Inv(s) && AllHoused(s) && Alone(s)
    requires t in s.threads && s.threads[t].Launch? && s.threads[t].lau.LockNew?
    requires s.threads[t].lau.a !in s.locks
    ensures Launched(s.db, s.world, s.threads[t].lau.a, s.threads[t].lau.h, Spawned)
  {
    hide LocksAgree, PlaceAgrees, Placing, WellFormed, DeadUnder, DeadHierarchy;
    var pc := s.threads[t];
    var a := pc.lau.a;
    assert AloneAt(s, pc);
    if a !in s.db.agents {
      forall g | g in s.world.alive && g in s.world.spawned && s.world.spawned[g].session == a
        ensures g == pc.lau.h
      {
        assert Housed(s, g) && SessionIds.Draws(pc, a);
        var u :| u in s.threads && Carries(s.threads[u], a, g);
        CarriesUnlocked(s, u, a, g);
        OneDraws(s, t, u, a);
      }
    }
  }

  /** While nobody holds the lock, a carried child belongs to a spawn that waits for it. */
  lemma CarriesUnlocked(s: State, u: Tid, a: AgentId, g: Handle)
    requires Base(s) && u in s.threads && Carries(s.threads[u], a, g) && a !in s.locks
    ensures s.threads[u].Launch? && s.threads[u].lau.LockNew?
    ensures SessionIds.Draws(s.threads[u], a)
  {
    assert a in Holds(s.threads[u]) ==> a in s.locks;
  }

  /** What the code at pc can count on. */
  ghost predicate Local(s: State, pc: Pc) {
    && IncarnationCoherence.Coherent(s.db, s.world) && IncarnationCoherence.ThreadOk(s.db, s.world, pc)
    && ThreadOk(s.db, s.world, pc)
    && (pc.Launch? && pc.lau.LockNew? && pc.lau.a !in s.locks ==>
          Launched(s.db, s.world, pc.lau.a, pc.lau.h, Spawned))
    && (Inside(pc).Some? ==>
          var a := Inside(pc).value;
          && (!CarriesAny(pc, a) ==> RowOnly(s.db, s.world, a))
          && (LivesOn(s.db, s.world, a) ==> DeadUnder(s.db, a) || Closing(Some(pc), a)))
  }

  lemma Localize(s: State, t: Tid)
    requires Facts(s) && Single(s) && t in s.threads
    ensures Local(s, s.threads[t])
  {
    hide Launched, AllHoused, Alone, DeadUnder, Closing, CarriesAny, LocksAgree, PlaceAgrees;
    var pc := s.threads[t];
    assert IncarnationCoherence.ThreadOk(s.db, s.world, pc) && ThreadOk(s.db, s.world, pc);
    if pc.Launch? && pc.lau.LockNew? && pc.lau.a !in s.locks { GetsLock(s, t); }
    if Inside(pc).Some? {
      var a := Inside(pc).value;
      HolderIs(s, t, a);
      if !CarriesAny(pc, a) && a in s.db.agents { HolderSeesRow(s, t, a); }
    }
  }

  lemma HolderIs(s: State, t: Tid, a: AgentId)
    requires Base(s) && t in s.threads && Inside(s.threads[t]) == Some(a)
    ensures a in Holds(s.threads[t]) && HolderPc(s, a) == Some(s.threads[t])
  {}

  // ---------------------------------------------------------------- every step

  lemma Stable(s: State, s': State, pc: Pc)
    requires ThreadOk(s.db, s.world, pc) && Rely(s, s', Holds(pc)) && KilledStays(s.db, s'.db)
    requires IncarnationCoherence.Coherent(s.db, s.world) && IncarnationCoherence.ThreadOk(s.db, s.world, pc)
    ensures ThreadOk(s'.db, s'.world, pc)
  {
    hide PcOk;
    if pc.Check? { StableCheck(s, s', pc); } else { StablePc(s, s', pc); }
  }

  lemma StablePc(s: State, s': State, pc: Pc)
    requires !pc.Check? && PcOk(s.db, s.world, pc) && Rely(s, s', Holds(pc)) && KilledStays(s.db, s'.db)
    requires IncarnationCoherence.Coherent(s.db, s.world) && IncarnationCoherence.ThreadOk(s.db, s.world, pc)
    ensures PcOk(s'.db, s'.world, pc)
  {
    hide PcOk, Holds, IncarnationCoherence.Coherent, IncarnationCoherence.ThreadOk, KilledStays, Rely;
    if pc.Launch? { StableLaunch(s, s', pc.lau); } else { StableElsewhere(s, s', pc); }
  }

  lemma StableElsewhere(s: State, s': State, pc: Pc)
    requires !pc.Check? && !pc.Launch? && PcOk(s.db, s.world, pc) && Rely(s, s', Holds(pc)) && KilledStays(s.db, s'.db)
    requires IncarnationCoherence.ThreadOk(s.db, s.world, pc)
    ensures PcOk(s'.db, s'.world, pc)
  {
    hide WillRefuse, DeadHierarchy;
  }

  lemma StableLaunch(s: State, s': State, k: LaunchPc)
    requires PcOk(s.db, s.world, Launch(k)) && Rely(s, s', Holds(Launch(k))) && KilledStays(s.db, s'.db)
    requires IncarnationCoherence.Coherent(s.db, s.world) && IncarnationCoherence.ThreadOk(s.db, s.world, Launch(k))
    ensures PcOk(s'.db, s'.world, Launch(k))
  {
    hide DeadHierarchy, Runs, KilledStays;
    if k.CompFlip? { StillNotRuns(s, s', k.a); }
  }

  lemma StillNotRuns(s: State, s': State, a: AgentId)
    requires SameRow(s.db, s'.db, a) && GrowsDb(s.db, s'.db) && GrowsWorld(s.world, s'.world)
    requires KilledStays(s.db, s'.db) && IncarnationCoherence.Coherent(s.db, s.world)
    ensures !Runs(s.db, s.world, a) ==> !Runs(s'.db, s'.world, a)
  {}

  lemma StableCheck(s: State, s': State, pc: Pc)
    requires pc.Check? && PcOk(s.db, s.world, pc) && Rely(s, s', Holds(pc)) && KilledStays(s.db, s'.db)
    requires Rooted(s.db)
    ensures PcOk(s'.db, s'.world, pc)
  {}

  /** Nothing joins a lane's queue but by an enumeration. */
  ghost predicate Dequeues(pc: Pc, eff: Effect) {
    eff.next.Some? ==> forall x :: x in Queue(eff.next.value) ==> x in Queue(pc)
  }

  lemma DequeuesLane(s: State, k: LanePc, c: Choice, eff: Effect)
    requires !k.TickList? && !k.TickEnum? && StepLane(s, k, c) == Some(eff)
    ensures Dequeues(Lane(k), eff)
  {}

  lemma DequeuesElsewhere(s: State, pc: Pc, c: Choice, eff: Effect)
    requires !pc.Lane? && !pc.Cascade? && Plan(s, pc, c) == Some(eff)
    ensures Dequeues(pc, eff)
  {}

  lemma DequeuesCascade(s: State, k: CascadePc, c: Choice, eff: Effect)
    requires StepCascade(s, k, c) == Some(eff)
    ensures Dequeues(Cascade(k), eff)
  {
    hide StepNext;
    if k.Next? { NextLoops(s, k.work, c); }
  }

  lemma ItemsStay(world: World, world': World, xs: seq<Item>)
    requires ItemsOk(world, xs) && GrowsWorld(world, world')
    ensures ItemsOk(world', xs)
  {}

  lemma GoodQueue(s: State, pc: Pc, c: Choice, eff: Effect)
    requires ItemsOk(s.world, Queue(pc)) && PcOk(s.db, s.world, pc) && Plan(s, pc, c) == Some(eff)
    requires eff.out.SpawnChild? ==> eff.out.h !in s.world.spawned
    ensures eff.next.Some? ==> ItemsOk(CallOutside(s.world, eff.out), Queue(eff.next.value))
  {
    GrowsCall(s.world, eff.out);
    if pc.Lane? && !pc.lane.TickList? && !pc.lane.TickEnum? {
      DequeuesLane(s, pc.lane, c, eff);
      ItemsStay(s.world, CallOutside(s.world, eff.out), Queue(pc));
    } else if pc.Cascade? {
      DequeuesCascade(s, pc.cas, c, eff);
      ItemsStay(s.world, CallOutside(s.world, eff.out), Queue(pc));
    } else if !pc.Lane? {
      DequeuesElsewhere(s, pc, c, eff);
      ItemsStay(s.world, CallOutside(s.world, eff.out), Queue(pc));
    }
  }

  ghost predicate StaysDead(s: State, eff: Effect) {
    eff.next.Some? ==> VisitsDead(Run(s.db, eff.stmt), eff.next.value)
  }

  lemma DeadCascade(s: State, k: CascadePc, c: Choice, eff: Effect)
    requires VisitsDead(s.db, Cascade(k)) && StepCascade(s, k, c) == Some(eff)
    ensures StaysDead(s, eff)
  {
    hide StepNext;
    if k.Next? { DeadNext(s, k.work, c); }
  }

  lemma DeadNext(s: State, work: Work, c: Choice)
    requires VisitsDead(s.db, Cascade(CascadePc.Next(work)))
    ensures StaysDead(s, StepNext(s, work, c))
  {
    hide NextAgent, NextSprint, NextWorkstream, Cleared, VisitsDead;
    if work.ags != [] { DeadNextAgent(s, work); }
    else if AtSprints(work) { DeadNextSprint(s, work, c); }
    else if AtWorkstreams(work) { DeadNextWorkstream(s, work, c); }
    else { DeadCleared(s, work, c); }
  }

  lemma DeadNextAgent(s: State, work: Work)
    requires work.ags != [] && VisitsDead(s.db, Cascade(CascadePc.Next(work)))
    ensures StaysDead(s, NextAgent(work))
  {}

  lemma DeadCleared(s: State, work: Work, c: Choice)
    requires work.ags == [] && !AtSprints(work) && !AtWorkstreams(work)
    ensures StaysDead(s, StepNext(s, work, c))
  {
    hide NextAgent, NextSprint, NextWorkstream;
  }

  lemma DeadNextSprint(s: State, work: Work, c: Choice)
    requires work.sps != []
    ensures work.ags == [] ==> StaysDead(s, NextSprint(s.db, work, c))
  {}

  lemma DeadNextWorkstream(s: State, work: Work, c: Choice)
    requires work.wss != []
    ensures work.ags == [] ==> StaysDead(s, NextWorkstream(s.db, work, c))
  {}

  lemma DeadExit(s: State, k: ExitPc, c: Choice, eff: Effect)
    requires VisitsDead(s.db, Exit(k)) && StepExit(s, k, c) == Some(eff)
    ensures StaysDead(s, eff)
  {
    hide StepExit, DeadSprintOf;
    ExitKeepsWork(s, k, c, eff);
    if eff.next.Some? && WorkOf(eff.next.value).Some? {
      forall b | b in WorkOf(eff.next.value).value.ags ensures DeadSprintOf(Run(s.db, eff.stmt), b) {
        DeadSprintStays(s.db, eff.stmt, b);
      }
    }
  }

  lemma ExitKeepsWork(s: State, k: ExitPc, c: Choice, eff: Effect)
    requires StepExit(s, k, c) == Some(eff)
    ensures eff.stmt.NoStatement? || eff.stmt.SetStatus?
    ensures eff.next.Some? && eff.next.value.Cascade? ==>
      !eff.next.value.cas.ListAgents? && !eff.next.value.cas.FlipRead?
    ensures eff.next.Some? && WorkOf(eff.next.value).Some? ==>
      && WorkOf(Exit(k)).Some?
      && forall b :: b in WorkOf(eff.next.value).value.ags ==> b in WorkOf(Exit(k)).value.ags
  {}

  lemma DeadSprintStays(db: Db, stmt: Statement, b: AgentId)
    requires DeadSprintOf(db, b) && (stmt.NoStatement? || stmt.SetStatus?)
    ensures DeadSprintOf(Run(db, stmt), b)
  {}

  lemma DeadAdopt(s: State, k: AdoptPc, c: Choice, eff: Effect)
    requires StepAdopt(s, k, c) == Some(eff)
    ensures StaysDead(s, eff)
  {}

  lemma DeadElsewhere(s: State, pc: Pc, c: Choice, eff: Effect)
    requires !pc.Cascade? && !pc.Exit? && !pc.Adopt? && Plan(s, pc, c) == Some(eff)
    ensures StaysDead(s, eff)
  {}

  ghost predicate Goes(s: State, eff: Effect) {
    eff.next.Some? ==> PcOk(Run(s.db, eff.stmt), CallOutside(s.world, eff.out), eff.next.value)
  }

  /** A listing older than the enumeration, or a report, names a child that is gone. */
  lemma SeenDead(db: Db, world: World, item: Item)
    requires IncarnationCoherence.Coherent(db, world) && item.a in db.agents && ItemOk(world, item)
    requires match item
      case Vanished(a, h) => db.agents[a].handle == h
      case Stale(a) => false
      case Reported(a, n) => db.agents[a].nonce == n
    ensures db.agents[item.a].handle !in world.alive
  {
    if item.Reported? {
      var h :| h in world.spawned && h !in world.alive
        && world.spawned[h].session == item.a && world.spawned[h].nonce == item.n;
      assert world.spawned[db.agents[item.a].handle].nonce == item.n;
    }
  }

  /** The lane's decision: what it goes on to act on is gone. */
  lemma GoodRead(s: State, k: LanePc, c: Choice, eff: Effect)
    requires k.LaneRead? && Local(s, Lane(k)) && StepLane(s, k, c) == Some(eff)
    ensures Goes(s, eff)
  {
    assert k.item in Queue(Lane(k));
    if !eff.next.value.Exit? && !k.item.Stale? { SeenDead(s.db, s.world, k.item); }
  }

  lemma GoodProbe(s: State, k: LanePc, c: Choice, eff: Effect)
    requires k.LaneProbe? && PcOk(s.db, s.world, Lane(k)) && StepLane(s, k, c) == Some(eff)
    requires IncarnationCoherence.ThreadOk(s.db, s.world, Lane(k)) && RowOnly(s.db, s.world, k.item.a)
    ensures Goes(s, eff)
  {}

  lemma GoodLane(s: State, k: LanePc, c: Choice, eff: Effect)
    requires !k.LaneRead? && !k.LaneProbe?
    requires IncarnationCoherence.CoherentRows(s.db, s.world) && PcOk(s.db, s.world, Lane(k))
    requires StepLane(s, k, c) == Some(eff)
    ensures Goes(s, eff)
  {}

  lemma GoodResume(s: State, k: ResumePc, c: Choice, eff: Effect)
    requires PcOk(s.db, s.world, Resume(k)) && StepResume(s, k, c) == Some(eff) && Sound(s, Resume(k), c)
    requires IncarnationCoherence.ThreadOk(s.db, s.world, Resume(k))
    requires k.RespawnRead? && k.a in s.db.agents ==>
      RowOnly(s.db, s.world, k.a) && (LivesOn(s.db, s.world, k.a) ==> DeadUnder(s.db, k.a))
    ensures Goes(s, eff)
  {}

  lemma GoodExit(s: State, k: ExitPc, c: Choice, eff: Effect)
    requires PcOk(s.db, s.world, Exit(k)) && StepExit(s, k, c) == Some(eff) && Sound(s, Exit(k), c)
    ensures Goes(s, eff)
  {}

  lemma GoodCheck(s: State, k: CheckPc, c: Choice, eff: Effect)
    requires PcOk(s.db, s.world, Check(k)) && StepCheck(s, k, c) == Some(eff)
    ensures Goes(s, eff)
  {}

  lemma GoodLaunch(s: State, k: LaunchPc, c: Choice, eff: Effect)
    requires PcOk(s.db, s.world, Launch(k)) && StepLaunch(s, k, c) == Some(eff) && Sound(s, Launch(k), c)
    requires IncarnationCoherence.ThreadOk(s.db, s.world, Launch(k))
    requires k.LockNew? ==> Launched(s.db, s.world, k.a, k.h, Spawned)
    ensures Goes(s, eff)
  {}

  lemma GoodAdopt(s: State, k: AdoptPc, c: Choice, eff: Effect)
    requires PcOk(s.db, s.world, Adopt(k)) && StepAdopt(s, k, c) == Some(eff) && Sound(s, Adopt(k), c)
    ensures Goes(s, eff)
  {}

  lemma GoodCascade(s: State, k: CascadePc, c: Choice, eff: Effect)
    requires VisitsDead(s.db, Cascade(k)) && StepCascade(s, k, c) == Some(eff)
    ensures Goes(s, eff)
  {
    hide StepNext;
    if k.Next? { NextLoops(s, k.work, c); }
  }

  lemma GoodPlan(s: State, pc: Pc, c: Choice, eff: Effect)
    requires Local(s, pc) && Plan(s, pc, c) == Some(eff) && Sound(s, pc, c) && Grantable(s, eff)
    ensures Goes(s, eff)
  {
    match pc
    case Lane(k) =>
      if k.LaneRead? { GoodRead(s, k, c, eff); }
      else if k.LaneProbe? { GoodProbe(s, k, c, eff); }
      else { GoodLane(s, k, c, eff); }
    case Resume(k) => GoodResume(s, k, c, eff);
    case Exit(k) => GoodExit(s, k, c, eff);
    case Check(k) => GoodCheck(s, k, c, eff);
    case Launch(k) => GoodLaunch(s, k, c, eff);
    case Adopt(k) => GoodAdopt(s, k, c, eff);
    case Cascade(k) => GoodCascade(s, k, c, eff);
  }

  lemma DeadPlan(s: State, pc: Pc, c: Choice, eff: Effect)
    requires VisitsDead(s.db, pc) && Plan(s, pc, c) == Some(eff)
    ensures StaysDead(s, eff)
  {
    match pc
    case Exit(k) => DeadExit(s, k, c, eff);
    case Adopt(k) => DeadAdopt(s, k, c, eff);
    case Cascade(k) => DeadCascade(s, k, c, eff);
    case _ => DeadElsewhere(s, pc, c, eff);
  }

  // ---------------------------------------------------------------- children are accounted for

  /** A spawn knows whose session it runs: its own fresh one, a row's, or the adopted one. */
  ghost predicate SpawnsFor(pc: Pc, eff: Effect, a: AgentId) {
    || eff.birth == MintSession(a)
    || (pc.Resume? && pc.res.Respawn? && pc.res.a == a)
    || (pc.Adopt? && pc.ado.AdoptLaunch? && pc.ado.a == a)
  }

  /** The kill of a launch whose row could not be inserted. */
  ghost predicate Fails(pc: Pc) { pc.Launch? && pc.lau.KillOrphan? }

  /** A new child is carried; a carried one stays carried, becomes the row's, or is killed, but
      for a failing kill of a child that got no row. */
  ghost predicate Accounts(s: State, pc: Pc, eff: Effect) {
    var db, world := Run(s.db, eff.stmt), CallOutside(s.world, eff.out);
    && (eff.out.SpawnChild? ==>
          && SpawnsFor(pc, eff, eff.out.inc.session)
          && eff.next.Some? && Carries(eff.next.value, eff.out.inc.session, eff.out.h))
    && (forall a, h :: Carries(pc, a, h) ==>
          || (eff.next.Some? && Carries(eff.next.value, a, h)) || h !in world.alive
          || (a in db.agents && db.agents[a].handle == h) || Fails(pc))
    && (eff.stmt.SetIncarnation? ==>
          pc.Resume? && pc.res.Persist? && pc.res.a == eff.stmt.a && pc.res.h == eff.stmt.h)
    && (eff.stmt.AddAgent? ==>
          pc.Launch? && pc.lau.Insert? && pc.lau.a == eff.stmt.a && pc.lau.h == eff.stmt.row.handle)
    && (Fails(pc) ==> eff.next.Some? && eff.next.value == Launch(UndoLaunch(pc.lau.a, pc.lau.origin))
                      && eff.stmt.NoStatement? && !eff.out.SpawnChild?)
  }

  /** An adopt gets past its stop only with nothing running, and a spawn waits for its lock only
      with the session and the child it has just been given. */
  ghost predicate Passes(s: State, pc: Pc, eff: Effect) {
    eff.next.Some? ==>
      && (forall a :: PastStop(eff.next.value, a) ==>
            PastStop(pc, a) || NoLive(CallOutside(s.world, eff.out), a))
      && (eff.next.value.Launch? && eff.next.value.lau.LockNew? ==>
            && eff.birth == MintSession(eff.next.value.lau.a)
            && eff.stmt.NoStatement? && eff.out.SpawnChild?
            && eff.out.inc.session == eff.next.value.lau.a && eff.out.h == eff.next.value.lau.h)
  }

  lemma PassesLaunch(s: State, k: LaunchPc, c: Choice, eff: Effect)
    requires StepLaunch(s, k, c) == Some(eff)
    ensures Passes(s, Launch(k), eff)
  {}

  lemma PassesAdopt(s: State, k: AdoptPc, c: Choice, eff: Effect)
    requires StepAdopt(s, k, c) == Some(eff) && Sound(s, Adopt(k), c)
    ensures Passes(s, Adopt(k), eff)
  {}

  lemma PassesCascade(s: State, k: CascadePc, c: Choice, eff: Effect)
    requires StepCascade(s, k, c) == Some(eff)
    ensures Passes(s, Cascade(k), eff)
  {
    hide StepNext;
    if k.Next? { NextLoops(s, k.work, c); }
  }

  lemma PassesElsewhere(s: State, pc: Pc, c: Choice, eff: Effect)
    requires !pc.Launch? && !pc.Adopt? && !pc.Cascade? && Plan(s, pc, c) == Some(eff)
    ensures Passes(s, pc, eff)
  {}

  lemma PassesPlan(s: State, pc: Pc, c: Choice, eff: Effect)
    requires Plan(s, pc, c) == Some(eff) && Sound(s, pc, c)
    ensures Passes(s, pc, eff)
  {
    match pc
    case Launch(k) => PassesLaunch(s, k, c, eff);
    case Adopt(k) => PassesAdopt(s, k, c, eff);
    case Cascade(k) => PassesCascade(s, k, c, eff);
    case _ => PassesElsewhere(s, pc, c, eff);
  }

  lemma AccountsResume(s: State, k: ResumePc, c: Choice, eff: Effect)
    requires StepResume(s, k, c) == Some(eff) && Sound(s, Resume(k), c)
    requires IncarnationCoherence.ThreadOk(s.db, s.world, Resume(k))
    ensures Accounts(s, Resume(k), eff)
  {}

  lemma AccountsLaunch(s: State, k: LaunchPc, c: Choice, eff: Effect)
    requires StepLaunch(s, k, c) == Some(eff) && Sound(s, Launch(k), c)
    ensures Accounts(s, Launch(k), eff)
  {}

  lemma AccountsAdopt(s: State, k: AdoptPc, c: Choice, eff: Effect)
    requires StepAdopt(s, k, c) == Some(eff)
    ensures Accounts(s, Adopt(k), eff)
  {}

  lemma AccountsCascade(s: State, k: CascadePc, c: Choice, eff: Effect)
    requires StepCascade(s, k, c) == Some(eff)
    ensures Accounts(s, Cascade(k), eff)
  {
    hide StepNext;
    if k.Next? { NextLoops(s, k.work, c); }
  }

  lemma AccountsLane(s: State, k: LanePc, c: Choice, eff: Effect)
    requires StepLane(s, k, c) == Some(eff)
    ensures Accounts(s, Lane(k), eff)
  {}

  lemma AccountsExit(s: State, k: ExitPc, c: Choice, eff: Effect)
    requires StepExit(s, k, c) == Some(eff)
    ensures Accounts(s, Exit(k), eff)
  {}

  lemma AccountsCheck(s: State, k: CheckPc, c: Choice, eff: Effect)
    requires StepCheck(s, k, c) == Some(eff)
    ensures Accounts(s, Check(k), eff)
  {}

  lemma AccountsPlan(s: State, pc: Pc, c: Choice, eff: Effect)
    requires Plan(s, pc, c) == Some(eff) && Sound(s, pc, c) && IncarnationCoherence.ThreadOk(s.db, s.world, pc)
    ensures Accounts(s, pc, eff)
  {
    match pc
    case Resume(k) => AccountsResume(s, k, c, eff);
    case Launch(k) => AccountsLaunch(s, k, c, eff);
    case Adopt(k) => AccountsAdopt(s, k, c, eff);
    case Cascade(k) => AccountsCascade(s, k, c, eff);
    case Lane(k) => AccountsLane(s, k, c, eff);
    case Exit(k) => AccountsExit(s, k, c, eff);
    case Check(k) => AccountsCheck(s, k, c, eff);
  }

  /** What a step knows about the thread that takes it. */
  ghost predicate Steps(s: State, t: Tid, eff: Effect) {
    && t in s.threads && PcOk(s.db, s.world, s.threads[t])
    && Scoped(s, s.threads[t], eff) && Accounts(s, s.threads[t], eff) && Passes(s, s.threads[t], eff)
    && SessionIds.Traces(s.threads[t], eff)
  }

  /** Nobody spawns for a session without a row whose one child runs. */
  lemma NoSecondChild(s: State, t: Tid, eff: Effect, a: AgentId, h: Handle)
    requires Steps(s, t, eff) && a !in s.db.agents && OnlyLive(s.world, a, h)
    requires h in s.world.alive && h in s.world.spawned && s.world.spawned[h].session == a
    ensures OnlyLive(CallOutside(s.world, eff.out), a, h)
  {
    hide Carries, Passes, Relocks, WellFormed, Placing, Holds;
  }

  /** A failed launch leaves nothing behind but a stray child at most. */
  lemma FailsStray(s: State, t: Tid, c: Choice, eff: Effect, h: Handle)
    requires SessionIds.Inv(s) && Steps(s, t, eff) && Fails(s.threads[t]) && Sound(s, s.threads[t], c)
    requires Plan(s, s.threads[t], c) == Some(eff) && Carries(s.threads[t], s.threads[t].lau.a, h)
    requires h in CallOutside(s.world, eff.out).alive
    ensures Stray(Perform(s, t, eff), s.threads[t].lau.a, h)
  {
    hide Scoped, Accounts, Passes, Holds, Base;
    var s', pc := Perform(s, t, eff), s.threads[t];
    var a := pc.lau.a;
    forall u | u in s'.threads ensures !SessionIds.Draws(s'.threads[u], a) {
      if u != t && pc.lau.origin.Spawned? { OtherDraws(s, t, u, a); }
    }
  }

  /** Housing over a step of t: a child with a row, one carried, and a stray one. */
  lemma RowHoused(s: State, t: Tid, eff: Effect, a: AgentId, h: Handle)
    requires Steps(s, t, eff) && a in s.db.agents && s.db.agents[a].handle == h && h in s.world.alive
    requires h in s.world.spawned && s.world.spawned[h].session == a
    requires IncarnationCoherence.ThreadOk(s.db, s.world, s.threads[t])
    ensures a in Run(s.db, eff.stmt).agents && Run(s.db, eff.stmt).agents[a].handle == h
  {
    hide Passes, Relocks, WellFormed, Placing, Holds;
    assert eff.stmt.SetIncarnation? && eff.stmt.a == a ==> OnlyLive(s.world, a, eff.stmt.h);
  }

  lemma CarriedHoused(s: State, t: Tid, c: Choice, eff: Effect, u: Tid, a: AgentId, h: Handle)
    requires SessionIds.Inv(s) && Steps(s, t, eff) && Sound(s, s.threads[t], c)
    requires Plan(s, s.threads[t], c) == Some(eff) && u in s.threads && Carries(s.threads[u], a, h)
    requires h in CallOutside(s.world, eff.out).alive && h in s.world.spawned && s.world.spawned[h].session == a
    ensures var s' := Perform(s, t, eff);
      (a in s'.db.agents && s'.db.agents[a].handle == h) || Carried(s'.threads, a, h) || Stray(s', a, h)
  {
    hide Plan, Passes, Scoped, Holds, Base, Stray;
    var s' := Perform(s, t, eff);
    if u != t {
      assert Carries(s'.threads[u], a, h);
    } else if Fails(s.threads[t]) {
      FailsStray(s, t, c, eff, h);
    } else if eff.next.Some? && Carries(eff.next.value, a, h) {
      assert Carries(s'.threads[t], a, h);
    }
  }

  lemma StrayHoused(s: State, t: Tid, eff: Effect, a: AgentId, h: Handle)
    requires SessionIds.Inv(s) && Steps(s, t, eff) && Stray(s, a, h)
    requires h in s.world.alive && h in s.world.spawned && s.world.spawned[h].session == a
    requires IncarnationCoherence.ThreadOk(s.db, s.world, s.threads[t])
    ensures var s' := Perform(s, t, eff);
      (a in s'.db.agents && s'.db.agents[a].handle == h) || Stray(s', a, h)
  {
    hide Accounts, Passes, Carries, OnlyLive, Relocks, Placing, WellFormed, Holds, Base;
    var s' := Perform(s, t, eff);
    NoSecondChild(s, t, eff, a, h);
    StrayUndrawn(s, t, eff, a, h);
    if eff.stmt.AddAgent? && eff.stmt.a == a { StrayInserted(s, t, eff, a, h); }
  }

  lemma StrayUndrawn(s: State, t: Tid, eff: Effect, a: AgentId, h: Handle)
    requires Steps(s, t, eff) && NobodyDraws(s.threads, a)
    requires h in s.world.spawned && s.world.spawned[h].session == a
    ensures NobodyDraws(Perform(s, t, eff).threads, a)
  {
    hide Accounts, Passes, Carries, Relocks, Placing, WellFormed, Holds, PcOk;
  }

  lemma StrayInserted(s: State, t: Tid, eff: Effect, a: AgentId, h: Handle)
    requires Steps(s, t, eff) && Stray(s, a, h) && eff.stmt.AddAgent? && eff.stmt.a == a
    requires h in s.world.alive && h in s.world.spawned && s.world.spawned[h].session == a
    requires IncarnationCoherence.ThreadOk(s.db, s.world, s.threads[t])
    ensures eff.stmt.row.handle == h
  {
    hide Passes, Relocks, Placing, WellFormed, Holds;
    assert SessionIds.Draws(s.threads[t], a) || s.threads[t].lau.origin.Adopted?;
  }

  lemma HousedAfter(s: State, t: Tid, c: Choice, eff: Effect)
    requires SessionIds.Inv(s) && AllHoused(s) && Steps(s, t, eff) && Sound(s, s.threads[t], c)
    requires Plan(s, s.threads[t], c) == Some(eff) && IncarnationCoherence.ThreadOk(s.db, s.world, s.threads[t])
    ensures AllHoused(Perform(s, t, eff))
  {
    hide Plan, Passes, Scoped, PcOk, Base, Stray, Carried;
    var s', pc := Perform(s, t, eff), s.threads[t];
    GrowsScoped(s, t, eff);
    forall h | h in s'.world.alive && h in s'.world.spawned ensures Housed(s', h) {
      var a := s'.world.spawned[h].session;
      if eff.out.SpawnChild? && h == eff.out.h {
        NewHoused(s, t, eff);
      } else {
        assert Housed(s, h);
        if a in s.db.agents && s.db.agents[a].handle == h {
          RowHoused(s, t, eff, a, h);
        } else if Carried(s.threads, a, h) {
          var u := Carrier(s.threads, a, h);
          CarriedHoused(s, t, c, eff, u, a, h);
        } else {
          StrayHoused(s, t, eff, a, h);
        }
      }
    }
  }

  lemma Carrier(threads: map<Tid, Pc>, a: AgentId, h: Handle) returns (u: Tid)
    requires Carried(threads, a, h)
    ensures u in threads && Carries(threads[u], a, h)
  {
    u :| u in threads && Carries(threads[u], a, h);
  }

  lemma NewHoused(s: State, t: Tid, eff: Effect)
    requires t in s.threads && Accounts(s, s.threads[t], eff) && eff.out.SpawnChild?
    ensures Carried(Perform(s, t, eff).threads, eff.out.inc.session, eff.out.h)
  {
    hide Carries;
    assert Carries(Perform(s, t, eff).threads[t], eff.out.inc.session, eff.out.h);
  }

  lemma GrowsScoped(s: State, t: Tid, eff: Effect)
    requires t in s.threads && Scoped(s, s.threads[t], eff)
    ensures GrowsWorld(s.world, CallOutside(s.world, eff.out))
    ensures var world := CallOutside(s.world, eff.out);
      forall h :: (h in world.alive && h in world.spawned && !(eff.out.SpawnChild? && h == eff.out.h)) ==>
        h in s.world.alive && h in s.world.spawned && world.spawned[h] == s.world.spawned[h]
  {
    hide Relocks, WellFormed, Placing, Holds;
    GrowsCall(s.world, eff.out);
  }

  // ---------------------------------------------------------------- spawns waiting for their lock

  /** A spawn that has just drawn its session: nothing runs or waits under it. */
  lemma AloneFirst(s: State, t: Tid, eff: Effect)
    requires Base(s) && Steps(s, t, eff) && eff.next.Some? && eff.next.value.Launch? && eff.next.value.lau.LockNew?
    ensures AloneAt(Perform(s, t, eff), eff.next.value)
  {
    hide Steps, OnlyLive, NobodyPast, Base;
    FreshAlone(s, t, eff);
    FreshUnnamed(s, t, eff);
  }

  lemma PastHolds(pc: Pc, a: AgentId)
    requires PastStop(pc, a)
    ensures a in Holds(pc)
  {}

  lemma FreshUnnamed(s: State, t: Tid, eff: Effect)
    requires Base(s) && Steps(s, t, eff) && eff.next.Some? && eff.next.value.Launch? && eff.next.value.lau.LockNew?
    ensures NobodyPast(Perform(s, t, eff).threads, eff.next.value.lau.a)
  {
    hide Accounts, PcOk, Placing, PlaceAgrees, WellFormed, Relocks, Holds;
    var s', a := Perform(s, t, eff), eff.next.value.lau.a;
    forall u | u in s'.threads ensures !PastStop(s'.threads[u], a) {
      if u != t && PastStop(s.threads[u], a) {
        PastHolds(s.threads[u], a);
        assert false;
      }
    }
  }

  lemma FreshAlone(s: State, t: Tid, eff: Effect)
    requires Steps(s, t, eff) && eff.next.Some? && eff.next.value.Launch? && eff.next.value.lau.LockNew?
    ensures var s', lau := Perform(s, t, eff), eff.next.value.lau;
      lau.a !in s'.db.agents && OnlyLive(s'.world, lau.a, lau.h)
  {
    hide PcOk, Placing, WellFormed, Relocks, Holds, Carries, PastStop;
  }

  lemma AloneStays(s: State, t: Tid, eff: Effect, u: Tid)
    requires SessionIds.Inv(s) && Steps(s, t, eff) && u in s.threads && u != t && AloneAt(s, s.threads[u])
    requires IncarnationCoherence.ThreadOk(s.db, s.world, s.threads[u])
    ensures AloneAt(Perform(s, t, eff), s.threads[u])
  {
    hide Accounts, Passes, Relocks, Placing, WellFormed, Holds, Base, PcOk, OnlyLive, NobodyPast;
    var s', pc := Perform(s, t, eff), s.threads[u];
    if pc.Launch? && pc.lau.LockNew? && pc.lau.h in s'.world.alive {
      var a, h := pc.lau.a, pc.lau.h;
      GrowsScoped(s, t, eff);
      NoSecondChild(s, t, eff, a, h);
      NobodyPasses(s, t, eff, a, h);
      NobodyInserts(s, t, eff, u, a);
    }
  }

  lemma NobodyPasses(s: State, t: Tid, eff: Effect, a: AgentId, h: Handle)
    requires Steps(s, t, eff) && NobodyPast(s.threads, a)
    requires h in s.world.spawned && s.world.spawned[h].session == a
    requires h in CallOutside(s.world, eff.out).alive && h in CallOutside(s.world, eff.out).spawned
    requires CallOutside(s.world, eff.out).spawned[h].session == a
    ensures NobodyPast(Perform(s, t, eff).threads, a)
  {
    hide Accounts, Relocks, Placing, WellFormed, Holds, PcOk, PastStop;
  }

  lemma Inserter(pc: Pc, a: AgentId)
    ensures pc.Launch? && pc.lau.Insert? && pc.lau.a == a ==> PastStop(pc, a) || SessionIds.Draws(pc, a)
  {}

  lemma NobodyInserts(s: State, t: Tid, eff: Effect, u: Tid, a: AgentId)
    requires SessionIds.Inv(s) && Steps(s, t, eff) && u in s.threads && u != t && NobodyPast(s.threads, a)
    requires SessionIds.Draws(s.threads[u], a) && a !in s.db.agents
    ensures a !in Run(s.db, eff.stmt).agents
  {
    hide Passes, Relocks, Placing, WellFormed, Holds, PcOk, Base, Carries;
    OtherDraws(s, u, t, a);
    Inserter(s.threads[t], a);
  }

  lemma AloneAfter(s: State, t: Tid, eff: Effect)
    requires Facts(s) && Alone(s) && Steps(s, t, eff)
    ensures Alone(Perform(s, t, eff))
  {
    hide AloneAt, Accounts, Passes, Scoped, PcOk;
    var s' := Perform(s, t, eff);
    forall u | u in s'.threads ensures AloneAt(s', s'.threads[u]) {
      if u != t {
        assert IncarnationCoherence.ThreadOk(s.db, s.world, s.threads[u]) && AloneAt(s, s.threads[u]);
        AloneStays(s, t, eff, u);
      } else {
        NextAlone(s, t, eff);
      }
    }
  }

  lemma NextAlone(s: State, t: Tid, eff: Effect)
    requires Base(s) && Steps(s, t, eff) && eff.next.Some?
    ensures AloneAt(Perform(s, t, eff), eff.next.value)
  {
    hide Accounts, Passes, Scoped, PcOk, Base;
    if eff.next.value.Launch? && eff.next.value.lau.LockNew? { AloneFirst(s, t, eff); }
  }

  // ---------------------------------------------------------------- terminal rows

  /** The exit obligation of the agent whose lock the thread holds. */
  ghost predicate ExitKept(s: State, eff: Effect, a: AgentId) {
    var db, world := Run(s.db, eff.stmt), CallOutside(s.world, eff.out);
    LivesOn(db, world, a) ==> DeadUnder(db, a) || Closing(HolderNext(eff, a), a)
  }

  ghost predicate ExitOwed(s: State, pc: Pc, a: AgentId) {
    LivesOn(s.db, s.world, a) ==> DeadUnder(s.db, a) || Closing(Some(pc), a)
  }

  lemma KeptExit(s: State, k: ExitPc, c: Choice, eff: Effect, a: AgentId)
    requires StepExit(s, k, c) == Some(eff) && Sound(s, Exit(k), c) && a in Holds(Exit(k)) && ExitOwed(s, Exit(k), a)
    requires PcOk(s.db, s.world, Exit(k)) && IncarnationCoherence.ThreadOk(s.db, s.world, Exit(k))
    requires IncarnationCoherence.CoherentRows(s.db, s.world)
    ensures ExitKept(s, eff, a)
  {}

  lemma KeptResume(s: State, k: ResumePc, c: Choice, eff: Effect, a: AgentId)
    requires StepResume(s, k, c) == Some(eff) && ExitOwed(s, Resume(k), a)
    requires PcOk(s.db, s.world, Resume(k)) && IncarnationCoherence.CoherentRows(s.db, s.world)
    ensures ExitKept(s, eff, a)
  {}

  lemma KeptLaunch(s: State, k: LaunchPc, c: Choice, eff: Effect, a: AgentId)
    requires StepLaunch(s, k, c) == Some(eff) && Sound(s, Launch(k), c) && a in Holds(Launch(k))
    requires ExitOwed(s, Launch(k), a)
    requires PcOk(s.db, s.world, Launch(k)) && IncarnationCoherence.CoherentRows(s.db, s.world)
    ensures ExitKept(s, eff, a)
  {}

  /** The other program counters write neither a status nor an incarnation. */
  ghost predicate LeavesRows(eff: Effect) {
    !eff.stmt.AddAgent? && !eff.stmt.SetStatus? && !eff.stmt.SetIncarnation?
  }

  lemma LeavesRowsCascade(s: State, k: CascadePc, c: Choice, eff: Effect)
    requires StepCascade(s, k, c) == Some(eff)
    ensures LeavesRows(eff)
  {
    hide StepCascade;
    CascadesOnlyFlip(s, k, c, eff);
  }

  lemma LeavesRowsElsewhere(s: State, pc: Pc, c: Choice, eff: Effect)
    requires (pc.Lane? || pc.Check? || pc.Adopt?) && Plan(s, pc, c) == Some(eff)
    ensures LeavesRows(eff)
  {}

  lemma LivedOn(db: Db, world: World, eff: Effect, a: AgentId)
    requires LeavesRows(eff) && IncarnationCoherence.CoherentRows(db, world)
    requires eff.out.SpawnChild? ==> eff.out.h !in world.spawned
    requires LivesOn(Run(db, eff.stmt), CallOutside(world, eff.out), a)
    ensures LivesOn(db, world, a)
  {}

  lemma StaysUnderDead(db: Db, stmt: Statement, a: AgentId)
    requires Rooted(db) && InsertsNew(db, stmt) && DeadUnder(db, a)
    ensures DeadUnder(Run(db, stmt), a)
  {
    GrowsRun(db, stmt);
  }

  lemma KeptQuietly(s: State, pc: Pc, eff: Effect, a: AgentId)
    requires LeavesRows(eff) && !pc.Exit? && ExitOwed(s, pc, a) && InsertsNew(s.db, eff.stmt)
    requires Rooted(s.db) && IncarnationCoherence.CoherentRows(s.db, s.world)
    requires eff.out.SpawnChild? ==> eff.out.h !in s.world.spawned
    ensures ExitKept(s, eff, a)
  {
    hide LivesOn, DeadUnder;
    if LivesOn(Run(s.db, eff.stmt), CallOutside(s.world, eff.out), a) {
      LivedOn(s.db, s.world, eff, a);
      StaysUnderDead(s.db, eff.stmt, a);
    }
  }

  lemma KeptPlan(s: State, pc: Pc, c: Choice, eff: Effect, a: AgentId)
    requires Local(s, pc) && a in Holds(pc) && ExitOwed(s, pc, a)
    requires Plan(s, pc, c) == Some(eff) && Sound(s, pc, c) && InsertsNew(s.db, eff.stmt)
    requires eff.out.SpawnChild? ==> eff.out.h !in s.world.spawned
    ensures ExitKept(s, eff, a)
  {
    match pc
    case Exit(k) => KeptExit(s, k, c, eff, a);
    case Resume(k) => KeptResume(s, k, c, eff, a);
    case Launch(k) => KeptLaunch(s, k, c, eff, a);
    case Cascade(k) => LeavesRowsCascade(s, k, c, eff); KeptQuietly(s, pc, eff, a);
    case _ => LeavesRowsElsewhere(s, pc, c, eff); KeptQuietly(s, pc, eff, a);
  }

  // ---------------------------------------------------------------- whole states and runs

  lemma ThreadsAfter(s: State, t: Tid, c: Choice, eff: Effect)
    requires Facts(s) && Single(s) && t in s.threads && Scoped(s, s.threads[t], eff)
    requires Plan(s, s.threads[t], c) == Some(eff) && Sound(s, s.threads[t], c) && Grantable(s, eff)
    ensures eff.next.Some? ==> ThreadOk(Perform(s, t, eff).db, Perform(s, t, eff).world, eff.next.value)
  {
    Localize(s, t);
    GoodPlan(s, s.threads[t], c, eff);
    GoodQueue(s, s.threads[t], c, eff);
    DeadPlan(s, s.threads[t], c, eff);
  }

  lemma OthersAfter(s: State, s': State, u: Tid)
    requires Facts(s) && Threads(s) && u in s.threads
    requires Rely(s, s', Holds(s.threads[u])) && KilledStays(s.db, s'.db)
    ensures ThreadOk(s'.db, s'.world, s.threads[u])
  {
    hide Rely, KilledStays, ThreadOk, IncarnationCoherence.Coherent, IncarnationCoherence.ThreadOk, SessionIds.Inv,
      Base;
    Stable(s, s', s.threads[u]);
  }

  lemma ExitedAfter(s: State, t: Tid, c: Choice, eff: Effect)
    requires Facts(s) && Single(s) && t in s.threads && Scoped(s, s.threads[t], eff) && Grantable(s, eff)
    requires Plan(s, s.threads[t], c) == Some(eff) && Sound(s, s.threads[t], c)
    ensures ExitedChildren(Perform(s, t, eff))
  {
    hide Plan, Sound, Relocks, WellFormed, Placing, Holds, LivesOn, DeadUnder, PcOk, AllHoused, Alone, Threads;
    var s', pc := Perform(s, t, eff), s.threads[t];
    Localize(s, t);
    forall a | LivesOn(s'.db, s'.world, a) ensures DeadUnder(s'.db, a) || Closing(HolderPc(s', a), a) {
      if a in Holds(pc) {
        HolderHere(s, t, eff, a);
        KeptPlan(s, pc, c, eff, a);
      } else {
        HolderElsewhere(s, t, eff, a);
        ExitedElsewhere(s, eff, a);
      }
    }
  }

  lemma ExitedElsewhere(s: State, eff: Effect, a: AgentId)
    requires a !in Writes(eff.stmt) && InsertsNew(s.db, eff.stmt) && Rooted(s.db)
    requires IncarnationCoherence.CoherentRows(s.db, s.world) && (eff.out.SpawnChild? ==> eff.out.h !in s.world.spawned)
    requires LivesOn(Run(s.db, eff.stmt), CallOutside(s.world, eff.out), a)
    ensures LivesOn(s.db, s.world, a)
    ensures DeadUnder(s.db, a) ==> DeadUnder(Run(s.db, eff.stmt), a)
  {
    GrowsRun(s.db, eff.stmt);
    SameRowRun(s.db, eff.stmt, a);
    GrowsCall(s.world, eff.out);
  }

  lemma NextStep(s: State, t: Tid, c: Choice, s': State)
    requires Facts(s) && Single(s) && Apply(s, Step(t, c)) == Some(s') && Allowed(s, Step(t, c))
    ensures Single(s')
  {
    hide Apply, Plan, Scoped, Accounts, Passes, ThreadOk, PcOk, AllHoused, Alone, ExitedChildren, Rely, GrowsDb,
      GrowsWorld, KilledStays, LeavesChild, Overlooks;
    var eff := Unpack(s, t, c, s');
    StepSteps(s, t, c, eff);
    ThreadsAfter(s, t, c, eff);
    HousedAfter(s, t, c, eff);
    ExitedAfter(s, t, c, eff);
    AloneAfter(s, t, eff);
    forall u | u in s'.threads ensures ThreadOk(s'.db, s'.world, s'.threads[u]) {
      if u != t { OthersAfter(s, s', u); }
    }
  }

  lemma StepSteps(s: State, t: Tid, c: Choice, eff: Effect)
    requires Facts(s) && Threads(s) && t in s.threads && Scoped(s, s.threads[t], eff)
    requires Plan(s, s.threads[t], c) == Some(eff) && Sound(s, s.threads[t], c)
    ensures Steps(s, t, eff) && IncarnationCoherence.ThreadOk(s.db, s.world, s.threads[t])
  {
    hide Plan, Scoped, Accounts, Passes, PcOk, Base, SessionIds.Traces, LeavesChild, Overlooks;
    assert IncarnationCoherence.ThreadOk(s.db, s.world, s.threads[t]) && ThreadOk(s.db, s.world, s.threads[t]);
    AccountsPlan(s, s.threads[t], c, eff);
    PassesPlan(s, s.threads[t], c, eff);
    SessionIds.TracesPlan(s, s.threads[t], c, eff);
  }

  lemma EntryOk(s: State, pc: Pc)
    requires Entry(s, pc)
    ensures ThreadOk(s.db, s.world, pc)
  {}

  lemma NextOutside(s: State, e: Event, s': State)
    requires Facts(s) && Single(s) && !e.Step? && Apply(s, e) == Some(s') && !Reactivates(e)
    ensures Single(s')
  {
    hide Apply, Plan, ThreadOk, AllHoused, Alone, ExitedChildren, Rely, Possible, Reactivates;
    GrowsOutside(s, e, s');
    forall u | u in s'.threads ensures ThreadOk(s'.db, s'.world, s'.threads[u]) {
      if u in s.threads {
        RelyOutside(s, e, s', Holds(s.threads[u]));
        OthersAfter(s, s', u);
      } else {
        EntryOk(s, e.pc);
        Begun(s, e, s');
      }
    }
    HousedOutside(s, e, s');
    ExitedOutside(s, s');
    AloneOutside(s, e, s');
  }

  /** A request's or a lane's first program counter claims nothing that could have changed. */
  lemma Begun(s: State, e: Event, s': State)
    requires e.Begin? && Possible(s, e) && s'.db == OutsideDb(s.db, e) && s'.world == OutsideWorld(s.world, e)
    ensures s'.db == s.db && s'.world == s.world
  {}

  lemma EntryNew(s: State, pc: Pc)
    requires Entry(s, pc)
    ensures forall a, h :: !Carries(pc, a, h)
    ensures forall a :: !SessionIds.Draws(pc, a)
    ensures forall a :: !PastStop(pc, a)
  {}

  ghost predicate Begins(s: State, e: Event, s': State) {
    && s'.threads == (if e.Begin? then s.threads[e.t := e.pc] else s.threads)
    && (e.Begin? ==> e.t !in s.threads && Entry(s, e.pc))
    && s'.world.spawned == s.world.spawned && s'.world.alive <= s.world.alive
    && s'.db.agents.Keys == s.db.agents.Keys && (forall a :: a in s.db.agents ==> SameRow(s.db, s'.db, a))
  }

  lemma HousedOutside(s: State, e: Event, s': State)
    requires AllHoused(s) && Begins(s, e, s')
    ensures AllHoused(s')
  {
    hide Entry, Carries;
    if e.Begin? { EntryNew(s, e.pc); }
    forall h | h in s'.world.alive && h in s'.world.spawned ensures Housed(s', h) {
      assert Housed(s, h);
      var a := s.world.spawned[h].session;
      if Carried(s.threads, a, h) {
        var u := Carrier(s.threads, a, h);
        assert Carries(s'.threads[u], a, h);
      }
    }
  }

  lemma AloneOutside(s: State, e: Event, s': State)
    requires Alone(s) && Begins(s, e, s')
    ensures Alone(s')
  {
    hide Entry, PastStop;
    if e.Begin? { EntryNew(s, e.pc); EntryWaits(s, e.pc); }
    forall u | u in s'.threads ensures AloneAt(s', s'.threads[u]) {
      if u in s.threads { assert AloneAt(s, s.threads[u]); }
    }
  }

  lemma EntryWaits(s: State, pc: Pc)
    requires Entry(s, pc)
    ensures !(pc.Launch? && pc.lau.LockNew?)
  {}

  lemma ExitedOutside(s: State, s': State)
    requires LocksAgree(s.locks, s.threads) && Rooted(s.db) && ExitedChildren(s)
    requires GrowsDb(s.db, s'.db) && KilledStays(s.db, s'.db) && s'.db.agents.Keys == s.db.agents.Keys
    requires forall a :: a in s.db.agents ==> SameRow(s.db, s'.db, a)
    requires s'.world.alive <= s.world.alive && s'.locks == s.locks
    requires forall u :: u in s.threads ==> u in s'.threads && s'.threads[u] == s.threads[u]
    ensures ExitedChildren(s')
  {
    forall a | LivesOn(s'.db, s'.world, a) ensures DeadUnder(s'.db, a) || Closing(HolderPc(s', a), a) {
      assert SameRow(s.db, s'.db, a) && LivesOn(s.db, s.world, a);
      assert HolderPc(s', a) == HolderPc(s, a);
    }
  }

  lemma First(s: State)
    requires Init(s)
    ensures Single(s)
  {}

  lemma FactsAlong(states: seq<State>, events: seq<Event>, n: nat)
    requires IsRun(states, events) && n < |states|
    ensures Facts(states[n])
  {
    IncarnationCoherence.Along(states, events, n);
    SessionIds.Along(states, events, n);
  }

  lemma Next(s: State, e: Event, s': State)
    requires Facts(s) && Single(s) && Apply(s, e) == Some(s') && Allowed(s, e)
    ensures Single(s')
  {
    hide Apply, Plan;
    if e.Step? { NextStep(s, e.t, e.c, s'); } else { NextOutside(s, e, s'); }
  }

  lemma {:induction false} Along(states: seq<State>, events: seq<Event>, n: nat)
    requires IsRun(states, events) && n < |states|
    requires forall i :: 0 <= i < n ==> Allowed(states[i], events[i])
    ensures Single(states[n])
  {
    hide Init, Apply, Facts, Single;
    if n == 0 {
      First(states[0]);
    } else {
      Along(states, events, n - 1);
      FactsAlong(states, events, n - 1);
      assert Follows(states, events, n - 1);
      Next(states[n - 1], events[n - 1], states[n]);
    }
  }

  // ---------------------------------------------------------------- the property

  /** In every reachable state no session has two running children. */
  lemma NeverTwoChildren(states: seq<State>, events: seq<Event>, n: nat)
    requires IsRun(states, events) && n < |states|
    requires forall i :: 0 <= i < n ==> Allowed(states[i], events[i])
    ensures SingleLive(states[n].world)
  {
    Along(states, events, n);
    var s := states[n];
    forall g, h | g in s.world.alive && h in s.world.alive && g in s.world.spawned && h in s.world.spawned
        && s.world.spawned[g].session == s.world.spawned[h].session
      ensures g == h
    {
      HousedOnce(s, g, h);
    }
  }
}
