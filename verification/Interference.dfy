/** Locks, and what a thread may rely on while others run.

    Holds reads off a program counter which agent locks the code holds there. The lock
    variables agree with it in every reachable state, so a step of one thread never touches
    a row, transcript or tally another thread has locked: Guarantee says what a step may do,
    Rely what the others see of it. Every invariant of the protocol is stable under Rely. */
module Interference {
  import opened Tables
  import opened Protocol

  /** The cascade a program counter is inside of, if any. */
  ghost function WorkOf(pc: Pc): Option<Work> {
    match pc
    case Cascade(k) =>
      if k.Next? || k.ListSprints? || k.ListAgents? || k.FlipRead? then Some(k.work) else None
    case Exit(x) =>
      if x.KillLock? || x.KillRead? || !x.after.ToCascade? then None else Some(x.after.work)
    case _ => None
  }

  /** The failing adopt a cascade is run by, if any. */
  ghost function UndoOf(pc: Pc): Option<Undoing> {
    if WorkOf(pc).Some? then WorkOf(pc).value.undo
    else if pc.Cascade? && pc.cas.TearWorkspaces? then pc.cas.undo
    else None
  }

  ghost function UndoHolds(pc: Pc): set<AgentId> {
    if UndoOf(pc).Some? then {UndoOf(pc).value.a} else {}
  }

  /** The agent whose critical section the code is in. */
  ghost function Inside(pc: Pc): Option<AgentId> {
    match pc
    case Lane(l) =>
      if l.TickList? || l.TickEnum? || l.LaneNext? then None else Some(l.item.a)
    case Resume(r) => if r.RespawnLock? then None else Some(r.a)
    case Exit(x) => if x.KillLock? then None else Some(x.a)
    case Check(k) => if k.use.PreSpawn? then None else Some(k.use.a)
    case Launch(n) => if n.LaunchChild? || n.LockNew? then None else Some(n.a)
    case Adopt(d) => if d.AdoptLock? then None else Some(d.a)
    case Cascade(k) => if k.FlipRead? || k.TearRead? then Some(k.a) else None
  }

  ghost function Holds(pc: Pc): set<AgentId> {
    (if Inside(pc).Some? then {Inside(pc).value} else {}) + UndoHolds(pc)
  }

  /** The items a lane still has to decide on. */
  ghost function Queue(pc: Pc): seq<Item> {
    match pc
    case Lane(l) =>
      (match l
       case TickList(_, _) => []
       case TickEnum(_) => []
       case LaneNext(queue) => queue
       case LaneRead(item, rest) => [item] + rest
       case _ => l.rest)
    case Resume(r) => if r.Respawn? || r.Persist? || r.KillNew? || r.LogRestart? then r.rest else []
    case Exit(x) => if x.KillLock? || x.KillRead? || !x.after.ToLane? then [] else x.after.rest
    case _ => []
  }

  ghost predicate Placing(pc: Pc) {
    || (pc.Adopt? && (match pc.ado
                      case AdoptLock(_, _) => false
                      case AdoptCheck(_, _) => false
                      case AdoptStop(_, _) => false
                      case AdoptPlace(_, _) => false
                      case AdoptLaunch(_, _, _) => false
                      case UndoRead(_, _, placing) => placing
                      case Refused(_, _) => false
                      case _ => true))
    || (UndoOf(pc).Some? && UndoOf(pc).value.placing)
  }

  /** A cascade never reaches into the lock its own adopt holds, and only a sprint kill tears
      down agent by agent. */
  ghost predicate WellFormed(pc: Pc) {
    WorkOf(pc).Some? ==>
      && (WorkOf(pc).value.perAgent ==> WorkOf(pc).value.undo.None?)
      && (Inside(pc).Some? ==> !WorkOf(pc).value.Skips(Inside(pc).value))
  }

  ghost predicate LocksAgree(locks: map<AgentId, Tid>, threads: map<Tid, Pc>) {
    && (forall a :: a in locks ==> locks[a] in threads && a in Holds(threads[locks[a]]))
    && (forall t, a :: t in threads && a in Holds(threads[t]) ==> a in locks && locks[a] == t)
  }

  ghost predicate PlaceAgrees(placement: Option<Tid>, threads: map<Tid, Pc>) {
    && (placement.Some? ==> placement.value in threads && Placing(threads[placement.value]))
    && (forall t :: t in threads && Placing(threads[t]) ==> placement == Some(t))
  }

  /** The lock variables and the program counters agree. */
  ghost predicate LockInv(s: State) {
    && LocksAgree(s.locks, s.threads)
    && PlaceAgrees(s.placement, s.threads)
    && (forall t :: t in s.threads ==> WellFormed(s.threads[t]))
  }

  ghost function HoldsNext(eff: Effect): set<AgentId> {
    if eff.next.Some? then Holds(eff.next.value) else {}
  }

  /** The locks of the program counter after the step. */
  ghost predicate Relocks(pc: Pc, eff: Effect) {
    && HoldsNext(eff) == (match eff.lock
                          case Keep => Holds(pc)
                          case Take(a) => Holds(pc) + {a}
                          case Drop(a) => Holds(pc) - {a})
    && (eff.lock.Drop? ==> eff.lock.a in Holds(pc))
  }

  /** What the code at pc may do: it takes and drops exactly the locks its program counters
      say, and writes only what it has locked or what nobody else can name yet. */
  ghost predicate Scoped(s: State, pc: Pc, eff: Effect) {
    && Relocks(pc, eff)
    && (eff.next.Some? ==> WellFormed(eff.next.value))
    && (eff.next.Some? && Placing(eff.next.value) <==> eff.place.TakePlace? || (Placing(pc) && eff.place.KeepPlace?))
    && (eff.place.DropPlace? ==> Placing(pc))
    && (eff.stmt.AddAgent? || eff.stmt.SetStatus? || eff.stmt.SetRestarts? || eff.stmt.SetIncarnation? ==>
          eff.stmt.a in Holds(pc))
    && (eff.stmt.AddAgent? ==> eff.stmt.a !in s.db.agents)
    && (eff.stmt.AddWorkstream? ==> eff.stmt.w !in s.db.workstreams)
    && (eff.stmt.AddSprint? ==> eff.stmt.p !in s.db.sprints)
    && (eff.out.SpawnChild? ==>
          && s.world.Fresh(eff.out.h, eff.out.inc.nonce)
          && (eff.out.inc.session in Holds(pc)
              || (eff.birth == MintSession(eff.out.inc.session) && FreshSession(s, eff.out.inc.session))))
    && (eff.out.StopSession? || eff.out.MoveTranscript? || eff.out.MoveBack? ==> eff.out.a in Holds(pc))
    && (!eff.note.NoNote? ==> eff.note.a in Holds(pc))
    && (eff.birth.MintSession? ==> FreshSession(s, eff.birth.a))
    && (eff.birth.MintReloc? ==> eff.stmt.AddWorkstream? && eff.stmt.w == eff.birth.w && eff.birth.a in Holds(pc))
  }

  lemma ScopeLane(s: State, k: LanePc, c: Choice, eff: Effect)
    requires WellFormed(Lane(k)) && StepLane(s, k, c) == Some(eff)
    requires eff.lock.Take? ==> eff.lock.a !in Holds(Lane(k))
    ensures Scoped(s, Lane(k), eff)
  {}

  lemma ScopeResume(s: State, k: ResumePc, c: Choice, eff: Effect)
    requires WellFormed(Resume(k)) && StepResume(s, k, c) == Some(eff)
    requires eff.lock.Take? ==> eff.lock.a !in Holds(Resume(k))
    ensures Scoped(s, Resume(k), eff)
  {}

  lemma ScopeExit(s: State, k: ExitPc, c: Choice, eff: Effect)
    requires WellFormed(Exit(k)) && StepExit(s, k, c) == Some(eff)
    requires eff.lock.Take? ==> eff.lock.a !in Holds(Exit(k))
    ensures Scoped(s, Exit(k), eff)
  {}

  lemma ScopeCheck(s: State, k: CheckPc, c: Choice, eff: Effect)
    requires WellFormed(Check(k)) && StepCheck(s, k, c) == Some(eff)
    requires eff.lock.Take? ==> eff.lock.a !in Holds(Check(k))
    ensures Scoped(s, Check(k), eff)
  {}

  lemma ScopeLaunch(s: State, k: LaunchPc, c: Choice, eff: Effect)
    requires WellFormed(Launch(k)) && StepLaunch(s, k, c) == Some(eff)
    requires eff.lock.Take? ==> eff.lock.a !in Holds(Launch(k))
    ensures Scoped(s, Launch(k), eff)
  {}

  /** The part of an adopt under the placement mutex. */
  ghost predicate Places(k: AdoptPc) {
    k.AdoptPlace? || k.AdoptResolve? || k.AdoptSprint? || k.AdoptPlan? || k.AdoptRename?
  }

  lemma ScopePlacing(s: State, k: AdoptPc, c: Choice, eff: Effect)
    requires Places(k) && WellFormed(Adopt(k)) && StepAdopt(s, k, c) == Some(eff)
    requires eff.lock.Take? ==> eff.lock.a !in Holds(Adopt(k))
    ensures Scoped(s, Adopt(k), eff)
  {}

  lemma ScopeAdopt(s: State, k: AdoptPc, c: Choice, eff: Effect)
    requires !Places(k) && WellFormed(Adopt(k)) && StepAdopt(s, k, c) == Some(eff)
    requires eff.lock.Take? ==> eff.lock.a !in Holds(Adopt(k))
    ensures Scoped(s, Adopt(k), eff)
  {}

  ghost predicate Tears(k: CascadePc) { k.TearNext? || k.TearRead? || k.TearWorkspaces? }

  lemma ScopeFlip(s: State, k: CascadePc, c: Choice, eff: Effect)
    requires k.FlipRead? && WellFormed(Cascade(k)) && StepCascade(s, k, c) == Some(eff)
    requires eff.lock.Take? ==> eff.lock.a !in Holds(Cascade(k))
    ensures Scoped(s, Cascade(k), eff)
  {}

  lemma ScopeTear(s: State, k: CascadePc, c: Choice, eff: Effect)
    requires Tears(k) && WellFormed(Cascade(k)) && StepCascade(s, k, c) == Some(eff)
    requires eff.lock.Take? ==> eff.lock.a !in Holds(Cascade(k))
    ensures Scoped(s, Cascade(k), eff)
  {}

  lemma ScopeCascade(s: State, k: CascadePc, c: Choice, eff: Effect)
    requires !k.Next? && !k.FlipRead? && !Tears(k) && WellFormed(Cascade(k)) && StepCascade(s, k, c) == Some(eff)
    requires eff.lock.Take? ==> eff.lock.a !in Holds(Cascade(k))
    ensures Scoped(s, Cascade(k), eff)
  {}

  /** The step of a cascade's loop: it visits the next agent, or flips a container at most, and
      stays the same adopt's cascade, if it is one. */
  ghost predicate Loops(work: Work, eff: Effect) {
    && eff.place.KeepPlace? && eff.out.NothingOutside? && eff.note.NoNote? && eff.birth.NoBirth?
    && (eff.stmt.NoStatement? || eff.stmt.FlipSprint? || eff.stmt.FlipWorkstream?)
    && eff.next.Some? && eff.next.value.Cascade?
    && var k := eff.next.value.cas;
       if k.FlipRead? then
         work.ags != [] && k.a == work.ags[0] && !work.Skips(k.a) && eff.lock == Take(k.a) && SameUndo(work, k.work)
       else
         && eff.lock.Keep?
         && (if k.TearNext? then work.perAgent
             else if k.TearWorkspaces? then k.undo == work.undo
             else (k.Next? || k.ListSprints? || k.ListAgents?) && SameUndo(work, k.work))
  }

  ghost predicate SameUndo(work: Work, work': Work) {
    work'.undo == work.undo && work'.perAgent == work.perAgent
  }

  /** The loop is about to flip a sprint, or a workstream. */
  ghost predicate AtSprints(work: Work) { work.ags == [] && !work.clearSprint && work.sps != [] }

  ghost predicate AtWorkstreams(work: Work) {
    work.ags == work.sps == [] && !work.clearSprint && !work.clearWorkstream && work.wss != []
  }

  lemma LoopSprint(db: Db, work: Work, c: Choice)
    requires work.sps != []
    ensures Loops(work, NextSprint(db, work, c))
  {}

  lemma LoopWorkstream(db: Db, work: Work, c: Choice)
    requires work.wss != []
    ensures Loops(work, NextWorkstream(db, work, c))
  {}

  lemma NextLoops(s: State, work: Work, c: Choice)
    ensures Loops(work, StepNext(s, work, c))
  {
    hide NextSprint, NextWorkstream, Loops;
    if work.ags != [] || work.clearSprint { NextLoopsInside(s, work, c); }
    else if work.sps != [] { LoopSprint(s.db, work, c); }
    else if work.clearWorkstream { ClearLoops(work, work.(clearWorkstream := false), c); }
    else if work.wss != [] { LoopWorkstream(s.db, work, c); }
    else if work.clearRepo { ClearLoops(work, work.(clearRepo := false), c); }
    else { TearLoops(work); }
  }

  lemma NextLoopsInside(s: State, work: Work, c: Choice)
    requires work.ags != [] || work.clearSprint
    ensures Loops(work, StepNext(s, work, c))
  {
    hide NextSprint, NextWorkstream;
  }

  lemma ClearLoops(work: Work, work': Work, c: Choice)
    requires SameUndo(work, work')
    ensures Loops(work, Cleared(work', c))
  {}

  lemma TearLoops(work: Work)
    ensures work.perAgent ==> Loops(work, On(Cascade(TearNext(work.flipped))))
    ensures Loops(work, On(Cascade(TearWorkspaces(work.torn, work.undo))))
  {}

  lemma ScopeLoop(s: State, work: Work, eff: Effect)
    requires WellFormed(Cascade(Next(work))) && Loops(work, eff)
    requires eff.lock.Take? ==> eff.lock.a !in Holds(Cascade(Next(work)))
    ensures Scoped(s, Cascade(Next(work)), eff)
  {}

  lemma ScopeNext(s: State, work: Work, c: Choice)
    requires WellFormed(Cascade(Next(work)))
    requires var eff := StepNext(s, work, c); eff.lock.Take? ==> eff.lock.a !in Holds(Cascade(Next(work)))
    ensures Scoped(s, Cascade(Next(work)), StepNext(s, work, c))
  {
    hide StepNext, Loops, Scoped;
    NextLoops(s, work, c);
    ScopeLoop(s, work, StepNext(s, work, c));
  }

  /** A cascade flips containers and tears down workspaces; it touches no row, transcript or
      tally, and spawns nothing. */
  ghost predicate OnlyFlips(eff: Effect) {
    && (eff.stmt.NoStatement? || eff.stmt.FlipSprint? || eff.stmt.FlipWorkstream? || eff.stmt.FlipRepo?)
    && (eff.out.NothingOutside? || eff.out.KillWorkspaceOf?)
    && eff.note.NoNote? && eff.birth.NoBirth? && eff.place.KeepPlace?
  }

  lemma CascadesOnlyFlip(s: State, k: CascadePc, c: Choice, eff: Effect)
    requires StepCascade(s, k, c) == Some(eff)
    ensures OnlyFlips(eff)
  {
    hide StepNext;
    if k.Next? { NextLoops(s, k.work, c); }
  }

  lemma Scope(s: State, pc: Pc, c: Choice, eff: Effect)
    requires WellFormed(pc) && Plan(s, pc, c) == Some(eff)
    requires eff.lock.Take? ==> eff.lock.a !in Holds(pc)
    ensures Scoped(s, pc, eff)
  {
    match pc
    case Lane(k) => ScopeLane(s, k, c, eff);
    case Resume(k) => ScopeResume(s, k, c, eff);
    case Exit(k) => ScopeExit(s, k, c, eff);
    case Check(k) => ScopeCheck(s, k, c, eff);
    case Launch(k) => ScopeLaunch(s, k, c, eff);
    case Adopt(k) => if Places(k) { ScopePlacing(s, k, c, eff); } else { ScopeAdopt(s, k, c, eff); }
    case Cascade(k) =>
      if k.Next? { ScopeNext(s, k.work, c); }
      else if k.FlipRead? { ScopeFlip(s, k, c, eff); }
      else if Tears(k) { ScopeTear(s, k, c, eff); }
      else { ScopeCascade(s, k, c, eff); }
  }

  function Threads(s: State, t: Tid, eff: Effect): map<Tid, Pc> {
    if eff.next.Some? then s.threads[t := eff.next.value] else s.threads - {t}
  }

  lemma HeldAfter(s: State, t: Tid, eff: Effect, u: Tid, a: AgentId)
    requires LocksAgree(s.locks, s.threads) && t in s.threads && Relocks(s.threads[t], eff)
    requires eff.lock.Take? ==> eff.lock.a !in s.locks
    requires u in Threads(s, t, eff) && a in Holds(Threads(s, t, eff)[u])
    ensures var locks := Relock(s.locks, t, eff.lock); a in locks && locks[a] == u
  {
    hide Holds;
    if u == t {
      assert a in HoldsNext(eff);
    } else {
      assert a in s.locks && s.locks[a] == u;
      if eff.lock.Drop? { assert s.locks[eff.lock.a] == t; }
    }
  }

  lemma HolderAfter(s: State, t: Tid, eff: Effect, a: AgentId)
    requires LocksAgree(s.locks, s.threads) && t in s.threads && Relocks(s.threads[t], eff)
    requires a in Relock(s.locks, t, eff.lock)
    ensures var locks, threads := Relock(s.locks, t, eff.lock), Threads(s, t, eff);
      locks[a] in threads && a in Holds(threads[locks[a]])
  {
    hide Holds;
    if !(eff.lock.Take? && eff.lock.a == a) {
      assert a in Holds(s.threads[s.locks[a]]);
      if s.locks[a] == t { assert a in HoldsNext(eff); }
    } else {
      assert a in HoldsNext(eff);
    }
  }

  lemma AgentLocksAfter(s: State, t: Tid, eff: Effect)
    requires LocksAgree(s.locks, s.threads) && t in s.threads && Relocks(s.threads[t], eff)
    requires eff.lock.Take? ==> eff.lock.a !in s.locks
    ensures LocksAgree(Relock(s.locks, t, eff.lock), Threads(s, t, eff))
  {
    hide Holds, Relocks, Relock, Threads;
    var locks, threads := Relock(s.locks, t, eff.lock), Threads(s, t, eff);
    forall u, a | u in threads && a in Holds(threads[u]) ensures a in locks && locks[a] == u {
      HeldAfter(s, t, eff, u, a);
    }
    forall a | a in locks ensures locks[a] in threads && a in Holds(threads[locks[a]]) {
      HolderAfter(s, t, eff, a);
    }
  }

  /** The lock variables go on agreeing with the program counters. */
  lemma LocksAfter(s: State, t: Tid, eff: Effect)
    requires LockInv(s) && t in s.threads && Scoped(s, s.threads[t], eff) && Grantable(s, eff)
    ensures LockInv(Perform(s, t, eff))
  {
    AgentLocksAfter(s, t, eff);
    var s' := Perform(s, t, eff);
    assert s'.threads == Threads(s, t, eff);
    assert eff.next.Some? ==> WellFormed(eff.next.value);
    assert PlaceAgrees(s'.placement, s'.threads) by {
      assert eff.next.Some? && Placing(eff.next.value)
        <==> eff.place.TakePlace? || (Placing(s.threads[t]) && eff.place.KeepPlace?);
    }
  }

  // ---------------------------------------------------------------- what a step leaves alone

  ghost predicate SameRow(db: Db, db': Db, a: AgentId) {
    && (a in db.agents <==> a in db'.agents)
    && (a in db.agents ==>
          && db'.agents[a].(restarts := 0) == db.agents[a].(restarts := 0)
          && (db'.agents[a].restarts == db.agents[a].restarts || db'.agents[a].restarts == 0))
  }

  ghost predicate SameTally(tally: Tally, tally': Tally, a: AgentId) {
    && Count(tally'.activations, a) == Count(tally.activations, a)
    && Count(tally'.exits, a) == Count(tally.exits, a)
    && Count(tally'.tries, a) == Count(tally.tries, a)
    && Count(tally'.logs, a) == Count(tally.logs, a)
  }

  ghost predicate SamePath(world: World, world': World, a: AgentId) {
    && (a in world.moved <==> a in world'.moved)
    && (a in world.moved ==> world'.moved[a] == world.moved[a])
  }

  /** No child of the session came to life. */
  ghost predicate NoNewChild(world: World, world': World, a: AgentId) {
    forall h :: h in world'.alive && h in world'.spawned && world'.spawned[h].session == a ==>
                  h in world.alive && h in world.spawned
  }

  /** Rows are never deleted or reparented. */
  ghost predicate GrowsDb(db: Db, db': Db) {
    && (forall a :: a in db.agents ==> a in db'.agents && db'.agents[a].sprint == db.agents[a].sprint)
    && (forall p :: p in db.sprints ==>
          p in db'.sprints && db'.sprints[p].workstream == db.sprints[p].workstream)
    && (forall w :: w in db.workstreams ==>
          w in db'.workstreams && db'.workstreams[w].repo == db.workstreams[w].repo)
    && (forall r :: r in db.repos ==> r in db'.repos)
  }

  /** Spawn calls are never forgotten and handles never reused. */
  ghost predicate GrowsWorld(world: World, world': World) {
    forall h :: h in world.spawned ==>
      && h in world'.spawned && world'.spawned[h] == world.spawned[h]
      && (h in world'.present ==> h in world.present)
      && (h in world'.alive ==> h in world.alive)
  }

  ghost predicate GrowsIds(s: State, s': State) {
    && (forall a :: a in s.minted ==> a in s'.minted && s'.minted[a] == s.minted[a])
    && s.named <= s'.named
    && (forall w :: w in s.relocs ==> w in s'.relocs && s'.relocs[w] == s.relocs[w])
  }

  /** What holds across other threads' steps for one that holds the locks held. */
  ghost predicate Rely(s: State, s': State, held: set<AgentId>) {
    && GrowsDb(s.db, s'.db) && GrowsWorld(s.world, s'.world) && GrowsIds(s, s')
    && (forall a :: a in held ==> SameRow(s.db, s'.db, a))
    && (forall a :: a in held ==> SameTally(s.tally, s'.tally, a))
    && (forall a :: a in held ==> SamePath(s.world, s'.world, a))
    && (forall a :: a in held ==> NoNewChild(s.world, s'.world, a))
  }

  ghost predicate WorkstreamsStay(db: Db, db': Db) {
    forall w :: w in db.workstreams && db.workstreams[w].status != Active ==>
      w in db'.workstreams && db'.workstreams[w] == db.workstreams[w]
  }

  /** Killed is for ever, short of an activate request. */
  ghost predicate KilledStays(db: Db, db': Db) {
    && (forall p :: p in db.sprints && db.sprints[p].status != Active ==>
          p in db'.sprints && db'.sprints[p] == db.sprints[p])
    && WorkstreamsStay(db, db')
    && (forall r :: r in db.repos && db.repos[r].status != Active ==>
          r in db'.repos && db'.repos[r] == db.repos[r])
  }

  ghost predicate RelocsExist(s: State) {
    forall w :: w in s.relocs ==> w in s.db.workstreams
  }

  /** The statement inserts only ids that are new. */
  ghost predicate InsertsNew(db: Db, stmt: Statement) {
    && (stmt.AddAgent? ==> stmt.a !in db.agents)
    && (stmt.AddWorkstream? ==> stmt.w !in db.workstreams)
    && (stmt.AddSprint? ==> stmt.p !in db.sprints)
  }

  lemma GrowsRun(db: Db, stmt: Statement)
    requires InsertsNew(db, stmt)
    ensures GrowsDb(db, Run(db, stmt)) && KilledStays(db, Run(db, stmt))
  {}

  lemma GrowsCall(world: World, out: Outside)
    requires out.SpawnChild? ==> out.h !in world.spawned
    ensures GrowsWorld(world, CallOutside(world, out))
  {}

  lemma GrowsAfter(s: State, t: Tid, eff: Effect)
    requires t in s.threads && Scoped(s, s.threads[t], eff) && RelocsExist(s)
    ensures var s' := Perform(s, t, eff);
      GrowsDb(s.db, s'.db) && KilledStays(s.db, s'.db) && GrowsWorld(s.world, s'.world) && GrowsIds(s, s')
      && RelocsExist(s')
  {
    GrowsRun(s.db, eff.stmt);
    GrowsCall(s.world, eff.out);
  }

  /** The agent whose row the statement writes. */
  ghost function Writes(stmt: Statement): set<AgentId> {
    if stmt.AddAgent? || stmt.SetStatus? || stmt.SetRestarts? || stmt.SetIncarnation? then {stmt.a} else {}
  }

  lemma SameRowRun(db: Db, stmt: Statement, a: AgentId)
    requires a !in Writes(stmt)
    ensures SameRow(db, Run(db, stmt), a)
  {}

  lemma SameTallyNote(tally: Tally, stmt: Statement, note: Note, a: AgentId)
    requires a !in Writes(stmt) && (!note.NoNote? ==> note.a != a)
    ensures SameTally(tally, Recount(tally, stmt, note), a)
  {}

  lemma SameCall(world: World, out: Outside, a: AgentId)
    requires out.MoveTranscript? || out.MoveBack? ==> out.a != a
    requires out.SpawnChild? ==> out.inc.session != a && out.h !in world.spawned
    ensures SamePath(world, CallOutside(world, out), a)
    ensures NoNewChild(world, CallOutside(world, out), a)
  {}

  /** A step of t keeps everything u relies on. */
  lemma RelyAfter(s: State, t: Tid, eff: Effect, u: Tid)
    requires LockInv(s) && RelocsExist(s) && t in s.threads && Scoped(s, s.threads[t], eff)
    requires u in s.threads && u != t
    ensures Rely(s, Perform(s, t, eff), Holds(s.threads[u]))
  {
    GrowsAfter(s, t, eff);
    var s' := Perform(s, t, eff);
    forall a | a in Holds(s.threads[u])
      ensures SameRow(s.db, s'.db, a) && SameTally(s.tally, s'.tally, a)
      ensures SamePath(s.world, s'.world, a) && NoNewChild(s.world, s'.world, a)
    {
      assert a in s.locks && a !in Holds(s.threads[t]);
      SameRowRun(s.db, eff.stmt, a);
      SameTallyNote(s.tally, eff.stmt, eff.note, a);
      SameCall(s.world, eff.out, a);
    }
  }

  /** Where the holder of agent a's lock is, if anyone holds it. */
  ghost function HolderPc(s: State, a: AgentId): Option<Pc> {
    if a in s.locks && s.locks[a] in s.threads then Some(s.threads[s.locks[a]]) else None
  }

  lemma HolderElsewhere(s: State, t: Tid, eff: Effect, a: AgentId)
    requires LocksAgree(s.locks, s.threads) && t in s.threads && a !in Holds(s.threads[t])
    requires (eff.lock.Take? ==> eff.lock.a !in s.locks) && Relocks(s.threads[t], eff)
    ensures HolderPc(Perform(s, t, eff), a)
      == if eff.lock == Take(a) then eff.next else HolderPc(s, a)
    ensures eff.lock == Take(a) ==> HolderPc(s, a) == None
  {
    assert a in s.locks ==> s.locks[a] != t;
  }

  /** Where the lock of an agent that the thread holds goes. */
  ghost function HolderNext(eff: Effect, a: AgentId): Option<Pc> {
    if eff.lock == Drop(a) then None else eff.next
  }

  lemma HolderHere(s: State, t: Tid, eff: Effect, a: AgentId)
    requires LocksAgree(s.locks, s.threads) && t in s.threads && a in Holds(s.threads[t])
    requires Relocks(s.threads[t], eff) && Grantable(s, eff)
    ensures HolderPc(s, a) == Some(s.threads[t])
    ensures HolderPc(Perform(s, t, eff), a) == HolderNext(eff, a)
  {
    hide Holds, Run, CallOutside, Recount;
    assert s.locks[a] == t;
    assert eff.lock != Drop(a) ==> a in HoldsNext(eff);
  }

  lemma GrowsOutsideDb(s: State, e: Event)
    requires Possible(s, e)
    ensures var db' := OutsideDb(s.db, e);
      && GrowsDb(s.db, db') && (!Reactivates(e) ==> KilledStays(s.db, db'))
      && (!e.ActivateWorkstream? ==> WorkstreamsStay(s.db, db'))
      && db'.agents.Keys == s.db.agents.Keys
      && (forall a :: a in s.db.agents ==> SameRow(s.db, db', a))
  {}

  lemma EntryHoldsNothing(s: State, pc: Pc)
    requires Entry(s, pc)
    ensures Holds(pc) == {} && !Placing(pc) && WellFormed(pc)
  {}

  /** What an event outside the threads changes. */
  lemma GrowsOutside(s: State, e: Event, s': State)
    requires !e.Step? && Apply(s, e) == Some(s') && RelocsExist(s)
    ensures Possible(s, e) && s'.db == OutsideDb(s.db, e) && s'.world == OutsideWorld(s.world, e)
    ensures GrowsDb(s.db, s'.db) && GrowsWorld(s.world, s'.world) && GrowsIds(s, s') && RelocsExist(s')
    ensures !Reactivates(e) ==> KilledStays(s.db, s'.db)
    ensures !e.ActivateWorkstream? ==> WorkstreamsStay(s.db, s'.db)
    ensures s'.tally == s.tally && s'.locks == s.locks && s'.placement == s.placement
    ensures s'.minted == s.minted && s'.relocs == s.relocs
    ensures s'.named == if e.Begin? then Named(s, e.pc) else s.named
    ensures s'.world.spawned == s.world.spawned && s'.world.moved == s.world.moved
    ensures s'.world.alive <= s.world.alive && s'.world.present <= s.world.present
    ensures s'.threads == if e.Begin? then s.threads[e.t := e.pc] else s.threads
    ensures e.Begin? ==> e.t !in s.threads && Holds(e.pc) == {} && !Placing(e.pc) && WellFormed(e.pc)
    ensures s'.db.agents.Keys == s.db.agents.Keys
    ensures forall a :: a in s.db.agents ==> SameRow(s.db, s'.db, a)
  {
    GrowsOutsideDb(s, e);
    if e.Begin? { EntryHoldsNothing(s, e.pc); }
  }

  lemma RelyOutside(s: State, e: Event, s': State, held: set<AgentId>)
    requires !e.Step? && Apply(s, e) == Some(s') && RelocsExist(s)
    ensures Rely(s, s', held)
  {
    hide Apply, Plan;
    GrowsOutside(s, e, s');
  }

  lemma LocksOutside(s: State, e: Event, s': State)
    requires !e.Step? && Apply(s, e) == Some(s') && LockInv(s) && RelocsExist(s)
    ensures LockInv(s')
  {
    hide Apply, Plan, Possible, OutsideDb, OutsideWorld, GrowsDb, GrowsWorld, GrowsIds, KilledStays, WorkstreamsStay,
      SameRow, Holds, Placing, WellFormed, Reactivates;
    GrowsOutside(s, e, s');
  }

  // ---------------------------------------------------------------- reachable states

  /** What every reachable state satisfies, whatever fails and whatever is activated. */
  ghost predicate Base(s: State) { LockInv(s) && RelocsExist(s) }

  /** One step of a thread, taken apart. */
  lemma Unpack(s: State, t: Tid, c: Choice, s': State) returns (eff: Effect)
    requires Base(s) && Apply(s, Step(t, c)) == Some(s')
    ensures t in s.threads && Plan(s, s.threads[t], c) == Some(eff) && Grantable(s, eff)
    ensures s' == Perform(s, t, eff) && Scoped(s, s.threads[t], eff) && Base(s')
    ensures GrowsDb(s.db, s'.db) && KilledStays(s.db, s'.db)
    ensures GrowsWorld(s.world, s'.world) && GrowsIds(s, s')
    ensures forall u :: u in s.threads && u != t ==> Rely(s, s', Holds(s.threads[u]))
  {
    hide Plan, Scoped, Run, CallOutside, Recount, Relock, GrowsDb, KilledStays, GrowsWorld, GrowsIds, Rely, Placing;
    eff := Plan(s, s.threads[t], c).value;
    assert forall a :: a in Holds(s.threads[t]) ==> a in s.locks;
    Scope(s, s.threads[t], c, eff);
    LocksAfter(s, t, eff);
    GrowsAfter(s, t, eff);
    forall u | u in s.threads && u != t ensures Rely(s, s', Holds(s.threads[u])) {
      RelyAfter(s, t, eff, u);
    }
  }

  lemma BaseNext(s: State, e: Event, s': State)
    requires Base(s) && Apply(s, e) == Some(s')
    ensures Base(s')
  {
    hide Apply, Plan;
    if e.Step? {
      var _ := Unpack(s, e.t, e.c, s');
    } else {
      LocksOutside(s, e, s');
      GrowsOutside(s, e, s');
    }
  }

  lemma BaseFirst(s: State)
    requires Init(s)
    ensures Base(s)
  {}

  /** Mutual exclusion in every run: each held lock has one holder, whose code is inside. */
  lemma {:induction false} BaseAlong(states: seq<State>, events: seq<Event>, n: nat)
    requires IsRun(states, events) && n < |states|
    ensures Base(states[n])
  {
    hide Init, Apply, Base;
    if n == 0 {
      BaseFirst(states[0]);
    } else {
      BaseAlong(states, events, n - 1);
      assert Follows(states, events, n - 1);
      BaseNext(states[n - 1], events[n - 1], states[n]);
    }
  }
}
