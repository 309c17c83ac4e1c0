/** Stretches of the handlers and lanes, from any state that lets them, for runs to be put together
    from: where each leaves its thread and what it has changed. */
module Scenes {
  import opened Tables
  import opened Protocol
  import opened Runs

  /** Where a passed hierarchy check leads. */
  function Passed(use: CheckUse): Pc {
    match use
    case PreSpawn(p) => Launch(LaunchChild(p))
    case PostInsert(a, origin) => Launch(LogSpawned(a, origin))
    case ForRespawn(a) => Resume(RespawnMark(a))
  }

  ghost predicate AllActive(db: Db, p: SprintId) {
    Rooted(db) && p in db.sprints && !DeadHierarchy(db, p)
  }

  /** The three reads of a hierarchy check that finds everything Active. */
  lemma Checks(p: Path, t: Tid, sprint: SprintId, use: CheckUse) returns (q: Path)
    requires p.Valid() && t in p.s.threads && p.s.threads[t] == Check(CheckSprint(sprint, use))
    requires AllActive(p.s.db, sprint)
    ensures Extends(p, q, [])
    ensures q.s == p.s.(threads := p.s.threads[t := Passed(use)])
  {
    hide Path.Valid, Path.First, Path.Noted;
    q := Go(p, t, Ok);
    q := Go(q, t, Ok);
    q := Go(q, t, Ok);
  }

  /** Requests and ticks may begin at any time; only an adopt's names a session. */
  lemma Enters(s: State, pc: Pc)
    requires match pc
      case Check(CheckSprint(p, PreSpawn(q))) => p == q
      case Adopt(k) => k.AdoptLock?
      case Resume(k) => k.RespawnLock?
      case Exit(k) => k.KillLock?
      case Lane(k) => k.TickList?
      case Cascade(k) => k.KillSprint?
      case _ => false
    ensures Entry(s, pc) && Named(s, pc) == if pc.Adopt? then s.named + {pc.ado.a} else s.named
  {}

  lemma OneRow(db: Db, w: WorkstreamId, a: AgentId)
    requires db.AgentsOfWorkstream(w) == {a} && IsActive(db, a)
    ensures Lists([a], db.AgentsOfWorkstream(w))
    ensures RowItems(db, [a], false) == [Vanished(a, db.agents[a].handle)]
    ensures forall live :: db.agents[a].handle !in live ==>
      Missing([Vanished(a, db.agents[a].handle)], live) == [Vanished(a, db.agents[a].handle)]
  {}

  /** A sprint kill that has flipped and listed its sprint, with agents still to visit. */
  function Killing(ags: seq<AgentId>, flipped: seq<AgentId>): Work {
    Visiting([], [], true, None).(ags := ags, flipped := flipped, clearSprint := true)
  }

  /** A relocation's teardown that has flipped the workstream it minted. */
  function Undoes(u: Undoing, sps: seq<SprintId>, ags: seq<AgentId>, clearSprint: bool): Work {
    Visiting([], sps, false, Some(u)).(ags := ags, torn := [u.w], clearWorkstream := true, clearSprint := clearSprint)
  }

  // ---------------------------------------------------------------- a manual respawn

  lemma RespawnLocks(p: Path, t: Tid, a: AgentId) returns (q: Path)
    requires p.Valid() && t !in p.s.threads && a !in p.s.locks
    ensures Extends(p, q, [ByHand(a)])
    ensures q.s == p.s.(
      threads := p.s.threads[t := Resume(RespawnRead(a))],
      locks := p.s.locks[a := t],
      tally := q.s.tally)
  {
    hide Path.Valid, Path.First, Path.Noted, Recount, StepLane, StepExit, StepCheck, StepLaunch, StepAdopt,
      StepCascade, Entry;
    Enters(p.s, Resume(RespawnLock(a)));
    q := Begins(p, t, Resume(RespawnLock(a)));
    q := Go(q, t, Ok);
  }

  /** Up to its check. */
  lemma RespawnPasses(p: Path, t: Tid, a: AgentId) returns (q: Path)
    requires p.Valid() && t !in p.s.threads && a !in p.s.locks
    requires a in p.s.db.agents && p.s.db.agents[a].status == Exited && AllActive(p.s.db, p.s.db.agents[a].sprint)
    ensures Extends(p, q, [ByHand(a)])
    ensures q.s == p.s.(
      threads := p.s.threads[t := Resume(RespawnMark(a))],
      locks := p.s.locks[a := t],
      tally := q.s.tally)
  {
    hide Path.Valid, Path.First, Path.Noted, Recount, StepLane, StepExit, StepCheck, StepLaunch, StepAdopt,
      StepCascade, AllActive;
    q := RespawnLocks(p, t, a);
    q := Go(q, t, Ok);
    q := Checks(q, t, p.s.db.agents[a].sprint, ForRespawn(a));
  }

  lemma RespawnActivates(p: Path, t: Tid, a: AgentId) returns (q: Path)
    requires p.Valid() && t in p.s.threads && p.s.threads[t] == Resume(RespawnMark(a)) && a in p.s.db.agents
    ensures Extends(p, q, [])
    ensures q.s == p.s.(
      db := p.s.db.(agents := p.s.db.agents[a := p.s.db.agents[a].(restarts := 0, status := Active)]),
      threads := p.s.threads[t := Resume(Respawn(a, []))],
      tally := q.s.tally)
  {
    hide Path.Valid, Path.First, Path.Noted, Recount, StepLane, StepExit, StepCheck, StepLaunch, StepAdopt,
      StepCascade;
    q := Go(p, t, Ok);
    q := Go(q, t, Ok);
  }

  lemma RespawnSpawns(p: Path, t: Tid, a: AgentId, h: Handle, n: Nonce) returns (q: Path)
    requires p.Valid() && t in p.s.threads && p.s.threads[t] == Resume(Respawn(a, []))
    requires p.s.Home(a).Some? && p.s.world.Fresh(h, n)
    ensures Extends(p, q, [])
    ensures q.s == p.s.(
      threads := p.s.threads[t := Resume(Persist(a, h, n, []))],
      world := p.s.world.Spawn(h, Incarnation(a, n, p.s.Home(a).value)),
      tally := q.s.tally)
  {
    hide Path.Valid, Path.First, Path.Noted, Recount, StepLane, StepExit, StepCheck, StepLaunch, StepAdopt,
      StepCascade, World.Fresh;
    q := Go(p, t, Terminal(h, n));
  }

  /** A respawn of one agent lets go of its lock, and its thread ends. */
  lemma LaneEnds(p: Path, t: Tid, a: AgentId) returns (q: Path)
    requires p.Valid() && t in p.s.threads && p.s.threads[t] == Exit(Leave(a, ToLane([])))
    ensures Extends(p, q, [])
    ensures q.s == p.s.(
      threads := p.s.threads - {t},
      locks := p.s.locks - {a},
      tally := q.s.tally)
  {
    hide Path.Valid, Path.First, Path.Noted, Recount, StepResume, StepCheck, StepLaunch, StepAdopt, StepCascade;
    q := Go(p, t, Ok);
    q := Go(q, t, Ok);
  }

  /** The new incarnation is recorded, and the handler returns. */
  lemma RespawnEnds(p: Path, t: Tid, a: AgentId, h: Handle, n: Nonce) returns (q: Path)
    requires p.Valid() && t in p.s.threads && p.s.threads[t] == Resume(Persist(a, h, n, []))
    requires a in p.s.db.agents
    ensures Extends(p, q, [])
    ensures q.s == p.s.(
      db := p.s.db.(agents := p.s.db.agents[a := p.s.db.agents[a].(handle := h, nonce := n)]),
      threads := p.s.threads - {t},
      locks := p.s.locks - {a},
      tally := q.s.tally)
  {
    hide Path.Valid, Path.First, Path.Noted, Recount, StepLane, StepExit, StepCheck, StepLaunch, StepAdopt,
      StepCascade;
    q := Go(p, t, Ok);
    q := Go(q, t, Ok);
    q := LaneEnds(q, t, a);
  }

  // ---------------------------------------------------------------- an agent kill

  lemma KillLocks(p: Path, t: Tid, a: AgentId) returns (q: Path)
    requires p.Valid() && t !in p.s.threads && a !in p.s.locks
    ensures Extends(p, q, [])
    ensures q.s == p.s.(
      threads := p.s.threads[t := Exit(KillRead(a))],
      locks := p.s.locks[a := t],
      tally := q.s.tally)
  {
    hide Path.Valid, Path.First, Path.Noted, Recount, StepLane, StepResume, StepCheck, StepLaunch, StepAdopt,
      StepCascade, Entry;
    Enters(p.s, Exit(KillLock(a)));
    q := Begins(p, t, Exit(KillLock(a)));
    q := Go(q, t, Ok);
  }

  /** Up to the status write. */
  lemma KillReads(p: Path, t: Tid, a: AgentId) returns (q: Path)
    requires p.Valid() && t !in p.s.threads && a !in p.s.locks && IsActive(p.s.db, a)
    ensures Extends(p, q, [])
    ensures q.s == p.s.(
      threads := p.s.threads[t := Exit(ExitFlip(a, p.s.db.agents[a].handle, true, Finish))],
      locks := p.s.locks[a := t],
      tally := q.s.tally)
  {
    hide Path.Valid, Path.First, Path.Noted, Recount, StepLane, StepResume, StepCheck, StepLaunch, StepAdopt,
      StepCascade;
    q := KillLocks(p, t, a);
    q := Go(q, t, Ok);
  }

  /** The status write of a kill, of a cascade's visit and of a compensation. */
  lemma ExitFlips(p: Path, t: Tid, a: AgentId, h: Handle, kill: bool, after: After) returns (q: Path)
    requires p.Valid() && t in p.s.threads && p.s.threads[t] == Exit(ExitFlip(a, h, kill, after)) && a in p.s.db.agents
    ensures Extends(p, q, [])
    ensures q.s == p.s.(
      db := p.s.db.(agents := p.s.db.agents[a := p.s.db.agents[a].(status := Exited)]),
      threads := p.s.threads[t := Exit(ExitLog(a, h, kill, after))],
      tally := q.s.tally)
  {
    hide Path.Valid, Path.First, Path.Noted, Recount, StepLane, StepResume, StepCheck, StepLaunch, StepAdopt,
      StepCascade;
    q := Go(p, t, Ok);
  }

  lemma ExitLogFails(p: Path, t: Tid, a: AgentId, h: Handle) returns (q: Path)
    requires p.Valid() && t in p.s.threads && p.s.threads[t] == Exit(ExitLog(a, h, true, Finish))
    ensures Extends(p, q, [Fails(Exit(ExitLog(a, h, true, Finish)))])
    ensures q.s == p.s.(
      threads := p.s.threads - {t},
      locks := p.s.locks - {a},
      tally := q.s.tally)
  {
    hide Path.Valid, Path.First, Path.Noted, Recount, StepLane, StepResume, StepCheck, StepLaunch, StepAdopt,
      StepCascade;
    q := Go(p, t, Fail);
    q := Go(q, t, Ok);
  }

  lemma KillTermFails(p: Path, t: Tid, a: AgentId, h: Handle) returns (q: Path)
    requires p.Valid() && t in p.s.threads && p.s.threads[t] == Exit(ExitLog(a, h, true, Finish))
    ensures Extends(p, q, [Fails(Exit(KillTerm(a, h, Finish)))])
    ensures q.s == p.s.(
      threads := p.s.threads - {t},
      locks := p.s.locks - {a},
      tally := q.s.tally)
  {
    hide Path.Valid, Path.First, Path.Noted, Recount, StepLane, StepResume, StepCheck, StepLaunch, StepAdopt,
      StepCascade;
    q := Go(p, t, Ok);
    q := Go(q, t, Fail);
    q := Go(q, t, Ok);
  }

  // ---------------------------------------------------------------- a spawn

  /** Up to its launch. */
  lemma SpawnStarts(p: Path, t: Tid, sprint: SprintId) returns (q: Path)
    requires p.Valid() && t !in p.s.threads && AllActive(p.s.db, sprint)
    ensures Extends(p, q, [])
    ensures q.s == p.s.(
      threads := p.s.threads[t := Launch(LaunchChild(sprint))],
      tally := q.s.tally)
  {
    hide Path.Valid, Path.First, Path.Noted, Recount, StepLane, StepResume, StepExit, StepCheck, StepLaunch,
      StepAdopt, StepCascade, AllActive, Entry;
    var start := Check(CheckSprint(sprint, PreSpawn(sprint)));
    Enters(p.s, start);
    q := Begins(p, t, start);
    q := Checks(q, t, sprint, PreSpawn(sprint));
  }

  /** The child runs, and the spawn waits for its lock. */
  lemma SpawnLaunches(p: Path, t: Tid, a: AgentId, sprint: SprintId, h: Handle, n: Nonce) returns (q: Path)
    requires p.Valid() && t in p.s.threads && p.s.threads[t] == Launch(LaunchChild(sprint)) && sprint in p.s.db.sprints
    requires FreshSession(p.s, a) && p.s.world.Fresh(h, n)
    ensures Extends(p, q, [])
    ensures q.s == p.s.(
      threads := p.s.threads[t := Launch(LockNew(a, sprint, h, n))],
      world := p.s.world.Spawn(h, Incarnation(a, n, p.s.db.sprints[sprint].workstream)),
      minted := p.s.minted[a := t],
      tally := q.s.tally)
  {
    hide Path.Valid, Path.First, Path.Noted, Recount, StepLane, StepResume, StepExit, StepCheck, StepAdopt,
      StepCascade, World.Fresh, FreshSession;
    q := Go(p, t, Mint(a, h, n));
  }

  lemma SpawnInserts(p: Path, t: Tid, a: AgentId, sprint: SprintId, h: Handle, n: Nonce) returns (q: Path)
    requires p.Valid() && t in p.s.threads && p.s.threads[t] == Launch(LockNew(a, sprint, h, n))
    requires a !in p.s.locks && a !in p.s.db.agents
    ensures Extends(p, q, [])
    ensures q.s == p.s.(
      db := p.s.db.(agents := p.s.db.agents[a := AgentRow(sprint, h, n, Active, 0)]),
      threads := p.s.threads[t := Check(CheckSprint(sprint, PostInsert(a, Spawned)))],
      locks := p.s.locks[a := t],
      tally := q.s.tally)
  {
    hide Path.Valid, Path.First, Path.Noted, Recount, StepLane, StepResume, StepExit, StepCheck, StepAdopt,
      StepCascade;
    q := Go(p, t, Ok);
    q := Go(q, t, Ok);
  }

  /** The re-check passes, and the handler returns. */
  lemma SpawnEnds(p: Path, t: Tid, a: AgentId, sprint: SprintId) returns (q: Path)
    requires p.Valid() && t in p.s.threads && p.s.threads[t] == Check(CheckSprint(sprint, PostInsert(a, Spawned)))
    requires AllActive(p.s.db, sprint)
    ensures Extends(p, q, [])
    ensures q.s == p.s.(
      threads := p.s.threads - {t},
      locks := p.s.locks - {a},
      tally := q.s.tally)
  {
    hide Path.Valid, Path.First, Path.Noted, Recount, StepLane, StepResume, StepCheck, StepAdopt, StepCascade,
      AllActive;
    q := Checks(p, t, sprint, PostInsert(a, Spawned));
    q := Go(q, t, Ok);
    q := Go(q, t, Ok);
  }

  /** The re-check cannot read the workstream, so the launch is compensated. */
  lemma RecheckFails(p: Path, t: Tid, a: AgentId, sprint: SprintId) returns (q: Path)
    requires p.Valid() && t in p.s.threads && p.s.threads[t] == Check(CheckSprint(sprint, PostInsert(a, Spawned)))
    requires AllActive(p.s.db, sprint)
    ensures Extends(p, q, [Fails(Check(CheckWorkstream(Active, p.s.db.sprints[sprint].workstream,
      PostInsert(a, Spawned))))])
    ensures q.s == p.s.(
      threads := p.s.threads[t := Launch(CompRead(a, Spawned))],
      tally := q.s.tally)
  {
    hide Path.Valid, Path.First, Path.Noted, Recount, StepLane, StepResume, StepExit, StepLaunch, StepAdopt,
      StepCascade;
    q := Go(p, t, Ok);
    q := Go(q, t, Fail);
  }

  lemma CompReadFails(p: Path, t: Tid, a: AgentId) returns (q: Path)
    requires p.Valid() && t in p.s.threads && p.s.threads[t] == Launch(CompRead(a, Spawned)) && a in p.s.db.agents
    ensures Extends(p, q, [Fails(Launch(CompRead(a, Spawned)))])
    ensures q.s == p.s.(
      db := p.s.db.(agents := p.s.db.agents[a := p.s.db.agents[a].(status := Exited)]),
      threads := p.s.threads[t := Launch(UndoLaunch(a, Spawned))],
      tally := q.s.tally)
  {
    hide Path.Valid, Path.First, Path.Noted, Recount, StepLane, StepResume, StepExit, StepCheck, StepAdopt,
      StepCascade;
    q := Go(p, t, Fail);
    q := Go(q, t, Ok);
  }

  /** A spawn that was undone returns. */
  lemma UndoneEnds(p: Path, t: Tid, a: AgentId) returns (q: Path)
    requires p.Valid() && t in p.s.threads && p.s.threads[t] == Launch(UndoLaunch(a, Spawned))
    ensures Extends(p, q, [])
    ensures q.s == p.s.(
      threads := p.s.threads - {t},
      locks := p.s.locks - {a},
      tally := q.s.tally)
  {
    hide Path.Valid, Path.First, Path.Noted, Recount, StepLane, StepResume, StepCheck, StepAdopt, StepCascade;
    q := Go(p, t, Ok);
    q := Go(q, t, Ok);
  }

  lemma CompensationFlips(p: Path, t: Tid, a: AgentId) returns (q: Path)
    requires p.Valid() && t in p.s.threads && p.s.threads[t] == Launch(CompRead(a, Spawned)) && IsActive(p.s.db, a)
    ensures Extends(p, q, [])
    ensures q.s == p.s.(
      db := p.s.db.(agents := p.s.db.agents[a := p.s.db.agents[a].(status := Exited)]),
      threads := p.s.threads[t := Exit(ExitFlip(a, p.s.db.agents[a].handle, true, ToUndo(Spawned)))],
      tally := q.s.tally)
  {
    hide Path.Valid, Path.First, Path.Noted, Recount, StepLane, StepResume, StepExit, StepCheck, StepAdopt,
      StepCascade;
    q := Go(p, t, Ok);
    q := Go(q, t, Ok);
  }

  lemma SecondFlipFails(p: Path, t: Tid, a: AgentId, h: Handle) returns (q: Path)
    requires p.Valid() && t in p.s.threads && p.s.threads[t] == Exit(ExitFlip(a, h, true, ToUndo(Spawned)))
    ensures Extends(p, q, [Fails(Exit(ExitFlip(a, h, true, ToUndo(Spawned))))])
    ensures q.s == p.s.(
      threads := p.s.threads[t := Launch(UndoLaunch(a, Spawned))],
      tally := q.s.tally)
  {
    hide Path.Valid, Path.First, Path.Noted, Recount, StepLane, StepResume, StepCheck, StepLaunch, StepAdopt,
      StepCascade;
    q := Go(p, t, Fail);
    q := Go(q, t, Ok);
  }

  // ---------------------------------------------------------------- a lane

  /** A tick finds one agent vanished. */
  lemma LaneFinds(p: Path, t: Tid, w: WorkstreamId, a: AgentId) returns (q: Path)
    requires p.Valid() && t !in p.s.threads && p.s.db.AgentsOfWorkstream(w) == {a} && IsActive(p.s.db, a)
    requires p.s.db.agents[a].handle !in p.s.world.present
    ensures Extends(p, q, [])
    ensures q.s == p.s.(
      threads := p.s.threads[t := Lane(LaneNext([Vanished(a, p.s.db.agents[a].handle)]))],
      tally := q.s.tally)
  {
    hide Path.Valid, Path.First, Path.Noted, Recount, StepResume, StepExit, StepCheck, StepLaunch, StepAdopt,
      StepCascade, Entry, RowItems, Missing, Lists, Db.AgentsOfWorkstream;
    Enters(p.s, Lane(TickList(w, false)));
    q := Begins(p, t, Lane(TickList(w, false)));
    OneRow(p.s.db, w, a);
    q := Go(q, t, Order([a]));
    q := Go(q, t, Ok);
  }

  lemma LaneReads(p: Path, t: Tid, a: AgentId) returns (q: Path)
    requires p.Valid() && t in p.s.threads && IsActive(p.s.db, a) && a !in p.s.locks
    requires p.s.threads[t] == Lane(LaneNext([Vanished(a, p.s.db.agents[a].handle)]))
    requires p.s.db.agents[a].restarts < RESTART_BUDGET
    ensures Extends(p, q, [])
    ensures q.s == p.s.(
      threads := p.s.threads[t := Lane(Mark(Vanished(a, p.s.db.agents[a].handle), p.s.db.agents[a], false, []))],
      locks := p.s.locks[a := t],
      tally := q.s.tally)
  {
    hide Path.Valid, Path.First, Path.Noted, Recount, StepResume, StepExit, StepCheck, StepLaunch, StepAdopt,
      StepCascade;
    var item := Vanished(a, p.s.db.agents[a].handle);
    assert [item][1..] == [];
    q := Go(p, t, Ok);
    q := Go(q, t, Ok);
  }

  lemma LaneMarks(p: Path, t: Tid, a: AgentId, item: Item) returns (q: Path)
    requires p.Valid() && t in p.s.threads && a in p.s.db.agents && item.a == a
    requires p.s.threads[t] == Lane(Mark(item, p.s.db.agents[a], false, []))
    ensures Extends(p, q, [])
    ensures q.s == p.s.(
      db := p.s.db.(agents := p.s.db.agents[a := p.s.db.agents[a].(restarts := p.s.db.agents[a].restarts + 1)]),
      threads := p.s.threads[t := Resume(Respawn(a, []))],
      tally := q.s.tally)
  {
    hide Path.Valid, Path.First, Path.Noted, Recount, StepResume, StepExit, StepCheck, StepLaunch, StepAdopt,
      StepCascade;
    q := Go(p, t, Ok);
  }

  /** The new terminal can be neither recorded nor killed. */
  lemma KillNewFails(p: Path, t: Tid, a: AgentId, h: Handle, n: Nonce) returns (q: Path)
    requires p.Valid() && t in p.s.threads && p.s.threads[t] == Resume(Persist(a, h, n, []))
    ensures Extends(p, q, [Fails(Resume(Persist(a, h, n, []))), Fails(Resume(KillNew(a, h, [])))])
    ensures q.s == p.s.(
      threads := p.s.threads - {t},
      locks := p.s.locks - {a},
      tally := q.s.tally)
  {
    hide Path.Valid, Path.First, Path.Noted, Recount, StepLane, StepExit, StepCheck, StepLaunch, StepAdopt,
      StepCascade;
    q := Go(p, t, Fail);
    q := Go(q, t, Fail);
    q := LaneEnds(q, t, a);
  }

  // ---------------------------------------------------------------- an adopt

  lemma AdoptLocks(p: Path, t: Tid, a: AgentId, relocate: bool) returns (q: Path)
    requires p.Valid() && t !in p.s.threads && a !in p.s.locks
    ensures Extends(p, q, [])
    ensures q.s == p.s.(
      threads := p.s.threads[t := Adopt(AdoptCheck(a, relocate))],
      locks := p.s.locks[a := t],
      named := p.s.named + {a},
      tally := q.s.tally)
  {
    hide Path.Valid, Path.First, Path.Noted, Recount, StepLane, StepResume, StepExit, StepCheck, StepLaunch,
      StepCascade, Entry, Named;
    Enters(p.s, Adopt(AdoptLock(a, relocate)));
    q := Begins(p, t, Adopt(AdoptLock(a, relocate)));
    q := Go(q, t, Ok);
  }

  /** Up to its stop. */
  lemma AdoptChecks(p: Path, t: Tid, a: AgentId, relocate: bool) returns (q: Path)
    requires p.Valid() && t !in p.s.threads && a !in p.s.locks && a !in p.s.db.agents
    ensures Extends(p, q, [])
    ensures q.s == p.s.(
      threads := p.s.threads[t := Adopt(AdoptStop(a, relocate))],
      locks := p.s.locks[a := t],
      named := p.s.named + {a},
      tally := q.s.tally)
  {
    hide Path.Valid, Path.First, Path.Noted, Recount, StepLane, StepResume, StepExit, StepCheck, StepLaunch,
      StepCascade;
    q := AdoptLocks(p, t, a, relocate);
    q := Go(q, t, Ok);
  }

  lemma AdoptStops(p: Path, t: Tid, a: AgentId, relocate: bool) returns (q: Path)
    requires p.Valid() && t in p.s.threads && p.s.threads[t] == Adopt(AdoptStop(a, relocate))
    ensures Extends(p, q, [])
    ensures q.s == p.s.(
      threads := p.s.threads[t := Adopt(AdoptPlace(a, relocate))],
      world := p.s.world.StopChildren(a),
      tally := q.s.tally)
  {
    hide Path.Valid, Path.First, Path.Noted, Recount, StepLane, StepResume, StepExit, StepCheck, StepLaunch,
      StepCascade, World.StopChildren;
    q := Go(p, t, Ok);
  }

  /** The attribution overlooks what runs. */
  lemma AdoptMisses(p: Path, t: Tid, a: AgentId, relocate: bool) returns (q: Path)
    requires p.Valid() && t in p.s.threads && p.s.threads[t] == Adopt(AdoptStop(a, relocate))
    ensures Extends(p, q, [Overlooks(Adopt(AdoptStop(a, relocate)))])
    ensures q.s == p.s.(
      threads := p.s.threads[t := Adopt(AdoptPlace(a, relocate))],
      tally := q.s.tally)
  {
    hide Path.Valid, Path.First, Path.Noted, Recount, StepLane, StepResume, StepExit, StepCheck, StepLaunch,
      StepCascade;
    q := Go(p, t, Missed);
  }

  lemma AdoptPlaces(p: Path, t: Tid, a: AgentId, sprint: SprintId) returns (q: Path)
    requires p.Valid() && t in p.s.threads && p.s.threads[t] == Adopt(AdoptPlace(a, false)) && p.s.placement == None
    requires sprint in p.s.db.sprints && p.s.db.sprints[sprint].status == Active
    ensures Extends(p, q, [])
    ensures q.s == p.s.(
      threads := p.s.threads[t := Adopt(AdoptLaunch(a, sprint, None))],
      tally := q.s.tally)
  {
    hide Path.Valid, Path.First, Path.Noted, Recount, StepLane, StepResume, StepExit, StepCheck, StepLaunch,
      StepCascade;
    q := Go(p, t, Ok);
    q := Go(q, t, Target(sprint));
    q := Go(q, t, Ok);
  }

  lemma AdoptLaunches(p: Path, t: Tid, a: AgentId, sprint: SprintId, h: Handle, n: Nonce) returns (q: Path)
    requires p.Valid() && t in p.s.threads && p.s.threads[t] == Adopt(AdoptLaunch(a, sprint, None))
    requires sprint in p.s.db.sprints && p.s.world.Fresh(h, n)
    ensures Extends(p, q, [])
    ensures q.s == p.s.(
      threads := p.s.threads[t := Launch(Insert(a, sprint, h, n, Adopted(None)))],
      world := p.s.world.Spawn(h, Incarnation(a, n, p.s.db.sprints[sprint].workstream)),
      tally := q.s.tally)
  {
    hide Path.Valid, Path.First, Path.Noted, Recount, StepLane, StepResume, StepExit, StepCheck, StepLaunch,
      StepCascade, World.Fresh;
    q := Go(p, t, Terminal(h, n));
  }

  /** Its row cannot be inserted nor its child killed. */
  lemma AdoptFailsToInsert(p: Path, t: Tid, a: AgentId, sprint: SprintId, h: Handle, n: Nonce) returns (q: Path)
    requires p.Valid() && t in p.s.threads && p.s.threads[t] == Launch(Insert(a, sprint, h, n, Adopted(None)))
    ensures Extends(p, q, [Fails(Launch(Insert(a, sprint, h, n, Adopted(None)))),
      Fails(Launch(KillOrphan(a, h, Adopted(None))))])
    ensures q.s == p.s.(
      threads := p.s.threads[t := Launch(UndoLaunch(a, Adopted(None)))],
      tally := q.s.tally)
  {
    hide Path.Valid, Path.First, Path.Noted, Recount, StepLane, StepResume, StepExit, StepCheck, StepAdopt,
      StepCascade;
    q := Go(p, t, Fail);
    q := Go(q, t, Fail);
  }

  lemma AdoptEnds(p: Path, t: Tid, a: AgentId) returns (q: Path)
    requires p.Valid() && t in p.s.threads && p.s.threads[t] == Launch(UndoLaunch(a, Adopted(None)))
    ensures Extends(p, q, [])
    ensures q.s == p.s.(
      threads := p.s.threads - {t},
      locks := p.s.locks - {a},
      tally := q.s.tally)
  {
    hide Path.Valid, Path.First, Path.Noted, Recount, StepLane, StepResume, StepExit, StepCheck, StepCascade;
    q := Go(p, t, Ok);
    q := Go(q, t, Ok);
  }

  // ---------------------------------------------------------------- a sprint kill

  lemma SprintKillReads(p: Path, t: Tid, sprint: SprintId) returns (q: Path)
    requires p.Valid() && t !in p.s.threads && sprint in p.s.db.sprints && p.s.db.sprints[sprint].status == Active
    ensures Extends(p, q, [])
    ensures q.s == p.s.(
      threads := p.s.threads[t := Cascade(Next(Visiting([], [sprint], true, None)))],
      tally := q.s.tally)
  {
    hide Path.Valid, Path.First, Path.Noted, Recount, StepLane, StepResume, StepExit, StepCheck, StepLaunch,
      StepAdopt, Entry, StepNext;
    Enters(p.s, Cascade(KillSprint(sprint)));
    q := Begins(p, t, Cascade(KillSprint(sprint)));
    q := Go(q, t, Ok);
  }

  /** The sprint is flipped, and its Active agents are listed. */
  lemma SprintKillLists(p: Path, t: Tid, sprint: SprintId, xs: seq<AgentId>) returns (q: Path)
    requires p.Valid() && t in p.s.threads && p.s.threads[t] == Cascade(Next(Visiting([], [sprint], true, None)))
    requires sprint in p.s.db.sprints && p.s.db.sprints[sprint].status == Active
    requires Lists(xs, p.s.db.ActiveAgentsOf(sprint))
    ensures Extends(p, q, [])
    ensures q.s == p.s.(
      db := p.s.db.CasSprintKilled(sprint).0,
      threads := p.s.threads[t := Cascade(Next(Killing(xs, [])))],
      tally := q.s.tally)
  {
    hide Path.Valid, Path.First, Path.Noted, Recount, StepLane, StepResume, StepExit, StepCheck, StepLaunch,
      StepAdopt, NextAgent, NextWorkstream, Lists;
    assert [sprint][1..] == [];
    q := Go(p, t, Ok);
    assert q.s.db.ActiveAgentsOf(sprint) == p.s.db.ActiveAgentsOf(sprint);
    q := Go(q, t, Order(xs));
  }

  /** An Active agent is next. */
  lemma CascadeReads(p: Path, t: Tid, a: AgentId, xs: seq<AgentId>) returns (q: Path)
    requires p.Valid() && t in p.s.threads && p.s.threads[t] == Cascade(Next(Killing([a] + xs, [])))
    requires IsActive(p.s.db, a) && a !in p.s.locks
    ensures Extends(p, q, [])
    ensures q.s == p.s.(
      threads := p.s.threads[t := Exit(ExitFlip(a, p.s.db.agents[a].handle, false, ToCascade(Killing(xs, [a]))))],
      locks := p.s.locks[a := t],
      tally := q.s.tally)
  {
    hide Path.Valid, Path.First, Path.Noted, Recount, StepLane, StepResume, StepExit, StepCheck, StepLaunch,
      StepAdopt, NextSprint, NextWorkstream;
    assert ([a] + xs)[1..] == xs && [] + [a] == [a];
    q := Go(p, t, Ok);
    q := Go(q, t, Ok);
  }

  /** The append fails, and with it the whole cascade. */
  lemma CascadeCut(p: Path, t: Tid, a: AgentId, h: Handle, xs: seq<AgentId>) returns (q: Path)
    requires p.Valid() && t in p.s.threads && p.s.threads[t] == Exit(ExitLog(a, h, false, ToCascade(Killing(xs, [a]))))
    ensures Extends(p, q, [Fails(Exit(ExitLog(a, h, false, ToCascade(Killing(xs, [a])))))])
    ensures q.s == p.s.(
      threads := p.s.threads[t := Cascade(Next(Visiting([], [], true, None)))],
      locks := p.s.locks - {a},
      tally := q.s.tally)
  {
    hide Path.Valid, Path.First, Path.Noted, Recount, StepLane, StepResume, StepCheck, StepLaunch, StepAdopt,
      StepCascade;
    q := Go(p, t, Fail);
    q := Go(q, t, Ok);
  }

  lemma CascadeAppends(p: Path, t: Tid, a: AgentId, h: Handle, xs: seq<AgentId>) returns (q: Path)
    requires p.Valid() && t in p.s.threads && p.s.threads[t] == Exit(ExitLog(a, h, false, ToCascade(Killing(xs, [a]))))
    ensures Extends(p, q, [])
    ensures q.s == p.s.(
      threads := p.s.threads[t := Cascade(Next(Killing(xs, [a])))],
      locks := p.s.locks - {a},
      tally := q.s.tally)
  {
    hide Path.Valid, Path.First, Path.Noted, Recount, StepLane, StepResume, StepCheck, StepLaunch, StepAdopt,
      StepCascade;
    q := Go(p, t, Ok);
    q := Go(q, t, Ok);
  }

  /** With nobody left to visit, the selection is cleared and the teardown begins. */
  lemma CascadeTears(p: Path, t: Tid, flipped: seq<AgentId>) returns (q: Path)
    requires p.Valid() && t in p.s.threads && p.s.threads[t] == Cascade(Next(Killing([], flipped)))
    ensures Extends(p, q, [])
    ensures q.s == p.s.(
      threads := p.s.threads[t := Cascade(TearNext(flipped))],
      tally := q.s.tally)
  {
    hide Path.Valid, Path.First, Path.Noted, Recount, StepLane, StepResume, StepExit, StepCheck, StepLaunch,
      StepAdopt, NextAgent, NextSprint, NextWorkstream;
    q := Go(p, t, Ok);
    q := Go(q, t, Ok);
  }

  lemma CutCascadeEnds(p: Path, t: Tid) returns (q: Path)
    requires p.Valid() && t in p.s.threads && p.s.threads[t] == Cascade(Next(Visiting([], [], true, None)))
    ensures Extends(p, q, [])
    ensures q.s == p.s.(
      threads := p.s.threads - {t},
      tally := q.s.tally)
  {
    hide Path.Valid, Path.First, Path.Noted, Recount, StepLane, StepResume, StepExit, StepCheck, StepLaunch,
      StepAdopt, NextAgent, NextSprint, NextWorkstream;
    q := Go(p, t, Ok);
    q := Go(q, t, Ok);
  }

  lemma TearEnds(p: Path, t: Tid) returns (q: Path)
    requires p.Valid() && t in p.s.threads && p.s.threads[t] == Cascade(TearNext([]))
    ensures Extends(p, q, [])
    ensures q.s == p.s.(
      threads := p.s.threads - {t},
      tally := q.s.tally)
  {
    hide Path.Valid, Path.First, Path.Noted, Recount, StepLane, StepResume, StepExit, StepCheck, StepLaunch,
      StepAdopt, StepNext;
    q := Go(p, t, Ok);
  }

  lemma TearReads(p: Path, t: Tid, a: AgentId) returns (q: Path)
    requires p.Valid() && t in p.s.threads && p.s.threads[t] == Cascade(TearNext([a])) && a in p.s.db.agents
    requires a !in p.s.locks
    ensures Extends(p, q, [])
    ensures q.s == p.s.(
      threads := p.s.threads[t := Exit(KillTerm(a, p.s.db.agents[a].handle, ToTear([])))],
      locks := p.s.locks[a := t],
      tally := q.s.tally)
  {
    hide Path.Valid, Path.First, Path.Noted, Recount, StepLane, StepResume, StepExit, StepCheck, StepLaunch,
      StepAdopt, StepNext;
    assert [a][1..] == [];
    q := Go(p, t, Ok);
    q := Go(q, t, Ok);
  }

  /** The terminal of the one agent flipped cannot be killed. */
  lemma TearFails(p: Path, t: Tid, a: AgentId, h: Handle) returns (q: Path)
    requires p.Valid() && t in p.s.threads && p.s.threads[t] == Exit(KillTerm(a, h, ToTear([])))
    ensures Extends(p, q, [Fails(Exit(KillTerm(a, h, ToTear([]))))])
    ensures q.s == p.s.(
      threads := p.s.threads[t := Cascade(TearNext([]))],
      locks := p.s.locks - {a},
      tally := q.s.tally)
  {
    hide Path.Valid, Path.First, Path.Noted, Recount, StepLane, StepResume, StepCheck, StepLaunch, StepAdopt,
      StepCascade;
    q := Go(p, t, Fail);
    q := Go(q, t, Ok);
  }

  // ---------------------------------------------------------------- a relocating adopt

  /** It mints a workstream. */
  lemma RelocationMints(p: Path, t: Tid, a: AgentId, w: WorkstreamId, r: RepoId) returns (q: Path)
    requires p.Valid() && t in p.s.threads && p.s.threads[t] == Adopt(AdoptPlace(a, true)) && p.s.placement == None
    requires w !in p.s.db.workstreams && r in p.s.db.repos
    ensures Extends(p, q, [])
    ensures q.s == p.s.(
      db := p.s.db.InsertWorkstream(w, r),
      threads := p.s.threads[t := Adopt(AdoptSprint(a, w))],
      placement := Some(t),
      relocs := p.s.relocs[w := a],
      tally := q.s.tally)
  {
    hide Path.Valid, Path.First, Path.Noted, Recount, StepLane, StepResume, StepExit, StepCheck, StepLaunch,
      StepCascade;
    q := Go(p, t, Ok);
    q := Go(q, t, NewWorkstream(w, r));
  }

  lemma RelocationPlans(p: Path, t: Tid, a: AgentId, w: WorkstreamId, sprint: SprintId) returns (q: Path)
    requires p.Valid() && t in p.s.threads && p.s.threads[t] == Adopt(AdoptSprint(a, w)) && sprint !in p.s.db.sprints
    ensures Extends(p, q, [])
    ensures q.s == p.s.(
      db := p.s.db.InsertSprint(sprint, w),
      threads := p.s.threads[t := Adopt(AdoptRename(a, w, sprint))],
      tally := q.s.tally)
  {
    hide Path.Valid, Path.First, Path.Noted, Recount, StepLane, StepResume, StepExit, StepCheck, StepLaunch,
      StepCascade;
    q := Go(p, t, NewSprint(sprint));
    q := Go(q, t, Target(sprint));
  }

  /** The transcript cannot be moved. */
  lemma RelocationFails(p: Path, t: Tid, a: AgentId, w: WorkstreamId, sprint: SprintId) returns (q: Path)
    requires p.Valid() && t in p.s.threads && p.s.threads[t] == Adopt(AdoptRename(a, w, sprint))
    ensures Extends(p, q, [Fails(Adopt(AdoptRename(a, w, sprint)))])
    ensures q.s == p.s.(
      threads := p.s.threads[t := Adopt(UndoRead(a, w, true))],
      tally := q.s.tally)
  {
    hide Path.Valid, Path.First, Path.Noted, Recount, StepLane, StepResume, StepExit, StepCheck, StepLaunch,
      StepCascade;
    q := Go(p, t, Fail);
  }

  /** The teardown cannot read the workstream, and gives up. */
  lemma TeardownFails(p: Path, t: Tid, a: AgentId, w: WorkstreamId) returns (q: Path)
    requires p.Valid() && t in p.s.threads && p.s.threads[t] == Adopt(UndoRead(a, w, true))
    ensures Extends(p, q, [Fails(Adopt(UndoRead(a, w, true)))])
    ensures q.s == p.s.(
      threads := p.s.threads[t := Adopt(Refused(a, Some(w)))],
      placement := None,
      tally := q.s.tally)
  {
    hide Path.Valid, Path.First, Path.Noted, Recount, StepLane, StepResume, StepExit, StepCheck, StepLaunch,
      StepCascade;
    q := Go(p, t, Fail);
    q := Go(q, t, Ok);
  }

  lemma SprintInsertFails(p: Path, t: Tid, a: AgentId, w: WorkstreamId) returns (q: Path)
    requires p.Valid() && t in p.s.threads && p.s.threads[t] == Adopt(AdoptSprint(a, w))
    ensures Extends(p, q, [Fails(Adopt(AdoptSprint(a, w)))])
    ensures q.s == p.s.(
      threads := p.s.threads[t := Adopt(Refused(a, Some(w)))],
      placement := None,
      tally := q.s.tally)
  {
    hide Path.Valid, Path.First, Path.Noted, Recount, StepLane, StepResume, StepExit, StepCheck, StepLaunch,
      StepCascade;
    q := Go(p, t, Fail);
    q := Go(q, t, Ok);
  }

  /** The transcript is moved. */
  lemma RelocationMoves(p: Path, t: Tid, a: AgentId, w: WorkstreamId, sprint: SprintId) returns (q: Path)
    requires p.Valid() && t in p.s.threads && p.s.threads[t] == Adopt(AdoptRename(a, w, sprint))
    ensures Extends(p, q, [])
    ensures q.s == p.s.(
      threads := p.s.threads[t := Adopt(AdoptLaunch(a, sprint, Some(w)))],
      placement := None,
      world := p.s.world.(moved := p.s.world.moved[a := w]),
      tally := q.s.tally)
  {
    hide Path.Valid, Path.First, Path.Noted, Recount, StepLane, StepResume, StepExit, StepCheck, StepLaunch,
      StepCascade;
    q := Go(p, t, Ok);
    q := Go(q, t, Ok);
  }

  lemma RelocatedLaunchFails(p: Path, t: Tid, a: AgentId, w: WorkstreamId, sprint: SprintId) returns (q: Path)
    requires p.Valid() && t in p.s.threads && p.s.threads[t] == Adopt(AdoptLaunch(a, sprint, Some(w)))
    ensures Extends(p, q, [Fails(Adopt(AdoptLaunch(a, sprint, Some(w))))])
    ensures q.s == p.s.(
      threads := p.s.threads[t := Launch(UndoLaunch(a, Adopted(Some(w))))],
      tally := q.s.tally)
  {
    hide Path.Valid, Path.First, Path.Noted, Recount, StepLane, StepResume, StepExit, StepCheck, StepLaunch,
      StepCascade;
    q := Go(p, t, Fail);
  }

  lemma RenameBackFails(p: Path, t: Tid, a: AgentId, w: WorkstreamId) returns (q: Path)
    requires p.Valid() && t in p.s.threads && p.s.threads[t] == Launch(UndoLaunch(a, Adopted(Some(w))))
    ensures Extends(p, q, [Fails(Launch(UndoLaunch(a, Adopted(Some(w)))))])
    ensures q.s == p.s.(
      threads := p.s.threads[t := Adopt(UndoRead(a, w, false))],
      tally := q.s.tally)
  {
    hide Path.Valid, Path.First, Path.Noted, Recount, StepLane, StepResume, StepExit, StepCheck, StepAdopt,
      StepCascade;
    q := Go(p, t, Fail);
  }

  lemma RenamesBack(p: Path, t: Tid, a: AgentId, w: WorkstreamId) returns (q: Path)
    requires p.Valid() && t in p.s.threads && p.s.threads[t] == Launch(UndoLaunch(a, Adopted(Some(w))))
    ensures Extends(p, q, [])
    ensures q.s == p.s.(
      threads := p.s.threads[t := Adopt(UndoRead(a, w, false))],
      world := p.s.world.(moved := p.s.world.moved - {a}),
      tally := q.s.tally)
  {
    hide Path.Valid, Path.First, Path.Noted, Recount, StepLane, StepResume, StepExit, StepCheck, StepAdopt,
      StepCascade;
    q := Go(p, t, Ok);
  }

  /** The relocated launch inserts its row. */
  lemma RelocatedLaunches(p: Path, t: Tid, a: AgentId, w: WorkstreamId, sprint: SprintId, h: Handle, n: Nonce)
    returns (q: Path)
    requires p.Valid() && t in p.s.threads && p.s.threads[t] == Adopt(AdoptLaunch(a, sprint, Some(w)))
    requires sprint in p.s.db.sprints && p.s.db.sprints[sprint].workstream == w && p.s.world.Fresh(h, n)
    requires a !in p.s.db.agents
    ensures Extends(p, q, [])
    ensures q.s == p.s.(
      db := p.s.db.(agents := p.s.db.agents[a := AgentRow(sprint, h, n, Active, 0)]),
      threads := p.s.threads[t := Check(CheckSprint(sprint, PostInsert(a, Adopted(Some(w)))))],
      world := p.s.world.Spawn(h, Incarnation(a, n, w)),
      tally := q.s.tally)
  {
    hide Path.Valid, Path.First, Path.Noted, Recount, StepLane, StepResume, StepExit, StepCheck, StepCascade,
      World.Fresh;
    q := Go(p, t, Terminal(h, n));
    q := Go(q, t, Ok);
  }

  /** The adopted event cannot be appended, and the compensation's status write fails as well. */
  lemma AdoptedAppendFails(p: Path, t: Tid, a: AgentId, w: WorkstreamId) returns (q: Path)
    requires p.Valid() && t in p.s.threads && p.s.threads[t] == Launch(LogSpawned(a, Adopted(Some(w))))
    requires a in p.s.db.agents
    ensures Extends(p, q, [Fails(Launch(LogSpawned(a, Adopted(Some(w))))),
      Fails(Launch(CompFlip(a, Some(p.s.db.agents[a]), Adopted(Some(w)))))])
    ensures q.s == p.s.(
      threads := p.s.threads[t := Launch(UndoLaunch(a, Adopted(Some(w))))],
      tally := q.s.tally)
  {
    hide Path.Valid, Path.First, Path.Noted, Recount, StepLane, StepResume, StepExit, StepCheck, StepAdopt,
      StepCascade;
    q := Go(p, t, Fail);
    q := Go(q, t, Ok);
    q := Go(q, t, Fail);
  }

  // ---------------------------------------------------------------- the teardown of a relocation

  lemma TeardownReads(p: Path, t: Tid, a: AgentId, w: WorkstreamId, placing: bool) returns (q: Path)
    requires p.Valid() && t in p.s.threads && p.s.threads[t] == Adopt(UndoRead(a, w, placing))
    requires w in p.s.db.workstreams && p.s.db.workstreams[w].status == Active
    ensures Extends(p, q, [])
    ensures q.s == p.s.(
      threads := p.s.threads[t := Cascade(Next(Visiting([w], [], false, Some(Undoing(a, w, placing)))))],
      tally := q.s.tally)
  {
    hide Path.Valid, Path.First, Path.Noted, Recount, StepLane, StepResume, StepExit, StepCheck, StepLaunch,
      StepCascade;
    q := Go(p, t, Ok);
  }

  /** Its first flip fails, and it gives up. */
  lemma TeardownFlipFails(p: Path, t: Tid, a: AgentId, w: WorkstreamId) returns (q: Path)
    requires p.Valid() && t in p.s.threads
    requires p.s.threads[t] == Cascade(Next(Visiting([w], [], false, Some(Undoing(a, w, true)))))
    ensures Extends(p, q, [Fails(Cascade(Next(Visiting([w], [], false, Some(Undoing(a, w, true))))))])
    ensures q.s == p.s.(
      threads := p.s.threads[t := Cascade(TearWorkspaces([], Some(Undoing(a, w, true))))],
      tally := q.s.tally)
  {
    hide Path.Valid, Path.First, Path.Noted, Recount, StepLane, StepResume, StepExit, StepCheck, StepLaunch,
      StepAdopt, NextAgent, NextSprint;
    q := Go(p, t, Fail);
    q := Go(q, t, Ok);
  }

  lemma TeardownRefuses(p: Path, t: Tid, a: AgentId, w: WorkstreamId) returns (q: Path)
    requires p.Valid() && t in p.s.threads && p.s.threads[t] == Cascade(TearWorkspaces([], Some(Undoing(a, w, true))))
    ensures Extends(p, q, [])
    ensures q.s == p.s.(
      threads := p.s.threads[t := Adopt(Refused(a, Some(w)))],
      placement := None,
      tally := q.s.tally)
  {
    hide Path.Valid, Path.First, Path.Noted, Recount, StepLane, StepResume, StepExit, StepCheck, StepLaunch, StepNext;
    q := Go(p, t, Ok);
    q := Go(q, t, Ok);
  }

  /** The minted workstream is flipped, and its one sprint listed. */
  lemma TeardownFlips(p: Path, t: Tid, u: Undoing, sprint: SprintId) returns (q: Path)
    requires p.Valid() && t in p.s.threads && p.s.threads[t] == Cascade(Next(Visiting([u.w], [], false, Some(u))))
    requires u.w in p.s.db.workstreams && p.s.db.workstreams[u.w].status == Active
    requires p.s.db.ActiveSprintsOf(u.w) == {sprint}
    ensures Extends(p, q, [])
    ensures q.s == p.s.(
      db := p.s.db.CasWorkstreamKilled(u.w).0,
      threads := p.s.threads[t := Cascade(Next(Undoes(u, [sprint], [], false)))],
      tally := q.s.tally)
  {
    hide Path.Valid, Path.First, Path.Noted, Recount, StepLane, StepResume, StepExit, StepCheck, StepLaunch,
      StepAdopt, NextAgent, NextSprint;
    assert [u.w][1..] == [] && [] + [u.w] == [u.w];
    q := Go(p, t, Ok);
    assert q.s.db.ActiveSprintsOf(u.w) == p.s.db.ActiveSprintsOf(u.w);
    q := Go(q, t, Order([sprint]));
  }

  /** The sprint is flipped, and its Active agents are listed. */
  lemma TeardownLists(p: Path, t: Tid, u: Undoing, sprint: SprintId, xs: seq<AgentId>) returns (q: Path)
    requires p.Valid() && t in p.s.threads && p.s.threads[t] == Cascade(Next(Undoes(u, [sprint], [], false)))
    requires sprint in p.s.db.sprints && p.s.db.sprints[sprint].status == Active
    requires Lists(xs, p.s.db.ActiveAgentsOf(sprint))
    ensures Extends(p, q, [])
    ensures q.s == p.s.(
      db := p.s.db.CasSprintKilled(sprint).0,
      threads := p.s.threads[t := Cascade(Next(Undoes(u, [], xs, true)))],
      tally := q.s.tally)
  {
    hide Path.Valid, Path.First, Path.Noted, Recount, StepLane, StepResume, StepExit, StepCheck, StepLaunch,
      StepAdopt, NextAgent, NextWorkstream, Lists;
    assert [sprint][1..] == [];
    q := Go(p, t, Ok);
    assert q.s.db.ActiveAgentsOf(sprint) == p.s.db.ActiveAgentsOf(sprint);
    q := Go(q, t, Order(xs));
  }

  /** The adopt's own agent is skipped. */
  lemma TeardownSkips(p: Path, t: Tid, u: Undoing) returns (q: Path)
    requires p.Valid() && t in p.s.threads && p.s.threads[t] == Cascade(Next(Undoes(u, [], [u.a], true)))
    ensures Extends(p, q, [])
    ensures q.s == p.s.(
      threads := p.s.threads[t := Cascade(Next(Undoes(u, [], [], true)))],
      tally := q.s.tally)
  {
    hide Path.Valid, Path.First, Path.Noted, Recount, StepLane, StepResume, StepExit, StepCheck, StepLaunch,
      StepAdopt, NextSprint, NextWorkstream;
    assert [u.a][1..] == [];
    q := Go(p, t, Ok);
  }

  /** The selections are cleared. */
  lemma TeardownClears(p: Path, t: Tid, u: Undoing) returns (q: Path)
    requires p.Valid() && t in p.s.threads && p.s.threads[t] == Cascade(Next(Undoes(u, [], [], true)))
    ensures Extends(p, q, [])
    ensures q.s == p.s.(
      threads := p.s.threads[t := Cascade(TearWorkspaces([u.w], Some(u)))],
      tally := q.s.tally)
  {
    hide Path.Valid, Path.First, Path.Noted, Recount, StepLane, StepResume, StepExit, StepCheck, StepLaunch,
      StepAdopt, NextAgent, NextSprint, NextWorkstream;
    q := Go(p, t, Ok);
    q := Go(q, t, Ok);
    q := Go(q, t, Ok);
  }

  lemma TeardownEnds(p: Path, t: Tid, a: AgentId, w: WorkstreamId) returns (q: Path)
    requires p.Valid() && t in p.s.threads && p.s.threads[t] == Cascade(TearWorkspaces([w], Some(Undoing(a, w, false))))
    ensures Extends(p, q, [])
    ensures q.s == p.s.(
      threads := p.s.threads[t := Adopt(Refused(a, Some(w)))],
      world := p.s.world.KillWorkspace(w),
      tally := q.s.tally)
  {
    hide Path.Valid, Path.First, Path.Noted, Recount, StepLane, StepResume, StepExit, StepCheck, StepLaunch,
      StepAdopt, StepNext, World.KillWorkspace;
    assert [w][1..] == [];
    q := Go(p, t, Ok);
    q := Go(q, t, Ok);
  }

  lemma RefusedEnds(p: Path, t: Tid, a: AgentId, moved: Option<WorkstreamId>) returns (q: Path)
    requires p.Valid() && t in p.s.threads && p.s.threads[t] == Adopt(Refused(a, moved))
    ensures Extends(p, q, [])
    ensures q.s == p.s.(
      threads := p.s.threads - {t},
      locks := p.s.locks - {a},
      tally := q.s.tally)
  {
    hide Path.Valid, Path.First, Path.Noted, Recount, StepLane, StepResume, StepExit, StepCheck, StepLaunch,
      StepCascade;
    q := Go(p, t, Ok);
  }
}
