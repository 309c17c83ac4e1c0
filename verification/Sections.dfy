/** What a handler does to an agent from a read under the agent's lock to the moment it lets go of
    the lock, whatever else runs meanwhile. Others leave a locked agent alone, so what the code
    there has made of the row, the counters and the terminals can be followed step by step. */
module Sections {
  import opened Tables
  import opened Protocol
  import opened Interference
  import opened Homes
  import IncarnationCoherence

  // ---------------------------------------------------------------- a thread's own steps

  ghost predicate Own(e: Event, t: Tid) { e.Step? && e.t == t }

  ghost predicate Holding(s: State, t: Tid, a: AgentId) { a in s.locks && s.locks[a] == t }

  /** Event j is a failing call of thread t. */
  ghost predicate FailsAt(states: seq<State>, events: seq<Event>, j: nat, t: Tid)
    requires j < |events| && |states| == |events| + 1
  {
    && Own(events[j], t) && events[j].c.Fail?
    && t in states[j].threads && CallAt(states[j].threads[t]) != NoCall
  }

  ghost predicate NoneFails(states: seq<State>, events: seq<Event>, i: nat, j: nat, t: Tid)
    requires j <= |events| && |states| == |events| + 1
  {
    forall m :: i < m < j ==> !FailsAt(states, events, m, t)
  }

  /** From just after event i, a step of t, until event k, t holds agent a's lock; with event k it
      lets go of it. */
  ghost predicate Section(states: seq<State>, events: seq<Event>, i: nat, k: nat, t: Tid, a: AgentId) {
    && IsRun(states, events) && i < k < |events| && Own(events[i], t)
    && (forall m :: i < m <= k ==> Holding(states[m], t, a)) && !Holding(states[k + 1], t, a)
  }

  /** Whatever another thread or the outside does, t is where it was, and what it relies on holds. */
  lemma Others(s: State, e: Event, s': State, t: Tid)
    requires Base(s) && Apply(s, e) == Some(s') && !Own(e, t) && t in s.threads
    ensures t in s'.threads && s'.threads[t] == s.threads[t] && Rely(s, s', Holds(s.threads[t]))
    ensures !Reactivates(e) ==> KilledStays(s.db, s'.db)
  {
    hide Apply, Plan, Scoped, GrowsDb, GrowsWorld, GrowsIds, KilledStays, Grantable, Run, CallOutside, Recount, Relock,
      LockInv, Rely, Holds, WorkstreamsStay, Possible;
    if e.Step? {
      var eff := Unpack(s, e.t, e.c, s');
    } else {
      RelyOutside(s, e, s', Holds(s.threads[t]));
      GrowsOutside(s, e, s');
    }
  }

  lemma HolderHolds(s: State, t: Tid, a: AgentId)
    requires Base(s) && t in s.threads && a in Holds(s.threads[t])
    ensures Holding(s, t, a)
  {}

  // ---------------------------------------------------------------- what has become of an agent

  /** EventExited appends, respawn attempts and announcements since s0. */
  ghost predicate Counted(s0: State, s: State, a: AgentId, exits: nat, tries: nat, logs: nat) {
    && Count(s.tally.exits, a) == Count(s0.tally.exits, a) + exits
    && Count(s.tally.tries, a) == Count(s0.tally.tries, a) + tries
    && Count(s.tally.logs, a) == Count(s0.tally.logs, a) + logs
  }

  /** The row, and what has been counted since s0. */
  ghost predicate Stands(s0: State, s: State, a: AgentId, row: Option<AgentRow>, exits: nat, tries: nat, logs: nat) {
    RowIs(s.db, a, row) && Counted(s0, s, a, exits, tries, logs)
  }

  /** Terminal h was spawned since s0 for agent a under nonce n, in its workstream's workspace. */
  ghost predicate SpawnedSince(s0: State, s: State, a: AgentId, h: Handle, n: Nonce) {
    && h !in s0.world.spawned && h in s.world.spawned && s.Home(a).Some?
    && s.world.spawned[h] == Incarnation(a, n, s.Home(a).value)
  }

  /** One attempt since s0 has given the row a terminal spawned since; the rest is as in row. */
  ghost predicate Renewed(s0: State, s: State, a: AgentId, row: AgentRow, logs: nat) {
    && a in s.db.agents
    && var now := s.db.agents[a];
       && Stands(s0, s, a, Some(row.(handle := now.handle, nonce := now.nonce)), 0, 1, logs)
       && SpawnedSince(s0, s, a, now.handle, now.nonce)
  }

  ghost predicate AllGone(world: World, hs: set<Handle>) { forall h :: h in hs ==> Gone(world, h) }

  lemma StandsStill(s0: State, s: State, s': State, held: set<AgentId>, a: AgentId, row: Option<AgentRow>,
                    exits: nat, tries: nat, logs: nat)
    requires Stands(s0, s, a, row, exits, tries, logs) && Rely(s, s', held) && a in held
    ensures Stands(s0, s', a, row, exits, tries, logs)
  {
    hide GrowsDb, GrowsWorld, GrowsIds, SamePath, NoNewChild;
  }

  lemma SpawnedStill(s0: State, s: State, s': State, a: AgentId, h: Handle, n: Nonce)
    requires SpawnedSince(s0, s, a, h, n) && GrowsDb(s.db, s'.db) && GrowsWorld(s.world, s'.world)
    ensures SpawnedSince(s0, s', a, h, n)
  {}

  lemma GoneStill(world: World, world': World, hs: set<Handle>)
    requires AllGone(world, hs) && GrowsWorld(world, world')
    ensures AllGone(world', hs)
  {}

  // ---------------------------------------------------------------- the hierarchy check

  /** What the containers above a sprint are known to do while it is checked: anything, stay dead
      somewhere, or be Active all along. */
  datatype Above = Any | Dead | Alive

  /** The check of sprint p has read the right containers so far, and what it has read decides. */
  ghost predicate Climbs(above: Above, db: Db, k: CheckPc, p: SprintId) {
    match k
    case CheckSprint(q, _) => q == p && (above.Dead? ==> DeadHierarchy(db, p))
    case CheckWorkstream(sp, w, _) =>
      && p in db.sprints && w == db.sprints[p].workstream
      && (above.Dead? ==> sp != Active || DeadWorkstream(db, p) || DeadRepo(db, p))
      && (above.Alive? ==> sp == Active)
    case CheckRepo(sp, ws, r, _) =>
      && p in db.sprints && db.sprints[p].workstream in db.workstreams
      && r == db.workstreams[db.sprints[p].workstream].repo
      && (above.Dead? ==> sp != Active || ws != Active || DeadRepo(db, p))
      && (above.Alive? ==> sp == ws == Active)
  }

  ghost predicate Keeps(above: Above, db: Db, db': Db, p: SprintId) {
    match above
    case Any => true
    case Dead => KilledStays(db, db')
    case Alive => !DeadHierarchy(db, p)
  }

  /** What the containers above sprint p do from state i to state j. */
  ghost predicate AboveStays(above: Above, states: seq<State>, events: seq<Event>, i: nat, j: nat, p: SprintId)
    requires i <= j < |states| && |states| == |events| + 1
  {
    match above
    case Any => true
    case Dead => DeadHierarchy(states[i].db, p) && forall m :: i <= m < j ==> !Reactivates(events[m])
    case Alive => forall m :: i <= m <= j ==> !DeadHierarchy(states[m].db, p)
  }

  lemma ClimbsStill(above: Above, db: Db, db': Db, k: CheckPc, p: SprintId)
    requires Climbs(above, db, k, p) && GrowsDb(db, db') && Keeps(above, db, db', p)
    ensures Climbs(above, db', k, p)
  {}

  /** One read of the check: on to the next container, through, or refused. */
  lemma ClimbStep(above: Above, s: State, k: CheckPc, c: Choice, eff: Effect, p: SprintId)
    requires Rooted(s.db) && p in s.db.sprints && Climbs(above, s.db, k, p) && !c.Fail?
    requires above.Alive? ==> !DeadHierarchy(s.db, p)
    requires StepCheck(s, k, c) == Some(eff)
    ensures eff.stmt.NoStatement? && eff.out.NothingOutside? && eff.note.NoNote? && eff.lock.Keep?
    ensures || (eff.next.Some? && eff.next.value.Check? && eff.next.value.chk.use == k.use
                && Climbs(above, s.db, eff.next.value.chk, p))
            || (!above.Dead? && eff == Through(k.use))
            || (!above.Alive? && eff == CheckError(k.use, true))
  {}

  function Through(use: CheckUse): Effect {
    match use
    case PreSpawn(p) => On(Launch(LaunchChild(p)))
    case PostInsert(a, origin) => On(Launch(LogSpawned(a, origin)))
    case ForRespawn(a) => On(Resume(RespawnMark(a)))
  }

  // ---------------------------------------------------------------- ways through a section

  /** Leaving with nothing done. */
  ghost predicate Leaves(s0: State, s: State, pc: Pc, a: AgentId, row: Option<AgentRow>, after: After) {
    pc == Exit(Leave(a, after)) && Stands(s0, s, a, row, 0, 0, 0)
  }

  /** The row becomes Exited, its event is appended and, for a kill, its terminal is killed. */
  ghost predicate Exiting(s0: State, s: State, pc: Pc, a: AgentId, row: AgentRow, kill: bool, after: After) {
    match pc
    case Exit(ExitFlip(b, h, k, f)) =>
      b == a && h == row.handle && k == kill && f == after && Stands(s0, s, a, Some(row), 0, 0, 0)
    case Exit(ExitLog(b, h, k, f)) =>
      && b == a && h == row.handle && k == kill && f == after
      && Stands(s0, s, a, Some(row.(status := Exited)), 0, 0, 0)
    case Exit(KillTerm(b, h, f)) =>
      && b == a && h == row.handle && kill && f == after
      && Stands(s0, s, a, Some(row.(status := Exited)), 1, 0, 0)
    case Exit(Leave(b, f)) => b == a && f == after && HasExited(s0, s, a, row, kill)
    case _ => false
  }

  ghost predicate HasExited(s0: State, s: State, a: AgentId, row: AgentRow, kill: bool) {
    && row.handle in s.world.spawned
    && Stands(s0, s, a, Some(row.(status := Exited)), 1, 0, 0) && (kill ==> Gone(s.world, row.handle))
  }

  /** A new terminal is spawned and recorded in the row; the terminals in gone are gone. */
  ghost predicate Renewing(s0: State, s: State, pc: Pc, a: AgentId, row: AgentRow, gone: set<Handle>,
                           rest: seq<Item>) {
    && AllGone(s.world, gone)
    && match pc
       case Resume(Respawn(b, q)) => b == a && q == rest && Stands(s0, s, a, Some(row), 0, 0, 0)
       case Resume(Persist(b, h, n, q)) =>
         b == a && q == rest && Stands(s0, s, a, Some(row), 0, 1, 0) && SpawnedSince(s0, s, a, h, n)
       case Resume(LogRestart(b, q)) => b == a && q == rest && Renewed(s0, s, a, row, 0)
       case Exit(Leave(b, after)) => b == a && after == ToLane(rest) && Renewed(s0, s, a, row, 1)
       case _ => false
  }

  /** A lane counts the attempt, tears down what is left of the old terminal, and respawns. */
  ghost predicate Replacing(s0: State, s: State, pc: Pc, a: AgentId, row: AgentRow, rest: seq<Item>) {
    && row.handle in s.world.spawned
    && if pc.Lane? then
         match pc.lane
         case Mark(item, r, killFirst, q) =>
           && item.a == a && q == rest && r.handle == row.handle && r.restarts == row.restarts
           && Stands(s0, s, a, Some(row), 0, 0, 0) && (!killFirst ==> Gone(s.world, row.handle))
         case KillOld(item, h, q) =>
           item.a == a && h == row.handle && q == rest && Stands(s0, s, a, Some(Attempted(row)), 0, 0, 0)
         case _ => false
       else Renewing(s0, s, pc, a, Attempted(row), {row.handle}, rest)
  }

  function Attempted(row: AgentRow): AgentRow { row.(restarts := row.restarts + 1) }

  /** A respawn by hand re-checks the hierarchy, then clears the count and turns the row Active. */
  ghost predicate Reviving(s0: State, s: State, pc: Pc, a: AgentId, row: AgentRow, above: Above) {
    if pc.Check? then
      && pc.chk.use == ForRespawn(a) && Stands(s0, s, a, Some(row), 0, 0, 0)
      && Climbs(above, s.db, pc.chk, row.sprint)
    else if pc.Exit? && pc.ex.Leave? && pc.ex.after.Finish? then
      !above.Alive? && Leaves(s0, s, pc, a, Some(row), Finish)
    else if pc.Resume? && pc.res.RespawnMark? then
      !above.Dead? && pc.res.a == a && Stands(s0, s, a, Some(row), 0, 0, 0)
    else if pc.Resume? && pc.res.RespawnActivate? then
      !above.Dead? && pc.res.a == a && Stands(s0, s, a, Some(row.(restarts := 0)), 0, 0, 0)
    else
      !above.Dead? && Renewing(s0, s, pc, a, Revived(row), {}, [])
  }

  function Revived(row: AgentRow): AgentRow { row.(restarts := 0, status := Active) }

  /** A respawn's terminal h is recorded in the row, or killed. */
  ghost predicate Recording(s0: State, s: State, pc: Pc, a: AgentId, row: AgentRow, h: Handle, n: Nonce) {
    && h in s.world.spawned
    && match pc
       case Resume(Persist(b, g, m, _)) => b == a && g == h && m == n && Stands(s0, s, a, Some(row), 0, 1, 0)
       case Resume(KillNew(b, g, _)) => b == a && g == h && Stands(s0, s, a, Some(row), 0, 1, 0)
       case Resume(LogRestart(b, _)) => b == a && Stands(s0, s, a, Some(row.(handle := h, nonce := n)), 0, 1, 0)
       case Exit(Leave(b, ToLane(_))) => b == a && Recorded(s0, s, a, row, h, n)
       case _ => false
  }

  ghost predicate Recorded(s0: State, s: State, a: AgentId, row: AgentRow, h: Handle, n: Nonce) {
    || Stands(s0, s, a, Some(row.(handle := h, nonce := n)), 0, 1, 0)
    || Stands(s0, s, a, Some(row.(handle := h, nonce := n)), 0, 1, 1)
    || (Gone(s.world, h) && Stands(s0, s, a, Some(row), 0, 1, 0))
  }

  /** A launch that has spawned its terminal inserts its row and re-checks the hierarchy; it is
      kept, or its terminal is killed and the row it inserted is Exited. */
  ghost predicate Launching(s0: State, s: State, pc: Pc, a: AgentId, x: Course)
    requires x.Launches?
  {
    var row, origin := x.row, x.origin;
    && row.handle in s.world.spawned && row.status == Active
    && if pc.Launch? && !pc.lau.UndoLaunch? then
         && !pc.lau.LaunchChild? && !pc.lau.LockNew? && pc.lau.a == a && pc.lau.origin == origin
         && match pc.lau
            case KillOrphan(_, h, _) => h == row.handle && !x.inserted && Stands(s0, s, a, x.was, 0, 0, 0)
            case LogSpawned(_, _) => !x.above.Dead? && InRow(s0, s, a, x)
            case CompRead(_, _) => !x.above.Alive? && InRow(s0, s, a, x)
            case CompFlip(_, r, _) =>
              && !x.above.Alive? && InRow(s0, s, a, x)
              && r.Some? && r.value.status == Active && r.value.handle == row.handle
            case _ => false
       else if pc.Check? then
         pc.chk.use == PostInsert(a, origin) && InRow(s0, s, a, x) && Climbs(x.above, s.db, pc.chk, row.sprint)
       else if pc == Exit(Leave(a, Finish)) then
         Kept(s0, s, a, x) || Withdrawn(s0, s, a, x)
       else if Undoes(pc, a) then
         Withdrawn(s0, s, a, x)
       else
         x.inserted && !x.above.Alive? && Exiting(s0, s, pc, a, row.(status := Exited), true, ToUndo(origin))
  }

  /** The code after a launch that has been taken back, up to the adopt's return. */
  ghost predicate Undoes(pc: Pc, a: AgentId) {
    || (pc.Launch? && pc.lau.UndoLaunch? && pc.lau.a == a)
    || (pc.Adopt? && (pc.ado.UndoRead? || pc.ado.AdoptFail? || pc.ado.Refused?) && pc.ado.a == a)
    || (UndoOf(pc).Some? && UndoOf(pc).value.a == a)
  }

  ghost predicate InRow(s0: State, s: State, a: AgentId, x: Course)
    requires x.Launches?
  {
    x.inserted && Stands(s0, s, a, Some(x.row), 0, 0, 0) && SamePath(s0.world, s.world, a)
  }

  /** The agent runs on the terminal launched, and that has been announced unless a call failed. */
  ghost predicate Kept(s0: State, s: State, a: AgentId, x: Course)
    requires x.Launches?
  {
    && x.inserted && !x.above.Dead? && SamePath(s0.world, s.world, a)
    && (Stands(s0, s, a, Some(x.row), 0, 0, 1) || (x.above.Any? && Stands(s0, s, a, Some(x.row), 0, 0, 0)))
  }

  /** The terminal is gone, and the row, if one was inserted, is Exited and its event appended. */
  ghost predicate Withdrawn(s0: State, s: State, a: AgentId, x: Course)
    requires x.Launches?
  {
    && Gone(s.world, x.row.handle)
    && if x.inserted then !x.above.Alive? && Stands(s0, s, a, Some(x.row.(status := Exited)), 1, 0, 0)
       else Stands(s0, s, a, x.was, 0, 0, 0)
  }

  /** What a thread is doing to an agent whose row was row when it read it under the lock. */
  datatype Course =
    | Declines(found: Option<AgentRow>, after: After)
    | Exits(row: AgentRow, kill: bool, after: After)
    | Replaces(row: AgentRow, rest: seq<Item>)
    | Revives(row: AgentRow, above: Above)
    | Records(row: AgentRow, h: Handle, n: Nonce)
    | Launches(row: AgentRow, origin: Origin, was: Option<AgentRow>, inserted: bool, above: Above)

  ghost predicate Phase(x: Course, s0: State, s: State, pc: Pc, a: AgentId) {
    match x
    case Declines(found, after) => Leaves(s0, s, pc, a, found, after)
    case Exits(row, kill, after) => Exiting(s0, s, pc, a, row, kill, after)
    case Replaces(row, rest) => Replacing(s0, s, pc, a, row, rest)
    case Revives(row, above) => Reviving(s0, s, pc, a, row, above)
    case Records(row, h, n) => Recording(s0, s, pc, a, row, h, n)
    case Launches(_, _, _, _, _) => Launching(s0, s, pc, a, x)
  }

  /** What has come of it when the thread lets go of the lock. */
  ghost predicate Outcome(x: Course, s0: State, s: State, a: AgentId) {
    match x
    case Declines(found, _) => Stands(s0, s, a, found, 0, 0, 0)
    case Exits(row, kill, _) => HasExited(s0, s, a, row, kill)
    case Replaces(row, _) => Gone(s.world, row.handle) && Renewed(s0, s, a, Attempted(row), 1)
    case Revives(row, above) =>
      || (!above.Dead? && Renewed(s0, s, a, Revived(row), 1))
      || (!above.Alive? && Stands(s0, s, a, Some(row), 0, 0, 0))
    case Records(row, h, n) => Recorded(s0, s, a, row, h, n)
    case Launches(_, _, _, _, _) => Kept(s0, s, a, x) || Withdrawn(s0, s, a, x)
  }

  /** The course depends on what the containers above do. */
  ghost predicate Checks(x: Course) { x.Revives? || x.Launches? }

  ghost predicate Steady(x: Course, s: State, s': State) {
    Checks(x) ==> Keeps(x.above, s.db, s'.db, x.row.sprint)
  }

  /** The calls whose failure is part of the course: all but a kill of the new terminal; and, of a
      launch under whatever containers, all but the kills and the calls of its compensation. */
  ghost predicate Bears(x: Course, pc: Pc, a: AgentId) {
    match x
    case Records(_, _, _) => CallAt(pc) != BackendKill
    case Launches(_, _, _, _, above) => above.Any? && !Compensates(pc, a)
    case _ => false
  }

  ghost predicate Compensates(pc: Pc, a: AgentId) {
    || (pc.Launch? && (pc.lau.KillOrphan? || pc.lau.CompRead? || pc.lau.CompFlip?) && pc.lau.a == a)
    || (pc.Exit? && (pc.ex.ExitFlip? || pc.ex.ExitLog? || pc.ex.KillTerm?) && pc.ex.a == a)
  }

  lemma PhaseHolds(x: Course, s0: State, s: State, pc: Pc, a: AgentId)
    requires Phase(x, s0, s, pc, a)
    ensures a in Holds(pc)
  {
    hide Stands, Renewed, SpawnedSince, Climbs;
  }

  lemma RenewingStill(s0: State, s: State, s': State, pc: Pc, a: AgentId, row: AgentRow, gone: set<Handle>,
                      rest: seq<Item>)
    requires Renewing(s0, s, pc, a, row, gone, rest) && Rely(s, s', Holds(pc))
    ensures Renewing(s0, s', pc, a, row, gone, rest)
  {
    hide Stands, SpawnedSince, GrowsDb, GrowsWorld, GrowsIds, AllGone;
    GoneStill(s.world, s'.world, gone);
    if pc.Resume? && pc.res.Respawn? {
      StandsStill(s0, s, s', Holds(pc), a, Some(row), 0, 0, 0);
    } else if pc.Resume? && pc.res.Persist? {
      StandsStill(s0, s, s', Holds(pc), a, Some(row), 0, 1, 0);
      SpawnedStill(s0, s, s', a, pc.res.h, pc.res.n);
    } else {
      RenewedStill(s0, s, s', Holds(pc), a, row, if pc.Resume? then 0 else 1);
    }
  }

  lemma RenewedStill(s0: State, s: State, s': State, held: set<AgentId>, a: AgentId, row: AgentRow,
                     logs: nat)
    requires Renewed(s0, s, a, row, logs) && Rely(s, s', held) && a in held
    ensures Renewed(s0, s', a, row, logs)
  {
    hide GrowsDb, GrowsWorld, GrowsIds, SpawnedSince, Counted, SamePath, NoNewChild;
    var now := s.db.agents[a];
    StandsStill(s0, s, s', held, a, Some(row.(handle := now.handle, nonce := now.nonce)), 0, 1, logs);
    SpawnedStill(s0, s, s', a, now.handle, now.nonce);
    assert SameRow(s.db, s'.db, a);
  }

  lemma ExitingStill(s0: State, s: State, s': State, pc: Pc, a: AgentId, row: AgentRow, kill: bool, after: After)
    requires Exiting(s0, s, pc, a, row, kill, after) && Rely(s, s', Holds(pc))
    ensures Exiting(s0, s', pc, a, row, kill, after)
  {
    hide Stands, GrowsDb, GrowsIds;
    var exited := Some(row.(status := Exited));
    if pc.ex.ExitFlip? { StandsStill(s0, s, s', Holds(pc), a, Some(row), 0, 0, 0); }
    else if pc.ex.ExitLog? { StandsStill(s0, s, s', Holds(pc), a, exited, 0, 0, 0); }
    else { StandsStill(s0, s, s', Holds(pc), a, exited, 1, 0, 0); }
  }

  lemma ReplacingStill(s0: State, s: State, s': State, pc: Pc, a: AgentId, row: AgentRow, rest: seq<Item>)
    requires Replacing(s0, s, pc, a, row, rest) && Rely(s, s', Holds(pc))
    ensures Replacing(s0, s', pc, a, row, rest)
  {
    hide Stands, Renewing, GrowsDb, GrowsIds;
    match pc
    case Lane(Mark(_, _, _, _)) => StandsStill(s0, s, s', Holds(pc), a, Some(row), 0, 0, 0);
    case Lane(KillOld(_, _, _)) => StandsStill(s0, s, s', Holds(pc), a, Some(Attempted(row)), 0, 0, 0);
    case _ => RenewingStill(s0, s, s', pc, a, Attempted(row), {row.handle}, rest);
  }

  lemma RevivingStill(s0: State, s: State, s': State, pc: Pc, a: AgentId, row: AgentRow, above: Above)
    requires Reviving(s0, s, pc, a, row, above) && Rely(s, s', Holds(pc))
    requires Keeps(above, s.db, s'.db, row.sprint)
    ensures Reviving(s0, s', pc, a, row, above)
  {
    hide Stands, Renewing, GrowsDb, GrowsIds, Climbs, Keeps;
    match pc
    case Check(k) =>
      StandsStill(s0, s, s', Holds(pc), a, Some(row), 0, 0, 0);
      ClimbsStill(above, s.db, s'.db, k, row.sprint);
    case Exit(Leave(_, Finish)) => StandsStill(s0, s, s', Holds(pc), a, Some(row), 0, 0, 0);
    case Resume(RespawnMark(_)) => StandsStill(s0, s, s', Holds(pc), a, Some(row), 0, 0, 0);
    case Resume(RespawnActivate(_)) => StandsStill(s0, s, s', Holds(pc), a, Some(row.(restarts := 0)), 0, 0, 0);
    case _ => RenewingStill(s0, s, s', pc, a, Revived(row), {}, []);
  }

  lemma RecordingStill(s0: State, s: State, s': State, pc: Pc, a: AgentId, row: AgentRow, h: Handle, n: Nonce)
    requires Recording(s0, s, pc, a, row, h, n) && Rely(s, s', Holds(pc))
    ensures Recording(s0, s', pc, a, row, h, n)
  {
    hide Stands, GrowsDb, GrowsIds;
    if Stands(s0, s, a, Some(row), 0, 1, 0) { StandsStill(s0, s, s', Holds(pc), a, Some(row), 0, 1, 0); }
    var new' := Some(row.(handle := h, nonce := n));
    if Stands(s0, s, a, new', 0, 1, 0) { StandsStill(s0, s, s', Holds(pc), a, new', 0, 1, 0); }
    if Stands(s0, s, a, new', 0, 1, 1) { StandsStill(s0, s, s', Holds(pc), a, new', 0, 1, 1); }
  }

  lemma InRowStill(s0: State, s: State, s': State, held: set<AgentId>, a: AgentId, x: Course)
    requires x.Launches? && Rely(s, s', held) && a in held
    ensures InRow(s0, s, a, x) ==> InRow(s0, s', a, x)
    ensures Kept(s0, s, a, x) ==> Kept(s0, s', a, x)
    ensures Withdrawn(s0, s, a, x) ==> Withdrawn(s0, s', a, x)
  {
    hide Stands, GrowsDb, GrowsIds;
    if Stands(s0, s, a, Some(x.row), 0, 0, 0) { StandsStill(s0, s, s', held, a, Some(x.row), 0, 0, 0); }
    if Stands(s0, s, a, Some(x.row), 0, 0, 1) { StandsStill(s0, s, s', held, a, Some(x.row), 0, 0, 1); }
    if Withdrawn(s0, s, a, x) {
      if x.inserted { StandsStill(s0, s, s', held, a, Some(x.row.(status := Exited)), 1, 0, 0); }
      else { StandsStill(s0, s, s', held, a, x.was, 0, 0, 0); }
    }
  }

  lemma LaunchingStill(s0: State, s: State, s': State, pc: Pc, a: AgentId, x: Course)
    requires x.Launches? && Launching(s0, s, pc, a, x) && Rely(s, s', Holds(pc))
    requires Keeps(x.above, s.db, s'.db, x.row.sprint) && a in Holds(pc)
    ensures Launching(s0, s', pc, a, x)
  {
    hide Stands, Exiting, GrowsDb, GrowsIds, Climbs, Keeps, InRow, Withdrawn, Undoes, Holds;
    InRowStill(s0, s, s', Holds(pc), a, x);
    var exited := x.row.(status := Exited);
    if pc.Launch? && pc.lau.KillOrphan? {
      StandsStill(s0, s, s', Holds(pc), a, x.was, 0, 0, 0);
    } else if pc.Check? {
      ClimbsStill(x.above, s.db, s'.db, pc.chk, x.row.sprint);
    } else if Exiting(s0, s, pc, a, exited, true, ToUndo(x.origin)) {
      ExitingStill(s0, s, s', pc, a, exited, true, ToUndo(x.origin));
    }
  }

  lemma PhaseStill(x: Course, s0: State, s: State, s': State, pc: Pc, a: AgentId)
    requires Phase(x, s0, s, pc, a) && Rely(s, s', Holds(pc)) && Steady(x, s, s')
    ensures Phase(x, s0, s', pc, a)
  {
    PhaseHolds(x, s0, s, pc, a);
    hide Exiting, Replacing, Reviving, Recording, Launching, Rely, Stands;
    match x
    case Declines(found, after) => StandsStill(s0, s, s', Holds(pc), a, found, 0, 0, 0);
    case Exits(row, kill, after) => ExitingStill(s0, s, s', pc, a, row, kill, after);
    case Replaces(row, rest) => ReplacingStill(s0, s, s', pc, a, row, rest);
    case Revives(row, above) => RevivingStill(s0, s, s', pc, a, row, above);
    case Records(row, h, n) => RecordingStill(s0, s, s', pc, a, row, h, n);
    case Launches(_, _, _, _, _) => LaunchingStill(s0, s, s', pc, a, x);
  }

  // ---------------------------------------------------------------- one step of the thread itself

  lemma ExitingStep(s0: State, s: State, t: Tid, k: ExitPc, c: Choice, eff: Effect, a: AgentId, row: AgentRow,
                    kill: bool, after: After)
    requires Exiting(s0, s, Exit(k), a, row, kill, after) && !k.Leave? && row.handle in s.world.spawned
    requires StepExit(s, k, c) == Some(eff) && !c.Fail?
    ensures eff.next.Some? && Exiting(s0, Perform(s, t, eff), eff.next.value, a, row, kill, after)
  {}

  lemma RenewingStep(s0: State, s: State, t: Tid, k: ResumePc, c: Choice, eff: Effect, a: AgentId, row: AgentRow,
                     gone: set<Handle>, rest: seq<Item>)
    requires Renewing(s0, s, Resume(k), a, row, gone, rest) && StepResume(s, k, c) == Some(eff) && !c.Fail?
    requires s0.world.spawned.Keys <= s.world.spawned.Keys
    ensures eff.next.Some? && Renewing(s0, Perform(s, t, eff), eff.next.value, a, row, gone, rest)
  {
    GrowsCall(s.world, eff.out);
    GoneStill(s.world, CallOutside(s.world, eff.out), gone);
  }

  lemma ReplacingStep(s0: State, s: State, t: Tid, k: LanePc, c: Choice, eff: Effect, a: AgentId, row: AgentRow,
                      rest: seq<Item>)
    requires Replacing(s0, s, Lane(k), a, row, rest) && StepLane(s, k, c) == Some(eff) && !c.Fail?
    ensures eff.next.Some? && Replacing(s0, Perform(s, t, eff), eff.next.value, a, row, rest)
  {
    hide Missing, RowItems;
  }

  lemma RevivingCheck(s0: State, s: State, t: Tid, k: CheckPc, c: Choice, eff: Effect, a: AgentId, row: AgentRow,
                      above: Above)
    requires Reviving(s0, s, Check(k), a, row, above) && StepCheck(s, k, c) == Some(eff) && !c.Fail?
    requires Rooted(s.db) && row.sprint in s.db.sprints
    requires above.Alive? ==> !DeadHierarchy(s.db, row.sprint)
    ensures eff.next.Some? && Reviving(s0, Perform(s, t, eff), eff.next.value, a, row, above)
  {
    hide StepCheck, Climbs, DeadHierarchy, Renewing;
    ClimbStep(above, s, k, c, eff, row.sprint);
  }

  lemma RevivingStep(s0: State, s: State, t: Tid, k: ResumePc, c: Choice, eff: Effect, a: AgentId, row: AgentRow,
                     above: Above)
    requires Reviving(s0, s, Resume(k), a, row, above) && (k.RespawnMark? || k.RespawnActivate?)
    requires StepResume(s, k, c) == Some(eff) && !c.Fail?
    ensures eff.next.Some? && Reviving(s0, Perform(s, t, eff), eff.next.value, a, row, above)
  {}

  lemma RecordingStep(s0: State, s: State, t: Tid, k: ResumePc, c: Choice, eff: Effect, a: AgentId, row: AgentRow,
                      h: Handle, n: Nonce)
    requires Recording(s0, s, Resume(k), a, row, h, n) && StepResume(s, k, c) == Some(eff)
    requires c.Fail? ==> !k.KillNew?
    ensures eff.next.Some? && Recording(s0, Perform(s, t, eff), eff.next.value, a, row, h, n)
  {}

  lemma LaunchingKill(s0: State, s: State, t: Tid, k: LaunchPc, c: Choice, eff: Effect, a: AgentId, x: Course)
    requires x.Launches? && k.KillOrphan? && Launching(s0, s, Launch(k), a, x) && !c.Fail?
    requires StepLaunch(s, k, c) == Some(eff)
    ensures eff.next.Some? && Launching(s0, Perform(s, t, eff), eff.next.value, a, x)
  {
    hide Climbs, Exiting, InRow, Kept;
  }

  lemma LaunchingLog(s0: State, s: State, t: Tid, k: LaunchPc, c: Choice, eff: Effect, a: AgentId, x: Course)
    requires x.Launches? && (k.LogSpawned? || k.CompRead?) && Launching(s0, s, Launch(k), a, x)
    requires StepLaunch(s, k, c) == Some(eff) && (c.Fail? ==> k.LogSpawned? && x.above.Any?)
    ensures eff.next.Some? && Launching(s0, Perform(s, t, eff), eff.next.value, a, x)
  {
    hide Climbs, Exiting, Undoes, Withdrawn;
  }

  lemma LaunchingFlip(s0: State, s: State, t: Tid, k: LaunchPc, c: Choice, eff: Effect, a: AgentId, x: Course)
    requires x.Launches? && k.CompFlip? && Launching(s0, s, Launch(k), a, x) && !c.Fail?
    requires StepLaunch(s, k, c) == Some(eff)
    ensures eff.next.Some? && Launching(s0, Perform(s, t, eff), eff.next.value, a, x)
  {
    hide Climbs, Withdrawn;
  }

  lemma LaunchingStep(s0: State, s: State, t: Tid, k: LaunchPc, c: Choice, eff: Effect, a: AgentId, x: Course)
    requires x.Launches? && Launching(s0, s, Launch(k), a, x) && StepLaunch(s, k, c) == Some(eff)
    requires !Undoes(Launch(k), a) && (c.Fail? ==> CallAt(Launch(k)) == NoCall || Bears(x, Launch(k), a))
    ensures eff.next.Some? && Launching(s0, Perform(s, t, eff), eff.next.value, a, x)
  {
    hide Climbs, Perform, Stands, Withdrawn, StepLaunch;
    if k.KillOrphan? { LaunchingKill(s0, s, t, k, c, eff, a, x); }
    else if k.CompFlip? { LaunchingFlip(s0, s, t, k, c, eff, a, x); }
    else { LaunchingLog(s0, s, t, k, c, eff, a, x); }
  }

  lemma LaunchingRefused(s0: State, s: State, t: Tid, k: CheckPc, whole: bool, a: AgentId, x: Course)
    requires x.Launches? && Launching(s0, s, Check(k), a, x) && !x.above.Alive? && (!whole ==> x.above.Any?)
    ensures var eff := CheckError(k.use, whole);
      eff.next.Some? && Launching(s0, Perform(s, t, eff), eff.next.value, a, x)
  {
    hide Climbs, DeadHierarchy, Undoes, Exiting, Withdrawn;
  }

  lemma LaunchingCheckFails(s: State, k: CheckPc, c: Choice, eff: Effect)
    requires c.Fail? && StepCheck(s, k, c) == Some(eff)
    ensures eff == CheckError(k.use, !k.CheckSprint?)
  {}

  lemma LaunchingCheck(s0: State, s: State, t: Tid, k: CheckPc, c: Choice, eff: Effect, a: AgentId, x: Course)
    requires x.Launches? && Launching(s0, s, Check(k), a, x) && StepCheck(s, k, c) == Some(eff)
    requires Rooted(s.db) && x.row.sprint in s.db.sprints && (c.Fail? ==> x.above.Any?)
    requires x.above.Alive? ==> !DeadHierarchy(s.db, x.row.sprint)
    ensures eff.next.Some? && Launching(s0, Perform(s, t, eff), eff.next.value, a, x)
  {
    hide StepCheck, CheckError, Climbs, DeadHierarchy, Undoes, Exiting, Withdrawn;
    if c.Fail? {
      LaunchingCheckFails(s, k, c, eff);
      LaunchingRefused(s0, s, t, k, !k.CheckSprint?, a, x);
    } else {
      ClimbStep(x.above, s, k, c, eff, x.row.sprint);
      if eff == CheckError(k.use, true) && !x.above.Alive? { LaunchingRefused(s0, s, t, k, true, a, x); }
    }
  }

  lemma LaunchingExit(s0: State, s: State, t: Tid, k: ExitPc, c: Choice, eff: Effect, a: AgentId, x: Course)
    requires x.Launches? && Launching(s0, s, Exit(k), a, x) && StepExit(s, k, c) == Some(eff)
    requires !Undoes(Exit(k), a) && !(k.Leave? && k.after.Finish?)
    requires c.Fail? ==> CallAt(Exit(k)) == NoCall || Bears(x, Exit(k), a)
    ensures eff.next.Some? && Launching(s0, Perform(s, t, eff), eff.next.value, a, x)
  {
    hide Climbs;
    var exited := x.row.(status := Exited);
    if !k.Leave? {
      ExitingStep(s0, s, t, k, c, eff, a, exited, true, ToUndo(x.origin));
      var pc := eff.next.value;
      assert pc.Exit? && !Undoes(pc, a);
    }
  }

  /** The code after a launch that was taken back leaves the agent alone. */
  ghost predicate Passes(eff: Effect, a: AgentId) {
    && a !in Writes(eff.stmt) && (!eff.note.NoNote? ==> eff.note.a != a)
    && (eff.lock == Drop(a)
        || (eff.next.Some? && (Undoes(eff.next.value, a) || eff.next.value == Exit(Leave(a, Finish)))))
  }

  lemma UndoneCascade(s: State, k: CascadePc, c: Choice, eff: Effect, a: AgentId)
    requires WellFormed(Cascade(k)) && Undoes(Cascade(k), a) && StepCascade(s, k, c) == Some(eff)
    ensures Passes(eff, a)
  {
    hide StepNext;
    if k.Next? { NextLoops(s, k.work, c); }
  }

  lemma UndoneStep(s: State, pc: Pc, c: Choice, eff: Effect, a: AgentId)
    requires WellFormed(pc) && Undoes(pc, a) && Plan(s, pc, c) == Some(eff)
    ensures Passes(eff, a)
  {
    hide StepCascade;
    match pc
    case Launch(k) => UndoneLaunch(s, k, c, eff, a);
    case Adopt(k) => UndoneAdopt(s, k, c, eff, a);
    case Exit(k) => UndoneExit(s, k, c, eff, a);
    case Cascade(k) => UndoneCascade(s, k, c, eff, a);
  }

  lemma UndoneLaunch(s: State, k: LaunchPc, c: Choice, eff: Effect, a: AgentId)
    requires Undoes(Launch(k), a) && StepLaunch(s, k, c) == Some(eff)
    ensures Passes(eff, a)
  {}

  lemma UndoneAdopt(s: State, k: AdoptPc, c: Choice, eff: Effect, a: AgentId)
    requires Undoes(Adopt(k), a) && StepAdopt(s, k, c) == Some(eff)
    ensures Passes(eff, a)
  {}

  lemma UndoneExit(s: State, k: ExitPc, c: Choice, eff: Effect, a: AgentId)
    requires WellFormed(Exit(k)) && Undoes(Exit(k), a) && StepExit(s, k, c) == Some(eff)
    ensures Passes(eff, a)
  {}

  lemma WithdrawnStays(s0: State, s: State, t: Tid, eff: Effect, a: AgentId, x: Course)
    requires x.Launches? && Withdrawn(s0, s, a, x) && Passes(eff, a)
    requires eff.out.SpawnChild? ==> eff.out.h !in s.world.spawned
    ensures Withdrawn(s0, Perform(s, t, eff), a, x)
  {
    SameRowRun(s.db, eff.stmt, a);
    SameTallyNote(s.tally, eff.stmt, eff.note, a);
    GrowsCall(s.world, eff.out);
  }

  /** What the phases need of the states they are in. */
  ghost predicate Sees(x: Course, s0: State, s: State) {
    && s0.world.spawned.Keys <= s.world.spawned.Keys && Rooted(s.db)
    && (x.Exits? ==> x.row.handle in s.world.spawned)
    && (Checks(x) ==> x.row.sprint in s.db.sprints)
    && (Checks(x) && x.above.Alive? ==> !DeadHierarchy(s.db, x.row.sprint))
  }

  /** The next phase, or the end of the section. */
  ghost predicate GoesOn(x: Course, s0: State, s: State, t: Tid, eff: Effect, a: AgentId) {
    || (eff.next.Some? && Phase(x, s0, Perform(s, t, eff), eff.next.value, a))
    || (eff.lock == Drop(a) && Outcome(x, s0, Perform(s, t, eff), a))
  }

  lemma UndoneGoesOn(x: Course, s0: State, s: State, t: Tid, pc: Pc, c: Choice, eff: Effect, a: AgentId)
    requires x.Launches? && Launching(s0, s, pc, a, x) && Undoes(pc, a) && WellFormed(pc) && Plan(s, pc, c) == Some(eff)
    requires eff.out.SpawnChild? ==> eff.out.h !in s.world.spawned
    ensures GoesOn(x, s0, s, t, eff, a)
  {
    hide Perform, Plan, Withdrawn, Exiting, Passes, Undoes, Climbs;
    UndoneIs(s0, s, pc, a, x);
    UndoneStep(s, pc, c, eff, a);
    WithdrawnStays(s0, s, t, eff, a, x);
    UndonePhase(x, s0, Perform(s, t, eff), eff, a);
  }

  lemma UndoneIs(s0: State, s: State, pc: Pc, a: AgentId, x: Course)
    requires x.Launches? && Launching(s0, s, pc, a, x) && Undoes(pc, a)
    ensures Withdrawn(s0, s, a, x) && x.row.handle in s.world.spawned && x.row.status == Active
  {}

  lemma UndonePhase(x: Course, s0: State, s': State, eff: Effect, a: AgentId)
    requires x.Launches? && Withdrawn(s0, s', a, x) && Passes(eff, a) && x.row.status == Active
    ensures (eff.next.Some? && Launching(s0, s', eff.next.value, a, x)) || eff.lock == Drop(a)
  {
    hide Exiting, Climbs, Stands;
  }

  lemma LeaveStep(x: Course, s0: State, s: State, t: Tid, k: ExitPc, c: Choice, eff: Effect, a: AgentId)
    requires Phase(x, s0, s, Exit(k), a) && k.Leave? && k.a == a && !k.after.ToUndo? && Returns(x)
    requires StepExit(s, k, c) == Some(eff)
    ensures GoesOn(x, s0, s, t, eff, a)
  {
    hide Phase, Outcome;
    PhaseLeaves(x, s0, s, Exit(k), a);
    SameOutcome(x, s0, s, Perform(s, t, eff), a);
  }

  lemma LaunchGoesOn(x: Course, s0: State, s: State, t: Tid, pc: Pc, c: Choice, eff: Effect, a: AgentId)
    requires x.Launches? && Launching(s0, s, pc, a, x) && Sees(x, s0, s) && WellFormed(pc)
    requires !(pc.Exit? && pc.ex.Leave? && pc.ex.a == a && !pc.ex.after.ToUndo?)
    requires Plan(s, pc, c) == Some(eff) && (c.Fail? ==> CallAt(pc) == NoCall || Bears(x, pc, a))
    requires eff.out.SpawnChild? ==> eff.out.h !in s.world.spawned
    ensures GoesOn(x, s0, s, t, eff, a)
  {
    hide Perform, Launching, StepLane, StepResume, StepExit, StepCheck, StepLaunch, StepAdopt, StepCascade, Undoes,
      DeadHierarchy;
    if Undoes(pc, a) {
      hide Plan;
      UndoneGoesOn(x, s0, s, t, pc, c, eff, a);
    } else if pc.Launch? {
      LaunchingStep(s0, s, t, pc.lau, c, eff, a, x);
    } else if pc.Check? {
      LaunchingCheck(s0, s, t, pc.chk, c, eff, a, x);
    } else {
      LaunchesExit(s0, s, pc, a, x);
      LaunchingExit(s0, s, t, pc.ex, c, eff, a, x);
    }
  }

  lemma LaunchesExit(s0: State, s: State, pc: Pc, a: AgentId, x: Course)
    requires x.Launches? && Launching(s0, s, pc, a, x) && !Undoes(pc, a) && !pc.Launch? && !pc.Check?
    ensures pc.Exit? && pc.ex.a == a
  {}

  lemma PhaseStep(x: Course, s0: State, s: State, t: Tid, pc: Pc, c: Choice, eff: Effect, a: AgentId)
    requires Phase(x, s0, s, pc, a) && Sees(x, s0, s) && Returns(x) && WellFormed(pc) && Plan(s, pc, c) == Some(eff)
    requires c.Fail? ==> CallAt(pc) == NoCall || Bears(x, pc, a)
    requires eff.out.SpawnChild? ==> eff.out.h !in s.world.spawned
    ensures GoesOn(x, s0, s, t, eff, a)
  {
    hide Exiting, Renewing, Reviving, Replacing, Recording, Launching, Outcome, Perform, StepLane, StepResume, StepExit,
      StepCheck, StepLaunch, StepAdopt, StepCascade, Sees, WellFormed, Bears, GoesOn;
    if pc.Exit? && pc.ex.Leave? && pc.ex.a == a && !pc.ex.after.ToUndo? {
      LeaveStep(x, s0, s, t, pc.ex, c, eff, a);
    } else if x.Launches? {
      LaunchGoesOn(x, s0, s, t, pc, c, eff, a);
    } else {
      PhaseInside(x, s0, s, t, pc, c, eff, a);
    }
  }

  lemma PhaseInside(x: Course, s0: State, s: State, t: Tid, pc: Pc, c: Choice, eff: Effect, a: AgentId)
    requires Phase(x, s0, s, pc, a) && Sees(x, s0, s) && !x.Launches? && Returns(x) && Plan(s, pc, c) == Some(eff)
    requires !(pc.Exit? && pc.ex.Leave? && pc.ex.a == a && !pc.ex.after.ToUndo?)
    requires c.Fail? ==> CallAt(pc) == NoCall || Bears(x, pc, a)
    ensures GoesOn(x, s0, s, t, eff, a)
  {
    hide Exiting, Renewing, Recording, Launching, Outcome, Perform, StepLane, StepResume, StepExit, StepCheck,
      StepLaunch, StepAdopt, StepCascade;
    PhaseCalls(x, s0, s, pc, a);
    match x {
      case Exits(row, kill, after) =>
        ExitsIn(s0, s, pc, a, row, kill, after);
        ExitingStep(s0, s, t, pc.ex, c, eff, a, row, kill, after);
      case Replaces(row, rest) =>
        if pc.Lane? {
          ReplacingStep(s0, s, t, pc.lane, c, eff, a, row, rest);
        } else {
          RenewsIn(s0, s, pc, a, Attempted(row), {row.handle}, rest);
          RenewingStep(s0, s, t, pc.res, c, eff, a, Attempted(row), {row.handle}, rest);
          ReplacingOn(s0, Perform(s, t, eff), eff.next.value, a, row, rest);
        }
      case Revives(row, above) =>
        if pc.Check? {
          RevivingCheck(s0, s, t, pc.chk, c, eff, a, row, above);
        } else if pc.Resume? && (pc.res.RespawnMark? || pc.res.RespawnActivate?) {
          RevivingStep(s0, s, t, pc.res, c, eff, a, row, above);
        } else {
          RenewsIn(s0, s, pc, a, Revived(row), {}, []);
          RenewingStep(s0, s, t, pc.res, c, eff, a, Revived(row), {}, []);
          RevivingOn(s0, Perform(s, t, eff), eff.next.value, a, row, above);
        }
      case Records(row, h, n) =>
        RecordsIn(s0, s, pc, a, row, h, n);
        RecordingStep(s0, s, t, pc.res, c, eff, a, row, h, n);
    }
  }

  lemma RecordsIn(s0: State, s: State, pc: Pc, a: AgentId, row: AgentRow, h: Handle, n: Nonce)
    requires Recording(s0, s, pc, a, row, h, n)
    ensures pc.Resume? || (pc.Exit? && pc.ex.Leave? && pc.ex.a == a && pc.ex.after.ToLane?)
  {}

  lemma ExitsIn(s0: State, s: State, pc: Pc, a: AgentId, row: AgentRow, kill: bool, after: After)
    requires Exiting(s0, s, pc, a, row, kill, after)
    ensures pc.Exit? && (pc.ex.Leave? ==> pc.ex.a == a && pc.ex.after == after)
  {}

  lemma RenewsIn(s0: State, s: State, pc: Pc, a: AgentId, row: AgentRow, gone: set<Handle>, rest: seq<Item>)
    requires Renewing(s0, s, pc, a, row, gone, rest)
    ensures pc.Resume? || (pc.Exit? && pc.ex.Leave? && pc.ex.a == a && pc.ex.after.ToLane?)
  {}

  lemma ReplacingOn(s0: State, s: State, pc: Pc, a: AgentId, row: AgentRow, rest: seq<Item>)
    requires Renewing(s0, s, pc, a, Attempted(row), {row.handle}, rest)
    ensures Replacing(s0, s, pc, a, row, rest)
  {}

  lemma RevivingOn(s0: State, s: State, pc: Pc, a: AgentId, row: AgentRow, above: Above)
    requires Renewing(s0, s, pc, a, Revived(row), {}, []) && !above.Dead?
    ensures Reviving(s0, s, pc, a, row, above)
  {}

  // ---------------------------------------------------------------- a whole section

  lemma GrowsTwice(s: State, s': State, s'': State)
    requires GrowsDb(s.db, s'.db) && GrowsDb(s'.db, s''.db)
    requires GrowsWorld(s.world, s'.world) && GrowsWorld(s'.world, s''.world)
    ensures GrowsDb(s.db, s''.db) && GrowsWorld(s.world, s''.world)
  {}

  /** Nothing is forgotten along a run: rows, parents, handles, and what is gone. */
  lemma {:induction false} GrowsAlong(states: seq<State>, events: seq<Event>, i: nat, j: nat)
    requires IsRun(states, events) && i <= j < |states|
    ensures GrowsDb(states[i].db, states[j].db) && GrowsWorld(states[i].world, states[j].world)
    decreases j - i
  {
    hide Init, Apply, GrowsDb, GrowsWorld;
    if i == j {
      GrowsNot(states[i]);
    } else {
      GrowsAlong(states, events, i, j - 1);
      BaseAlong(states, events, j - 1);
      assert Follows(states, events, j - 1);
      GrowsNext(states[j - 1], events[j - 1], states[j]);
      GrowsTwice(states[i], states[j - 1], states[j]);
    }
  }

  lemma GrowsNot(s: State)
    ensures GrowsDb(s.db, s.db) && GrowsWorld(s.world, s.world)
  {}

  lemma GrowsNext(s: State, e: Event, s': State)
    requires Base(s) && Apply(s, e) == Some(s')
    ensures GrowsDb(s.db, s'.db) && GrowsWorld(s.world, s'.world) && (!Reactivates(e) ==> KilledStays(s.db, s'.db))
  {
    hide Apply, Plan, Scoped, GrowsDb, GrowsWorld, GrowsIds, KilledStays, Rely, Grantable, Possible, WorkstreamsStay;
    if e.Step? {
      var eff := Unpack(s, e.t, e.c, s');
    } else {
      GrowsOutside(s, e, s');
    }
  }

  /** Where a section's course may be left to others for a moment: every other step makes a call. */
  lemma PhaseCalls(x: Course, s0: State, s: State, pc: Pc, a: AgentId)
    requires Phase(x, s0, s, pc, a) && !x.Launches?
    ensures (pc.Exit? && pc.ex.Leave? && pc.ex.a == a) || CallAt(pc) != NoCall
  {
    hide Stands, Renewed, SpawnedSince, Climbs, AllGone;
  }

  ghost predicate Returns(x: Course) {
    && (x.Exits? ==> !x.after.ToUndo?)
    && (x.Declines? ==> !x.after.ToUndo?)
  }

  lemma PhaseLeaves(x: Course, s0: State, s: State, pc: Pc, a: AgentId)
    requires Phase(x, s0, s, pc, a) && Returns(x) && pc.Exit? && pc.ex.Leave? && pc.ex.a == a && !pc.ex.after.ToUndo?
    ensures Outcome(x, s0, s, a)
  {
    hide Stands, Renewed, SpawnedSince, Climbs;
  }

  lemma SameOutcome(x: Course, s0: State, s: State, s': State, a: AgentId)
    requires Outcome(x, s0, s, a) && s'.db == s.db && s'.world == s.world && s'.tally == s.tally
    ensures Outcome(x, s0, s', a)
  {}

  ghost predicate Starts(x: Course, states: seq<State>, i: nat, t: Tid, a: AgentId)
    requires i + 1 < |states|
  {
    && t in states[i + 1].threads && Phase(x, states[i], states[i + 1], states[i + 1].threads[t], a)
    && Returns(x) && (x.Exits? ==> x.row.handle in states[i].world.spawned)
    && (Checks(x) ==> x.row.sprint in states[i].db.sprints)
  }

  /** What the containers above the course's agent do meanwhile. */
  ghost predicate ContainersDo(x: Course, states: seq<State>, events: seq<Event>, i: nat, j: nat)
    requires i <= j < |states| && |states| == |events| + 1
  {
    Checks(x) ==> AboveStays(x.above, states, events, i, j, x.row.sprint)
  }

  lemma SeesAlong(x: Course, states: seq<State>, events: seq<Event>, i: nat, j: nat, t: Tid, a: AgentId)
    requires IsRun(states, events) && i < j < |states| && Starts(x, states, i, t, a)
    requires ContainersDo(x, states, events, i, j)
    ensures Sees(x, states[i], states[j])
  {
    hide Init, Apply, Phase, DeadHierarchy, Base;
    Homes.Along(states, events, j);
    GrowsAlong(states, events, i, j);
  }

  lemma SteadyNext(x: Course, states: seq<State>, events: seq<Event>, i: nat, j: nat)
    requires IsRun(states, events) && i <= j < |events| && ContainersDo(x, states, events, i, j + 1)
    ensures Steady(x, states[j], states[j + 1])
  {
    hide Init, Apply, DeadHierarchy, Base, KilledStays, GrowsDb, GrowsWorld, Reactivates;
    BaseAlong(states, events, j);
    assert Follows(states, events, j);
    GrowsNext(states[j], events[j], states[j + 1]);
  }

  /** The thread's failing calls, but for those that are part of the course. */
  ghost predicate Spoils(x: Course, states: seq<State>, events: seq<Event>, j: nat, t: Tid, a: AgentId)
    requires j < |events| && |states| == |events| + 1
  {
    FailsAt(states, events, j, t) && !Bears(x, states[j].threads[t], a)
  }

  lemma PhaseOwn(x: Course, s0: State, s: State, t: Tid, c: Choice, s': State, a: AgentId)
    requires Base(s) && t in s.threads && Phase(x, s0, s, s.threads[t], a) && Sees(x, s0, s) && Returns(x)
    requires Apply(s, Step(t, c)) == Some(s')
    requires c.Fail? ==> CallAt(s.threads[t]) == NoCall || Bears(x, s.threads[t], a)
    ensures (t in s'.threads && Phase(x, s0, s', s'.threads[t], a)) || (!Holding(s', t, a) && Outcome(x, s0, s', a))
  {
    hide Plan, Phase, Sees, Scoped, Outcome, GrowsDb, KilledStays, GrowsWorld, GrowsIds, Rely, Bears, CallAt;
    var eff := Unpack(s, t, c, s');
    assert eff.out.SpawnChild? ==> eff.out.h !in s.world.spawned by { SpawnsFresh(s, s.threads[t], eff); }
    PhaseStep(x, s0, s, t, s.threads[t], c, eff, a);
  }

  lemma SpawnsFresh(s: State, pc: Pc, eff: Effect)
    requires Scoped(s, pc, eff)
    ensures eff.out.SpawnChild? ==> eff.out.h !in s.world.spawned
  {}

  lemma PhaseNext(x: Course, states: seq<State>, events: seq<Event>, i: nat, j: nat, t: Tid, a: AgentId)
    requires IsRun(states, events) && i < j < |events| && Starts(x, states, i, t, a)
    requires t in states[j].threads && Phase(x, states[i], states[j], states[j].threads[t], a)
    requires !Spoils(x, states, events, j, t, a) && ContainersDo(x, states, events, i, j + 1)
    ensures if Holding(states[j + 1], t, a) then
              t in states[j + 1].threads && Phase(x, states[i], states[j + 1], states[j + 1].threads[t], a)
            else Outcome(x, states[i], states[j + 1], a)
  {
    hide Init, Apply, Phase, Outcome, CallAt, Sees, Steady, Base, Holds, Bears, Holding;
    assert Follows(states, events, j);
    var s, s', pc := states[j], states[j + 1], states[j].threads[t];
    BaseAlong(states, events, j);
    BaseAlong(states, events, j + 1);
    if Own(events[j], t) {
      SeesAlong(x, states, events, i, j, t, a);
      PhaseOwn(x, states[i], s, t, events[j].c, s', a);
    } else {
      PhaseHolds(x, states[i], s, pc, a);
      Others(s, events[j], s', t);
      SteadyNext(x, states, events, i, j);
      PhaseStill(x, states[i], s, s', pc, a);
    }
    if t in s'.threads && Phase(x, states[i], s', s'.threads[t], a) {
      PhaseHolds(x, states[i], s', s'.threads[t], a);
      HolderHolds(s', t, a);
    }
  }

  lemma StartsIn(x: Course, states: seq<State>, i: nat, t: Tid, a: AgentId)
    requires i + 1 < |states| && Starts(x, states, i, t, a)
    ensures t in states[i + 1].threads && Phase(x, states[i], states[i + 1], states[i + 1].threads[t], a)
  {
    hide Phase;
  }

  lemma {:induction false} PhaseAlong(x: Course, states: seq<State>, events: seq<Event>, i: nat, j: nat, t: Tid,
                                      a: AgentId)
    requires IsRun(states, events) && i < j < |states| && Starts(x, states, i, t, a)
    requires forall m :: i < m <= j ==> Holding(states[m], t, a)
    requires forall m :: i < m < j ==> !Spoils(x, states, events, m, t, a)
    requires ContainersDo(x, states, events, i, j)
    ensures t in states[j].threads && Phase(x, states[i], states[j], states[j].threads[t], a)
  {
    hide Init, Follows, Phase, Outcome, Holding, Spoils, Starts;
    if j == i + 1 {
      StartsIn(x, states, i, t, a);
    } else {
      PhaseAlong(x, states, events, i, j - 1, t, a);
      PhaseNext(x, states, events, i, j - 1, t, a);
    }
  }

  /** A section in which no call fails, but for those its course bears, ends as its course says. */
  lemma SectionEnds(x: Course, states: seq<State>, events: seq<Event>, i: nat, k: nat, t: Tid, a: AgentId)
    requires Section(states, events, i, k, t, a) && Starts(x, states, i, t, a)
    requires forall m :: i < m <= k ==> !Spoils(x, states, events, m, t, a)
    requires ContainersDo(x, states, events, i, k + 1)
    ensures Outcome(x, states[i], states[k + 1], a)
  {
    hide Init, Follows, Phase, Outcome, Spoils, Starts, Holding;
    PhaseAlong(x, states, events, i, k, t, a);
    PhaseNext(x, states, events, i, k, t, a);
  }

  lemma NothingSpoils(x: Course, states: seq<State>, events: seq<Event>, i: nat, k: nat, t: Tid, a: AgentId)
    requires k < |events| && |states| == |events| + 1 && NoneFails(states, events, i, k + 1, t)
    ensures forall m :: i < m <= k ==> !Spoils(x, states, events, m, t, a)
  {
    hide FailsAt, Bears;
  }
}
