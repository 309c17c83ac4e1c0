/** The agent lifecycle protocol as a transition system.

    Every handler invocation and every supervisor lane is a thread; its program counter
    carries the locals it still needs. One step of a thread is one store statement, one
    backend call, one file operation, or one lock acquire/release. The scheduler picks the
    event, and with it the outcome of every call (success, failure, the fresh ids). */
module Protocol {
  import opened Tables

  type Tid = nat

  // ---------------------------------------------------------------- program counters

  /** One agent a supervisor lane has to decide on, with the observation that put it there. */
  datatype Item =
    | Vanished(a: AgentId, h: Handle)  // the row's terminal was missing from an enumeration
    | Stale(a: AgentId)                // the transcript went unwritten
    | Reported(a: AgentId, n: Nonce)   // a pty-host reported that its child exited

  /** How an agent row came to be inserted; moved is the workstream a --relocate adopt minted. */
  datatype Origin = Spawned | Adopted(moved: Option<WorkstreamId>)

  /** A cascade run by a failing adopt: it holds lock a, and the placement mutex if placing. */
  datatype Undoing = Undoing(a: AgentId, w: WorkstreamId, placing: bool)

  /** What a kill cascade still has to visit, and what it has collected for the teardown; the
      clears are the active-* selections it has yet to clear once it is through a container. */
  datatype Work = Work(
    wss: seq<WorkstreamId>,
    sps: seq<SprintId>,
    ags: seq<AgentId>,
    clearRepo: bool,
    clearWorkstream: bool,
    clearSprint: bool,
    flipped: seq<AgentId>,
    torn: seq<WorkstreamId>,
    perAgent: bool,
    undo: Option<Undoing>)
  {
    function Skips(a: AgentId): bool { undo.Some? && undo.value.a == a }

    /** A store error returns (nil, false, err): nothing more is visited or torn down. */
    function Dropped(): Work {
      Work([], [], [], false, false, false, [], [], perAgent, undo)
    }
  }

  /** Where a thread continues once it leaves an agent's critical section. */
  datatype After =
    | Finish
    | ToLane(rest: seq<Item>)
    | ToCascade(work: Work)
    | ToTear(left: seq<AgentId>)
    | ToUndo(origin: Origin)
  {
    /** The continuation when the critical section ends in an error. */
    function Failed(): After {
      match this
      case ToLane(_) => ToLane([])
      case ToCascade(w) => ToCascade(w.Dropped())
      case _ => this
    }
  }

  datatype LanePc =
    | TickList(w: WorkstreamId, stale: bool)
    | TickEnum(rows: seq<Item>)
    | LaneNext(queue: seq<Item>)
    | LaneRead(item: Item, rest: seq<Item>)
    | LaneProbe(item: Item, row: AgentRow, rest: seq<Item>)
    | AbandonLog(item: Item, h: Handle, rest: seq<Item>)
    | Mark(item: Item, row: AgentRow, killFirst: bool, rest: seq<Item>)
    | KillOld(item: Item, h: Handle, rest: seq<Item>)

  datatype ResumePc =
    | RespawnLock(a: AgentId)
    | RespawnRead(a: AgentId)
    | RespawnMark(a: AgentId)
    | RespawnActivate(a: AgentId)
    | Respawn(a: AgentId, rest: seq<Item>)
    | Persist(a: AgentId, h: Handle, n: Nonce, rest: seq<Item>)
    | KillNew(a: AgentId, h: Handle, rest: seq<Item>)
    | LogRestart(a: AgentId, rest: seq<Item>)

  datatype ExitPc =
    | KillLock(a: AgentId)
    | KillRead(a: AgentId)
    | ExitFlip(a: AgentId, h: Handle, kill: bool, after: After)
    | ExitLog(a: AgentId, h: Handle, kill: bool, after: After)
    | KillTerm(a: AgentId, h: Handle, after: After)
    | Leave(a: AgentId, after: After)

  datatype CheckUse =
    | PreSpawn(p: SprintId)
    | PostInsert(a: AgentId, origin: Origin)
    | ForRespawn(a: AgentId)

  datatype CheckPc =
    | CheckSprint(p: SprintId, use: CheckUse)
    | CheckWorkstream(sp: Lifecycle, w: WorkstreamId, use: CheckUse)
    | CheckRepo(sp: Lifecycle, ws: Lifecycle, r: RepoId, use: CheckUse)

  datatype LaunchPc =
    | LaunchChild(p: SprintId)
    | LockNew(a: AgentId, p: SprintId, h: Handle, n: Nonce)
    | Insert(a: AgentId, p: SprintId, h: Handle, n: Nonce, origin: Origin)
    | KillOrphan(a: AgentId, h: Handle, origin: Origin)
    | LogSpawned(a: AgentId, origin: Origin)
    | CompRead(a: AgentId, origin: Origin)
    | CompFlip(a: AgentId, row: Option<AgentRow>, origin: Origin)
    | UndoLaunch(a: AgentId, origin: Origin)

  datatype AdoptPc =
    | AdoptLock(a: AgentId, relocate: bool)
    | AdoptCheck(a: AgentId, relocate: bool)
    | AdoptStop(a: AgentId, relocate: bool)
    | AdoptPlace(a: AgentId, relocate: bool)
    | AdoptResolve(a: AgentId, relocate: bool)
    | AdoptSprint(a: AgentId, w: WorkstreamId)
    | AdoptPlan(a: AgentId, w: WorkstreamId)
    | AdoptRename(a: AgentId, w: WorkstreamId, p: SprintId)
    | AdoptUnplace(a: AgentId, p: SprintId, moved: Option<WorkstreamId>)
    | AdoptLaunch(a: AgentId, p: SprintId, moved: Option<WorkstreamId>)
    | AdoptFail(a: AgentId, moved: Option<WorkstreamId>)
    | UndoRead(a: AgentId, w: WorkstreamId, placing: bool)
    | Refused(a: AgentId, moved: Option<WorkstreamId>)

  datatype CascadePc =
    | KillSprint(p: SprintId)
    | KillWorkstream(w: WorkstreamId)
    | KillRepo(r: RepoId)
    | CasRepo(r: RepoId)
    | ListWorkstreams(r: RepoId)
    | Next(work: Work)
    | ListSprints(w: WorkstreamId, work: Work)
    | ListAgents(p: SprintId, work: Work)
    | FlipRead(a: AgentId, work: Work)
    | TearNext(left: seq<AgentId>)
    | TearRead(a: AgentId, left: seq<AgentId>)
    | TearWorkspaces(wss: seq<WorkstreamId>, undo: Option<Undoing>)

  datatype Pc =
    | Lane(lane: LanePc)
    | Resume(res: ResumePc)
    | Exit(ex: ExitPc)
    | Check(chk: CheckPc)
    | Launch(lau: LaunchPc)
    | Adopt(ado: AdoptPc)
    | Cascade(cas: CascadePc)

  // ---------------------------------------------------------------- state

  /** One backend Spawn call: the session it resumed, its nonce, the workspace it runs in. */
  datatype Incarnation = Incarnation(session: AgentId, nonce: Nonce, home: WorkstreamId)

  /** The world outside the store. spawned only grows; present is the terminals the backend
      enumerates; alive is the terminals whose child is running; moved is the transcripts that
      lie under a relocated worktree's project slug. */
  datatype World = World(
    spawned: map<Handle, Incarnation>,
    present: set<Handle>,
    alive: set<Handle>,
    moved: map<AgentId, WorkstreamId>)
  {
    function Spawn(h: Handle, inc: Incarnation): World {
      this.(spawned := spawned[h := inc], present := present + {h}, alive := alive + {h})
    }

    function Kill(h: Handle): World {
      this.(present := present - {h}, alive := alive - {h})
    }

    /** The claude processes of a session are stopped; their terminals stay for now. */
    function StopChildren(a: AgentId): World {
      this.(alive := set h | h in alive && !(h in spawned && spawned[h].session == a))
    }

    function KillWorkspace(w: WorkstreamId): World {
      this.(present := (set h | h in present && !(h in spawned && spawned[h].home == w)),
            alive := (set h | h in alive && !(h in spawned && spawned[h].home == w)))
    }

    ghost predicate Fresh(h: Handle, n: Nonce) {
      h !in spawned && forall g :: g in spawned ==> spawned[g].nonce != n
    }
  }

  function Count(m: map<AgentId, nat>, a: AgentId): nat {
    if a in m then m[a] else 0
  }

  function Plus(m: map<AgentId, nat>, a: AgentId): map<AgentId, nat> {
    m[a := Count(m, a) + 1]
  }

  /** Ghost counters: rows turned Active, EventExited appends, respawn attempts made, and appends of
      the event that a launch, a respawn or an abandonment is announced with. */
  datatype Tally = Tally(
    activations: map<AgentId, nat>,
    exits: map<AgentId, nat>,
    tries: map<AgentId, nat>,
    logs: map<AgentId, nat>)

  /** minted records which thread drew a session id from the uuid generator, named the ids an
      adopt request named, relocs the workstreams minted by a --relocate adopt. */
  datatype State = State(
    db: Db,
    locks: map<AgentId, Tid>,
    placement: Option<Tid>,
    threads: map<Tid, Pc>,
    world: World,
    minted: map<AgentId, Tid>,
    named: set<AgentId>,
    relocs: map<WorkstreamId, AgentId>,
    tally: Tally)
  {
    /** The workspace an agent's terminals run in, through its sprint. */
    function Home(a: AgentId): Option<WorkstreamId> {
      if a in db.agents && db.agents[a].sprint in db.sprints then
        Some(db.sprints[db.agents[a].sprint].workstream)
      else None
    }
  }

  // ---------------------------------------------------------------- events

  /** The outcome the scheduler picks for one call. Missed: the attribution of a foreign process
      finds none, so there is nothing to stop. */
  datatype Choice =
    | Ok
    | Fail
    | Missed
    | Order(xs: seq<nat>)
    | Mint(a: AgentId, h: Handle, n: Nonce)
    | Terminal(h: Handle, n: Nonce)
    | Target(p: SprintId)
    | NewWorkstream(w: WorkstreamId, r: RepoId)
    | NewSprint(p: SprintId)

  datatype Event =
    | Step(t: Tid, c: Choice)
    | Begin(t: Tid, pc: Pc)
    | CreateRepo(r: RepoId)
    | CreateWorkstream(w: WorkstreamId, r: RepoId)
    | CreateSprint(p: SprintId, w: WorkstreamId)
    | ActivateRepo(r: RepoId)
    | ActivateWorkstream(w: WorkstreamId)
    | ActivateSprint(p: SprintId)
    | ChildDies(h: Handle)
    | TerminalVanishes(h: Handle)
    | TailerReset(a: AgentId)

  // ---------------------------------------------------------------- effects

  /** The one store statement, backend or file call, and lock operation of a step. */
  datatype Statement =
    | NoStatement
    | FlipRepo(r: RepoId)
    | FlipWorkstream(w: WorkstreamId)
    | FlipSprint(p: SprintId)
    | AddAgent(a: AgentId, row: AgentRow)
    | AddWorkstream(w: WorkstreamId, r: RepoId)
    | AddSprint(p: SprintId, w: WorkstreamId)
    | SetStatus(a: AgentId, status: Lifecycle)
    | SetRestarts(a: AgentId, count: nat)
    | SetIncarnation(a: AgentId, h: Handle, n: Nonce)

  datatype Outside =
    | NothingOutside
    | SpawnChild(h: Handle, inc: Incarnation)
    | KillTerminal(h: Handle)
    | KillWorkspaceOf(w: WorkstreamId)
    | StopSession(a: AgentId)
    | MoveTranscript(a: AgentId, w: WorkstreamId)
    | MoveBack(a: AgentId)

  datatype LockOp = Keep | Take(a: AgentId) | Drop(a: AgentId)
  datatype PlaceOp = KeepPlace | TakePlace | DropPlace
  datatype Note = NoNote | NoteExit(a: AgentId) | NoteTry(a: AgentId) | NoteLog(a: AgentId)
  datatype Birth = NoBirth | MintSession(a: AgentId) | MintReloc(w: WorkstreamId, a: AgentId)

  datatype Effect = Effect(
    next: Option<Pc>, lock: LockOp, place: PlaceOp, stmt: Statement, out: Outside, note: Note, birth: Birth)

  /** The thread ends. */
  const Stop := Effect(None, Keep, KeepPlace, NoStatement, NothingOutside, NoNote, NoBirth)

  /** The thread goes on at pc. */
  function On(pc: Pc): Effect { Stop.(next := Some(pc)) }

  function Run(db: Db, stmt: Statement): Db {
    match stmt
    case NoStatement => db
    case FlipRepo(r) => db.CasRepoKilled(r).0
    case FlipWorkstream(w) => db.CasWorkstreamKilled(w).0
    case FlipSprint(p) => db.CasSprintKilled(p).0
    case AddAgent(a, row) => db.InsertAgent(a, row)
    case AddWorkstream(w, r) => db.InsertWorkstream(w, r)
    case AddSprint(p, w) => db.InsertSprint(p, w)
    case SetStatus(a, status) => db.SetAgentLifecycle(a, status)
    case SetRestarts(a, count) => db.MarkRestartAttempt(a, count)
    case SetIncarnation(a, h, n) => db.SetAgentIncarnation(a, h, n)
  }

  function CallOutside(world: World, out: Outside): World {
    match out
    case NothingOutside => world
    case SpawnChild(h, inc) => world.Spawn(h, inc)
    case KillTerminal(h) => world.Kill(h)
    case KillWorkspaceOf(w) => world.KillWorkspace(w)
    case StopSession(a) => world.StopChildren(a)
    case MoveTranscript(a, w) => world.(moved := world.moved[a := w])
    case MoveBack(a) => world.(moved := world.moved - {a})
  }

  /** A row turns Active by an insert or by a status write. */
  function Recount(tally: Tally, stmt: Statement, note: Note): Tally {
    var counted :=
      if stmt.AddAgent? || (stmt.SetStatus? && stmt.status == Active) then
        tally.(activations := Plus(tally.activations, stmt.a))
      else tally;
    match note
    case NoNote => counted
    case NoteExit(a) => counted.(exits := Plus(counted.exits, a))
    case NoteTry(a) => counted.(tries := Plus(counted.tries, a))
    case NoteLog(a) => counted.(logs := Plus(counted.logs, a))
  }

  function Relock(locks: map<AgentId, Tid>, t: Tid, op: LockOp): map<AgentId, Tid> {
    match op
    case Keep => locks
    case Take(a) => locks[a := t]
    case Drop(a) => locks - {a}
  }

  /** A Lock() on a held mutex does not return: the step is not enabled. */
  predicate Grantable(s: State, eff: Effect) {
    && (eff.lock.Take? ==> eff.lock.a !in s.locks)
    && (eff.place.TakePlace? ==> s.placement == None)
  }

  function Perform(s: State, t: Tid, eff: Effect): State {
    State(
      Run(s.db, eff.stmt),
      Relock(s.locks, t, eff.lock),
      match eff.place case KeepPlace => s.placement case TakePlace => Some(t) case DropPlace => None,
      if eff.next.Some? then s.threads[t := eff.next.value] else s.threads - {t},
      CallOutside(s.world, eff.out),
      if eff.birth.MintSession? then s.minted[eff.birth.a := t] else s.minted,
      s.named,
      if eff.birth.MintReloc? then s.relocs[eff.birth.w := eff.birth.a] else s.relocs,
      Recount(s.tally, eff.stmt, eff.note))
  }

  // ---------------------------------------------------------------- supervisor lanes

  function Leaving(a: AgentId, after: After): Effect { On(Exit(Leave(a, after))) }

  /** respawnUnderBudget's first branch: abandon at the budget, else count the attempt. */
  function UnderBudget(item: Item, row: AgentRow, killFirst: bool, rest: seq<Item>): Effect {
    if row.restarts >= RESTART_BUDGET then On(Lane(AbandonLog(item, row.handle, rest)))
    else On(Lane(Mark(item, row, killFirst, rest)))
  }

  /** The Active rows of a listing, as lane items. */
  function RowItems(db: Db, xs: seq<nat>, stale: bool): (items: seq<Item>)
    ensures forall x :: x in items && x.Vanished? ==> x.a in db.agents && x.h == db.agents[x.a].handle
    ensures forall x :: x in items ==> !x.Reported? && x.Stale? == stale && x.a in db.agents
  {
    if xs == [] then []
    else if xs[0] in db.agents && db.agents[xs[0]].status == Active then
      [if stale then Stale(xs[0]) else Vanished(xs[0], db.agents[xs[0]].handle)] + RowItems(db, xs[1..], stale)
    else RowItems(db, xs[1..], stale)
  }

  /** The items whose terminal the enumeration does not list. */
  function Missing(rows: seq<Item>, live: set<Handle>): (items: seq<Item>)
    ensures forall x :: x in items ==> x in rows
    ensures forall x :: x in items && x.Vanished? ==> x.h !in live
  {
    if rows == [] then []
    else if rows[0].Vanished? && rows[0].h in live then Missing(rows[1..], live)
    else [rows[0]] + Missing(rows[1..], live)
  }

  /** What a tick looks at: every agent of the workstream, or those of them whose transcript it
      finds stale. */
  ghost predicate Picks(xs: seq<nat>, agents: set<nat>, stale: bool) {
    if stale then NoDup(xs) && forall x :: x in xs ==> x in agents else Lists(xs, agents)
  }

  ghost function StepLane(s: State, pc: LanePc, c: Choice): Option<Effect> {
    match pc
    case TickList(w, stale) =>
      if c.Fail? then Some(Stop)
      else if c.Order? && Picks(c.xs, s.db.AgentsOfWorkstream(w), stale) then
        var rows := RowItems(s.db, c.xs, stale);
        Some(On(Lane(if stale then LaneNext(rows) else TickEnum(rows))))
      else None
    case TickEnum(rows) =>
      Some(if c.Fail? then Stop else On(Lane(LaneNext(Missing(rows, s.world.present)))))
    case LaneNext(queue) =>
      Some(if queue == [] then Stop
           else On(Lane(LaneRead(queue[0], queue[1..]))).(lock := Take(queue[0].a)))
    case LaneRead(item, rest) =>
      if c.Fail? || item.a !in s.db.agents then Some(Leaving(item.a, ToLane([])))
      else
        var row := s.db.agents[item.a];
        if row.status != Active then Some(Leaving(item.a, ToLane(rest)))
        else (match item
          case Vanished(a, h) =>
            Some(if row.handle != h then Leaving(a, ToLane(rest))
                 else UnderBudget(item, row, false, rest))
          case Stale(a) => Some(On(Lane(LaneProbe(item, row, rest))))
          case Reported(a, n) =>
            Some(if row.nonce != n then Leaving(a, ToLane(rest))
                 else UnderBudget(item, row, true, rest)))
    case LaneProbe(item, row, rest) =>
      Some(if c.Fail? || row.handle in s.world.alive then Leaving(item.a, ToLane(rest))
           else UnderBudget(item, row, true, rest))
    case AbandonLog(item, h, rest) =>
      Some(if c.Fail? then Leaving(item.a, ToLane([]))
           else On(Exit(ExitFlip(item.a, h, false, ToLane(rest)))).(note := NoteLog(item.a)))
    case Mark(item, row, killFirst, rest) =>
      if c.Fail? then Some(Leaving(item.a, ToLane([])))
      else
        var pc' := if killFirst then Lane(KillOld(item, row.handle, rest)) else Resume(Respawn(item.a, rest));
        Some(On(pc').(stmt := SetRestarts(item.a, row.restarts + 1)))
    case KillOld(item, h, rest) =>
      Some(if c.Fail? then Leaving(item.a, ToLane([]))
           else On(Resume(Respawn(item.a, rest))).(out := KillTerminal(h)))
  }

  // ---------------------------------------------------------------- respawn

  ghost function StepResume(s: State, pc: ResumePc, c: Choice): Option<Effect> {
    match pc
    case RespawnLock(a) => Some(On(Resume(RespawnRead(a))).(lock := Take(a)))
    case RespawnRead(a) =>
      Some(if c.Fail? || a !in s.db.agents || s.db.agents[a].status != Exited then Leaving(a, Finish)
           else On(Check(CheckSprint(s.db.agents[a].sprint, ForRespawn(a)))))
    case RespawnMark(a) =>
      Some(if c.Fail? then Leaving(a, Finish)
           else On(Resume(RespawnActivate(a))).(stmt := SetRestarts(a, 0)))
    case RespawnActivate(a) =>
      Some(if c.Fail? then Leaving(a, Finish)
           else On(Resume(Respawn(a, []))).(stmt := SetStatus(a, Active)))
    case Respawn(a, rest) =>
      if c.Fail? then Some(Leaving(a, ToLane([])).(note := NoteTry(a)))
      else if c.Terminal? && s.world.Fresh(c.h, c.n) && s.Home(a).Some? then
        Some(On(Resume(Persist(a, c.h, c.n, rest)))
             .(out := SpawnChild(c.h, Incarnation(a, c.n, s.Home(a).value)), note := NoteTry(a)))
      else None
    case Persist(a, h, n, rest) =>
      Some(if c.Fail? then On(Resume(KillNew(a, h, rest)))
           else On(Resume(LogRestart(a, rest))).(stmt := SetIncarnation(a, h, n)))
    case KillNew(a, h, rest) =>
      Some(Leaving(a, ToLane([])).(out := if c.Fail? then NothingOutside else KillTerminal(h)))
    case LogRestart(a, rest) =>
      Some(if c.Fail? then Leaving(a, ToLane([])) else Leaving(a, ToLane(rest)).(note := NoteLog(a)))
  }

  // ---------------------------------------------------------------- exits

  ghost function StepExit(s: State, pc: ExitPc, c: Choice): Option<Effect> {
    match pc
    case KillLock(a) => Some(On(Exit(KillRead(a))).(lock := Take(a)))
    case KillRead(a) =>
      Some(if c.Fail? || a !in s.db.agents || s.db.agents[a].status != Active then Leaving(a, Finish)
           else On(Exit(ExitFlip(a, s.db.agents[a].handle, true, Finish))))
    case ExitFlip(a, h, kill, after) =>
      Some(if c.Fail? then Leaving(a, after.Failed())
           else On(Exit(ExitLog(a, h, kill, after))).(stmt := SetStatus(a, Exited)))
    case ExitLog(a, h, kill, after) =>
      Some(if c.Fail? then Leaving(a, after.Failed())
           else (if kill then On(Exit(KillTerm(a, h, after))) else Leaving(a, after)).(note := NoteExit(a)))
    case KillTerm(a, h, after) =>
      Some(Leaving(a, after).(out := if c.Fail? then NothingOutside else KillTerminal(h)))
    case Leave(a, after) =>
      Some(match after
           case Finish => Stop.(lock := Drop(a))
           case ToLane(rest) => On(Lane(LaneNext(rest))).(lock := Drop(a))
           case ToCascade(work) => On(Cascade(Next(work))).(lock := Drop(a))
           case ToTear(left) => On(Cascade(TearNext(left))).(lock := Drop(a))
           // A launch that is being undone keeps its lock until the handler returns.
           case ToUndo(origin) => On(Launch(UndoLaunch(a, origin))))
  }

  // ---------------------------------------------------------------- hierarchy check

  /** The check ended in an error: whole tells a status Conflict or a parent read error, which
      the post-insert caller compensates, from a failed read of the sprint itself. */
  function CheckError(use: CheckUse, whole: bool): Effect {
    match use
    case PreSpawn(_) => Stop
    case ForRespawn(a) => Leaving(a, Finish)
    case PostInsert(a, origin) =>
      if origin.Spawned? && !whole then Leaving(a, Finish) else On(Launch(CompRead(a, origin)))
  }

  ghost function StepCheck(s: State, pc: CheckPc, c: Choice): Option<Effect> {
    match pc
    case CheckSprint(p, use) =>
      Some(if c.Fail? || p !in s.db.sprints then CheckError(use, false)
           else On(Check(CheckWorkstream(s.db.sprints[p].status, s.db.sprints[p].workstream, use))))
    case CheckWorkstream(sp, w, use) =>
      Some(if c.Fail? || w !in s.db.workstreams then CheckError(use, true)
           else On(Check(CheckRepo(sp, s.db.workstreams[w].status, s.db.workstreams[w].repo, use))))
    case CheckRepo(sp, ws, r, use) =>
      if c.Fail? || r !in s.db.repos || !(sp == ws == s.db.repos[r].status == Active) then
        Some(CheckError(use, true))
      else
        Some(match use
             case PreSpawn(p) => On(Launch(LaunchChild(p)))
             case PostInsert(a, origin) => On(Launch(LogSpawned(a, origin)))
             case ForRespawn(a) => On(Resume(RespawnMark(a))))
  }

  // ---------------------------------------------------------------- launch

  /** A uuid the generator has not drawn, and that nothing in the daemon refers to. */
  ghost predicate FreshSession(s: State, a: AgentId) {
    && a !in s.minted && a !in s.named && a !in s.db.agents && a !in s.locks
    && forall h :: h in s.world.spawned ==> s.world.spawned[h].session != a
  }

  ghost function StepLaunch(s: State, pc: LaunchPc, c: Choice): Option<Effect> {
    match pc
    case LaunchChild(p) =>
      if c.Fail? then Some(Stop)
      else if c.Mint? && s.world.Fresh(c.h, c.n) && p in s.db.sprints && FreshSession(s, c.a) then
        Some(On(Launch(LockNew(c.a, p, c.h, c.n)))
             .(out := SpawnChild(c.h, Incarnation(c.a, c.n, s.db.sprints[p].workstream)),
               birth := MintSession(c.a)))
      else None
    case LockNew(a, p, h, n) => Some(On(Launch(Insert(a, p, h, n, Spawned))).(lock := Take(a)))
    case Insert(a, p, h, n, origin) =>
      Some(if c.Fail? || a in s.db.agents then On(Launch(KillOrphan(a, h, origin)))
           else On(Check(CheckSprint(p, PostInsert(a, origin))))
                .(stmt := AddAgent(a, AgentRow(p, h, n, Active, 0))))
    case KillOrphan(a, h, origin) =>
      Some(On(Launch(UndoLaunch(a, origin))).(out := if c.Fail? then NothingOutside else KillTerminal(h)))
    case LogSpawned(a, origin) =>
      Some(if !c.Fail? then Leaving(a, Finish).(note := NoteLog(a))
           else if origin.Adopted? then On(Launch(CompRead(a, origin)))
           else Leaving(a, Finish))
    case CompRead(a, origin) =>
      var row := if c.Fail? || a !in s.db.agents then None else Some(s.db.agents[a]);
      Some(On(Launch(CompFlip(a, row, origin))))
    case CompFlip(a, row, origin) =>
      Some(if c.Fail? then On(Launch(UndoLaunch(a, origin)))
           else (if row.Some? && row.value.status == Active then
                   On(Exit(ExitFlip(a, row.value.handle, true, ToUndo(origin))))
                 else On(Launch(UndoLaunch(a, origin)))).(stmt := SetStatus(a, Exited)))
    case UndoLaunch(a, origin) =>
      Some(match origin
           case Spawned => Leaving(a, Finish)
           case Adopted(None) => On(Adopt(Refused(a, None)))
           case Adopted(Some(w)) =>
             On(Adopt(UndoRead(a, w, false))).(out := if c.Fail? then NothingOutside else MoveBack(a)))
  }

  // ---------------------------------------------------------------- adopt

  function AfterUndo(u: Undoing): Effect {
    On(Adopt(if u.placing then AdoptFail(u.a, Some(u.w)) else Refused(u.a, Some(u.w))))
  }

  ghost function StepAdopt(s: State, pc: AdoptPc, c: Choice): Option<Effect> {
    match pc
    case AdoptLock(a, relocate) => Some(On(Adopt(AdoptCheck(a, relocate))).(lock := Take(a)))
    case AdoptCheck(a, relocate) =>
      Some(if c.Fail? || a in s.db.agents then Leaving(a, Finish)
           else On(Adopt(AdoptStop(a, relocate))))
    case AdoptStop(a, relocate) =>
      Some(if c.Fail? then Leaving(a, Finish)
           else On(Adopt(AdoptPlace(a, relocate)))
                  .(out := if c.Missed? then NothingOutside else StopSession(a)))
    case AdoptPlace(a, relocate) => Some(On(Adopt(AdoptResolve(a, relocate))).(place := TakePlace))
    case AdoptResolve(a, relocate) =>
      if c.Fail? then Some(On(Adopt(AdoptFail(a, None))))
      else if !relocate && c.Target? && c.p in s.db.sprints && s.db.sprints[c.p].status == Active then
        Some(On(Adopt(AdoptUnplace(a, c.p, None))))
      else if relocate && c.NewWorkstream? && c.w !in s.db.workstreams && c.r in s.db.repos then
        Some(On(Adopt(AdoptSprint(a, c.w))).(stmt := AddWorkstream(c.w, c.r), birth := MintReloc(c.w, a)))
      else None
    case AdoptSprint(a, w) =>
      if c.Fail? then Some(On(Adopt(AdoptFail(a, Some(w)))))
      else if c.NewSprint? && c.p !in s.db.sprints then
        Some(On(Adopt(AdoptPlan(a, w))).(stmt := AddSprint(c.p, w)))
      else None
    case AdoptPlan(a, w) =>
      if c.Fail? then Some(On(Adopt(UndoRead(a, w, true))))
      else if c.Target? && c.p in s.db.ActiveSprintsOf(w) then Some(On(Adopt(AdoptRename(a, w, c.p))))
      else None
    case AdoptRename(a, w, p) =>
      Some(if c.Fail? then On(Adopt(UndoRead(a, w, true)))
           else On(Adopt(AdoptUnplace(a, p, Some(w)))).(out := MoveTranscript(a, w)))
    case AdoptUnplace(a, p, moved) => Some(On(Adopt(AdoptLaunch(a, p, moved))).(place := DropPlace))
    case AdoptLaunch(a, p, moved) =>
      if c.Fail? then Some(On(Launch(UndoLaunch(a, Adopted(moved)))))
      else if c.Terminal? && s.world.Fresh(c.h, c.n) && p in s.db.sprints then
        Some(On(Launch(Insert(a, p, c.h, c.n, Adopted(moved))))
             .(out := SpawnChild(c.h, Incarnation(a, c.n, s.db.sprints[p].workstream))))
      else None
    case AdoptFail(a, moved) => Some(On(Adopt(Refused(a, moved))).(place := DropPlace))
    case UndoRead(a, w, placing) =>
      Some(if c.Fail? || w !in s.db.workstreams || s.db.workstreams[w].status != Active then
             AfterUndo(Undoing(a, w, placing))
           else On(Cascade(Next(Visiting([w], [], false, Some(Undoing(a, w, placing)))))))
    case Refused(a, moved) => Some(Stop.(lock := Drop(a)))
  }

  // ---------------------------------------------------------------- kill cascades

  /** A cascade with these containers to visit. */
  function Visiting(wss: seq<WorkstreamId>, sps: seq<SprintId>, perAgent: bool, undo: Option<Undoing>): Work {
    Work(wss, sps, [], false, false, false, [], [], perAgent, undo)
  }

  /** The clear of an active-* selection; the selections are not in the state. */
  function Cleared(work: Work, c: Choice): Effect {
    On(Cascade(Next(if c.Fail? then work.Dropped() else work)))
  }

  ghost function StepCascade(s: State, pc: CascadePc, c: Choice): Option<Effect> {
    match pc
    case KillSprint(p) =>
      Some(if c.Fail? || p !in s.db.sprints || s.db.sprints[p].status != Active then Stop
           else On(Cascade(Next(Visiting([], [p], true, None)))))
    case KillWorkstream(w) =>
      Some(if c.Fail? || w !in s.db.workstreams || s.db.workstreams[w].status != Active then Stop
           else On(Cascade(Next(Visiting([w], [], false, None)))))
    case KillRepo(r) =>
      Some(if c.Fail? || r !in s.db.repos || s.db.repos[r].status != Active then Stop
           else On(Cascade(CasRepo(r))))
    case CasRepo(r) =>
      Some(if c.Fail? || !s.db.CasRepoKilled(r).1 then Stop
           else On(Cascade(ListWorkstreams(r))).(stmt := FlipRepo(r)))
    case ListWorkstreams(r) =>
      if c.Fail? then Some(Stop)
      else if c.Order? && Lists(c.xs, s.db.ActiveWorkstreamsOf(r)) then
        Some(On(Cascade(Next(Visiting(c.xs, [], false, None).(clearRepo := true)))))
      else None
    case Next(work) => Some(StepNext(s, work, c))
    case ListSprints(w, work) =>
      if c.Fail? then Some(On(Cascade(Next(work.Dropped()))))
      else if c.Order? && Lists(c.xs, s.db.ActiveSprintsOf(w)) then
        Some(On(Cascade(Next(work.(sps := c.xs)))))
      else None
    case ListAgents(p, work) =>
      if c.Fail? then Some(On(Cascade(Next(work.Dropped()))))
      else if c.Order? && Lists(c.xs, s.db.ActiveAgentsOf(p)) then
        Some(On(Cascade(Next(work.(ags := c.xs)))))
      else None
    case FlipRead(a, work) =>
      if c.Fail? || a !in s.db.agents then Some(Leaving(a, ToCascade(work.Dropped())))
      else if s.db.agents[a].status != Active then Some(Leaving(a, ToCascade(work)))
      else
        var work' := work.(flipped := work.flipped + [a]);
        Some(On(Exit(ExitFlip(a, s.db.agents[a].handle, false, ToCascade(work')))))
    case TearNext(left) =>
      Some(if left == [] then Stop
           else On(Cascade(TearRead(left[0], left[1..]))).(lock := Take(left[0])))
    case TearRead(a, left) =>
      Some(if c.Fail? || a !in s.db.agents then Leaving(a, ToTear(left))
           else On(Exit(KillTerm(a, s.db.agents[a].handle, ToTear(left)))))
    case TearWorkspaces(wss, undo) =>
      Some(if wss != [] then
             On(Cascade(TearWorkspaces(wss[1..], undo)))
               .(out := if c.Fail? then NothingOutside else KillWorkspaceOf(wss[0]))
           else if undo.Some? then AfterUndo(undo.value)
           else Stop)
  }

  /** The agent loop of a sprint; the in-flight adopt's own agent is skipped. */
  function NextAgent(work: Work): Effect
    requires work.ags != []
  {
    var a, work' := work.ags[0], work.(ags := work.ags[1..]);
    if work.Skips(a) then On(Cascade(Next(work')))
    else On(Cascade(FlipRead(a, work'))).(lock := Take(a))
  }

  function NextSprint(db: Db, work: Work, c: Choice): Effect
    requires work.sps != []
  {
    var p, work' := work.sps[0], work.(sps := work.sps[1..]);
    if c.Fail? then On(Cascade(Next(work'.Dropped())))
    else if db.CasSprintKilled(p).1 then
      On(Cascade(ListAgents(p, work'.(clearSprint := true)))).(stmt := FlipSprint(p))
    else On(Cascade(Next(work')))
  }

  function NextWorkstream(db: Db, work: Work, c: Choice): Effect
    requires work.wss != []
  {
    var w, work' := work.wss[0], work.(wss := work.wss[1..]);
    if c.Fail? then On(Cascade(Next(work'.Dropped())))
    else if db.CasWorkstreamKilled(w).1 then
      On(Cascade(ListSprints(w, work'.(torn := work'.torn + [w], clearWorkstream := true))))
        .(stmt := FlipWorkstream(w))
    else On(Cascade(Next(work')))
  }

  /** The cascade's loops: agents of the current sprint first, then sprints, then workstreams;
      the selection of a container is cleared once its children have been visited. */
  function StepNext(s: State, work: Work, c: Choice): Effect {
    if work.ags != [] then NextAgent(work)
    else if work.clearSprint then Cleared(work.(clearSprint := false), c)
    else if work.sps != [] then NextSprint(s.db, work, c)
    else if work.clearWorkstream then Cleared(work.(clearWorkstream := false), c)
    else if work.wss != [] then NextWorkstream(s.db, work, c)
    else if work.clearRepo then Cleared(work.(clearRepo := false), c)
    else if work.perAgent then On(Cascade(TearNext(work.flipped)))
    else On(Cascade(TearWorkspaces(work.torn, work.undo)))
  }

  // ---------------------------------------------------------------- one event

  ghost function Plan(s: State, pc: Pc, c: Choice): Option<Effect> {
    match pc
    case Lane(l) => StepLane(s, l, c)
    case Resume(r) => StepResume(s, r, c)
    case Exit(x) => StepExit(s, x, c)
    case Check(k) => StepCheck(s, k, c)
    case Launch(n) => StepLaunch(s, n, c)
    case Adopt(d) => StepAdopt(s, d, c)
    case Cascade(k) => StepCascade(s, k, c)
  }

  ghost function StepThread(s: State, t: Tid, c: Choice): Option<State>
    requires t in s.threads
  {
    var plan := Plan(s, s.threads[t], c);
    if plan.Some? && Grantable(s, plan.value) then Some(Perform(s, t, plan.value)) else None
  }

  /** The entry points: which requests the daemon accepts, and where their handlers start. */
  ghost predicate Entry(s: State, pc: Pc) {
    match pc
    case Check(CheckSprint(p, PreSpawn(q))) => p == q
    case Adopt(AdoptLock(_, _)) => true
    case Resume(RespawnLock(_)) => true
    case Exit(KillLock(_)) => true
    case Cascade(KillSprint(_)) => true
    case Cascade(KillWorkstream(_)) => true
    case Cascade(KillRepo(_)) => true
    case Lane(TickList(_, _)) => true
    case Lane(LaneNext(queue)) =>
      // A wrapper reports only after its own child's exit.
      |queue| == 1 && queue[0].Reported? && ExitedIncarnation(s, queue[0].a, queue[0].n)
    case _ => false
  }

  ghost predicate ExitedIncarnation(s: State, a: AgentId, n: Nonce) {
    exists h :: h in s.world.spawned && h !in s.world.alive
      && s.world.spawned[h].session == a && s.world.spawned[h].nonce == n
  }

  ghost function Named(s: State, pc: Pc): set<AgentId> {
    if pc.Adopt? && pc.ado.AdoptLock? then s.named + {pc.ado.a} else s.named
  }

  /** Whether an event that no running thread takes can happen now. */
  ghost predicate Possible(s: State, e: Event) {
    match e
    case Begin(t, pc) => t !in s.threads && Entry(s, pc)
    case CreateRepo(r) => r !in s.db.repos
    // Only the parent row is looked for, not its status.
    case CreateWorkstream(w, r) => w !in s.db.workstreams && r in s.db.repos
    case CreateSprint(p, w) => p !in s.db.sprints && w in s.db.workstreams
    case _ => !e.Step?
  }

  function OutsideDb(db: Db, e: Event): Db {
    match e
    case CreateRepo(r) => db.InsertRepo(r)
    case CreateWorkstream(w, r) => db.InsertWorkstream(w, r)
    case CreateSprint(p, w) => db.InsertSprint(p, w)
    case ActivateRepo(r) => db.SetRepoStatus(r, Active)
    case ActivateWorkstream(w) => db.SetWorkstreamStatus(w, Active)
    case ActivateSprint(p) => db.SetSprintStatus(p, Active)
    case TailerReset(a) => db.MarkRestartAttempt(a, 0)
    case _ => db
  }

  function OutsideWorld(world: World, e: Event): World {
    match e
    case ChildDies(h) => world.(alive := world.alive - {h})
    case TerminalVanishes(h) => world.Kill(h)
    case _ => world
  }

  ghost function Apply(s: State, e: Event): Option<State> {
    if e.Step? then (if e.t in s.threads then StepThread(s, e.t, e.c) else None)
    else if Possible(s, e) then
      Some(s.(db := OutsideDb(s.db, e),
              world := OutsideWorld(s.world, e),
              named := if e.Begin? then Named(s, e.pc) else s.named,
              threads := if e.Begin? then s.threads[e.t := e.pc] else s.threads))
    else None
  }

  // ---------------------------------------------------------------- runs

  /** A daemon with no handler running over any coherent tables: every row's parents exist,
      handle and nonce name one Spawn call, made in the workspace of the agent's workstream, and
      no Active agent sits under a killed container. */
  ghost predicate Init(s: State) {
    && s.threads == map[] && s.locks == map[] && s.placement == None
    && s.minted == map[] && s.named == {} && s.relocs == map[] && s.world.moved == map[]
    && Rooted(s.db) && NoOrphan(s.db)
    && s.world.alive <= s.world.present <= s.world.spawned.Keys
    && UniqueNonces(s.world.spawned)
    && (forall a :: a in s.db.agents ==>
          && s.db.agents[a].handle in s.world.spawned
          && s.world.spawned[s.db.agents[a].handle].session == a
          && s.world.spawned[s.db.agents[a].handle].nonce == s.db.agents[a].nonce
          && s.world.spawned[s.db.agents[a].handle].home == s.db.sprints[s.db.agents[a].sprint].workstream
          && s.db.agents[a].status != Killed
          && s.db.agents[a].restarts <= RESTART_BUDGET)
    && (forall h :: h in s.world.alive ==>
          var a := s.world.spawned[h].session;
          a in s.db.agents && s.db.agents[a].handle == h
          && (s.db.agents[a].status == Active || DeadHierarchy(s.db, s.db.agents[a].sprint)))
    && (forall a :: Count(s.tally.activations, a)
          == Count(s.tally.exits, a) + (if IsActive(s.db, a) then 1 else 0))
  }

  ghost predicate UniqueNonces(spawned: map<Handle, Incarnation>) {
    forall g, h :: g in spawned && h in spawned && spawned[g].nonce == spawned[h].nonce ==> g == h
  }

  ghost predicate IsActive(db: Db, a: AgentId) {
    a in db.agents && db.agents[a].status == Active
  }

  /** Every row's parent row exists. */
  ghost predicate Rooted(db: Db) {
    && (forall a :: a in db.agents ==> db.agents[a].sprint in db.sprints)
    && (forall p :: p in db.sprints ==> db.sprints[p].workstream in db.workstreams)
    && (forall w :: w in db.workstreams ==> db.workstreams[w].repo in db.repos)
  }

  ghost predicate DeadSprint(db: Db, p: SprintId) {
    p in db.sprints && db.sprints[p].status != Active
  }

  ghost predicate DeadWorkstream(db: Db, p: SprintId) {
    && p in db.sprints && db.sprints[p].workstream in db.workstreams
    && db.workstreams[db.sprints[p].workstream].status != Active
  }

  ghost predicate DeadRepo(db: Db, p: SprintId) {
    && p in db.sprints && db.sprints[p].workstream in db.workstreams
    && var w := db.sprints[p].workstream;
       db.workstreams[w].repo in db.repos && db.repos[db.workstreams[w].repo].status != Active
  }

  /** Some container above the sprint, or the sprint itself, is not Active. */
  ghost predicate DeadHierarchy(db: Db, p: SprintId) {
    DeadSprint(db, p) || DeadWorkstream(db, p) || DeadRepo(db, p)
  }

  ghost predicate NoOrphan(db: Db) {
    forall a :: IsActive(db, a) ==> !DeadHierarchy(db, db.agents[a].sprint)
  }

  ghost predicate Follows(states: seq<State>, events: seq<Event>, i: nat)
    requires i < |events| && |states| == |events| + 1
  {
    Apply(states[i], events[i]) == Some(states[i + 1])
  }

  /** states[0], states[1], ... is what the events lead through. */
  ghost predicate IsRun(states: seq<State>, events: seq<Event>) {
    && |states| == |events| + 1
    && Init(states[0])
    && forall i :: 0 <= i < |events| ==> Follows(states, events, i)
  }

  // ---------------------------------------------------------------- faults

  /** The call a program counter is about to make, as far as its failure is concerned. */
  datatype Call = StoreRead | StoreWrite | ExitAppend | OtherAppend | BackendKill | RenameBack | OtherCall | NoCall

  function CallAt(pc: Pc): Call {
    match pc
    case Lane(TickList(_, _)) => StoreRead
    case Lane(TickEnum(_)) => OtherCall
    case Lane(LaneNext(_)) => NoCall
    case Lane(LaneRead(_, _)) => StoreRead
    case Lane(LaneProbe(_, _, _)) => OtherCall
    case Lane(AbandonLog(_, _, _)) => OtherAppend
    case Lane(Mark(_, _, _, _)) => StoreWrite
    case Lane(KillOld(_, _, _)) => BackendKill
    case Resume(RespawnLock(_)) => NoCall
    case Resume(RespawnRead(_)) => StoreRead
    case Resume(RespawnMark(_)) => StoreWrite
    case Resume(RespawnActivate(_)) => StoreWrite
    case Resume(Respawn(_, _)) => OtherCall
    case Resume(Persist(_, _, _, _)) => StoreWrite
    case Resume(KillNew(_, _, _)) => BackendKill
    case Resume(LogRestart(_, _)) => OtherAppend
    case Exit(KillLock(_)) => NoCall
    case Exit(KillRead(_)) => StoreRead
    case Exit(ExitFlip(_, _, _, _)) => StoreWrite
    case Exit(ExitLog(_, _, _, _)) => ExitAppend
    case Exit(KillTerm(_, _, _)) => BackendKill
    case Exit(Leave(_, _)) => NoCall
    case Check(_) => StoreRead
    case Launch(LaunchChild(_)) => OtherCall
    case Launch(LockNew(_, _, _, _)) => NoCall
    case Launch(Insert(_, _, _, _, _)) => StoreWrite
    case Launch(KillOrphan(_, _, _)) => BackendKill
    case Launch(LogSpawned(_, _)) => OtherAppend
    case Launch(CompRead(_, _)) => StoreRead
    case Launch(CompFlip(_, _, _)) => StoreWrite
    case Launch(UndoLaunch(_, origin)) =>
      if origin.Adopted? && origin.moved.Some? then RenameBack else NoCall
    case Adopt(AdoptCheck(_, _)) => StoreRead
    case Adopt(AdoptStop(_, _)) => OtherCall
    case Adopt(AdoptResolve(_, _)) => OtherCall
    case Adopt(AdoptSprint(_, _)) => StoreWrite
    case Adopt(AdoptPlan(_, _)) => OtherCall
    case Adopt(AdoptRename(_, _, _)) => OtherCall
    case Adopt(AdoptLaunch(_, _, _)) => OtherCall
    case Adopt(UndoRead(_, _, _)) => StoreRead
    case Adopt(_) => NoCall
    case Cascade(KillSprint(_)) => StoreRead
    case Cascade(KillWorkstream(_)) => StoreRead
    case Cascade(KillRepo(_)) => StoreRead
    case Cascade(CasRepo(_)) => StoreWrite
    case Cascade(ListWorkstreams(_)) => StoreRead
    case Cascade(Next(work)) => if work.ags == [] then StoreWrite else NoCall
    case Cascade(ListSprints(_, _)) => StoreRead
    case Cascade(ListAgents(_, _)) => StoreRead
    case Cascade(FlipRead(_, _)) => StoreRead
    case Cascade(TearNext(_)) => NoCall
    case Cascade(TearRead(_, _)) => StoreRead
    case Cascade(TearWorkspaces(_, _)) => BackendKill
  }

  /** The event is a failing call of one of the given kinds. */
  ghost predicate Faulty(s: State, e: Event, kinds: set<Call>) {
    e.Step? && e.t in s.threads && e.c.Fail? && CallAt(s.threads[e.t]) in kinds
  }

  ghost predicate Reactivates(e: Event) {
    e.ActivateRepo? || e.ActivateWorkstream? || e.ActivateSprint?
  }
}
