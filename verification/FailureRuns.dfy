/** Runs from initial states in which one of the calls that a theorem needs does fail, or one of
    the events it excludes does happen, and the property is lost. Each names everything in the run
    that deviates from a faultless one. */
module FailureRuns {
  import opened Tables
  import opened Protocol
  import opened Runs
  import opened Scenes
  import SingleChild
  import Relocate

  // ---------------------------------------------------------------- where the runs start

  /** One repo with one workstream and one sprint, all Active, these agents in it, and these
      terminals, all of them running. */
  function From(agents: map<AgentId, AgentRow>, spawned: map<Handle, Incarnation>, running: set<Handle>): State {
    State(
      Db(map[0 := RepoRow(Active)], map[0 := WorkstreamRow(0, Active)], map[0 := SprintRow(0, Active)], agents, map[]),
      map[], None, map[], World(spawned, running, running, map[]), map[], {}, map[],
      Tally(map a | a in agents && agents[a].status == Active :: 1, map[], map[], map[]))
  }

  /** Agent a with its terminal of the same number. */
  function Agent(a: AgentId, status: Lifecycle): AgentRow { AgentRow(0, a, a, status, 0) }

  function Alone(a: AgentId): Incarnation { Incarnation(a, a, 0) }

  /** An agent that runs, one that has vanished, one that was exited, and two that run. */
  function Running(): State { From(map[0 := Agent(0, Active)], map[0 := Alone(0)], {0}) }

  function Gone(status: Lifecycle): State { From(map[0 := Agent(0, status)], map[0 := Alone(0)], {}) }

  function TwoRunning(): State {
    From(map[0 := Agent(0, Active), 1 := Agent(1, Active)], map[0 := Alone(0), 1 := Alone(1)], {0, 1})
  }

  function NoAgents(): State { From(map[], map[], {}) }

  lemma TreeStands(agents: map<AgentId, AgentRow>, spawned: map<Handle, Incarnation>, running: set<Handle>)
    requires forall a :: a in agents ==> agents[a].sprint == 0
    ensures var db := From(agents, spawned, running).db; Rooted(db) && NoOrphan(db)
  {}

  lemma TalliesFit(agents: map<AgentId, AgentRow>, spawned: map<Handle, Incarnation>, running: set<Handle>, a: AgentId)
    ensures var s := From(agents, spawned, running);
      Count(s.tally.activations, a) == Count(s.tally.exits, a) + (if IsActive(s.db, a) then 1 else 0)
  {}

  /** The conditions of an initial state on agents and terminals. */
  lemma StartsFrom(agents: map<AgentId, AgentRow>, spawned: map<Handle, Incarnation>, running: set<Handle>)
    requires running <= spawned.Keys && UniqueNonces(spawned)
    requires forall a :: a in agents ==>
      && agents[a].sprint == 0 && agents[a].handle in spawned && agents[a].status != Killed && agents[a].restarts == 0
      && spawned[agents[a].handle].session == a && spawned[agents[a].handle].nonce == agents[a].nonce
      && spawned[agents[a].handle].home == 0
    requires forall h :: h in running ==>
      var a := spawned[h].session; a in agents && agents[a].handle == h && agents[a].status == Active
    ensures Init(From(agents, spawned, running))
  {
    hide Rooted, NoOrphan, UniqueNonces, DeadHierarchy, IsActive, Count;
    TreeStands(agents, spawned, running);
    forall a { TalliesFit(agents, spawned, running, a); }
  }

  lemma RunningStarts()
    ensures Init(Running())
  {
    hide Init;
    StartsFrom(map[0 := Agent(0, Active)], map[0 := Alone(0)], {0});
  }

  lemma GoneStarts(status: Lifecycle)
    requires status != Killed
    ensures Init(Gone(status))
  {
    hide Init;
    StartsFrom(map[0 := Agent(0, status)], map[0 := Alone(0)], {});
  }

  lemma TwoStart()
    ensures Init(TwoRunning())
  {
    hide Init;
    StartsFrom(map[0 := Agent(0, Active), 1 := Agent(1, Active)], map[0 := Alone(0), 1 := Alone(1)], {0, 1});
  }

  lemma NobodyStarts()
    ensures Init(NoAgents())
  {
    hide Init;
    StartsFrom(map[], map[], {});
  }

  // ---------------------------------------------------------------- two children

  ghost predicate TwoLive(world: World, g: Handle, h: Handle) {
    && g != h && g in world.alive && h in world.alive && g in world.spawned && h in world.spawned
    && world.spawned[g].session == world.spawned[h].session
  }

  lemma NotSingle(world: World, g: Handle, h: Handle)
    requires TwoLive(world, g, h)
    ensures !SingleChild.SingleLive(world)
  {}

  /** Whatever leaves an Exited row with a running child under Active containers, a respawn by hand
      makes it two: it takes the child of an Exited row for dead. */
  lemma RespawnDoubles(p: Path, t: Tid, a: AgentId, h: Handle, n: Nonce) returns (q: Path)
    requires p.Valid() && t !in p.s.threads && a !in p.s.locks && p.s.world.Fresh(h, n)
    requires a in p.s.db.agents && p.s.db.agents[a].status == Exited && AllActive(p.s.db, p.s.db.agents[a].sprint)
    requires var g := p.s.db.agents[a].handle;
      g in p.s.world.alive && g in p.s.world.spawned && p.s.world.spawned[g].session == a
    ensures Extends(p, q, [ByHand(a)]) && !SingleChild.SingleLive(q.s.world)
  {
    hide Path.Valid, Path.First, Path.Noted, DeadHierarchy, SingleChild.SingleLive;
    q := RespawnPasses(p, t, a);
    q := RespawnActivates(q, t, a);
    q := RespawnSpawns(q, t, a, h, n);
    NotSingle(q.s.world, p.s.db.agents[a].handle, h);
  }

  /** What a run of this kind ends with: two running children of one session. */
  ghost predicate Doubles(states: seq<State>, events: seq<Event>, noted: seq<Deviation>) {
    IsRun(states, events) && !SingleChild.SingleLive(states[|events|].world) && Deviations(states, events) == noted
  }

  lemma PathDoubles(p: Path, noted: seq<Deviation>) returns (states: seq<State>, events: seq<Event>)
    requires p.Valid() && Init(p.First()) && !SingleChild.SingleLive(p.s.world) && p.Noted() == noted
    ensures Doubles(states, events, noted)
  {
    hide Init, IsRun, SingleChild.SingleLive, Path.Valid, Path.First, Path.Noted;
    PathIsRun(p);
    states, events := p.States(), p.Events();
  }

  /** Agent a exited, with the child of its row as it was. */
  function ExitedState(s: State, a: AgentId): State
    requires a in s.db.agents
  {
    s.(db := s.db.(agents := s.db.agents[a := s.db.agents[a].(status := Exited)]))
  }

  lemma KillCutAtAppend(p: Path, t: Tid, a: AgentId, h: Handle) returns (q: Path)
    requires p.Valid() && t !in p.s.threads && a !in p.s.locks && IsActive(p.s.db, a) && p.s.db.agents[a].handle == h
    ensures Extends(p, q, [Fails(Exit(ExitLog(a, h, true, Finish)))])
    ensures q.s == ExitedState(p.s, a).(tally := q.s.tally)
  {
    hide Path.Valid, Path.First, Path.Noted;
    q := KillReads(p, t, a);
    q := ExitFlips(q, t, a, h, true, Finish);
    q := ExitLogFails(q, t, a, h);
  }

  lemma KillCutAtKill(p: Path, t: Tid, a: AgentId, h: Handle) returns (q: Path)
    requires p.Valid() && t !in p.s.threads && a !in p.s.locks && IsActive(p.s.db, a) && p.s.db.agents[a].handle == h
    ensures Extends(p, q, [Fails(Exit(KillTerm(a, h, Finish)))])
    ensures q.s == ExitedState(p.s, a).(tally := q.s.tally)
  {
    hide Path.Valid, Path.First, Path.Noted;
    q := KillReads(p, t, a);
    q := ExitFlips(q, t, a, h, true, Finish);
    q := KillTermFails(q, t, a, h);
  }

  /** The one agent is exited and still runs; now it is respawned by hand. */
  lemma Doubled(p: Path, noted: seq<Deviation>) returns (states: seq<State>, events: seq<Event>)
    requires p.Valid() && Init(p.First()) && p.Noted() + [ByHand(0)] == noted
    requires var s := ExitedState(Running(), 0);
      p.s == s.(minted := p.s.minted, tally := p.s.tally)
    ensures Doubles(states, events, noted)
  {
    hide Init, Path.Valid, Path.First, Path.Noted, SingleChild.SingleLive, Doubles;
    var q := RespawnDoubles(p, 1, 0, 1, 1);
    states, events := PathDoubles(q, noted);
  }

  /** The EventExited append of an agent kill fails: the kill returns with the child running. */
  lemma AppendFaultDoubles() returns (states: seq<State>, events: seq<Event>)
    ensures Doubles(states, events, [Fails(Exit(ExitLog(0, 0, true, Finish))), ByHand(0)])
  {
    hide Init, Path.Valid, Path.First, Path.Noted, Doubles;
    RunningStarts();
    var p := Starts(Running());
    p := KillCutAtAppend(p, 1, 0, 0);
    states, events := Doubled(p, [Fails(Exit(ExitLog(0, 0, true, Finish))), ByHand(0)]);
  }

  /** The backend kill of an agent kill fails. */
  lemma KillFaultDoubles() returns (states: seq<State>, events: seq<Event>)
    ensures Doubles(states, events, [Fails(Exit(KillTerm(0, 0, Finish))), ByHand(0)])
  {
    hide Init, Path.Valid, Path.First, Path.Noted, Doubles;
    RunningStarts();
    var p := Starts(Running());
    p := KillCutAtKill(p, 1, 0, 0);
    states, events := Doubled(p, [Fails(Exit(KillTerm(0, 0, Finish))), ByHand(0)]);
  }

  // ---------------------------------------------------------------- a compensation

  /** A spawn that waits for its lock, its child running. */
  lemma SpawnPends() returns (p: Path)
    ensures p.Valid() && Init(p.First()) && p.Noted() == []
    ensures p.s == NoAgents().(threads := map[1 := Launch(LockNew(0, 0, 0, 0))], minted := map[0 := 1],
                               world := NoAgents().world.Spawn(0, Alone(0)), tally := p.s.tally)
  {
    hide Init, Path.Valid, Path.First, Path.Noted;
    NobodyStarts();
    p := Starts(NoAgents());
    p := SpawnStarts(p, 1, 0);
    p := SpawnLaunches(p, 1, 0, 0, 0, 0);
  }

  const RECHECK := Check(CheckWorkstream(Active, 0, PostInsert(0, Spawned)))

  /** A spawn whose re-check cannot read the workstream, about to compensate. */
  lemma SpawnCompensates() returns (p: Path)
    ensures p.Valid() && Init(p.First()) && p.Noted() == [Fails(RECHECK)]
    ensures p.s == Running().(threads := map[1 := Launch(CompRead(0, Spawned))], locks := map[0 := 1],
                              minted := map[0 := 1], tally := p.s.tally)
  {
    hide Init, Path.Valid, Path.First, Path.Noted;
    p := SpawnPends();
    p := SpawnInserts(p, 1, 0, 0, 0, 0);
    p := RecheckFails(p, 1, 0, 0);
  }

  /** It cannot read the row it is to compensate: it sets the row Exited and kills nothing. */
  lemma CompReadFaultDoubles() returns (states: seq<State>, events: seq<Event>)
    ensures Doubles(states, events, [Fails(RECHECK), Fails(Launch(CompRead(0, Spawned))), ByHand(0)])
  {
    hide Init, Path.Valid, Path.First, Path.Noted, Doubles;
    var p := SpawnCompensates();
    p := CompReadFails(p, 1, 0);
    p := UndoneEnds(p, 1, 0);
    states, events := Doubled(p, [Fails(RECHECK), Fails(Launch(CompRead(0, Spawned))), ByHand(0)]);
  }

  /** Its second status write fails, after the first has set the row Exited. */
  lemma SecondFlipFaultDoubles() returns (states: seq<State>, events: seq<Event>)
    ensures Doubles(states, events, [Fails(RECHECK), Fails(Exit(ExitFlip(0, 0, true, ToUndo(Spawned)))), ByHand(0)])
  {
    hide Init, Path.Valid, Path.First, Path.Noted, Doubles;
    var p := SpawnCompensates();
    p := CompensationFlips(p, 1, 0);
    p := SecondFlipFails(p, 1, 0, 0);
    p := UndoneEnds(p, 1, 0);
    states, events := Doubled(p, [Fails(RECHECK), Fails(Exit(ExitFlip(0, 0, true, ToUndo(Spawned)))), ByHand(0)]);
  }

  // ---------------------------------------------------------------- a new terminal

  /** A lane that finds its one agent vanished spawns a terminal for it. */
  lemma LaneSpawns(p: Path, t: Tid, a: AgentId, h: Handle, n: Nonce) returns (q: Path)
    requires p.Valid() && t !in p.s.threads && a !in p.s.locks && p.s.world.Fresh(h, n)
    requires p.s.db.AgentsOfWorkstream(0) == {a} && IsActive(p.s.db, a) && p.s.Home(a).Some?
    requires p.s.db.agents[a].handle !in p.s.world.present && p.s.db.agents[a].restarts < RESTART_BUDGET
    ensures Extends(p, q, [])
    ensures q.s == p.s.(
      db := p.s.db.(agents := p.s.db.agents[a := p.s.db.agents[a].(restarts := p.s.db.agents[a].restarts + 1)]),
      threads := p.s.threads[t := Resume(Persist(a, h, n, []))],
      locks := p.s.locks[a := t],
      world := p.s.world.Spawn(h, Incarnation(a, n, p.s.Home(a).value)),
      tally := q.s.tally)
  {
    hide Path.Valid, Path.First, Path.Noted, World.Fresh, Db.AgentsOfWorkstream;
    q := LaneFinds(p, t, 0, a);
    q := LaneReads(q, t, a);
    q := LaneMarks(q, t, a, Vanished(a, p.s.db.agents[a].handle));
    q := RespawnSpawns(q, t, a, h, n);
  }

  lemma OneAgent(db: Db, a: AgentId, row: AgentRow)
    requires db.agents == map[a := row] && row.sprint in db.sprints && db.sprints[row.sprint].workstream == 0
    ensures db.AgentsOfWorkstream(0) == {a}
  {}

  lemma FirstTryFails() returns (p: Path)
    ensures p.Valid() && Init(p.First())
    ensures p.Noted() == [Fails(Resume(Persist(0, 1, 1, []))), Fails(Resume(KillNew(0, 1, [])))]
    ensures p.s == Gone(Active).(
      db := Gone(Active).db.(agents := map[0 := Agent(0, Active).(restarts := 1)]),
      world := Gone(Active).world.Spawn(1, Incarnation(0, 1, 0)), tally := p.s.tally)
  {
    hide Init, Path.Valid, Path.First, Path.Noted;
    GoneStarts(Active);
    p := Starts(Gone(Active));
    OneAgent(p.s.db, 0, Agent(0, Active));
    p := LaneSpawns(p, 1, 0, 1, 1);
    p := KillNewFails(p, 1, 0, 1, 1);
  }

  /** A respawn can neither record its terminal nor kill it: the row still looks vanished, and the
      next tick respawns it once more. */
  lemma KillNewFaultDoubles() returns (states: seq<State>, events: seq<Event>)
    ensures Doubles(states, events, [Fails(Resume(Persist(0, 1, 1, []))), Fails(Resume(KillNew(0, 1, [])))])
  {
    hide Init, Path.Valid, Path.First, Path.Noted, Doubles, SingleChild.SingleLive;
    var p := FirstTryFails();
    OneAgent(p.s.db, 0, Agent(0, Active).(restarts := 1));
    p := LaneSpawns(p, 1, 0, 2, 2);
    NotSingle(p.s.world, 1, 2);
    states, events := PathDoubles(p, [Fails(Resume(Persist(0, 1, 1, []))), Fails(Resume(KillNew(0, 1, [])))]);
  }

  // ---------------------------------------------------------------- an adopt

  /** An adopt of that session overlooks the child, and launches a second. */
  lemma OverlookedStopDoubles() returns (states: seq<State>, events: seq<Event>)
    ensures Doubles(states, events, [Overlooks(Adopt(AdoptStop(0, false)))])
  {
    hide Init, Path.Valid, Path.First, Path.Noted, Doubles, SingleChild.SingleLive;
    var p := SpawnPends();
    p := AdoptChecks(p, 2, 0, false);
    p := AdoptMisses(p, 2, 0, false);
    p := AdoptPlaces(p, 2, 0, 0);
    p := AdoptLaunches(p, 2, 0, 0, 1, 1);
    NotSingle(p.s.world, 0, 1);
    states, events := PathDoubles(p, [Overlooks(Adopt(AdoptStop(0, false)))]);
  }

  /** The one child is stopped, its terminal still listed, and another runs in its place. */
  function Replaced(): World {
    World(map[0 := Alone(0), 1 := Incarnation(0, 1, 0)], {0, 1}, {1}, map[])
  }

  /** An adopt stops the child and launches another. */
  lemma AdoptReplaces() returns (p: Path)
    ensures p.Valid() && Init(p.First()) && p.Noted() == []
    ensures p.s == NoAgents().(
      threads := map[1 := Launch(LockNew(0, 0, 0, 0)), 2 := Launch(Insert(0, 0, 1, 1, Adopted(None)))],
      locks := map[0 := 2], minted := map[0 := 1], named := {0}, world := Replaced(), tally := p.s.tally)
  {
    hide Init, Path.Valid, Path.First, Path.Noted, World.StopChildren;
    p := SpawnPends();
    p := AdoptChecks(p, 2, 0, false);
    p := AdoptStops(p, 2, 0, false);
    p := AdoptPlaces(p, 2, 0, 0);
    Stopped();
    p := AdoptLaunches(p, 2, 0, 0, 1, 1);
  }

  lemma Stopped()
    ensures NoAgents().world.Spawn(0, Alone(0)).StopChildren(0) == World(map[0 := Alone(0)], {0}, {}, map[])
  {}

  /** It can then neither insert its row nor kill what it launched. */
  lemma AdoptStrays() returns (p: Path)
    ensures p.Valid() && Init(p.First())
    ensures p.Noted() == [Fails(Launch(Insert(0, 0, 1, 1, Adopted(None)))),
      Fails(Launch(KillOrphan(0, 1, Adopted(None))))]
    ensures p.s == NoAgents().(
      threads := map[1 := Launch(LockNew(0, 0, 0, 0))], minted := map[0 := 1], named := {0}, world := Replaced(),
      tally := p.s.tally)
  {
    hide Init, Path.Valid, Path.First, Path.Noted, Replaced;
    p := AdoptReplaces();
    p := AdoptFailsToInsert(p, 2, 0, 0, 1, 1);
    p := AdoptEnds(p, 2, 0);
  }

  /** The spawn inserts its row for the child that was stopped. */
  lemma SpawnGoesOn(p: Path) returns (q: Path)
    requires p.Valid() && p.s.threads == map[1 := Launch(LockNew(0, 0, 0, 0))] && p.s.locks == map[]
    requires p.s.db == NoAgents().db
    ensures Extends(p, q, [])
    ensures q.s == p.s.(db := Running().db, threads := map[], tally := q.s.tally)
  {
    hide Path.Valid, Path.First, Path.Noted;
    q := SpawnInserts(p, 1, 0, 0, 0, 0);
    q := SpawnEnds(q, 1, 0, 0);
  }

  /** A tick finds the row's terminal gone and respawns it. */
  lemma KillOrphanFaultDoubles() returns (states: seq<State>, events: seq<Event>)
    ensures Doubles(states, events,
      [Fails(Launch(Insert(0, 0, 1, 1, Adopted(None)))), Fails(Launch(KillOrphan(0, 1, Adopted(None))))])
  {
    hide Init, Path.Valid, Path.First, Path.Noted, Doubles, SingleChild.SingleLive;
    var p := AdoptStrays();
    p := SpawnGoesOn(p);
    p := Vanishes(p, 0);
    OneAgent(p.s.db, 0, Agent(0, Active));
    p := LaneSpawns(p, 2, 0, 2, 2);
    NotSingle(p.s.world, 1, 2);
    states, events := PathDoubles(p,
      [Fails(Launch(Insert(0, 0, 1, 1, Adopted(None)))), Fails(Launch(KillOrphan(0, 1, Adopted(None))))]);
  }

  // ---------------------------------------------------------------- a container activated again

  /** The sprint 0 killed, and nothing else changed in the containers. */
  function SprintDown(s: State): State {
    s.(db := s.db.(sprints := map[0 := SprintRow(0, Killed)]))
  }

  lemma SprintKillFlips(p: Path, xs: seq<AgentId>, t: Tid) returns (q: Path)
    requires p.Valid() && t !in p.s.threads && p.s.db.sprints == map[0 := SprintRow(0, Active)]
    requires Lists(xs, p.s.db.ActiveAgentsOf(0))
    ensures Extends(p, q, [])
    ensures q.s == SprintDown(p.s).(threads := p.s.threads[t := Cascade(Next(Killing(xs, [])))], tally := q.s.tally)
  {
    hide Path.Valid, Path.First, Path.Noted, Db.ActiveAgentsOf, Lists;
    q := SprintKillReads(p, t, 0);
    q := SprintKillLists(q, t, 0, xs);
  }

  /** A cascade's visit to the first agent, up to its append. */
  lemma CascadeExits(p: Path, t: Tid, a: AgentId, h: Handle, xs: seq<AgentId>) returns (q: Path)
    requires p.Valid() && t in p.s.threads && p.s.threads[t] == Cascade(Next(Killing([a] + xs, [])))
    requires IsActive(p.s.db, a) && a !in p.s.locks && p.s.db.agents[a].handle == h
    ensures Extends(p, q, [])
    ensures q.s == ExitedState(p.s, a).(
      threads := p.s.threads[t := Exit(ExitLog(a, h, false, ToCascade(Killing(xs, [a]))))],
      locks := p.s.locks[a := t], tally := q.s.tally)
  {
    hide Path.Valid, Path.First, Path.Noted;
    q := CascadeReads(p, t, a, xs);
    q := ExitFlips(q, t, a, h, false, ToCascade(Killing(xs, [a])));
  }

  lemma TeardownLeaves(p: Path, t: Tid, a: AgentId, h: Handle) returns (q: Path)
    requires p.Valid() && p.s.threads == map[t := Cascade(TearNext([a]))]
    requires p.s.locks == map[] && a in p.s.db.agents && p.s.db.agents[a].handle == h
    ensures Extends(p, q, [Fails(Exit(KillTerm(a, h, ToTear([]))))])
    ensures q.s == p.s.(threads := map[], locks := map[], tally := q.s.tally)
  {
    hide Path.Valid, Path.First, Path.Noted;
    q := TearReads(p, t, a);
    q := TearFails(q, t, a, h);
    q := TearEnds(q, t);
  }

  /** The end of a sprint kill that cannot tear the terminal of its one agent down. */
  lemma SprintKillLeaves(p: Path, t: Tid, a: AgentId, h: Handle) returns (q: Path)
    requires p.Valid() && p.s.threads == map[t := Exit(ExitLog(a, h, false, ToCascade(Killing([], [a]))))]
    requires p.s.locks == map[a := t] && a in p.s.db.agents && p.s.db.agents[a].handle == h
    ensures Extends(p, q, [Fails(Exit(KillTerm(a, h, ToTear([]))))])
    ensures q.s == p.s.(threads := map[], locks := map[], tally := q.s.tally)
  {
    hide Path.Valid, Path.First, Path.Noted;
    q := CascadeAppends(p, t, a, h, []);
    q := CascadeTears(q, t, [a]);
    q := TeardownLeaves(q, t, a, h);
  }

  /** A sprint kill leaves its one agent's child running; the sprint is activated again, and the
      agent respawned. */
  lemma ReactivationDoubles() returns (states: seq<State>, events: seq<Event>)
    ensures Doubles(states, events,
      [Fails(Exit(KillTerm(0, 0, ToTear([])))), Activates(ActivateSprint(0)), ByHand(0)])
  {
    hide Init, Path.Valid, Path.First, Path.Noted, Doubles, Lists, Killing;
    RunningStarts();
    var p := Starts(Running());
    OneToList(p.s.db, 0);
    p := SprintKillFlips(p, [0], 1);
    assert [0] == [0] + [];
    p := CascadeExits(p, 1, 0, 0, []);
    p := SprintKillLeaves(p, 1, 0, 0);
    p := Reopens(p, 0);
    states, events := Doubled(p, [Fails(Exit(KillTerm(0, 0, ToTear([])))), Activates(ActivateSprint(0)), ByHand(0)]);
  }

  lemma OneToList(db: Db, a: AgentId)
    requires db.agents == map[a := Agent(a, Active)]
    ensures Lists([a], db.ActiveAgentsOf(0))
  {
    assert db.ActiveAgentsOf(0) == {a};
  }

  lemma TwoToList(db: Db)
    requires db.agents == TwoRunning().db.agents
    ensures Lists([0, 1], db.ActiveAgentsOf(0))
  {
    assert db.ActiveAgentsOf(0) == {0, 1};
  }

  lemma NobodyToList(db: Db)
    requires db.agents == map[0 := Agent(0, Exited)]
    ensures Lists([], db.ActiveAgentsOf(0))
  {
    assert db.ActiveAgentsOf(0) == {};
  }

  // ---------------------------------------------------------------- orphans

  /** A run of this kind ends with every thread finished and an orphan. */
  ghost predicate Orphans(states: seq<State>, events: seq<Event>, noted: seq<Deviation>) {
    && IsRun(states, events) && Deviations(states, events) == noted
    && states[|events|].threads == map[] && !NoOrphan(states[|events|].db)
  }

  lemma PathOrphans(p: Path, noted: seq<Deviation>, a: AgentId) returns (states: seq<State>, events: seq<Event>)
    requires p.Valid() && Init(p.First()) && p.Noted() == noted && p.s.threads == map[]
    requires IsActive(p.s.db, a) && DeadHierarchy(p.s.db, p.s.db.agents[a].sprint)
    ensures Orphans(states, events, noted)
  {
    hide Init, IsRun, Path.Valid, Path.First, Path.Noted;
    PathIsRun(p);
    states, events := p.States(), p.Events();
  }

  /** A sprint kill over two agents is cut short by the append for the first: the second, listed
      and not yet visited, stays Active for good. */
  lemma CutCascadeOrphans() returns (states: seq<State>, events: seq<Event>)
    ensures Orphans(states, events, [Fails(Exit(ExitLog(0, 0, false, ToCascade(Killing([1], [0])))))])
  {
    hide Init, Path.Valid, Path.First, Path.Noted, Orphans, Lists, Killing;
    TwoStart();
    var p := Starts(TwoRunning());
    TwoToList(p.s.db);
    p := SprintKillFlips(p, [0, 1], 1);
    assert [0, 1] == [0] + [1];
    p := CascadeExits(p, 1, 0, 0, [1]);
    p := CascadeCut(p, 1, 0, 0, [1]);
    p := CutCascadeEnds(p, 1);
    states, events := PathOrphans(p, [Fails(Exit(ExitLog(0, 0, false, ToCascade(Killing([1], [0])))))], 1);
  }

  /** A sprint kill that finds no Active agent. */
  lemma SprintKillFindsNobody(p: Path, t: Tid) returns (q: Path)
    requires p.Valid() && t !in p.s.threads && p.s.db.sprints == map[0 := SprintRow(0, Active)]
    requires Lists([], p.s.db.ActiveAgentsOf(0))
    ensures Extends(p, q, []) && q.s == SprintDown(p.s).(tally := q.s.tally)
  {
    hide Path.Valid, Path.First, Path.Noted, Lists;
    q := SprintKillFlips(p, [], t);
    q := CascadeTears(q, t, []);
    q := TearEnds(q, t);
  }

  lemma RespawnGoesOn(p: Path, t: Tid, a: AgentId, h: Handle, n: Nonce) returns (q: Path)
    requires p.Valid() && t in p.s.threads && p.s.threads[t] == Resume(RespawnMark(a))
    requires p.s.Home(a).Some? && p.s.world.Fresh(h, n)
    ensures Extends(p, q, []) && q.s.threads == p.s.threads - {t} && IsActive(q.s.db, a)
    ensures q.s.db == p.s.db.(agents := q.s.db.agents) && q.s.db.agents[a].sprint == p.s.db.agents[a].sprint
  {
    hide Path.Valid, Path.First, Path.Noted, World.Fresh;
    q := RespawnActivates(p, t, a);
    q := RespawnSpawns(q, t, a, h, n);
    q := RespawnEnds(q, t, a, h, n);
  }

  /** A respawn by hand has passed its check; a sprint kill then flips the sprint, finds no Active
      agent and ends; the respawn sets the row Active below it. No call fails. */
  lemma RespawnOrphans() returns (states: seq<State>, events: seq<Event>)
    ensures Orphans(states, events, [ByHand(0)])
  {
    hide Init, Path.Valid, Path.First, Path.Noted, Orphans, Lists;
    GoneStarts(Exited);
    var p := Starts(Gone(Exited));
    p := RespawnPasses(p, 1, 0);
    NobodyToList(p.s.db);
    p := SprintKillFindsNobody(p, 2);
    p := RespawnGoesOn(p, 1, 0, 1, 1);
    states, events := PathOrphans(p, [ByHand(0)], 0);
  }

  // ---------------------------------------------------------------- a relocation

  /** A relocating adopt that has minted its workstream. */
  lemma Relocates(p: Path, t: Tid, a: AgentId, w: WorkstreamId, sprint: SprintId) returns (q: Path)
    requires p.Valid() && t !in p.s.threads && a !in p.s.locks && a !in p.s.db.agents && p.s.placement == None
    requires w !in p.s.db.workstreams && sprint !in p.s.db.sprints && 0 in p.s.db.repos
    ensures Extends(p, q, [])
    ensures q.s == p.s.(
      db := p.s.db.InsertWorkstream(w, 0).InsertSprint(sprint, w), locks := p.s.locks[a := t],
      placement := Some(t), threads := p.s.threads[t := Adopt(AdoptRename(a, w, sprint))],
      world := p.s.world.StopChildren(a), named := p.s.named + {a}, relocs := p.s.relocs[w := a], tally := q.s.tally)
  {
    hide Path.Valid, Path.First, Path.Noted, World.StopChildren;
    q := AdoptChecks(p, t, a, true);
    q := AdoptStops(q, t, a, true);
    q := RelocationMints(q, t, a, w, 0);
    q := RelocationPlans(q, t, a, w, sprint);
  }

  /** A run of this kind ends with an adopt refused that was to relocate session 7 into
      workstream 1, which it had minted. */
  ghost predicate Refuses(states: seq<State>, events: seq<Event>, noted: seq<Deviation>) {
    && IsRun(states, events) && Deviations(states, events) == noted
    && states[|events|].threads == map[1 := Adopt(Refused(7, Some(1)))]
  }

  lemma PathRefuses(p: Path, noted: seq<Deviation>) returns (states: seq<State>, events: seq<Event>)
    requires p.Valid() && Init(p.First()) && p.Noted() == noted && p.s.threads == map[1 := Adopt(Refused(7, Some(1)))]
    ensures Refuses(states, events, noted) && states[|events|] == p.s
  {
    hide Init, IsRun, Path.Valid, Path.First, Path.Noted;
    PathIsRun(p);
    states, events := p.States(), p.Events();
  }

  /** An adopt that relocates session 7 into workstream 1, up to its rename. */
  lemma RelocationStarts() returns (p: Path)
    ensures p.Valid() && Init(p.First()) && p.Noted() == []
    ensures p.s == NoAgents().(
      db := Minted(), locks := map[7 := 1], placement := Some(1), threads := map[1 := Adopt(AdoptRename(7, 1, 1))],
      named := {7}, relocs := map[1 := 7], tally := p.s.tally)
  {
    hide Init, Path.Valid, Path.First, Path.Noted, World.StopChildren;
    NobodyStarts();
    p := Starts(NoAgents());
    NothingToStop();
    p := Relocates(p, 1, 7, 1, 1);
  }

  lemma NothingToStop()
    ensures NoAgents().world.StopChildren(7) == NoAgents().world
  {}

  /** The tables with the minted workstream and its sprint. */
  function Minted(): Db { NoAgents().db.InsertWorkstream(1, 0).InsertSprint(1, 1) }

  /** The insert of the minted workstream's sprint fails. */
  lemma SprintInsertFaultLeavesWorkstream() returns (states: seq<State>, events: seq<Event>)
    ensures Refuses(states, events, [Fails(Adopt(AdoptSprint(7, 1)))]) && !Relocate.Down(states[|events|].db, 1)
  {
    hide Init, Path.Valid, Path.First, Path.Noted, World.StopChildren, Refuses;
    NobodyStarts();
    var p := Starts(NoAgents());
    p := AdoptChecks(p, 1, 7, true);
    p := AdoptStops(p, 1, 7, true);
    p := RelocationMints(p, 1, 7, 1, 0);
    p := SprintInsertFails(p, 1, 7, 1);
    states, events := PathRefuses(p, [Fails(Adopt(AdoptSprint(7, 1)))]);
  }

  /** The rename fails, and then the read that the teardown begins with. */
  lemma TeardownFaultLeavesWorkstream() returns (states: seq<State>, events: seq<Event>)
    ensures Refuses(states, events, [Fails(Adopt(AdoptRename(7, 1, 1))), Fails(Adopt(UndoRead(7, 1, true)))])
    ensures !Relocate.Down(states[|events|].db, 1)
  {
    hide Init, Path.Valid, Path.First, Path.Noted, Refuses;
    var p := RelocationStarts();
    p := RelocationFails(p, 1, 7, 1, 1);
    p := TeardownFails(p, 1, 7, 1);
    states, events := PathRefuses(p, [Fails(Adopt(AdoptRename(7, 1, 1))), Fails(Adopt(UndoRead(7, 1, true)))]);
  }

  /** The cascade of the teardown, about to flip the workstream. */
  const TEARDOWN := Cascade(CascadePc.Next(Visiting([1], [], false, Some(Undoing(7, 1, true)))))

  /** The rename fails, and then the flip of the workstream. */
  lemma TeardownFlipFaultLeavesWorkstream() returns (states: seq<State>, events: seq<Event>)
    ensures Refuses(states, events, [Fails(Adopt(AdoptRename(7, 1, 1))), Fails(TEARDOWN)])
    ensures !Relocate.Down(states[|events|].db, 1)
  {
    hide Init, Path.Valid, Path.First, Path.Noted, Refuses;
    var p := RelocationStarts();
    p := RelocationFails(p, 1, 7, 1, 1);
    p := TeardownReads(p, 1, 7, 1, true);
    p := TeardownFlipFails(p, 1, 7, 1);
    p := TeardownRefuses(p, 1, 7, 1);
    states, events := PathRefuses(p, [Fails(Adopt(AdoptRename(7, 1, 1))), Fails(TEARDOWN)]);
  }

  /** The whole teardown of workstream 1 and its sprint, from the read on. */
  lemma TearsDown(p: Path, xs: seq<AgentId>) returns (q: Path)
    requires p.Valid() && p.s.threads == map[1 := Adopt(UndoRead(7, 1, false))]
    requires p.s.db == Minted().(agents := p.s.db.agents)
    requires (xs == [] || xs == [7]) && Lists(xs, p.s.db.ActiveAgentsOf(1))
    ensures Extends(p, q, [])
    ensures q.s.threads == map[1 := Adopt(Refused(7, Some(1)))] && q.s.locks == p.s.locks
    ensures q.s.db.agents == p.s.db.agents && q.s.world.moved == p.s.world.moved
    ensures q.s.db.sprints == p.s.db.sprints[1 := SprintRow(1, Killed)]
  {
    hide Path.Valid, Path.First, Path.Noted, World.KillWorkspace, Lists;
    q := TeardownDescends(p, xs);
    if xs == [7] { q := TeardownSkips(q, 1, Undoing(7, 1, false)); }
    q := TeardownClears(q, 1, Undoing(7, 1, false));
    q := TeardownEnds(q, 1, 7, 1);
    WorkspaceOnly(p.s.world, 1);
  }

  lemma WorkspaceOnly(world: World, w: WorkstreamId)
    ensures world.KillWorkspace(w).moved == world.moved
  {}

  lemma TeardownDescends(p: Path, xs: seq<AgentId>) returns (q: Path)
    requires p.Valid() && p.s.threads == map[1 := Adopt(UndoRead(7, 1, false))]
    requires p.s.db == Minted().(agents := p.s.db.agents) && Lists(xs, p.s.db.ActiveAgentsOf(1))
    ensures Extends(p, q, [])
    ensures q.s.threads == map[1 := Cascade(CascadePc.Next(Undoes(Undoing(7, 1, false), [], xs, true)))]
    ensures q.s == p.s.(db := q.s.db, threads := q.s.threads, tally := q.s.tally) && q.s.db.agents == p.s.db.agents
    ensures q.s.db.sprints == p.s.db.sprints[1 := SprintRow(1, Killed)]
  {
    hide Path.Valid, Path.First, Path.Noted, Lists;
    q := TeardownReads(p, 1, 7, 1, false);
    assert q.s.db.ActiveSprintsOf(1) == {1};
    q := TeardownFlips(q, 1, Undoing(7, 1, false), 1);
    assert q.s.db.ActiveAgentsOf(1) == p.s.db.ActiveAgentsOf(1);
    q := TeardownLists(q, 1, Undoing(7, 1, false), 1, xs);
  }

  /** The launch fails, and then the rename of the transcript back. */
  lemma RenameBackFaultLeavesTranscript() returns (states: seq<State>, events: seq<Event>)
    ensures Refuses(states, events,
      [Fails(Adopt(AdoptLaunch(7, 1, Some(1)))), Fails(Launch(UndoLaunch(7, Adopted(Some(1)))))])
    ensures 7 in states[|events|].world.moved
  {
    hide Init, Path.Valid, Path.First, Path.Noted, Refuses, Lists;
    var p := RelocationStarts();
    p := RelocationMoves(p, 1, 7, 1, 1);
    p := RelocatedLaunchFails(p, 1, 7, 1, 1);
    p := RenameBackFails(p, 1, 7, 1);
    NobodyHere(p.s.db);
    p := TearsDown(p, []);
    states, events := PathRefuses(p,
      [Fails(Adopt(AdoptLaunch(7, 1, Some(1)))), Fails(Launch(UndoLaunch(7, Adopted(Some(1)))))]);
  }

  lemma NobodyHere(db: Db)
    requires db.agents == map[]
    ensures Lists([], db.ActiveAgentsOf(1))
  {
    assert db.ActiveAgentsOf(1) == {};
  }

  lemma OneHere(db: Db)
    requires db.agents == map[7 := AgentRow(1, 0, 0, Active, 0)]
    ensures Lists([7], db.ActiveAgentsOf(1))
  {
    assert db.ActiveAgentsOf(1) == {7};
  }

  /** What goes wrong when a relocated launch is compensated in vain. */
  function InVain(): seq<Deviation> {
    [Fails(Launch(LogSpawned(7, Adopted(Some(1))))),
     Fails(Launch(CompFlip(7, Some(AgentRow(1, 0, 0, Active, 0)), Adopted(Some(1)))))]
  }

  /** It has launched and inserted its row. */
  lemma RelocatedRow() returns (p: Path)
    ensures p.Valid() && Init(p.First()) && p.Noted() == []
    ensures p.s.threads == map[1 := Check(CheckSprint(1, PostInsert(7, Adopted(Some(1)))))] && p.s.locks == map[7 := 1]
    ensures p.s.db == Minted().(agents := map[7 := AgentRow(1, 0, 0, Active, 0)])
  {
    hide Init, Path.Valid, Path.First, Path.Noted;
    p := RelocationStarts();
    p := RelocationMoves(p, 1, 7, 1, 1);
    p := RelocatedLaunches(p, 1, 7, 1, 1, 0, 0);
  }

  lemma ReChecked() returns (p: Path)
    ensures p.Valid() && Init(p.First()) && p.Noted() == []
    ensures p.s.threads == map[1 := Launch(LogSpawned(7, Adopted(Some(1))))] && p.s.locks == map[7 := 1]
    ensures p.s.db == Minted().(agents := map[7 := AgentRow(1, 0, 0, Active, 0)])
  {
    hide Init, Path.Valid, Path.First, Path.Noted;
    p := RelocatedRow();
    p := Checks(p, 1, 1, PostInsert(7, Adopted(Some(1))));
  }

  lemma CompensatesInVain() returns (p: Path)
    ensures p.Valid() && Init(p.First()) && p.Noted() == InVain()
    ensures p.s.threads == map[1 := Adopt(UndoRead(7, 1, false))] && p.s.locks == map[7 := 1]
    ensures p.s.db == Minted().(agents := map[7 := AgentRow(1, 0, 0, Active, 0)])
  {
    hide Init, Path.Valid, Path.First, Path.Noted, InVain;
    p := ReChecked();
    p := AdoptedAppendFails(p, 1, 7, 1);
    p := RenamesBack(p, 1, 7, 1);
    assert p.Noted() == InVain() by { InVainIs(); }
  }

  lemma InVainIs()
    ensures InVain() == [Fails(Launch(LogSpawned(7, Adopted(Some(1)))))]
      + [Fails(Launch(CompFlip(7, Some(AgentRow(1, 0, 0, Active, 0)), Adopted(Some(1)))))]
  {}

  /** The adopted event and then the compensation's status write fail: the teardown skips the
      agent, which is left Active in a killed workstream when the adopt has returned. */
  lemma CompensationFaultLeavesAgent() returns (states: seq<State>, events: seq<Event>)
    ensures Refuses(states, events, InVain()) && IsActive(states[|events|].db, 7)
  {
    hide Init, Path.Valid, Path.First, Path.Noted, Refuses, Lists, InVain;
    var p := CompensatesInVain();
    OneHere(p.s.db);
    p := TearsDown(p, [7]);
    states, events := PathRefuses(p, InVain());
  }

  lemma CompensationFaultOrphans() returns (states: seq<State>, events: seq<Event>)
    ensures Orphans(states, events, InVain())
  {
    hide Init, Path.Valid, Path.First, Path.Noted, Orphans, Lists, InVain;
    var p := CompensatesInVain();
    OneHere(p.s.db);
    p := TearsDown(p, [7]);
    p := RefusedEnds(p, 1, 7, Some(1));
    states, events := PathOrphans(p, InVain(), 7);
  }
}
