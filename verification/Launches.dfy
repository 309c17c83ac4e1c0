/** What becomes of the terminal a spawn or an adopt launches: the agent runs on it, or it is gone
    and the launch is taken back. */
module Launches {
  import opened Tables
  import opened Protocol
  import opened Interference
  import opened Homes
  import opened Sections
  import opened Requests
  import IncarnationCoherence

  // ---------------------------------------------------------------- from the insert on

  /** What the insert begins: the row goes in, or it cannot. */
  ghost function InsertCourse(s: State, k: LaunchPc, c: Choice, above: Above): Course
    requires k.Insert?
  {
    Launches(AgentRow(k.p, k.h, k.n, Active, 0), k.origin, RowOf(s.db, k.a), !c.Fail? && k.a !in s.db.agents, above)
  }

  lemma InsertStep(s: State, t: Tid, k: LaunchPc, c: Choice, eff: Effect, above: Above)
    requires k.Insert? && StepLaunch(s, k, c) == Some(eff) && k.h in s.world.spawned
    requires above.Dead? ==> DeadHierarchy(s.db, k.p)
    ensures eff.next.Some?
    ensures Phase(InsertCourse(s, k, c, above), s, Perform(s, t, eff), eff.next.value, k.a)
  {
    hide DeadHierarchy, Undoes, Exiting, Withdrawn;
    var s' := Perform(s, t, eff);
    DeadBelow(s.db, s'.db, k.p);
  }

  lemma InsertStarts(s: State, t: Tid, c: Choice, s': State, above: Above)
    requires t in s.threads && s.threads[t].Launch? && s.threads[t].lau.Insert? && Apply(s, Step(t, c)) == Some(s')
    requires s.threads[t].lau.h in s.world.spawned && (above.Dead? ==> DeadHierarchy(s.db, s.threads[t].lau.p))
    ensures t in s'.threads
      && Phase(InsertCourse(s, s.threads[t].lau, c, above), s, s', s'.threads[t], s.threads[t].lau.a)
  {
    hide StepLaunch, DeadHierarchy, Phase;
    var k := s.threads[t].lau;
    InsertStep(s, t, k, c, StepLaunch(s, k, c).value, above);
  }

  lemma DeadBelow(db: Db, db': Db, p: SprintId)
    requires db'.sprints == db.sprints && db'.workstreams == db.workstreams && db'.repos == db.repos
    ensures DeadHierarchy(db', p) == DeadHierarchy(db, p)
  {}

  /** A failing call that a launch under these containers cannot bear. */
  ghost predicate Breaks(states: seq<State>, events: seq<Event>, j: nat, t: Tid, a: AgentId, above: Above)
    requires j < |events| && |states| == |events| + 1
  {
    FailsAt(states, events, j, t) && (!above.Any? || Compensates(states[j].threads[t], a))
  }

  ghost predicate Unbroken(states: seq<State>, events: seq<Event>, i: nat, k: nat, t: Tid, a: AgentId, above: Above)
    requires k < |events| && |states| == |events| + 1
  {
    forall m :: i < m <= k ==> !Breaks(states, events, m, t, a, above)
  }

  lemma InsertBegins(states: seq<State>, events: seq<Event>, q: nat, t: Tid, above: Above)
    requires IsRun(states, events) && q < |events| && Own(events[q], t) && t in states[q].threads
    requires states[q].threads[t].Launch? && states[q].threads[t].lau.Insert?
    requires above.Dead? ==> DeadHierarchy(states[q].db, states[q].threads[t].lau.p)
    ensures var k := states[q].threads[t].lau;
      Starts(InsertCourse(states[q], k, events[q].c, above), states, q, t, k.a)
    ensures t in states[q + 1].threads && Holding(states[q + 1], t, states[q].threads[t].lau.a)
  {
    hide Init, Apply, Phase, DeadHierarchy, Holds, Holding, Base, Homes.ThreadOk;
    var k := states[q].threads[t].lau;
    assert Follows(states, events, q);
    Homes.Along(states, events, q);
    BaseAlong(states, events, q + 1);
    InsertAt(states[q], k);
    InsertStarts(states[q], t, events[q].c, states[q + 1], above);
    PhaseHolds(InsertCourse(states[q], k, events[q].c, above), states[q], states[q + 1], states[q + 1].threads[t], k.a);
    HolderHolds(states[q + 1], t, k.a);
  }

  lemma InsertAt(s: State, k: LaunchPc)
    requires k.Insert? && Homes.ThreadOk(s.db, s.world, Launch(k))
    ensures k.h in s.world.spawned && k.p in s.db.sprints
  {}

  /** From its insert a launch goes on to be kept or withdrawn. */
  lemma InsertSettles(states: seq<State>, events: seq<Event>, q: nat, r: nat, t: Tid, above: Above)
    requires q < |events| && |states| == |events| + 1 && t in states[q].threads
    requires states[q].threads[t].Launch? && states[q].threads[t].lau.Insert?
    requires Section(states, events, q, r, t, states[q].threads[t].lau.a)
    requires Unbroken(states, events, q, r, t, states[q].threads[t].lau.a, above)
    requires AboveStays(above, states, events, q, r + 1, states[q].threads[t].lau.p)
    ensures var k := states[q].threads[t].lau;
      Outcome(InsertCourse(states[q], k, events[q].c, above), states[q], states[r + 1], k.a)
  {
    hide Init, Follows, Starts, FailsAt, Holding, Outcome, DeadHierarchy, Compensates;
    InsertBegins(states, events, q, t, above);
    var k := states[q].threads[t].lau;
    var x := InsertCourse(states[q], k, events[q].c, above);
    forall m | q < m <= r ensures !Spoils(x, states, events, m, t, k.a) {
      assert !Breaks(states, events, m, t, k.a, above);
    }
    SectionEnds(x, states, events, q, r, t, k.a);
  }

  // ---------------------------------------------------------------- from the spawn on

  /** Event i is t's: it launches terminal h for sprint p. */
  ghost predicate LaunchesAt(states: seq<State>, events: seq<Event>, i: nat, t: Tid, h: Handle, p: SprintId)
    requires i < |events| && |states| == |events| + 1
  {
    && Own(events[i], t) && t in states[i].threads && LaunchesFor(states[i].threads[t], p)
    && h !in states[i].world.spawned && h in states[i + 1].world.spawned
  }

  ghost predicate LaunchesFor(pc: Pc, p: SprintId) {
    match pc
    case Launch(LaunchChild(q)) => q == p
    case Adopt(AdoptLaunch(_, q, _)) => q == p
    case _ => false
  }

  lemma LaunchStep(s: State, t: Tid, c: Choice, s': State, h: Handle, p: SprintId)
    requires t in s.threads && LaunchesFor(s.threads[t], p) && Apply(s, Step(t, c)) == Some(s')
    requires h !in s.world.spawned && h in s'.world.spawned
    ensures t in s'.threads && s'.threads[t].Launch?
    ensures var k, inc := s'.threads[t].lau, s'.world.spawned[h];
      (k.LockNew? || k.Insert?) && k.a == inc.session && k.h == h && k.n == inc.nonce && k.p == p
  {
    hide StepCascade, StepAdopt, StepLaunch, StepLane, StepExit, StepCheck, StepResume;
    var eff := Plan(s, s.threads[t], c).value;
    match s.threads[t]
    case Launch(k) => LaunchSpawns(s, k, c, eff);
    case Adopt(k) => AdoptSpawns(s, k, c, eff);
  }

  lemma LaunchSpawns(s: State, k: LaunchPc, c: Choice, eff: Effect)
    requires StepLaunch(s, k, c) == Some(eff) && eff.out.SpawnChild?
    ensures k.LaunchChild? && k.p in s.db.sprints
    ensures eff.next == Some(Launch(LockNew(eff.out.inc.session, k.p, eff.out.h, eff.out.inc.nonce)))
  {}

  lemma AdoptSpawns(s: State, k: AdoptPc, c: Choice, eff: Effect)
    requires StepAdopt(s, k, c) == Some(eff) && eff.out.SpawnChild?
    ensures k.AdoptLaunch? && k.p in s.db.sprints && eff.out.inc.session == k.a
    ensures eff.next == Some(Launch(Insert(k.a, k.p, eff.out.h, eff.out.inc.nonce, Adopted(k.moved))))
  {}

  lemma LockStep(s: State, t: Tid, c: Choice, s': State)
    requires t in s.threads && s.threads[t].Launch? && s.threads[t].lau.LockNew? && Apply(s, Step(t, c)) == Some(s')
    ensures var k := s.threads[t].lau;
      t in s'.threads && s'.threads[t] == Launch(Insert(k.a, k.p, k.h, k.n, Spawned))
  {
    hide StepLane, StepResume, StepExit, StepCheck, StepAdopt, StepCascade;
  }

  /** The launch gets to its insert, a spawn by way of its lock. */
  lemma ReachesInsert(states: seq<State>, events: seq<Event>, i: nat, k: nat, t: Tid, h: Handle, p: SprintId)
    returns (q: nat)
    requires IsRun(states, events) && i < k < |events| && LaunchesAt(states, events, i, t, h, p)
    requires (forall m :: i < m <= k ==> t in states[m].threads) && t !in states[k + 1].threads
    ensures i < q <= k && Own(events[q], t) && t in states[q].threads && states[q].threads[t].Launch?
    ensures var l, inc := states[q].threads[t].lau, states[i + 1].world.spawned[h];
      l.Insert? && l.a == inc.session && l.h == h && l.n == inc.nonce && l.p == p
  {
    hide Init, Apply;
    assert Follows(states, events, i);
    LaunchStep(states[i], t, events[i].c, states[i + 1], h, p);
    q := NextOwn(states, events, i + 1, k, t);
    if states[q].threads[t].lau.LockNew? {
      assert Follows(states, events, q);
      LockStep(states[q], t, events[q].c, states[q + 1]);
      q := NextOwn(states, events, q + 1, k, t);
    }
  }

  /** What a launch that inserts in state s has come to at state s': with its row inserted the agent
      runs on the row's terminal, which has been announced unless something failed, or the terminal
      is gone and the row Exited with its event appended; with no row inserted the terminal is gone
      and whatever row there was is untouched. */
  ghost predicate Settled(s: State, s': State, a: AgentId, row: AgentRow, inserted: bool, above: Above) {
    if inserted then
      || (!above.Dead? && SamePath(s.world, s'.world, a)
          && (Stands(s, s', a, Some(row), 0, 0, 1) || (above.Any? && Stands(s, s', a, Some(row), 0, 0, 0))))
      || (!above.Alive? && row.handle !in s'.world.present && Stands(s, s', a, Some(row.(status := Exited)), 1, 0, 0))
    else
      row.handle !in s'.world.present && Stands(s, s', a, RowOf(s.db, a), 0, 0, 0)
  }

  lemma OutcomeSettles(s: State, s': State, k: LaunchPc, c: Choice, above: Above)
    requires k.Insert? && Outcome(InsertCourse(s, k, c, above), s, s', k.a)
    ensures Settled(s, s', k.a, AgentRow(k.p, k.h, k.n, Active, 0), !c.Fail? && k.a !in s.db.agents, above)
  {
    hide Stands;
  }

  /** Whatever a launch spawns is accounted for when it lets go of its agent's lock. Its insert is
      event q: if that fails or the session has a row already, the terminal is gone and that row is
      untouched; otherwise the agent runs on the terminal in the sprint asked for, or the terminal
      is gone and the row Exited. It is the one if the containers above are Active all along and no
      call fails, the other if one of them is not and none is activated; and whatever else fails it
      is one of them, as long as the kill of the terminal and the calls of the compensation do not. */
  lemma LaunchSettles(states: seq<State>, events: seq<Event>, i: nat, k: nat, t: Tid, h: Handle, p: SprintId,
                      above: Above)
    returns (q: nat, r: nat)
    requires IsRun(states, events) && i < k < |events| && LaunchesAt(states, events, i, t, h, p)
    requires (forall m :: i < m <= k ==> t in states[m].threads) && t !in states[k + 1].threads
    requires AboveStays(above, states, events, i, k + 1, p)
    requires Unbroken(states, events, i, k, t, states[i + 1].world.spawned[h].session, above)
    ensures i < q < r <= k
    ensures var inc := states[i + 1].world.spawned[h];
      && Section(states, events, q, r, t, inc.session)
      && Settled(states[q], states[r + 1], inc.session, AgentRow(p, h, inc.nonce, Active, 0),
                 !events[q].c.Fail? && inc.session !in states[q].db.agents, above)
  {
    hide Init, Follows, Breaks, Holding, Outcome, Settled, AboveStays;
    q := ReachesInsert(states, events, i, k, t, h, p);
    var l := states[q].threads[t].lau;
    AboveLater(above, states, events, i, q, q, k + 1, p);
    InsertBegins(states, events, q, t, above);
    r := LetsGo(states, events, q + 1, k, t, l.a);
    AboveLater(above, states, events, i, q, r + 1, k + 1, p);
    InsertSettles(states, events, q, r, t, above);
    OutcomeSettles(states[q], states[r + 1], l, events[q].c, above);
  }

  // ---------------------------------------------------------------- a spawn's check

  lemma KilledTwice(db: Db, db': Db, db'': Db)
    requires KilledStays(db, db') && KilledStays(db', db'')
    ensures KilledStays(db, db'')
  {}

  lemma KilledSame(db: Db)
    ensures KilledStays(db, db)
  {}

  lemma {:induction false} KilledAlong(states: seq<State>, events: seq<Event>, i: nat, j: nat)
    requires IsRun(states, events) && i <= j < |states| && forall m :: i <= m < j ==> !Reactivates(events[m])
    ensures KilledStays(states[i].db, states[j].db)
    decreases j - i
  {
    hide Init, Apply, Base, GrowsDb, GrowsWorld, KilledStays;
    if i == j {
      KilledSame(states[i].db);
    } else {
      KilledAlong(states, events, i, j - 1);
      BaseAlong(states, events, j - 1);
      assert Follows(states, events, j - 1);
      GrowsNext(states[j - 1], events[j - 1], states[j]);
      KilledTwice(states[i].db, states[j - 1].db, states[j].db);
    }
  }

  /** The thread checks sprint p before it spawns into it, and has read the right containers. */
  ghost predicate Asks(s: State, t: Tid, p: SprintId, above: Above) {
    && t in s.threads && s.threads[t].Check? && s.threads[t].chk.use == PreSpawn(p)
    && Climbs(above, s.db, s.threads[t].chk, p)
  }

  /** Its next read. */
  lemma NextRead(states: seq<State>, events: seq<Event>, j: nat, k: nat, t: Tid, p: SprintId, above: Above)
    returns (m: nat)
    requires IsRun(states, events) && j <= k < |events| && Asks(states[j], t, p, above) && t !in states[k + 1].threads
    requires AboveStays(above, states, events, j, k + 1, p)
    ensures j <= m <= k && Own(events[m], t) && Asks(states[m], t, p, above)
    ensures forall n :: j <= n < m ==> !Own(events[n], t)
  {
    hide Init, Follows, Own, Climbs, DeadHierarchy;
    m := FirstOwn(states, events, j, k, t);
    GrowsAlong(states, events, j, m);
    if above.Dead? { KilledAlong(states, events, j, m); }
    ClimbsStill(above, states[j].db, states[m].db, states[j].threads[t].chk, p);
  }

  lemma {:induction false} FirstOwn(states: seq<State>, events: seq<Event>, j: nat, k: nat, t: Tid) returns (m: nat)
    requires IsRun(states, events) && j <= k < |events| && t in states[j].threads && t !in states[k + 1].threads
    ensures j <= m <= k && Own(events[m], t) && t in states[m].threads
    ensures states[m].threads[t] == states[j].threads[t] && forall n :: j <= n < m ==> !Own(events[n], t)
    decreases k - j
  {
    hide Init, Follows, Own;
    if Own(events[j], t) {
      m := j;
    } else {
      Waits(states, events, j, t);
      m := FirstOwn(states, events, j + 1, k, t);
    }
  }

  lemma AskStep(s: State, t: Tid, c: Choice, s': State, p: SprintId, above: Above)
    requires Asks(s, t, p, above) && Rooted(s.db) && p in s.db.sprints && Apply(s, Step(t, c)) == Some(s')
    requires above.Alive? ==> !DeadHierarchy(s.db, p)
    ensures Untouched(s, s')
    ensures c.Fail? ==> t !in s'.threads
    ensures Asks(s', t, p, above)
      || (!above.Dead? && t in s'.threads && s'.threads[t] == Launch(LaunchChild(p)))
      || ((c.Fail? || !above.Alive?) && t !in s'.threads)
  {
    hide StepLane, StepResume, StepExit, StepLaunch, StepAdopt, StepCascade, StepCheck, DeadHierarchy, Climbs;
    var k := s.threads[t].chk;
    var eff := StepCheck(s, k, c).value;
    if c.Fail? { AskFails(s, k, c, eff); } else { ClimbStep(above, s, k, c, eff, p); }
  }

  lemma AskFails(s: State, k: CheckPc, c: Choice, eff: Effect)
    requires k.use.PreSpawn? && c.Fail? && StepCheck(s, k, c) == Some(eff)
    ensures eff == Stop
  {}

  /** The next read, and where it leads. */
  lemma ReadsOn(states: seq<State>, events: seq<Event>, j: nat, k: nat, t: Tid, p: SprintId, above: Above)
    returns (m: nat)
    requires IsRun(states, events) && j <= k < |events| && Asks(states[j], t, p, above) && t !in states[k + 1].threads
    requires p in states[j].db.sprints && AboveStays(above, states, events, j, k + 1, p)
    ensures j <= m <= k && Own(events[m], t) && Untouched(states[m], states[m + 1]) && t in states[m].threads
    ensures (forall n :: j <= n < m ==> !Own(events[n], t)) && CallAt(states[m].threads[t]) != NoCall
    ensures p in states[m + 1].db.sprints
    ensures t in states[m + 1].threads ==>
      Asks(states[m + 1], t, p, above) || (!above.Dead? && states[m + 1].threads[t] == Launch(LaunchChild(p)))
    ensures t !in states[m + 1].threads ==> events[m].c.Fail? || !above.Alive?
  {
    hide Init, Apply, DeadHierarchy, Climbs, Base;
    m := NextRead(states, events, j, k, t, p, above);
    GrowsAlong(states, events, j, m);
    assert Follows(states, events, m);
    Homes.Along(states, events, m);
    AskStep(states[m], t, events[m].c, states[m + 1], p, above);
  }

  lemma {:induction false} RefusedFrom(states: seq<State>, events: seq<Event>, j: nat, k: nat, t: Tid, p: SprintId)
    requires IsRun(states, events) && j <= k < |events| && Asks(states[j], t, p, Dead) && p in states[j].db.sprints
    requires (forall m :: j <= m <= k ==> t in states[m].threads) && t !in states[k + 1].threads
    requires AboveStays(Dead, states, events, j, k + 1, p)
    ensures forall m :: j <= m <= k && Own(events[m], t) ==> Untouched(states[m], states[m + 1])
    decreases k - j
  {
    hide Init, Follows, Own, Asks, DeadHierarchy, Untouched, CallAt;
    var m := ReadsOn(states, events, j, k, t, p, Dead);
    if m < k {
      DeadAlong(states, events, j, m + 1, p);
      RefusedFrom(states, events, m + 1, k, t, p);
    }
  }

  /** A spawn into a sprint that is under a container which is not Active, and stays so, changes
      nothing: it spawns no terminal and inserts no row. */
  lemma SpawnRefused(states: seq<State>, events: seq<Event>, b: nat, k: nat, t: Tid, p: SprintId)
    requires Request(states, events, b, k, t, Check(CheckSprint(p, PreSpawn(p)))) && p in states[b].db.sprints
    requires AboveStays(Dead, states, events, b, k + 1, p)
    ensures forall m :: b < m <= k && Own(events[m], t) ==> Untouched(states[m], states[m + 1])
  {
    hide Init, Follows, Untouched, DeadHierarchy, Own;
    Begun(states, events, b, k, t, Check(CheckSprint(p, PreSpawn(p))));
    GrowsAlong(states, events, b, b + 1);
    AboveLater(Dead, states, events, b, b + 1, k + 1, k + 1, p);
    RefusedFrom(states, events, b + 1, k, t, p);
  }

  lemma {:induction false} LaunchesFrom(states: seq<State>, events: seq<Event>, j: nat, k: nat, t: Tid, p: SprintId)
    returns (i: nat, h: Handle)
    requires IsRun(states, events) && j <= k < |events| && Asks(states[j], t, p, Alive) && p in states[j].db.sprints
    requires (forall m :: j <= m <= k ==> t in states[m].threads) && t !in states[k + 1].threads
    requires AboveStays(Alive, states, events, j, k + 1, p)
    requires forall m :: j <= m <= k ==> !FailsAt(states, events, m, t)
    ensures j <= i < k && LaunchesAt(states, events, i, t, h, p)
    decreases k - j
  {
    hide Init, Apply, DeadHierarchy, Untouched, Asks, CallAt;
    var m := ReadsOn(states, events, j, k, t, p, Alive);
    assert !FailsAt(states, events, m, t);
    if Asks(states[m + 1], t, p, Alive) {
      i, h := LaunchesFrom(states, events, m + 1, k, t, p);
    } else {
      i := NextOwn(states, events, m + 1, k, t);
      h := LaunchesOnce(states, events, i, t, p);
    }
  }

  lemma LaunchesOnce(states: seq<State>, events: seq<Event>, i: nat, t: Tid, p: SprintId) returns (h: Handle)
    requires IsRun(states, events) && i < |events| && Own(events[i], t) && !FailsAt(states, events, i, t)
    requires t in states[i].threads && states[i].threads[t] == Launch(LaunchChild(p))
    ensures LaunchesAt(states, events, i, t, h, p) && t in states[i + 1].threads
  {
    hide Init, Apply;
    assert Follows(states, events, i);
    h := ChildStep(states[i], t, events[i].c, states[i + 1], p);
  }

  lemma ChildStep(s: State, t: Tid, c: Choice, s': State, p: SprintId) returns (h: Handle)
    requires t in s.threads && s.threads[t] == Launch(LaunchChild(p)) && Apply(s, Step(t, c)) == Some(s') && !c.Fail?
    ensures h !in s.world.spawned && h in s'.world.spawned && t in s'.threads
  {
    hide StepLane, StepResume, StepExit, StepCheck, StepAdopt, StepCascade;
    h := c.h;
  }

  /** A spawn into a sprint whose containers are Active all along launches a terminal for it, unless
      one of its calls fails. */
  lemma SpawnLaunches(states: seq<State>, events: seq<Event>, b: nat, k: nat, t: Tid, p: SprintId)
    returns (i: nat, h: Handle)
    requires Request(states, events, b, k, t, Check(CheckSprint(p, PreSpawn(p)))) && p in states[b].db.sprints
    requires AboveStays(Alive, states, events, b, k + 1, p) && NoneFails(states, events, b, k + 1, t)
    ensures b < i < k && LaunchesAt(states, events, i, t, h, p)
  {
    hide Init, Follows, DeadHierarchy, FailsAt;
    Begun(states, events, b, k, t, Check(CheckSprint(p, PreSpawn(p))));
    GrowsAlong(states, events, b, b + 1);
    i, h := LaunchesFrom(states, events, b + 1, k, t, p);
  }
}
