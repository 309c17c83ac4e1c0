/** What a lane, an agent kill and a respawn by hand do to their agent when none of their calls
    fails, whatever else runs meanwhile. */
module Requests {
  import opened Tables
  import opened Protocol
  import opened Interference
  import opened Homes
  import opened Sections
  import IncarnationCoherence

  // ---------------------------------------------------------------- a death a lane finds

  /** What the lane was told about the agent is about the row's incarnation. */
  ghost predicate Confirmed(db: Db, item: Item) {
    item.a in db.agents &&
    match item
    case Vanished(a, h) => db.agents[a].handle == h
    case Stale(_) => false
    case Reported(a, n) => db.agents[a].nonce == n
  }

  /** The row with which the lane of thread t finds agent a dead: by its observation under the
      lock, or, for a stale agent, by the probe. */
  ghost function Found(s: State, t: Tid, c: Choice, a: AgentId): Option<AgentRow> {
    if t in s.threads && s.threads[t].Lane? && !c.Fail? then
      match s.threads[t].lane
      case LaneRead(item, _) =>
        if item.a == a && Confirmed(s.db, item) && IsActive(s.db, a) then Some(s.db.agents[a]) else None
      case LaneProbe(item, row, _) => if item.a == a && row.handle !in s.world.alive then Some(row) else None
      case _ => None
    else None
  }

  lemma FoundPlan(s: State, k: LanePc, t: Tid, c: Choice, eff: Effect, a: AgentId)
    requires t in s.threads && s.threads[t] == Lane(k) && StepLane(s, k, c) == Some(eff)
    requires Homes.ThreadOk(s.db, s.world, Lane(k)) && IncarnationCoherence.ThreadOk(s.db, s.world, Lane(k))
    requires IncarnationCoherence.CoherentRows(s.db, s.world)
    requires Found(s, t, c, a).Some? && Found(s, t, c, a).value.restarts < RESTART_BUDGET
    ensures eff.next.Some? && Replacing(s, Perform(s, t, eff), eff.next.value, a, Found(s, t, c, a).value, k.rest)
  {
    hide Renewing;
    assert k.item in Queue(Lane(k)) || k.LaneProbe?;
  }

  lemma FoundStarts(states: seq<State>, events: seq<Event>, i: nat, t: Tid, c: Choice, a: AgentId)
    requires IsRun(states, events) && i < |events| && events[i] == Step(t, c)
    requires Found(states[i], t, c, a).Some? && Found(states[i], t, c, a).value.restarts < RESTART_BUDGET
    ensures t in states[i].threads && states[i].threads[t].Lane?
    ensures states[i].threads[t].lane.LaneRead? || states[i].threads[t].lane.LaneProbe?
    ensures Starts(Replaces(Found(states[i], t, c, a).value, states[i].threads[t].lane.rest), states, i, t, a)
  {
    hide Init, Homes.ThreadOk, IncarnationCoherence.ThreadOk, StepLane, Replacing;
    Homes.Along(states, events, i);
    assert Follows(states, events, i);
    var s := states[i];
    FoundPlan(s, s.threads[t].lane, t, c, StepLane(s, s.threads[t].lane, c).value, a);
  }

  /** A death that a lane finds with budget left is answered by a new terminal. From the moment the
      lane finds it to the one it lets go of the agent's lock, if none of its calls fails: the
      terminal the row had is not enumerated any more, one attempt has been made and counted, and
      the row has a terminal spawned in between, in the same workspace; the rest of it is as it
      was. */
  lemma FoundDeadIsReplaced(states: seq<State>, events: seq<Event>, i: nat, k: nat, t: Tid, a: AgentId)
    requires Section(states, events, i, k, t, a) && NoneFails(states, events, i, k + 1, t)
    requires Found(states[i], t, events[i].c, a).Some?
    requires Found(states[i], t, events[i].c, a).value.restarts < RESTART_BUDGET
    ensures var row := Found(states[i], t, events[i].c, a).value;
      && row.handle !in states[k + 1].world.present
      && Renewed(states[i], states[k + 1], a, row.(restarts := row.restarts + 1), 1)
  {
    hide Init, Follows, Starts, Found, Holding;
    FoundStarts(states, events, i, t, events[i].c, a);
    var x := Replaces(Found(states[i], t, events[i].c, a).value, states[i].threads[t].lane.rest);
    NothingSpoils(x, states, events, i, k, t, a);
    SectionEnds(x, states, events, i, k, t, a);
  }

  // ---------------------------------------------------------------- whole requests

  /** Thread t begins at pc with event b and ends with event k. */
  ghost predicate Request(states: seq<State>, events: seq<Event>, b: nat, k: nat, t: Tid, pc: Pc) {
    && IsRun(states, events) && b < k < |events| && events[b] == Begin(t, pc)
    && (forall m :: b < m <= k ==> t in states[m].threads) && t !in states[k + 1].threads
  }

  lemma Begun(states: seq<State>, events: seq<Event>, b: nat, k: nat, t: Tid, pc: Pc)
    requires Request(states, events, b, k, t, pc)
    ensures states[b + 1].threads[t] == pc && Entry(states[b], pc) && Base(states[b + 1])
  {
    hide Init, StepThread, Entry, Base;
    assert Follows(states, events, b);
    BaseAlong(states, events, b + 1);
  }

  /** Others do not end a thread or move it. */
  lemma Waits(states: seq<State>, events: seq<Event>, j: nat, t: Tid)
    requires IsRun(states, events) && j < |events| && t in states[j].threads && !Own(events[j], t)
    ensures t in states[j + 1].threads && states[j + 1].threads[t] == states[j].threads[t]
  {
    hide Init, Apply, Base, Rely, KilledStays, Holds;
    BaseAlong(states, events, j);
    assert Follows(states, events, j);
    Others(states[j], events[j], states[j + 1], t);
  }

  /** The thread's next step, which it takes from where it is. */
  lemma {:induction false} NextOwn(states: seq<State>, events: seq<Event>, j: nat, k: nat, t: Tid) returns (m: nat)
    requires IsRun(states, events) && j <= k < |events| && t in states[j].threads && t !in states[k + 1].threads
    ensures j <= m <= k && Own(events[m], t) && t in states[m].threads
    ensures states[m].threads[t] == states[j].threads[t]
    decreases k - j
  {
    hide Init, Follows, Own;
    if Own(events[j], t) {
      m := j;
    } else {
      Waits(states, events, j, t);
      m := NextOwn(states, events, j + 1, k, t);
    }
  }

  /** When the thread lets go of a lock it holds. */
  lemma {:induction false} LetsGo(states: seq<State>, events: seq<Event>, j: nat, k: nat, t: Tid, a: AgentId)
    returns (m: nat)
    requires IsRun(states, events) && j <= k < |events| && Holding(states[j], t, a) && t !in states[k + 1].threads
    ensures j <= m <= k && (forall n :: j <= n <= m ==> Holding(states[n], t, a)) && !Holding(states[m + 1], t, a)
    decreases k - j
  {
    hide Init, Follows;
    if j < k && Holding(states[j + 1], t, a) {
      m := LetsGo(states, events, j + 1, k, t, a);
    } else {
      m := j;
      if j == k { BaseAlong(states, events, k + 1); }
    }
  }

  /** The row, if there is one. */
  function RowOf(db: Db, a: AgentId): Option<AgentRow> { if a in db.agents then Some(db.agents[a]) else None }

  /** The locks the two requests on one agent begin with. */
  ghost predicate Opens(pc: Pc, a: AgentId) { pc == Exit(KillLock(a)) || pc == Resume(RespawnLock(a)) }

  function ReadOf(pc: Pc, a: AgentId): Pc { if pc.Exit? then Exit(KillRead(a)) else Resume(RespawnRead(a)) }

  lemma OpenStep(s: State, t: Tid, c: Choice, s': State, a: AgentId)
    requires t in s.threads && Opens(s.threads[t], a) && Apply(s, Step(t, c)) == Some(s')
    ensures t in s'.threads && s'.threads[t] == ReadOf(s.threads[t], a)
  {
    hide StepLane, StepCheck, StepLaunch, StepAdopt, StepCascade;
  }

  /** The read under the lock that decides, and the step that lets go of the lock. */
  lemma ReadsUnderLock(states: seq<State>, events: seq<Event>, b: nat, k: nat, t: Tid, a: AgentId, pc: Pc)
    returns (q: nat, r: nat)
    requires Request(states, events, b, k, t, pc) && Opens(pc, a) && NoneFails(states, events, b, k + 1, t)
    ensures b < q <= k && r <= k && Own(events[q], t) && !events[q].c.Fail?
    ensures t in states[q].threads && states[q].threads[t] == ReadOf(pc, a)
    ensures t in states[q + 1].threads && a in Holds(states[q + 1].threads[t]) ==> Section(states, events, q, r, t, a)
  {
    hide Init, Apply, Base;
    Begun(states, events, b, k, t, pc);
    var m := NextOwn(states, events, b + 1, k, t);
    assert Follows(states, events, m);
    OpenStep(states[m], t, events[m].c, states[m + 1], a);
    q := NextOwn(states, events, m + 1, k, t);
    assert !FailsAt(states, events, q, t);
    r := k;
    if t in states[q + 1].threads && a in Holds(states[q + 1].threads[t]) {
      BaseAlong(states, events, q + 1);
      HolderHolds(states[q + 1], t, a);
      r := LetsGo(states, events, q + 1, k, t, a);
    }
  }

  ghost function KillCourse(db: Db, a: AgentId): Course {
    if IsActive(db, a) then Exits(db.agents[a], true, Finish) else Declines(RowOf(db, a), Finish)
  }

  lemma KillStarts(s: State, t: Tid, c: Choice, s': State, a: AgentId)
    requires t in s.threads && s.threads[t] == Exit(KillRead(a)) && !c.Fail? && Apply(s, Step(t, c)) == Some(s')
    ensures t in s'.threads && Phase(KillCourse(s.db, a), s, s', s'.threads[t], a)
  {
    hide StepLane, StepResume, StepCheck, StepLaunch, StepAdopt, StepCascade;
  }

  /** An agent kill that finds its agent Active makes it Exited, with one EventExited, and its
      terminal is not enumerated any more; it leaves any other agent alone. */
  lemma KillRequest(states: seq<State>, events: seq<Event>, b: nat, k: nat, t: Tid, a: AgentId) returns (q: nat, r: nat)
    requires Request(states, events, b, k, t, Exit(KillLock(a))) && NoneFails(states, events, b, k + 1, t)
    ensures b < q < r <= k && Section(states, events, q, r, t, a)
    ensures var s, s' := states[q], states[r + 1];
      if IsActive(s.db, a) then HasExited(s, s', a, s.db.agents[a], true) else Stands(s, s', a, RowOf(s.db, a), 0, 0, 0)
  {
    hide Init, Apply, Phase, HasExited, Stands, Holding, CallAt;
    q, r := ReadsUnderLock(states, events, b, k, t, a, Exit(KillLock(a)));
    var x := KillCourse(states[q].db, a);
    assert Follows(states, events, q);
    KillStarts(states[q], t, events[q].c, states[q + 1], a);
    PhaseHolds(x, states[q], states[q + 1], states[q + 1].threads[t], a);
    Homes.Along(states, events, q);
    assert NoneFails(states, events, q, r + 1, t) by { Later(states, events, b, q, k + 1, r + 1, t); }
    NothingSpoils(x, states, events, q, r, t, a);
    SectionEnds(x, states, events, q, r, t, a);
  }

  lemma Later(states: seq<State>, events: seq<Event>, b: nat, q: nat, k: nat, r: nat, t: Tid)
    requires b <= q && r <= k <= |events| && |states| == |events| + 1 && NoneFails(states, events, b, k, t)
    ensures NoneFails(states, events, q, r, t)
  {}

  // ---------------------------------------------------------------- a respawn by hand

  ghost function RespawnCourse(db: Db, a: AgentId, above: Above): Course {
    if a in db.agents && db.agents[a].status == Exited then Revives(db.agents[a], above)
    else Declines(RowOf(db, a), Finish)
  }

  lemma RespawnStarts(s: State, t: Tid, c: Choice, s': State, a: AgentId, above: Above)
    requires t in s.threads && s.threads[t] == Resume(RespawnRead(a)) && !c.Fail? && Apply(s, Step(t, c)) == Some(s')
    requires a in s.db.agents && above.Dead? ==> DeadHierarchy(s.db, s.db.agents[a].sprint)
    ensures t in s'.threads && Phase(RespawnCourse(s.db, a, above), s, s', s'.threads[t], a)
  {
    hide StepLane, StepExit, StepCheck, StepLaunch, StepAdopt, StepCascade, Renewing, DeadHierarchy;
  }

  /** A dead container stays dead without an activation. */
  lemma {:induction false} DeadAlong(states: seq<State>, events: seq<Event>, i: nat, j: nat, p: SprintId)
    requires IsRun(states, events) && i <= j < |states| && DeadHierarchy(states[i].db, p)
    requires forall m :: i <= m < j ==> !Reactivates(events[m])
    ensures DeadHierarchy(states[j].db, p)
    decreases j - i
  {
    hide Init, Apply, Base, DeadHierarchy, GrowsDb, GrowsWorld, KilledStays;
    if i < j {
      DeadAlong(states, events, i, j - 1, p);
      BaseAlong(states, events, j - 1);
      assert Follows(states, events, j - 1);
      GrowsNext(states[j - 1], events[j - 1], states[j]);
      DeadStays(states[j - 1].db, states[j].db, p);
    }
  }

  lemma DeadStays(db: Db, db': Db, p: SprintId)
    requires GrowsDb(db, db') && KilledStays(db, db') && DeadHierarchy(db, p)
    ensures DeadHierarchy(db', p)
  {}

  /** A respawn by hand of an Exited agent turns its row Active with its count cleared and a
      terminal spawned meanwhile, if the containers above it are Active all along; it leaves the
      agent alone if one of them is not at the start and none is activated. In between it does
      one or the other. An agent it does not find Exited it leaves alone. */
  lemma RespawnRequest(states: seq<State>, events: seq<Event>, b: nat, k: nat, t: Tid, a: AgentId, p: SprintId,
                       above: Above)
    returns (q: nat, r: nat)
    requires Request(states, events, b, k, t, Resume(RespawnLock(a))) && NoneFails(states, events, b, k + 1, t)
    requires a in states[k + 1].db.agents ==> states[k + 1].db.agents[a].sprint == p
    requires AboveStays(above, states, events, b, k + 1, p)
    ensures b < q < r <= k && Section(states, events, q, r, t, a)
    ensures var s, s' := states[q], states[r + 1];
      if a in s.db.agents && s.db.agents[a].status == Exited then
        var row := s.db.agents[a];
        match above
        case Any => Renewed(s, s', a, Revived(row), 1) || Stands(s, s', a, Some(row), 0, 0, 0)
        case Dead => Stands(s, s', a, Some(row), 0, 0, 0)
        case Alive => Renewed(s, s', a, Revived(row), 1)
      else Stands(s, s', a, RowOf(s.db, a), 0, 0, 0)
  {
    hide Init, Follows, Phase, Renewed, Stands, Holding, CallAt, DeadHierarchy, AboveStays, Starts;
    q, r := ReadsUnderLock(states, events, b, k, t, a, Resume(RespawnLock(a)));
    AboveLater(above, states, events, b, q, q, k + 1, p);
    GrowsAlong(states, events, q, k + 1);
    RespawnFrom(states, events, q, t, a, p, above);
    AboveLater(above, states, events, b, q, r + 1, k + 1, p);
    Later(states, events, b, q, k + 1, r + 1, t);
    NothingSpoils(RespawnCourse(states[q].db, a, above), states, events, q, r, t, a);
    SectionEnds(RespawnCourse(states[q].db, a, above), states, events, q, r, t, a);
  }

  lemma AboveLater(above: Above, states: seq<State>, events: seq<Event>, i: nat, i': nat, j: nat, j': nat, p: SprintId)
    requires IsRun(states, events) && i <= i' <= j <= j' < |states| && AboveStays(above, states, events, i, j', p)
    ensures AboveStays(above, states, events, i', j, p) && (above.Dead? ==> DeadHierarchy(states[i'].db, p))
  {
    hide Init, Follows, DeadHierarchy;
    if above.Dead? { DeadAlong(states, events, i, i', p); }
  }

  lemma RespawnFrom(states: seq<State>, events: seq<Event>, q: nat, t: Tid, a: AgentId, p: SprintId, above: Above)
    requires IsRun(states, events) && q < |events| && Own(events[q], t) && !events[q].c.Fail?
    requires t in states[q].threads && states[q].threads[t] == Resume(RespawnRead(a))
    requires a in states[q].db.agents ==> states[q].db.agents[a].sprint == p
    requires above.Dead? ==> DeadHierarchy(states[q].db, p)
    ensures Starts(RespawnCourse(states[q].db, a, above), states, q, t, a) && t in states[q + 1].threads
    ensures a in Holds(states[q + 1].threads[t])
  {
    hide Init, Apply, Phase, DeadHierarchy, Holds;
    assert Follows(states, events, q);
    Homes.Along(states, events, q);
    var x := RespawnCourse(states[q].db, a, above);
    RespawnStarts(states[q], t, events[q].c, states[q + 1], a, above);
    PhaseHolds(x, states[q], states[q + 1], states[q + 1].threads[t], a);
  }

  // ---------------------------------------------------------------- nothing to do, or an error

  /** The step's read tells the handler to leave the agent alone, or its call fails before it has
      done anything. */
  ghost predicate TurnsAway(s: State, pc: Pc, c: Choice) {
    match pc
    case Lane(LaneRead(Vanished(a, h), _)) => c.Fail? || !IsActive(s.db, a) || s.db.agents[a].handle != h
    case Lane(LaneRead(Stale(a), _)) => c.Fail? || !IsActive(s.db, a)
    case Lane(LaneRead(Reported(a, n), _)) => c.Fail? || !IsActive(s.db, a) || s.db.agents[a].nonce != n
    case Lane(LaneProbe(_, row, _)) => c.Fail? || row.handle in s.world.alive
    case Lane(AbandonLog(_, _, _)) => c.Fail?
    case Lane(Mark(_, _, _, _)) => c.Fail?
    case Lane(KillOld(_, _, _)) => c.Fail?
    case Resume(RespawnRead(a)) => c.Fail? || a !in s.db.agents || s.db.agents[a].status != Exited
    case Resume(RespawnMark(_)) => c.Fail?
    case Resume(RespawnActivate(_)) => c.Fail?
    case Check(k) => c.Fail? && k.use.ForRespawn?
    case Exit(KillRead(a)) => c.Fail? || !IsActive(s.db, a)
    case Exit(ExitFlip(_, _, _, after)) => c.Fail? && !after.ToUndo?
    case Adopt(AdoptCheck(a, _)) => c.Fail? || a in s.db.agents
    case Adopt(AdoptStop(_, _)) => c.Fail?
    case Cascade(FlipRead(a, _)) => c.Fail? || !IsActive(s.db, a)
    case Cascade(TearRead(a, _)) => c.Fail? || a !in s.db.agents
    case _ => false
  }

  ghost predicate JustLeaves(eff: Effect, a: AgentId) {
    && eff.stmt.NoStatement? && eff.out.NothingOutside? && eff.note.NoNote? && eff.next.Some?
    && match eff.next.value
       case Exit(Leave(b, after)) => b == a && !after.ToUndo?
       case _ => false
  }

  lemma TurnsStep(s: State, pc: Pc, c: Choice, eff: Effect)
    requires Plan(s, pc, c) == Some(eff) && TurnsAway(s, pc, c) && Inside(pc).Some?
    ensures JustLeaves(eff, Inside(pc).value)
  {
    hide StepCascade, StepExit, StepCheck, StepAdopt, StepLane, StepResume, StepLaunch;
    match pc
    case Lane(k) => TurnsLane(s, k, c, eff);
    case Resume(k) => TurnsResume(s, k, c, eff);
    case Exit(k) => TurnsExit(s, k, c, eff);
    case Check(k) => TurnsCheck(s, k, c, eff);
    case Adopt(k) => TurnsAdopt(s, k, c, eff);
    case Cascade(k) => TurnsCascade(s, k, c, eff);
  }

  lemma TurnsLane(s: State, k: LanePc, c: Choice, eff: Effect)
    requires StepLane(s, k, c) == Some(eff) && TurnsAway(s, Lane(k), c)
    ensures JustLeaves(eff, k.item.a)
  {}

  lemma TurnsResume(s: State, k: ResumePc, c: Choice, eff: Effect)
    requires StepResume(s, k, c) == Some(eff) && TurnsAway(s, Resume(k), c)
    ensures JustLeaves(eff, k.a)
  {}

  lemma TurnsExit(s: State, k: ExitPc, c: Choice, eff: Effect)
    requires StepExit(s, k, c) == Some(eff) && TurnsAway(s, Exit(k), c)
    ensures JustLeaves(eff, k.a)
  {}

  lemma TurnsCheck(s: State, k: CheckPc, c: Choice, eff: Effect)
    requires StepCheck(s, k, c) == Some(eff) && TurnsAway(s, Check(k), c)
    ensures JustLeaves(eff, k.use.a)
  {}

  lemma TurnsAdopt(s: State, k: AdoptPc, c: Choice, eff: Effect)
    requires StepAdopt(s, k, c) == Some(eff) && TurnsAway(s, Adopt(k), c)
    ensures JustLeaves(eff, k.a)
  {}

  lemma TurnsCascade(s: State, k: CascadePc, c: Choice, eff: Effect)
    requires StepCascade(s, k, c) == Some(eff) && TurnsAway(s, Cascade(k), c)
    ensures JustLeaves(eff, k.a)
  {}

  ghost predicate Untouched(s: State, s': State) { s'.db == s.db && s'.world == s.world && s'.tally == s.tally }

  lemma TurnsStarts(s: State, t: Tid, c: Choice, s': State, a: AgentId) returns (x: Course)
    requires t in s.threads && Apply(s, Step(t, c)) == Some(s')
    requires TurnsAway(s, s.threads[t], c) && Inside(s.threads[t]) == Some(a)
    ensures Untouched(s, s') && x.Declines? && x.found == RowOf(s.db, a) && Returns(x)
    ensures t in s'.threads && Phase(x, s, s', s'.threads[t], a)
  {
    hide Plan, TurnsAway, Inside;
    var eff := Plan(s, s.threads[t], c).value;
    TurnsStep(s, s.threads[t], c, eff);
    x := Declines(RowOf(s.db, a), eff.next.value.ex.after);
  }

  lemma LeavesOnly(x: Course, s0: State, s: State, t: Tid, c: Choice, s': State, a: AgentId)
    requires t in s.threads && x.Declines? && Returns(x) && Phase(x, s0, s, s.threads[t], a)
    requires Apply(s, Step(t, c)) == Some(s')
    ensures Untouched(s, s') && CallAt(s.threads[t]) == NoCall
  {
    hide StepLane, StepResume, StepCheck, StepLaunch, StepAdopt, StepCascade, Stands;
  }

  lemma DeclinesInside(x: Course, states: seq<State>, events: seq<Event>, i: nat, m: nat, t: Tid, a: AgentId)
    requires IsRun(states, events) && i < m < |events| && Own(events[m], t) && x.Declines? && Returns(x)
    requires t in states[m].threads && Phase(x, states[i], states[m], states[m].threads[t], a)
    ensures Untouched(states[m], states[m + 1]) && !Spoils(x, states, events, m, t, a)
  {
    hide Init, Apply, Phase, CallAt, Untouched;
    assert Follows(states, events, m);
    LeavesOnly(x, states[i], states[m], t, events[m].c, states[m + 1], a);
  }

  lemma {:induction false} DeclinesAlong(x: Course, states: seq<State>, events: seq<Event>, i: nat, j: nat, t: Tid,
                                         a: AgentId)
    requires IsRun(states, events) && i < j < |states| && Starts(x, states, i, t, a) && x.Declines?
    requires forall m :: i < m <= j ==> Holding(states[m], t, a)
    ensures t in states[j].threads && Phase(x, states[i], states[j], states[j].threads[t], a)
  {
    hide Init, Follows, Phase, Outcome, Holding, Spoils, Starts, Returns, Untouched;
    if j == i + 1 {
      StartsIn(x, states, i, t, a);
    } else {
      DeclinesAlong(x, states, events, i, j - 1, t, a);
      assert Returns(x) by { StartsReturns(x, states, i, t, a); }
      if Own(events[j - 1], t) { DeclinesInside(x, states, events, i, j - 1, t, a); }
      assert !Spoils(x, states, events, j - 1, t, a) by { OnlyOwnSpoils(x, states, events, j - 1, t, a); }
      PhaseNext(x, states, events, i, j - 1, t, a);
    }
  }

  lemma StartsReturns(x: Course, states: seq<State>, i: nat, t: Tid, a: AgentId)
    requires i + 1 < |states| && Starts(x, states, i, t, a)
    ensures Returns(x)
  {
    hide Phase;
  }

  lemma OnlyOwnSpoils(x: Course, states: seq<State>, events: seq<Event>, j: nat, t: Tid, a: AgentId)
    requires j < |events| && |states| == |events| + 1
    ensures Spoils(x, states, events, j, t, a) ==> Own(events[j], t)
  {}

  /** A handler that finds nothing to do under the lock, or whose call fails before it has done
      anything, leaves everything as it is: from that step to the one that lets go of the lock its
      own steps change no table, no terminal and no count, and the agent's row stays. */
  lemma TurnedAwayLeavesAll(states: seq<State>, events: seq<Event>, i: nat, k: nat, t: Tid, a: AgentId)
    requires Section(states, events, i, k, t, a) && t in states[i].threads
    requires TurnsAway(states[i], states[i].threads[t], events[i].c) && Inside(states[i].threads[t]) == Some(a)
    ensures Stands(states[i], states[k + 1], a, RowOf(states[i].db, a), 0, 0, 0)
    ensures forall m :: i <= m <= k && Own(events[m], t) ==> Untouched(states[m], states[m + 1])
  {
    hide Init, Apply, Phase, Holding, Stands, TurnsAway, Inside, Untouched, Spoils;
    assert Follows(states, events, i);
    var x := TurnsStarts(states[i], t, events[i].c, states[i + 1], a);
    forall m | i < m <= k
      ensures Own(events[m], t) ==> Untouched(states[m], states[m + 1])
      ensures !Spoils(x, states, events, m, t, a)
    {
      DeclinesAlong(x, states, events, i, m, t, a);
      OnlyOwnSpoils(x, states, events, m, t, a);
      if Own(events[m], t) { DeclinesInside(x, states, events, i, m, t, a); }
    }
    SectionEnds(x, states, events, i, k, t, a);
  }

  // ---------------------------------------------------------------- a respawn's terminal

  lemma RecordStarts(s: State, t: Tid, c: Choice, s': State, h: Handle, a: AgentId)
    requires t in s.threads && s.threads[t].Resume? && s.threads[t].res.a == a && a in s.db.agents
    requires Apply(s, Step(t, c)) == Some(s') && h !in s.world.spawned && h in s'.world.spawned
    ensures s'.world.spawned[h].session == a && t in s'.threads
    ensures Counted(s, s', a, 0, 1, 0) && s'.db == s.db
    ensures s'.threads[t].Resume? && s'.threads[t].res.Persist? && s'.threads[t].res.a == a
      && s'.threads[t].res.h == h && s'.threads[t].res.n == s'.world.spawned[h].nonce
  {
    hide StepLane, StepExit, StepCheck, StepLaunch, StepAdopt, StepCascade;
  }

  /** The terminal a respawn spawns is recorded in the row or not enumerated any more when the
      thread lets go of the lock, whatever fails in between but the kill of it. */
  lemma RespawnAccounts(states: seq<State>, events: seq<Event>, i: nat, k: nat, t: Tid, a: AgentId, h: Handle)
    requires Section(states, events, i, k, t, a)
    requires t in states[i].threads && states[i].threads[t].Resume? && states[i].threads[t].res.a == a
    requires a in states[i].db.agents && h !in states[i].world.spawned && h in states[i + 1].world.spawned
    requires forall m :: i < m <= k && FailsAt(states, events, m, t) ==> CallAt(states[m].threads[t]) != BackendKill
    ensures Recorded(states[i], states[k + 1], a, states[i].db.agents[a], h, states[i + 1].world.spawned[h].nonce)
  {
    hide Init, Apply, Holding, CallAt, Starts, FailsAt, Recorded;
    assert Follows(states, events, i);
    RecordStarts(states[i], t, events[i].c, states[i + 1], h, a);
    var x := Records(states[i].db.agents[a], h, states[i + 1].world.spawned[h].nonce);
    assert Starts(x, states, i, t, a) by { RecordsFrom(states, i, t, a, h); }
    forall m | i < m <= k ensures !Spoils(x, states, events, m, t, a) {}
    SectionEnds(x, states, events, i, k, t, a);
  }

  lemma RecordsFrom(states: seq<State>, i: nat, t: Tid, a: AgentId, h: Handle)
    requires i + 1 < |states| && a in states[i].db.agents && h in states[i + 1].world.spawned
    requires Counted(states[i], states[i + 1], a, 0, 1, 0) && states[i + 1].db == states[i].db
    requires t in states[i + 1].threads && states[i + 1].threads[t].Resume?
    requires var r := states[i + 1].threads[t].res;
      r.Persist? && r.a == a && r.h == h && r.n == states[i + 1].world.spawned[h].nonce
    ensures Starts(Records(states[i].db.agents[a], h, states[i + 1].world.spawned[h].nonce), states, i, t, a)
  {}
}
