/** What a kill reaches: it takes down the container it was asked for, and touches no row and no
    terminal outside it. */
module KillScope {
  import opened Tables
  import opened Protocol
  import opened Interference
  import opened Homes
  import opened Sections
  import opened Requests
  import IncarnationCoherence

  /** The container a kill was asked for. */
  datatype Target = ASprint(p: SprintId) | AWorkstream(w: WorkstreamId) | ARepo(r: RepoId)

  function EntryOf(x: Target): Pc {
    match x
    case ASprint(p) => Cascade(KillSprint(p))
    case AWorkstream(w) => Cascade(KillWorkstream(w))
    case ARepo(r) => Cascade(KillRepo(r))
  }

  ghost predicate IsUp(db: Db, x: Target) {
    match x
    case ASprint(p) => p in db.sprints && db.sprints[p].status == Active
    case AWorkstream(w) => w in db.workstreams && db.workstreams[w].status == Active
    case ARepo(r) => r in db.repos && db.repos[r].status == Active
  }

  // ---------------------------------------------------------------- it falls

  /** The code on its way to flip the container. */
  ghost predicate Aims(pc: Pc, x: Target) {
    || pc == EntryOf(x)
    || (match x
        case ASprint(p) => pc == Cascade(CascadePc.Next(Visiting([], [p], true, None)))
        case AWorkstream(w) => pc == Cascade(CascadePc.Next(Visiting([w], [], false, None)))
        case ARepo(r) => pc == Cascade(CasRepo(r)))
  }

  lemma AimStep(s: State, t: Tid, c: Choice, s': State, x: Target)
    requires t in s.threads && Aims(s.threads[t], x) && Apply(s, Step(t, c)) == Some(s') && !c.Fail?
    ensures !IsUp(s.db, x) || !IsUp(s'.db, x) || (t in s'.threads && Aims(s'.threads[t], x))
  {
    hide StepLane, StepResume, StepExit, StepCheck, StepLaunch, StepAdopt, NextAgent;
  }

  lemma EntryAims(x: Target)
    ensures Aims(EntryOf(x), x)
  {}

  lemma AimCalls(pc: Pc, x: Target)
    requires Aims(pc, x)
    ensures CallAt(pc) != NoCall
  {}

  lemma {:induction false} Fells(states: seq<State>, events: seq<Event>, b: nat, i: nat, k: nat, t: Tid, x: Target)
    returns (j: nat)
    requires IsRun(states, events) && b < i <= k < |events| && NoneFails(states, events, b, k + 1, t)
    requires (forall m :: b < m <= k ==> t in states[m].threads) && t !in states[k + 1].threads
    requires Aims(states[i].threads[t], x)
    ensures b < j <= k + 1 && !IsUp(states[j].db, x)
    decreases k - i
  {
    hide Init, Apply, IsUp, CallAt, Aims;
    var n := NextOwn(states, events, i, k, t);
    assert !FailsAt(states, events, n, t) && Follows(states, events, n);
    AimCalls(states[n].threads[t], x);
    AimStep(states[n], t, events[n].c, states[n + 1], x);
    if !IsUp(states[n].db, x) { j := n; }
    else if !IsUp(states[n + 1].db, x) { j := n + 1; }
    else { j := Fells(states, events, b, n + 1, k, t, x); }
  }

  /** The container that a kill was asked for is not Active at some moment of it, unless one of its
      calls fails: it was not when the kill looked, or the kill or someone else has flipped it. */
  lemma KillFells(states: seq<State>, events: seq<Event>, b: nat, k: nat, t: Tid, x: Target) returns (j: nat)
    requires Request(states, events, b, k, t, EntryOf(x)) && NoneFails(states, events, b, k + 1, t)
    ensures b < j <= k + 1 && !IsUp(states[j].db, x)
  {
    hide Init, Apply, IsUp, CallAt, Aims;
    Begun(states, events, b, k, t, EntryOf(x));
    assert Aims(states[b + 1].threads[t], x) by { EntryAims(x); }
    j := Fells(states, events, b, b + 1, k, t, x);
  }

  // ---------------------------------------------------------------- and nothing outside it

  ghost predicate WorkstreamIn(db: Db, w: WorkstreamId, x: Target) {
    match x
    case ASprint(_) => false
    case AWorkstream(v) => w == v
    case ARepo(r) => w in db.workstreams && db.workstreams[w].repo == r
  }

  ghost predicate SprintIn(db: Db, p: SprintId, x: Target) {
    match x
    case ASprint(q) => p == q
    case _ => p in db.sprints && WorkstreamIn(db, db.sprints[p].workstream, x)
  }

  ghost predicate AgentIn(db: Db, a: AgentId, x: Target) {
    a in db.agents && SprintIn(db, db.agents[a].sprint, x)
  }

  ghost predicate WorkstreamsIn(db: Db, wss: seq<WorkstreamId>, x: Target) {
    forall w :: w in wss ==> WorkstreamIn(db, w, x)
  }

  ghost predicate SprintsIn(db: Db, sps: seq<SprintId>, x: Target) { forall p :: p in sps ==> SprintIn(db, p, x) }

  ghost predicate AgentsIn(db: Db, ags: seq<AgentId>, x: Target) { forall a :: a in ags ==> AgentIn(db, a, x) }

  ghost predicate WorkIn(db: Db, work: Work, x: Target) {
    && work.undo.None? && WorkstreamsIn(db, work.wss, x) && WorkstreamsIn(db, work.torn, x)
    && SprintsIn(db, work.sps, x) && AgentsIn(db, work.ags, x) && AgentsIn(db, work.flipped, x)
  }

  /** The code works on what is inside. */
  ghost predicate KeepsIn(db: Db, pc: Pc, x: Target) {
    match pc
    case Cascade(k) =>
      (match k
       case KillSprint(p) => x == ASprint(p)
       case KillWorkstream(w) => x == AWorkstream(w)
       case KillRepo(r) => x == ARepo(r)
       case CasRepo(r) => x == ARepo(r)
       case ListWorkstreams(r) => x == ARepo(r)
       case Next(work) => WorkIn(db, work, x)
       case ListSprints(w, work) => WorkstreamIn(db, w, x) && WorkIn(db, work, x)
       case ListAgents(p, work) => SprintIn(db, p, x) && WorkIn(db, work, x)
       case FlipRead(a, work) => AgentIn(db, a, x) && WorkIn(db, work, x)
       case TearNext(left) => AgentsIn(db, left, x)
       case TearRead(a, left) => AgentIn(db, a, x) && AgentsIn(db, left, x)
       case TearWorkspaces(wss, undo) => undo.None? && WorkstreamsIn(db, wss, x))
    case Exit(k) =>
      && !k.KillLock? && !k.KillRead? && AgentIn(db, k.a, x)
      && (match k.after
          case ToCascade(work) => WorkIn(db, work, x)
          case ToTear(left) => AgentsIn(db, left, x)
          case _ => false)
    case _ => false
  }

  /** The statement and the call are about what is inside. */
  ghost predicate ActsIn(db: Db, world: World, eff: Effect, x: Target) {
    && (match eff.stmt
        case NoStatement => true
        case FlipRepo(r) => x == ARepo(r)
        case FlipWorkstream(w) => WorkstreamIn(db, w, x)
        case FlipSprint(p) => SprintIn(db, p, x)
        case SetStatus(a, status) => AgentIn(db, a, x) && status == Exited
        case _ => false)
    && (match eff.out
        case NothingOutside => true
        case KillTerminal(h) => h in world.spawned && AgentIn(db, world.spawned[h].session, x)
        case KillWorkspaceOf(w) => WorkstreamIn(db, w, x)
        case _ => false)
  }

  ghost predicate StaysIn(s: State, eff: Effect, x: Target) {
    && ActsIn(s.db, s.world, eff, x)
    && (eff.next.Some? ==> KeepsIn(s.db, eff.next.value, x))
  }

  lemma AgentStays(db: Db, work: Work, x: Target)
    requires work.ags != [] && WorkIn(db, work, x)
    ensures KeepsIn(db, NextAgent(work).next.value, x)
  {
    hide AgentIn, WorkstreamsIn, SprintsIn;
  }

  lemma SprintStays(db: Db, work: Work, c: Choice, x: Target)
    requires work.sps != [] && WorkIn(db, work, x)
    ensures var eff := NextSprint(db, work, c);
      && eff.next.Some? && KeepsIn(db, eff.next.value, x) && eff.out.NothingOutside?
      && (eff.stmt.NoStatement? || (eff.stmt.FlipSprint? && SprintIn(db, eff.stmt.p, x)))
  {
    hide SprintIn, AgentIn;
  }

  lemma WorkstreamStays(db: Db, work: Work, c: Choice, x: Target)
    requires work.wss != [] && WorkIn(db, work, x)
    ensures var eff := NextWorkstream(db, work, c);
      && eff.next.Some? && KeepsIn(db, eff.next.value, x) && eff.out.NothingOutside?
      && (eff.stmt.NoStatement? || (eff.stmt.FlipWorkstream? && WorkstreamIn(db, eff.stmt.w, x)))
  {
    hide SprintIn, AgentIn, WorkstreamIn;
  }

  lemma ClearStays(s: State, work: Work, c: Choice, x: Target)
    requires work.ags == [] && !AtSprints(work) && !AtWorkstreams(work) && WorkIn(s.db, work, x)
    ensures StaysIn(s, StepNext(s, work, c), x)
  {
    hide NextSprint, NextWorkstream, NextAgent, SprintIn, AgentIn, WorkstreamIn;
  }

  lemma NextStays(s: State, work: Work, c: Choice, x: Target)
    requires WorkIn(s.db, work, x)
    ensures StaysIn(s, StepNext(s, work, c), x)
  {
    hide NextSprint, NextWorkstream, SprintIn, AgentIn, WorkstreamIn, KeepsIn, WorkIn;
    if work.ags != [] { AgentStays(s.db, work, x); }
    else if AtSprints(work) { SprintStays(s.db, work, c, x); }
    else if AtWorkstreams(work) { WorkstreamStays(s.db, work, c, x); }
    else { ClearStays(s, work, c, x); }
  }

  lemma ListStays(s: State, k: CascadePc, c: Choice, eff: Effect, x: Target)
    requires k.ListWorkstreams? || k.ListSprints? || k.ListAgents?
    requires KeepsIn(s.db, Cascade(k), x) && StepCascade(s, k, c) == Some(eff)
    ensures StaysIn(s, eff, x)
  {
    hide StepNext, NoDup;
  }

  lemma KillStays(s: State, k: CascadePc, c: Choice, eff: Effect, x: Target)
    requires !k.ListWorkstreams? && !k.ListSprints? && !k.ListAgents? && !k.Next?
    requires KeepsIn(s.db, Cascade(k), x) && StepCascade(s, k, c) == Some(eff)
    ensures StaysIn(s, eff, x)
  {
    hide StepNext, AgentIn, Lists;
  }

  lemma CascadeStays(s: State, k: CascadePc, c: Choice, eff: Effect, x: Target)
    requires KeepsIn(s.db, Cascade(k), x) && StepCascade(s, k, c) == Some(eff)
    ensures StaysIn(s, eff, x)
  {
    hide StepNext, StaysIn, AgentIn, WorkstreamIn, SprintIn, WorkIn;
    if k.Next? { NextStays(s, k.work, c, x); }
    else if k.ListWorkstreams? || k.ListSprints? || k.ListAgents? { ListStays(s, k, c, eff, x); }
    else { KillStays(s, k, c, eff, x); }
  }

  lemma ExitStays(s: State, k: ExitPc, c: Choice, eff: Effect, x: Target)
    requires KeepsIn(s.db, Exit(k), x) && StepExit(s, k, c) == Some(eff)
    requires k.KillTerm? ==> k.h in s.world.spawned && s.world.spawned[k.h].session == k.a
    ensures StaysIn(s, eff, x)
  {
    hide SprintIn, AgentIn, WorkstreamIn;
  }

  lemma PlanStays(s: State, pc: Pc, c: Choice, eff: Effect, x: Target)
    requires KeepsIn(s.db, pc, x) && Plan(s, pc, c) == Some(eff)
    requires pc.Exit? && pc.ex.KillTerm? ==> pc.ex.h in s.world.spawned && s.world.spawned[pc.ex.h].session == pc.ex.a
    ensures StaysIn(s, eff, x)
  {
    hide StepLane, StepResume, StepExit, StepCheck, StepLaunch, StepAdopt, StepCascade, StaysIn, WorkIn;
    match pc
    case Cascade(k) => CascadeStays(s, k, c, eff, x);
    case Exit(k) => ExitStays(s, k, c, eff, x);
  }

  lemma ListsStill(db: Db, db': Db, work: Work, x: Target)
    requires WorkIn(db, work, x) && GrowsDb(db, db')
    ensures WorkIn(db', work, x)
  {}

  lemma InStill(db: Db, db': Db, pc: Pc, x: Target)
    requires KeepsIn(db, pc, x) && GrowsDb(db, db')
    ensures KeepsIn(db', pc, x)
  {
    hide WorkIn;
    if WorkOf(pc).Some? { ListsStill(db, db', WorkOf(pc).value, x); }
  }

  /** Only rows inside change, and none is added. */
  ghost predicate RowsIn(db: Db, db': Db, x: Target) {
    ReposIn(db, db', x) && ContainersIn(db, db', x) && RowsOfAgentsIn(db, db', x)
  }

  ghost predicate ReposIn(db: Db, db': Db, x: Target) {
    && db'.repos.Keys == db.repos.Keys
    && (forall r :: r in db.repos && x != ARepo(r) ==> db'.repos[r] == db.repos[r])
  }

  ghost predicate ContainersIn(db: Db, db': Db, x: Target) {
    && db'.workstreams.Keys == db.workstreams.Keys && db'.sprints.Keys == db.sprints.Keys
    && (forall w :: w in db.workstreams && !WorkstreamIn(db, w, x) ==> db'.workstreams[w] == db.workstreams[w])
    && (forall p :: p in db.sprints && !SprintIn(db, p, x) ==> db'.sprints[p] == db.sprints[p])
  }

  ghost predicate RowsOfAgentsIn(db: Db, db': Db, x: Target) {
    && db'.agents.Keys == db.agents.Keys
    && (forall a :: a in db.agents && !AgentIn(db, a, x) ==> db'.agents[a] == db.agents[a])
  }

  /** The terminal belongs to an agent inside, or to the workspace of a workstream inside. */
  ghost predicate TerminalIn(db: Db, inc: Incarnation, x: Target) {
    AgentIn(db, inc.session, x) || WorkstreamIn(db, inc.home, x)
  }

  /** Only terminals inside go, and none comes. */
  ghost predicate TerminalsIn(db: Db, world: World, world': World, x: Target) {
    && world'.spawned == world.spawned && world'.present <= world.present && world'.alive <= world.alive
    && (forall h :: h in world.spawned && h in world.present - world'.present ==> TerminalIn(db, world.spawned[h], x))
    && (forall h :: h in world.spawned && h in world.alive - world'.alive ==> TerminalIn(db, world.spawned[h], x))
  }

  ghost predicate ChangesIn(s: State, s': State, x: Target) {
    RowsIn(s.db, s'.db, x) && TerminalsIn(s.db, s.world, s'.world, x)
  }

  lemma ReposStay(db: Db, world: World, eff: Effect, x: Target)
    requires ActsIn(db, world, eff, x)
    ensures ReposIn(db, Run(db, eff.stmt), x)
  {
    hide SprintIn, AgentIn, WorkstreamIn;
  }

  lemma ContainersStay(db: Db, world: World, eff: Effect, x: Target)
    requires ActsIn(db, world, eff, x)
    ensures ContainersIn(db, Run(db, eff.stmt), x)
  {
    hide SprintIn, AgentIn, WorkstreamIn;
  }

  lemma RowsOfAgentsStay(db: Db, world: World, eff: Effect, x: Target)
    requires ActsIn(db, world, eff, x)
    ensures RowsOfAgentsIn(db, Run(db, eff.stmt), x)
  {
    hide SprintIn, AgentIn, WorkstreamIn;
  }

  lemma TerminalsStay(db: Db, world: World, eff: Effect, x: Target)
    requires ActsIn(db, world, eff, x)
    ensures TerminalsIn(db, world, CallOutside(world, eff.out), x)
  {
    hide SprintIn, AgentIn, WorkstreamIn;
  }

  lemma TermRow(s: State, t: Tid)
    requires IncarnationCoherence.Inv(s) && t in s.threads && s.threads[t].Exit? && s.threads[t].ex.KillTerm?
    ensures var k := s.threads[t].ex; k.h in s.world.spawned && s.world.spawned[k.h].session == k.a
  {
    assert IncarnationCoherence.ThreadOk(s.db, s.world, s.threads[t]);
  }

  lemma StaysNext(s: State, e: Event, s': State, t: Tid, x: Target)
    requires IncarnationCoherence.Inv(s) && Apply(s, e) == Some(s') && t in s.threads && KeepsIn(s.db, s.threads[t], x)
    ensures t in s'.threads ==> KeepsIn(s'.db, s'.threads[t], x)
    ensures Own(e, t) ==> ChangesIn(s, s', x)
  {
    hide Apply, Plan, KeepsIn, Scoped, Rely, KilledStays, Holds, GrowsDb, GrowsWorld, GrowsIds, ActsIn, ReposIn,
      ContainersIn, RowsOfAgentsIn, Base, TerminalsIn, Run, CallOutside, Recount, Relock;
    if Own(e, t) {
      var eff := Unpack(s, t, e.c, s');
      if s.threads[t].Exit? && s.threads[t].ex.KillTerm? { TermRow(s, t); }
      PlanStays(s, s.threads[t], e.c, eff, x);
      ReposStay(s.db, s.world, eff, x);
      ContainersStay(s.db, s.world, eff, x);
      RowsOfAgentsStay(s.db, s.world, eff, x);
      TerminalsStay(s.db, s.world, eff, x);
      if eff.next.Some? { InStill(s.db, s'.db, eff.next.value, x); }
    } else {
      Others(s, e, s', t);
      GrowsNext(s, e, s');
      InStill(s.db, s'.db, s.threads[t], x);
    }
  }

  lemma {:induction false} StaysAlong(states: seq<State>, events: seq<Event>, b: nat, j: nat, t: Tid, x: Target)
    requires IsRun(states, events) && b < j < |states| && events[b] == Begin(t, EntryOf(x))
    requires forall m :: b < m <= j ==> t in states[m].threads
    ensures KeepsIn(states[j].db, states[j].threads[t], x)
  {
    hide Init, Apply, KeepsIn, IncarnationCoherence.Inv, ChangesIn;
    assert Follows(states, events, j - 1);
    if j == b + 1 {
      BeginsIn(states[b], t, x, states[j]);
    } else {
      StaysAlong(states, events, b, j - 1, t, x);
      IncarnationCoherence.Along(states, events, j - 1);
      StaysNext(states[j - 1], events[j - 1], states[j], t, x);
    }
  }

  lemma BeginsIn(s: State, t: Tid, x: Target, s': State)
    requires Apply(s, Begin(t, EntryOf(x))) == Some(s')
    ensures t in s'.threads && KeepsIn(s'.db, s'.threads[t], x)
  {
    hide StepThread;
  }

  /** Whatever fails, a step of a kill touches no row outside the container it was asked for, and
      stops no terminal but those of agents inside it or in the workspaces of workstreams inside. */
  lemma KillTouchesOnlyInside(states: seq<State>, events: seq<Event>, b: nat, j: nat, t: Tid, x: Target)
    requires IsRun(states, events) && b < j < |events| && events[b] == Begin(t, EntryOf(x))
    requires (forall m :: b < m <= j ==> t in states[m].threads) && Own(events[j], t)
    ensures ChangesIn(states[j], states[j + 1], x)
  {
    hide Init, Apply, KeepsIn, IncarnationCoherence.Inv, ChangesIn;
    StaysAlong(states, events, b, j, t, x);
    IncarnationCoherence.Along(states, events, j);
    assert Follows(states, events, j);
    StaysNext(states[j], events[j], states[j + 1], t, x);
  }
}
