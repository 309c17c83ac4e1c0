/** What a container kill takes down: the container it was asked for, the terminal of every agent
    whose row it flipped, and the workspace of every workstream it flipped. */
module Teardown {
  import opened Tables
  import opened Protocol
  import opened Interference
  import opened Homes
  import opened Sections
  import opened Requests
  import IncarnationCoherence

  // ---------------------------------------------------------------- the loop keeps its lists

  /** What was flipped goes on to the teardown: agent by agent, or workspace by workspace. */
  ghost predicate Carries(work: Work, eff: Effect) {
    && eff.next.Some? && eff.next.value.Cascade?
    && match eff.next.value.cas
       case TearNext(left) => work.perAgent && left == work.flipped
       case TearWorkspaces(wss, _) => !work.perAgent && wss == work.torn
       case Next(work') => Extends(work, work')
       case ListSprints(_, work') => Extends(work, work')
       case ListAgents(_, work') => Extends(work, work')
       case FlipRead(_, work') => Extends(work, work')
       case _ => false
  }

  ghost predicate Extends(work: Work, work': Work) {
    && work'.perAgent == work.perAgent && (work.wss == [] ==> work'.wss == [])
    && (forall a :: a in work.flipped ==> a in work'.flipped) && (forall w :: w in work.torn ==> w in work'.torn)
  }

  lemma NextCarries(s: State, work: Work, c: Choice)
    requires c.Fail? ==> work.ags != []
    ensures Carries(work, StepNext(s, work, c))
  {
    hide NextSprint, NextWorkstream, NextAgent, Extends;
    if work.ags != [] { AgentCarries(work); }
    else if AtSprints(work) { SprintCarries(s.db, work, c); }
    else if AtWorkstreams(work) { WorkstreamCarries(s.db, work, c); }
    else { ClearCarries(s, work, c); }
  }

  lemma AgentCarries(work: Work)
    requires work.ags != []
    ensures Carries(work, NextAgent(work))
  {}

  lemma SprintCarries(db: Db, work: Work, c: Choice)
    requires work.sps != [] && !c.Fail?
    ensures Carries(work, NextSprint(db, work, c))
  {}

  lemma WorkstreamCarries(db: Db, work: Work, c: Choice)
    requires work.wss != [] && !c.Fail?
    ensures Carries(work, NextWorkstream(db, work, c))
  {}

  lemma ClearCarries(s: State, work: Work, c: Choice)
    requires work.ags == [] && !AtSprints(work) && !AtWorkstreams(work) && !c.Fail?
    ensures Carries(work, StepNext(s, work, c))
  {
    hide NextSprint, NextWorkstream, NextAgent;
  }

  // ---------------------------------------------------------------- agent by agent

  /** The code of a sprint kill. */
  ghost predicate KillsSprint(pc: Pc) {
    match pc
    case Cascade(k) =>
      k.KillSprint? || k.TearNext? || k.TearRead?
      || ((k.Next? || k.ListAgents? || k.FlipRead?) && k.work.perAgent && k.work.wss == [])
    case Exit(ExitFlip(a, _, kill, ToCascade(work))) => !kill && work.perAgent && work.wss == [] && a in work.flipped
    case Exit(ExitLog(a, _, kill, ToCascade(work))) => !kill && work.perAgent && work.wss == [] && a in work.flipped
    case Exit(KillTerm(_, _, ToTear(_))) => true
    case Exit(Leave(_, after)) =>
      after.ToTear? || (after.ToCascade? && after.work.perAgent && after.work.wss == [])
    case _ => false
  }

  /** Agent a's terminal is still to be torn down. */
  ghost predicate Awaits(pc: Pc, a: AgentId) {
    || (WorkOf(pc).Some? && a in WorkOf(pc).value.flipped)
    || (pc.Cascade? && pc.cas.TearNext? && a in pc.cas.left)
    || (pc.Cascade? && pc.cas.TearRead? && (pc.cas.a == a || a in pc.cas.left))
    || (pc.Exit? && pc.ex.KillTerm? && pc.ex.after.ToTear? && (pc.ex.a == a || a in pc.ex.after.left))
    || (pc.Exit? && pc.ex.Leave? && pc.ex.after.ToTear? && a in pc.ex.after.left)
  }

  /** A teardown call for another agent: its failure is noted and the teardown goes on. */
  ghost predicate TearsAnother(pc: Pc, a: AgentId) {
    || (pc.Cascade? && pc.cas.TearRead? && pc.cas.a != a)
    || (pc.Exit? && pc.ex.KillTerm? && pc.ex.after.ToTear? && pc.ex.a != a)
  }

  /** The step kills agent a's terminal. */
  ghost predicate KillsOf(pc: Pc, c: Choice, a: AgentId) {
    pc.Exit? && pc.ex.KillTerm? && pc.ex.a == a && !c.Fail?
  }

  ghost predicate KillGoesOn(s: State, pc: Pc, c: Choice, eff: Effect, a: AgentId) {
    && (eff.next.Some? ==> KillsSprint(eff.next.value))
    && (Awaits(pc, a) && a in s.db.agents && !KillsOf(pc, c, a) ==> eff.next.Some? && Awaits(eff.next.value, a))
    && (eff.stmt == SetStatus(a, Exited) ==> eff.next.Some? && Awaits(eff.next.value, a))
    && (KillsOf(pc, c, a) ==> eff.out == KillTerminal(pc.ex.h))
    && (eff.stmt.SetStatus? ==> eff.stmt.status == Exited) && !eff.stmt.AddAgent?
  }

  lemma KillCascadeStep(s: State, k: CascadePc, c: Choice, eff: Effect, a: AgentId)
    requires KillsSprint(Cascade(k)) && StepCascade(s, k, c) == Some(eff)
    requires Listed(s.db, Cascade(k))
    requires c.Fail? ==> CallAt(Cascade(k)) == NoCall || TearsAnother(Cascade(k), a)
    ensures KillGoesOn(s, Cascade(k), c, eff, a)
  {
    hide StepNext;
    if k.Next? {
      NextCarries(s, k.work, c);
      NextLoops(s, k.work, c);
      NextNoSprints(s, k.work, c);
    }
  }

  lemma NextNoSprints(s: State, work: Work, c: Choice)
    requires work.wss == []
    ensures var eff := StepNext(s, work, c);
      eff.next.Some? && eff.next.value.Cascade? ==> !eff.next.value.cas.ListSprints?
  {}

  lemma KillExitStep(s: State, k: ExitPc, c: Choice, eff: Effect, a: AgentId)
    requires KillsSprint(Exit(k)) && StepExit(s, k, c) == Some(eff)
    requires c.Fail? ==> CallAt(Exit(k)) == NoCall || TearsAnother(Exit(k), a)
    ensures KillGoesOn(s, Exit(k), c, eff, a)
  {}

  lemma KillPlan(s: State, pc: Pc, c: Choice, eff: Effect, a: AgentId)
    requires KillsSprint(pc) && Plan(s, pc, c) == Some(eff) && Listed(s.db, pc)
    requires c.Fail? ==> CallAt(pc) == NoCall || TearsAnother(pc, a)
    ensures KillGoesOn(s, pc, c, eff, a)
  {
    hide StepLane, StepResume, StepExit, StepCheck, StepLaunch, StepAdopt, StepCascade, KillGoesOn;
    match pc
    case Cascade(k) => KillCascadeStep(s, k, c, eff, a);
    case Exit(k) => KillExitStep(s, k, c, eff, a);
  }

  /** What a step of the sprint kill does to agent a, on the state. */
  lemma KillStep(s: State, t: Tid, c: Choice, s': State, a: AgentId)
    requires Homes.Inv(s) && t in s.threads && KillsSprint(s.threads[t]) && Apply(s, Step(t, c)) == Some(s')
    requires c.Fail? ==> CallAt(s.threads[t]) == NoCall || TearsAnother(s.threads[t], a)
    ensures t in s'.threads ==> KillsSprint(s'.threads[t])
    ensures Awaits(s.threads[t], a) && a in s.db.agents && !KillsOf(s.threads[t], c, a) ==>
      t in s'.threads && Awaits(s'.threads[t], a)
    ensures IsActive(s.db, a) && !IsActive(s'.db, a) ==> t in s'.threads && Awaits(s'.threads[t], a)
    ensures KillsOf(s.threads[t], c, a) ==>
      a in s.db.agents && Gone(s'.world, s.db.agents[a].handle) && Holding(s, t, a)
  {
    hide Plan, KillsSprint, Awaits, GrowsDb, KilledStays, GrowsWorld, GrowsIds, Rely, Scoped, TearsAnother, CallAt,
      Base;
    var eff := Unpack(s, t, c, s');
    KillPlan(s, s.threads[t], c, eff, a);
    if KillsOf(s.threads[t], c, a) { KillsRow(s, t, c, a); }
    if IsActive(s.db, a) && !IsActive(s'.db, a) { OnlyStatusFlips(s.db, eff.stmt, a); }
  }

  lemma OnlyStatusFlips(db: Db, stmt: Statement, a: AgentId)
    requires IsActive(db, a) && !IsActive(Run(db, stmt), a)
    requires !stmt.AddAgent? && (stmt.SetStatus? ==> stmt.status == Exited)
    ensures stmt == SetStatus(a, Exited)
  {}

  lemma KillsRow(s: State, t: Tid, c: Choice, a: AgentId)
    requires Homes.Inv(s) && t in s.threads && KillsOf(s.threads[t], c, a)
    ensures a in s.db.agents && s.threads[t].ex.h == s.db.agents[a].handle && s.threads[t].ex.h in s.world.spawned
    ensures Holding(s, t, a)
  {
    assert IncarnationCoherence.ThreadOk(s.db, s.world, s.threads[t]);
    HolderHolds(s, t, a);
  }

  /** A failing call of t, but for one that tears down another agent. */
  ghost predicate Stops(states: seq<State>, events: seq<Event>, j: nat, t: Tid, a: AgentId)
    requires j < |events| && |states| == |events| + 1
  {
    FailsAt(states, events, j, t) && !TearsAnother(states[j].threads[t], a)
  }

  lemma KillNext(states: seq<State>, events: seq<Event>, j: nat, t: Tid, a: AgentId)
    requires IsRun(states, events) && j < |events| && t in states[j].threads && KillsSprint(states[j].threads[t])
    requires !Stops(states, events, j, t, a)
    ensures t in states[j + 1].threads ==> KillsSprint(states[j + 1].threads[t])
    ensures Own(events[j], t) && IsActive(states[j].db, a) && !IsActive(states[j + 1].db, a) ==>
      t in states[j + 1].threads && Awaits(states[j + 1].threads[t], a)
  {
    hide Init, Apply, KillsSprint, Awaits, TearsAnother, CallAt, Homes.Inv, Gone;
    Homes.Along(states, events, j);
    assert Follows(states, events, j);
    if Own(events[j], t) { KillStep(states[j], t, events[j].c, states[j + 1], a); }
    else { Waits(states, events, j, t); }
  }

  lemma {:induction false} KillAlong(states: seq<State>, events: seq<Event>, b: nat, j: nat, t: Tid, p: SprintId,
                                     a: AgentId)
    requires IsRun(states, events) && b < j < |states| && events[b] == Begin(t, Cascade(KillSprint(p)))
    requires forall m :: b < m <= j ==> t in states[m].threads
    requires forall m :: b < m < j ==> !Stops(states, events, m, t, a)
    ensures KillsSprint(states[j].threads[t])
  {
    hide Init, Apply, KillsSprint, Stops, Awaits;
    if j == b + 1 {
      assert Follows(states, events, b);
      KillBegins(states[b], t, p, states[j]);
    } else {
      KillAlong(states, events, b, j - 1, t, p, a);
      KillNext(states, events, j - 1, t, a);
    }
  }

  lemma KillBegins(s: State, t: Tid, p: SprintId, s': State)
    requires Apply(s, Begin(t, Cascade(KillSprint(p)))) == Some(s')
    ensures t in s'.threads && KillsSprint(s'.threads[t])
  {
    hide StepThread;
  }

  /** The agent's terminal is torn down before the thread ends. */
  lemma {:induction false} TearsFrom(states: seq<State>, events: seq<Event>, j: nat, k: nat, t: Tid, a: AgentId)
    returns (q: nat)
    requires IsRun(states, events) && j <= k < |events| && a in states[j].db.agents
    requires (forall m :: j <= m <= k ==> t in states[m].threads) && t !in states[k + 1].threads
    requires KillsSprint(states[j].threads[t]) && Awaits(states[j].threads[t], a)
    requires forall m :: j <= m <= k ==> !Stops(states, events, m, t, a)
    ensures j <= q <= k && Own(events[q], t) && Holding(states[q], t, a) && a in states[q].db.agents
    ensures Gone(states[q + 1].world, states[q].db.agents[a].handle)
    decreases k - j
  {
    hide Init, Apply, KillsSprint, Awaits, KillsOf, CallAt, Homes.Inv, Gone, Holding;
    var n := NextOwn(states, events, j, k, t);
    assert !Stops(states, events, n, t, a);
    hide TearsAnother;
    GrowsAlong(states, events, j, n);
    Homes.Along(states, events, n);
    assert Follows(states, events, n);
    KillStep(states[n], t, events[n].c, states[n + 1], a);
    if KillsOf(states[n].threads[t], events[n].c, a) {
      q := n;
    } else {
      GrowsAlong(states, events, n, n + 1);
      q := TearsFrom(states, events, n + 1, k, t, a);
    }
  }

  /** A sprint kill tears down every agent it flips. When its thread ends, and none of its calls has
      failed but such as tear down another agent: from some moment under the agent's lock after the
      flip, the terminal the row had then is not enumerated any more. */
  lemma SprintKillTearsDown(states: seq<State>, events: seq<Event>, b: nat, m: nat, k: nat, t: Tid, p: SprintId,
                            a: AgentId)
    returns (q: nat)
    requires Request(states, events, b, k, t, Cascade(KillSprint(p))) && b < m <= k
    requires Own(events[m], t) && IsActive(states[m].db, a) && !IsActive(states[m + 1].db, a)
    requires forall n :: b < n <= k ==> !Stops(states, events, n, t, a)
    ensures m < q <= k && Own(events[q], t) && Holding(states[q], t, a) && a in states[q].db.agents
    ensures states[q].db.agents[a].handle !in states[k + 1].world.present
  {
    hide Init, Apply, KillsSprint, Awaits, Stops, Holding;
    KillAlong(states, events, b, m, t, p, a);
    KillNext(states, events, m, t, a);
    GrowsAlong(states, events, m, m + 1);
    q := TearsFrom(states, events, m + 1, k, t, a);
    GrowsAlong(states, events, q + 1, k + 1);
  }

  lemma SameTerminal(s: State, s': State, a: AgentId)
    requires IncarnationCoherence.Inv(s) && IncarnationCoherence.Inv(s') && GrowsWorld(s.world, s'.world)
    requires a in s.db.agents && a in s'.db.agents
    ensures s'.db.agents[a].nonce == s.db.agents[a].nonce <==> s'.db.agents[a].handle == s.db.agents[a].handle
  {
    assert IncarnationCoherence.CoherentRow(s.world, a, s.db.agents[a]);
    assert IncarnationCoherence.CoherentRow(s'.world, a, s'.db.agents[a]);
  }

  /** So a flipped agent that has not been given another terminal since has no running child. */
  lemma SprintKillLeavesNoChild(states: seq<State>, events: seq<Event>, b: nat, m: nat, k: nat, t: Tid, p: SprintId,
                                a: AgentId)
    requires Request(states, events, b, k, t, Cascade(KillSprint(p))) && b < m <= k
    requires Own(events[m], t) && IsActive(states[m].db, a) && !IsActive(states[m + 1].db, a)
    requires forall n :: b < n <= k ==> !Stops(states, events, n, t, a)
    ensures a in states[k + 1].db.agents
    ensures states[k + 1].db.agents[a].handle == states[m].db.agents[a].handle ==>
      states[k + 1].db.agents[a].handle !in states[k + 1].world.alive
  {
    hide Init, Follows, IncarnationCoherence.Inv, IncarnationCoherence.Retired, Stops, Holding, GrowsDb, GrowsWorld;
    var q := SprintKillTearsDown(states, events, b, m, k, t, p, a);
    RowStays(states, events, m, k + 1, a);
    if states[k + 1].db.agents[a].handle == states[m].db.agents[a].handle {
      InBetween(states, events, m, q, k + 1, a);
      AliveIsPresent(states, events, k + 1);
    }
  }

  lemma RowStays(states: seq<State>, events: seq<Event>, i: nat, j: nat, a: AgentId)
    requires IsRun(states, events) && i <= j < |states| && a in states[i].db.agents
    ensures a in states[j].db.agents
  {
    hide Init, Follows;
    GrowsAlong(states, events, i, j);
  }

  lemma AliveIsPresent(states: seq<State>, events: seq<Event>, j: nat)
    requires IsRun(states, events) && j < |states|
    ensures states[j].world.alive <= states[j].world.present
  {
    hide Init, Follows;
    IncarnationCoherence.Along(states, events, j);
  }

  /** A row that has the same terminal at two moments has it in between. */
  lemma InBetween(states: seq<State>, events: seq<Event>, i: nat, q: nat, j: nat, a: AgentId)
    requires IsRun(states, events) && i <= q <= j < |states|
    requires a in states[i].db.agents && a in states[q].db.agents && a in states[j].db.agents
    requires states[j].db.agents[a].handle == states[i].db.agents[a].handle
    ensures states[q].db.agents[a].handle == states[i].db.agents[a].handle
  {
    hide Init, Follows, IncarnationCoherence.Inv, GrowsDb, GrowsWorld;
    IncarnationCoherence.Along(states, events, i);
    IncarnationCoherence.Along(states, events, q);
    IncarnationCoherence.Along(states, events, j);
    GrowsAlong(states, events, i, q);
    GrowsAlong(states, events, i, j);
    SameTerminal(states[i], states[q], a);
    SameTerminal(states[i], states[j], a);
    var n := states[i].db.agents[a].nonce;
    IncarnationCoherence.NeverBack(states, events, i, q, a, n, false);
    if states[q].db.agents[a].nonce != n {
      IncarnationCoherence.NeverBack(states, events, q, j, a, n, true);
    }
  }

  // ---------------------------------------------------------------- workspace by workspace

  /** Workstream w's workspace is still to be torn down. */
  ghost predicate AwaitsWorkspace(pc: Pc, w: WorkstreamId) {
    || (WorkOf(pc).Some? && !WorkOf(pc).value.perAgent && w in WorkOf(pc).value.torn)
    || (pc.Cascade? && pc.cas.TearWorkspaces? && w in pc.cas.wss)
  }

  ghost predicate TearsOther(pc: Pc, w: WorkstreamId) {
    pc.Cascade? && pc.cas.TearWorkspaces? && pc.cas.wss != [] && pc.cas.wss[0] != w
  }

  ghost predicate KillsWorkspace(pc: Pc, c: Choice, w: WorkstreamId) {
    pc.Cascade? && pc.cas.TearWorkspaces? && pc.cas.wss != [] && pc.cas.wss[0] == w && !c.Fail?
  }

  ghost predicate WorkspaceGoesOn(pc: Pc, c: Choice, eff: Effect, w: WorkstreamId) {
    && (AwaitsWorkspace(pc, w) && !KillsWorkspace(pc, c, w) ==> eff.next.Some? && AwaitsWorkspace(eff.next.value, w))
    && (eff.stmt == FlipWorkstream(w) ==> eff.next.Some? && AwaitsWorkspace(eff.next.value, w))
    && (KillsWorkspace(pc, c, w) ==> eff.out == KillWorkspaceOf(w) && eff.next.Some? && TearsOnly(eff.next.value))
    && (TearsOnly(pc) ==> eff.stmt.NoStatement? && (eff.next.Some? ==> TearsOnly(eff.next.value)))
  }

  /** What a kill comes to once it has begun to tear down workspaces: no table changes any more. */
  ghost predicate TearsOnly(pc: Pc) {
    || (pc.Cascade? && pc.cas.TearWorkspaces?)
    || (pc.Adopt? && (pc.ado.AdoptFail? || pc.ado.Refused?))
  }

  ghost predicate Up(db: Db, w: WorkstreamId) { w in db.workstreams && db.workstreams[w].status == Active }

  lemma FlipAwaits(db: Db, work: Work, c: Choice, w: WorkstreamId)
    requires work.wss != [] && !work.perAgent && NextWorkstream(db, work, c).stmt == FlipWorkstream(w)
    ensures var eff := NextWorkstream(db, work, c); eff.next.Some? && AwaitsWorkspace(eff.next.value, w)
  {}

  lemma NextFlips(s: State, work: Work, c: Choice, w: WorkstreamId)
    requires Listed(s.db, Cascade(CascadePc.Next(work))) && StepNext(s, work, c).stmt == FlipWorkstream(w)
    ensures var eff := StepNext(s, work, c); eff.next.Some? && AwaitsWorkspace(eff.next.value, w)
  {
    hide NextWorkstream, AwaitsWorkspace;
    assert AtWorkstreams(work);
    FlipAwaits(s.db, work, c, w);
  }

  lemma WorkspaceNext(s: State, work: Work, c: Choice, w: WorkstreamId)
    requires Listed(s.db, Cascade(CascadePc.Next(work))) && (c.Fail? ==> work.ags != [])
    ensures WorkspaceGoesOn(Cascade(CascadePc.Next(work)), c, StepNext(s, work, c), w)
  {
    hide StepNext, Listed;
    NextCarries(s, work, c);
    NextLoops(s, work, c);
    if StepNext(s, work, c).stmt == FlipWorkstream(w) { NextFlips(s, work, c, w); }
  }

  lemma WorkspaceCascade(s: State, k: CascadePc, c: Choice, eff: Effect, w: WorkstreamId)
    requires !k.Next? && Listed(s.db, Cascade(k)) && StepCascade(s, k, c) == Some(eff)
    requires c.Fail? ==> CallAt(Cascade(k)) == NoCall || TearsOther(Cascade(k), w)
    ensures WorkspaceGoesOn(Cascade(k), c, eff, w)
  {}

  lemma WorkspaceExit(s: State, k: ExitPc, c: Choice, eff: Effect, w: WorkstreamId)
    requires StepExit(s, k, c) == Some(eff) && (c.Fail? ==> CallAt(Exit(k)) == NoCall)
    ensures WorkspaceGoesOn(Exit(k), c, eff, w)
  {}

  lemma WorkspaceOther(s: State, pc: Pc, c: Choice, eff: Effect, w: WorkstreamId)
    requires !pc.Cascade? && !pc.Exit? && Plan(s, pc, c) == Some(eff)
    ensures WorkspaceGoesOn(pc, c, eff, w)
  {}

  lemma WorkspaceNextPlan(s: State, k: CascadePc, c: Choice, eff: Effect, w: WorkstreamId)
    requires k.Next? && Listed(s.db, Cascade(k)) && StepCascade(s, k, c) == Some(eff)
    requires c.Fail? ==> CallAt(Cascade(k)) == NoCall
    ensures WorkspaceGoesOn(Cascade(k), c, eff, w)
  {
    hide StepNext, WorkspaceGoesOn, Listed;
    WorkspaceNext(s, k.work, c, w);
  }

  lemma WorkspacePlan(s: State, pc: Pc, c: Choice, eff: Effect, w: WorkstreamId)
    requires Plan(s, pc, c) == Some(eff) && Listed(s.db, pc)
    requires c.Fail? ==> CallAt(pc) == NoCall || TearsOther(pc, w)
    ensures WorkspaceGoesOn(pc, c, eff, w)
  {
    hide StepLane, StepResume, StepExit, StepCheck, StepLaunch, StepAdopt, StepCascade, WorkspaceGoesOn;
    match pc
    case Cascade(k) =>
      if k.Next? { WorkspaceNextPlan(s, k, c, eff, w); } else { WorkspaceCascade(s, k, c, eff, w); }
    case Exit(k) => WorkspaceExit(s, k, c, eff, w);
    case _ => WorkspaceOther(s, pc, c, eff, w);
  }

  /** Terminals of workstream w's workspace. */
  ghost predicate WorkspaceGone(world: World, world': World, w: WorkstreamId) {
    forall h :: h in world.spawned && world.spawned[h].home == w ==> h !in world'.present
  }

  lemma WorkspaceStep(s: State, t: Tid, c: Choice, s': State, w: WorkstreamId)
    requires Homes.Inv(s) && t in s.threads && Apply(s, Step(t, c)) == Some(s')
    requires c.Fail? ==> CallAt(s.threads[t]) == NoCall || TearsOther(s.threads[t], w)
    ensures AwaitsWorkspace(s.threads[t], w) && !KillsWorkspace(s.threads[t], c, w) ==>
      t in s'.threads && AwaitsWorkspace(s'.threads[t], w)
    ensures Up(s.db, w) && !Up(s'.db, w) ==> t in s'.threads && AwaitsWorkspace(s'.threads[t], w)
    ensures KillsWorkspace(s.threads[t], c, w) ==> WorkspaceGone(s.world, s'.world, w)
    ensures KillsWorkspace(s.threads[t], c, w) ==> t in s'.threads && TearsOnly(s'.threads[t])
    ensures TearsOnly(s.threads[t]) ==> s'.db == s.db && (t in s'.threads ==> TearsOnly(s'.threads[t]))
  {
    hide Plan, AwaitsWorkspace, KilledStays, GrowsWorld, GrowsIds, Rely, Scoped, TearsOther, TearsOnly, CallAt, Base,
      Grantable;
    var eff := Unpack(s, t, c, s');
    WorkspacePlan(s, s.threads[t], c, eff, w);
    ScopedInserts(s, s.threads[t], eff);
    OnlyFlipKills(s.db, eff.stmt, w);
  }

  lemma ScopedInserts(s: State, pc: Pc, eff: Effect)
    requires Scoped(s, pc, eff)
    ensures InsertsNew(s.db, eff.stmt)
  {}

  lemma OnlyFlipKills(db: Db, stmt: Statement, w: WorkstreamId)
    requires InsertsNew(db, stmt)
    ensures Up(db, w) && !Up(Run(db, stmt), w) ==> stmt == FlipWorkstream(w)
  {}

  /** A failing call of t, but for one that tears down another workspace. */
  ghost predicate StopsShort(states: seq<State>, events: seq<Event>, j: nat, t: Tid, w: WorkstreamId)
    requires j < |events| && |states| == |events| + 1
  {
    FailsAt(states, events, j, t) && !TearsOther(states[j].threads[t], w)
  }

  lemma {:induction false} TearsWorkspaceFrom(states: seq<State>, events: seq<Event>, j: nat, k: nat, t: Tid,
                                              w: WorkstreamId)
    returns (q: nat)
    requires IsRun(states, events) && j <= k < |events|
    requires (forall m :: j <= m <= k ==> t in states[m].threads) && t !in states[k + 1].threads
    requires AwaitsWorkspace(states[j].threads[t], w)
    requires forall m :: j <= m <= k ==> !StopsShort(states, events, m, t, w)
    ensures j <= q < k && Own(events[q], t) && WorkspaceGone(states[q].world, states[q + 1].world, w)
    ensures TearsOnly(states[q + 1].threads[t])
    decreases k - j
  {
    hide Init, Apply, AwaitsWorkspace, KillsWorkspace, WorkspaceGone, TearsOnly, CallAt, Homes.Inv;
    var n := NextOwn(states, events, j, k, t);
    assert !StopsShort(states, events, n, t, w);
    hide TearsOther;
    Homes.Along(states, events, n);
    assert Follows(states, events, n);
    WorkspaceStep(states[n], t, events[n].c, states[n + 1], w);
    if KillsWorkspace(states[n].threads[t], events[n].c, w) {
      q := n;
    } else {
      q := TearsWorkspaceFrom(states, events, n + 1, k, t, w);
    }
  }

  lemma {:induction false} OnlyTears(states: seq<State>, events: seq<Event>, j: nat, n: nat, k: nat, t: Tid,
                                     w: WorkstreamId)
    requires IsRun(states, events) && j <= n <= k < |events|
    requires (forall m :: j <= m <= k ==> t in states[m].threads) && TearsOnly(states[j].threads[t])
    requires forall m :: j <= m <= k ==> !StopsShort(states, events, m, t, w)
    ensures TearsOnly(states[n].threads[t])
  {
    hide Init, Apply, TearsOnly, CallAt, Homes.Inv, WorkspaceGone, AwaitsWorkspace, KillsWorkspace;
    if j < n {
      OnlyTears(states, events, j, n - 1, k, t, w);
      assert !StopsShort(states, events, n - 1, t, w);
      hide TearsOther;
      Homes.Along(states, events, n - 1);
      assert Follows(states, events, n - 1);
      if Own(events[n - 1], t) { WorkspaceStep(states[n - 1], t, events[n - 1].c, states[n], w); }
      else { Waits(states, events, n - 1, t); }
    }
  }

  /** A kill tears down the workspace of every workstream it flips, be it the kill of a workstream,
      of a repo, or the undo of a relocating adopt. When its thread ends, and none of its calls has
      failed but such as tear down another workspace: there was a moment after which it changed no
      table any more, and no terminal spawned into that workspace by then is enumerated; so none
      that a row of the workstream's agents had then. */
  lemma WorkspaceTornDown(states: seq<State>, events: seq<Event>, m: nat, k: nat, t: Tid, w: WorkstreamId)
    returns (q: nat)
    requires IsRun(states, events) && m <= k < |events| && Own(events[m], t)
    requires Up(states[m].db, w) && !Up(states[m + 1].db, w)
    requires (forall n :: m <= n <= k ==> t in states[n].threads) && t !in states[k + 1].threads
    requires forall n :: m <= n <= k ==> !StopsShort(states, events, n, t, w)
    ensures m < q < k && WorkspaceGone(states[q].world, states[k + 1].world, w)
    ensures forall n :: q < n <= k && Own(events[n], t) ==> states[n + 1].db == states[n].db
    ensures forall a :: a in states[q].db.agents && Within(states[q].db, a, w) ==>
      states[q].db.agents[a].handle !in states[k + 1].world.present
  {
    hide Init, Apply, AwaitsWorkspace, TearsOnly, CallAt, Homes.Inv, WorkspaceGone, KillsWorkspace;
    assert !StopsShort(states, events, m, t, w);
    hide TearsOther;
    Homes.Along(states, events, m);
    assert Follows(states, events, m);
    WorkspaceStep(states[m], t, events[m].c, states[m + 1], w);
    q := TearsWorkspaceFrom(states, events, m + 1, k, t, w);
    GrowsAlong(states, events, q + 1, k + 1);
    GrowsAlong(states, events, q, q + 1);
    GoneLater(states[q].world, states[q + 1].world, states[k + 1].world, w);
    forall n | q < n <= k && Own(events[n], t) ensures states[n + 1].db == states[n].db {
      OnlyTears(states, events, q + 1, n, k, t, w);
      assert !StopsShort(states, events, n, t, w) && Follows(states, events, n);
      Homes.Along(states, events, n);
      WorkspaceStep(states[n], t, events[n].c, states[n + 1], w);
    }
    Homes.Along(states, events, q);
    AgentsAtHome(states[q], states[k + 1].world, w);
  }

  /** Agent a is one of workstream w's. */
  ghost predicate Within(db: Db, a: AgentId, w: WorkstreamId) {
    a in db.agents && db.agents[a].sprint in db.sprints && db.sprints[db.agents[a].sprint].workstream == w
  }

  lemma GoneLater(world: World, world': World, world'': World, w: WorkstreamId)
    requires WorkspaceGone(world, world', w) && GrowsWorld(world, world') && GrowsWorld(world', world'')
    ensures WorkspaceGone(world, world'', w)
  {}

  lemma AgentsAtHome(s: State, world': World, w: WorkstreamId)
    requires Homes.Inv(s) && WorkspaceGone(s.world, world', w)
    ensures forall a :: a in s.db.agents && Within(s.db, a, w) ==> s.db.agents[a].handle !in world'.present
  {
    forall a | a in s.db.agents && Within(s.db, a, w) ensures s.db.agents[a].handle !in world'.present {
      assert AtHome(s.db, s.world, s.db.agents[a].sprint, s.db.agents[a].handle);
    }
  }
}
