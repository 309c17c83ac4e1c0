/** No orphan: whatever spawns, adopts, agent kills, container kills, supervisor lanes, container
    creations and activations interleave, once all of them are finished no Active agent sits
    under a container that is not Active.

    The argument is the one the two protocols were written for. A cascade flips a container
    before it lists the children, so it owes a visit to every Active child it has not listed
    yet; a launch inserts its row before it re-checks the hierarchy, so a row inserted behind a
    cascade's back finds the flipped container. Covered says that debt, Due when a launch has
    come far enough for it to be owed. */
module NoOrphan {
  import opened Tables
  import opened Protocol
  import opened Interference
  import AdoptUndo
  import IncarnationCoherence

  datatype Level = AtSprint | AtWorkstream | AtRepo

  /** The container at this level above the sprint, or the sprint itself, is not Active. */
  ghost predicate DeadAt(db: Db, p: SprintId, level: Level) {
    match level
    case AtSprint => DeadSprint(db, p)
    case AtWorkstream => DeadWorkstream(db, p)
    case AtRepo => DeadRepo(db, p)
  }

  predicate UpTo(l: Level, level: Level) {
    l.AtSprint? || (l.AtWorkstream? && !level.AtSprint?) || level.AtRepo?
  }

  // ---------------------------------------------------------------- what a cascade still visits

  ghost predicate VisitsAgent(pc: Pc, a: AgentId, p: SprintId) {
    || (pc.Cascade? && pc.cas.ListAgents? && pc.cas.p == p && !pc.cas.work.Skips(a))
    || (pc.Cascade? && pc.cas.FlipRead? && pc.cas.a == a)
    || (pc.Exit? && pc.ex.ExitFlip? && pc.ex.a == a && pc.ex.after.ToCascade?)
    || (WorkOf(pc).Some? && a in WorkOf(pc).value.ags && !WorkOf(pc).value.Skips(a))
  }

  ghost predicate VisitsSprint(pc: Pc, p: SprintId, w: WorkstreamId) {
    || (pc.Cascade? && pc.cas.ListSprints? && pc.cas.w == w)
    || (WorkOf(pc).Some? && p in WorkOf(pc).value.sps)
  }

  ghost predicate VisitsWorkstream(pc: Pc, w: WorkstreamId, r: RepoId) {
    || (pc.Cascade? && pc.cas.ListWorkstreams? && pc.cas.r == r)
    || (WorkOf(pc).Some? && w in WorkOf(pc).value.wss)
  }

  /** The code at pc will come by: by way of the dead container at this level. */
  ghost predicate Visits(db: Db, pc: Pc, a: AgentId, p: SprintId, level: Level)
    requires Rooted(db) && p in db.sprints
  {
    var w := db.sprints[p].workstream;
    match level
    case AtSprint => VisitsAgent(pc, a, p)
    case AtWorkstream => VisitsSprint(pc, p, w)
    case AtRepo => VisitsWorkstream(pc, w, db.workstreams[w].repo)
  }

  ghost predicate Visited(db: Db, threads: map<Tid, Pc>, a: AgentId, p: SprintId, level: Level)
    requires Rooted(db) && p in db.sprints
  {
    exists t, l :: t in threads && UpTo(l, level) && Visits(db, threads[t], a, p, l)
  }

  /** Below a dead container somebody is on the way to the agent, by way of this level or from
      further down. */
  ghost predicate Covered(s: State, a: AgentId, level: Level)
    requires Rooted(s.db) && a in s.db.agents
  {
    DeadAt(s.db, s.db.agents[a].sprint, level) ==> Visited(s.db, s.threads, a, s.db.agents[a].sprint, level)
  }

  // ---------------------------------------------------------------- when it is owed

  /** A launch is owed a visit through the containers it has re-read as Active, an agent being
      compensated none, every other agent through all three. */
  ghost predicate Due(holder: Option<Pc>, a: AgentId, level: Level) {
    match holder
    case Some(Check(CheckSprint(_, PostInsert(b, _)))) => a != b
    case Some(Check(CheckWorkstream(sp, _, PostInsert(b, _)))) => a != b || (sp == Active && level.AtSprint?)
    case Some(Check(CheckRepo(sp, ws, _, PostInsert(b, _)))) =>
      a != b || (sp == Active && level.AtSprint?) || (sp == ws == Active && level.AtWorkstream?)
    case Some(Launch(CompRead(b, _))) => a != b
    case Some(Launch(CompFlip(b, _, _))) => a != b
    case _ => true
  }

  /** A re-check looks at the containers above its own agent, a cascade at rows there are, and
      the cascade's loops are nested. */
  ghost predicate ThreadOk(db: Db, pc: Pc) {
    && (pc.Check? && pc.chk.use.PostInsert? ==>
          && pc.chk.use.a in db.agents
          && var p := db.agents[pc.chk.use.a].sprint;
             match pc.chk
             case CheckSprint(q, _) => q == p
             case CheckWorkstream(_, w, _) => p in db.sprints && w == db.sprints[p].workstream
             case CheckRepo(_, _, r, _) =>
               p in db.sprints && db.sprints[p].workstream in db.workstreams
               && r == db.workstreams[db.sprints[p].workstream].repo)
    && (pc.Cascade? && pc.cas.FlipRead? ==> pc.cas.a in db.agents)
    && (pc.Cascade? && pc.cas.ListAgents? ==> pc.cas.work.ags == [])
    && (pc.Cascade? && pc.cas.ListSprints? ==> pc.cas.work.sps == pc.cas.work.ags == [])
    && (WorkOf(pc).Some? ==> forall b :: b in WorkOf(pc).value.ags ==> b in db.agents)
  }

  ghost predicate Threads(s: State) {
    forall t :: t in s.threads ==> ThreadOk(s.db, s.threads[t])
  }

  ghost predicate Debts(s: State)
    requires Rooted(s.db)
  {
    forall a, level :: IsActive(s.db, a) && Due(HolderPc(s, a), a, level) ==> Covered(s, a, level)
  }

  // ---------------------------------------------------------------- the runs considered

  /** The agent's own launch is still checking or compensating, or a cascade is on its way. */
  ghost predicate Pending(db: Db, pc: Pc, a: AgentId, p: SprintId)
    requires Rooted(db) && p in db.sprints
  {
    || (pc.Check? && pc.chk.use.PostInsert? && pc.chk.use.a == a)
    || (pc.Launch? && (pc.lau.CompRead? || pc.lau.CompFlip?) && pc.lau.a == a)
    || VisitsAgent(pc, a, p)
    || VisitsSprint(pc, p, db.sprints[p].workstream)
    || VisitsWorkstream(pc, db.sprints[p].workstream, db.workstreams[db.sprints[p].workstream].repo)
  }

  /** The calls whose failure ends what is pending: the spawn's own re-read of its sprint, the
      status write of a compensation, and, inside a cascade, the listings, an agent's re-read,
      status write and EventExited append, the next flip, and the clearing of a selection. */
  ghost predicate LosesTrack(pc: Pc) {
    match pc
    case Check(k) => k.CheckSprint? && k.use.PostInsert? && k.use.origin.Spawned?
    case Launch(n) => n.CompFlip?
    case Exit(x) => (x.ExitFlip? || x.ExitLog?) && x.after.ToCascade?
    case Cascade(k) =>
      k.ListWorkstreams? || k.ListSprints? || k.ListAgents? || k.FlipRead? || (k.Next? && k.work.ags == [])
    case _ => false
  }

  /** Such a call, while an Active agent under a dead container depends on it, or while it goes
      before the cascade of an undone relocation, which skips the agent. */
  ghost predicate Forgets(s: State, pc: Pc) {
    && LosesTrack(pc)
    && (AdoptUndo.Compensates(pc) || (Rooted(s.db) && exists a :: Depends(s, pc, a)))
  }

  ghost predicate Depends(s: State, pc: Pc, a: AgentId)
    requires Rooted(s.db)
  {
    && IsActive(s.db, a) && DeadHierarchy(s.db, s.db.agents[a].sprint)
    && Pending(s.db, pc, a, s.db.agents[a].sprint)
  }

  /** A respawn by hand is about to turn the row Active below a container that is not: its check
      passed before the container was killed. */
  ghost predicate SlipsBehind(s: State, pc: Pc) {
    && pc.Resume? && pc.res.RespawnActivate?
    && pc.res.a in s.db.agents && DeadHierarchy(s.db, s.db.agents[pc.res.a].sprint)
  }

  ghost predicate Sound(s: State, pc: Pc, c: Choice) {
    if c.Fail? then !Forgets(s, pc) else !SlipsBehind(s, pc)
  }

  /** No call fails while that forgets an agent, and no respawn by hand slips in behind a kill.
      Every other call may fail, those included at any other time; whoever likes may respawn by
      hand, and activate containers again. */
  ghost predicate Allowed(s: State, e: Event) {
    e.Step? && e.t in s.threads ==> Sound(s, s.threads[e.t], e.c)
  }

  ghost predicate Careful(pc: Pc, c: Choice) { c.Fail? ==> !LosesTrack(pc) }

  // ---------------------------------------------------------------- visits go on

  /** The statement is the visit: it flips what hangs below the dead container on the way to a. */
  ghost predicate Arrives(db: Db, stmt: Statement, a: AgentId, p: SprintId, level: Level)
    requires p in db.sprints
  {
    match level
    case AtSprint => stmt == SetStatus(a, Exited)
    case AtWorkstream => stmt == FlipSprint(p)
    case AtRepo => stmt == FlipWorkstream(db.sprints[p].workstream)
  }

  ghost predicate Below(db: Db, a: AgentId, p: SprintId, level: Level) {
    && Rooted(db) && IsActive(db, a) && db.agents[a].sprint == p
    && (level.AtWorkstream? ==> !DeadSprint(db, p))
    && (level.AtRepo? ==> !DeadWorkstream(db, p))
  }

  ghost predicate GoesOn(s: State, eff: Effect, a: AgentId, p: SprintId, level: Level)
    requires Rooted(s.db) && p in s.db.sprints
  {
    Arrives(s.db, eff.stmt, a, p, level) || (eff.next.Some? && Visits(s.db, eff.next.value, a, p, level))
  }

  lemma VisitNextAgent(s: State, work: Work, c: Choice, a: AgentId, p: SprintId)
    requires Below(s.db, a, p, AtSprint) && VisitsAgent(Cascade(CascadePc.Next(work)), a, p)
    ensures GoesOn(s, StepNext(s, work, c), a, p, AtSprint)
  {
    hide NextSprint, NextWorkstream;
  }

  lemma VisitNext(s: State, work: Work, c: Choice, a: AgentId, p: SprintId, level: Level)
    requires !level.AtSprint? && Careful(Cascade(CascadePc.Next(work)), c)
    requires ThreadOk(s.db, Cascade(CascadePc.Next(work)))
    requires Below(s.db, a, p, level) && Visits(s.db, Cascade(CascadePc.Next(work)), a, p, level)
    ensures GoesOn(s, StepNext(s, work, c), a, p, level)
  {
    if AtSprints(work) { VisitNextSprint(s, work, c, a, p, level); }
    else if AtWorkstreams(work) { VisitNextWorkstream(s, work, c, a, p, level); }
    else if work.ags != [] { VisitNextBelow(s, work, a, p, level); }
    else { VisitNextElse(s, work, c, a, p, level); }
  }

  lemma VisitNextSprint(s: State, work: Work, c: Choice, a: AgentId, p: SprintId, level: Level)
    requires AtSprints(work) && !level.AtSprint? && !c.Fail?
    requires Below(s.db, a, p, level) && Visits(s.db, Cascade(CascadePc.Next(work)), a, p, level)
    ensures GoesOn(s, StepNext(s, work, c), a, p, level)
  {
    hide NextAgent, NextWorkstream;
  }

  lemma VisitNextWorkstream(s: State, work: Work, c: Choice, a: AgentId, p: SprintId, level: Level)
    requires AtWorkstreams(work) && !level.AtSprint? && !c.Fail?
    requires Below(s.db, a, p, level) && Visits(s.db, Cascade(CascadePc.Next(work)), a, p, level)
    ensures GoesOn(s, StepNext(s, work, c), a, p, level)
  {
    hide NextAgent, NextSprint;
  }

  lemma VisitNextBelow(s: State, work: Work, a: AgentId, p: SprintId, level: Level)
    requires work.ags != [] && !level.AtSprint?
    requires Below(s.db, a, p, level) && Visits(s.db, Cascade(CascadePc.Next(work)), a, p, level)
    ensures GoesOn(s, NextAgent(work), a, p, level)
  {}

  lemma VisitNextElse(s: State, work: Work, c: Choice, a: AgentId, p: SprintId, level: Level)
    requires work.ags == [] && !AtSprints(work) && !AtWorkstreams(work) && !level.AtSprint? && !c.Fail?
    requires Below(s.db, a, p, level) && Visits(s.db, Cascade(CascadePc.Next(work)), a, p, level)
    ensures GoesOn(s, StepNext(s, work, c), a, p, level)
  {
    hide NextAgent, NextSprint, NextWorkstream;
  }

  lemma VisitListed(s: State, k: CascadePc, c: Choice, eff: Effect, a: AgentId, p: SprintId, level: Level)
    requires (k.ListAgents? || k.ListSprints? || k.ListWorkstreams?) && StepCascade(s, k, c) == Some(eff) && !c.Fail?
    requires ThreadOk(s.db, Cascade(k)) && Below(s.db, a, p, level) && Visits(s.db, Cascade(k), a, p, level)
    ensures GoesOn(s, eff, a, p, level)
  {
    hide DeadHierarchy;
    var w := s.db.sprints[p].workstream;
    assert a in s.db.ActiveAgentsOf(p);
    assert level.AtWorkstream? ==> p in s.db.ActiveSprintsOf(w);
    assert level.AtRepo? ==> w in s.db.ActiveWorkstreamsOf(s.db.workstreams[w].repo);
  }

  lemma VisitReread(s: State, k: CascadePc, c: Choice, eff: Effect, a: AgentId, p: SprintId, level: Level)
    requires k.FlipRead? && StepCascade(s, k, c) == Some(eff) && !c.Fail? && ThreadOk(s.db, Cascade(k))
    requires Below(s.db, a, p, level) && Visits(s.db, Cascade(k), a, p, level)
    ensures GoesOn(s, eff, a, p, level)
  {
    hide DeadHierarchy, StepNext;
  }

  lemma VisitCascade(s: State, k: CascadePc, c: Choice, eff: Effect, a: AgentId, p: SprintId, level: Level)
    requires !k.Next? && StepCascade(s, k, c) == Some(eff) && Careful(Cascade(k), c) && ThreadOk(s.db, Cascade(k))
    requires Below(s.db, a, p, level) && Visits(s.db, Cascade(k), a, p, level)
    ensures GoesOn(s, eff, a, p, level)
  {
    hide StepCascade, GoesOn, Below;
    if k.ListAgents? || k.ListSprints? || k.ListWorkstreams? { VisitListed(s, k, c, eff, a, p, level); }
    else { VisitReread(s, k, c, eff, a, p, level); }
  }

  lemma VisitExit(s: State, k: ExitPc, c: Choice, eff: Effect, a: AgentId, p: SprintId, level: Level)
    requires StepExit(s, k, c) == Some(eff) && Careful(Exit(k), c) && ThreadOk(s.db, Exit(k))
    requires Below(s.db, a, p, level) && Visits(s.db, Exit(k), a, p, level)
    ensures GoesOn(s, eff, a, p, level)
  {}

  /** A pending visit stays pending until it is made. */
  lemma VisitOn(s: State, pc: Pc, c: Choice, eff: Effect, a: AgentId, p: SprintId, level: Level)
    requires Plan(s, pc, c) == Some(eff) && Careful(pc, c) && ThreadOk(s.db, pc)
    requires Below(s.db, a, p, level) && Visits(s.db, pc, a, p, level)
    ensures GoesOn(s, eff, a, p, level)
  {
    match pc
    case Cascade(k) =>
      if !k.Next? { VisitCascade(s, k, c, eff, a, p, level); }
      else if level.AtSprint? { VisitNextAgent(s, k.work, c, a, p); }
      else { VisitNext(s, k.work, c, a, p, level); }
    case Exit(k) => VisitExit(s, k, c, eff, a, p, level);
  }

  ghost predicate Flips(stmt: Statement) { stmt.FlipSprint? || stmt.FlipWorkstream? || stmt.FlipRepo? }

  lemma OnlyCascadesFlip(s: State, pc: Pc, c: Choice, eff: Effect)
    requires !pc.Cascade? && Plan(s, pc, c) == Some(eff)
    ensures !Flips(eff.stmt)
  {}

  /** Whoever flips a container lists its children next. */
  ghost predicate ListsNext(pc: Pc, eff: Effect) {
    Flips(eff.stmt) ==>
      && pc.Cascade? && eff.next.Some? && eff.next.value.Cascade?
      && var k := eff.next.value.cas;
         match eff.stmt
         case FlipSprint(p) => k.ListAgents? && k.p == p && pc.cas.Next? && k.work.undo == pc.cas.work.undo
         case FlipWorkstream(w) => k.ListSprints? && k.w == w
         case FlipRepo(r) => k.ListWorkstreams? && k.r == r
         case _ => true
  }

  lemma FlipsThenLists(s: State, pc: Pc, c: Choice, eff: Effect)
    requires Plan(s, pc, c) == Some(eff)
    ensures ListsNext(pc, eff)
  {
    if pc.Cascade? { CascadeLists(s, pc.cas, c, eff); } else { OnlyCascadesFlip(s, pc, c, eff); }
  }

  lemma CascadeLists(s: State, k: CascadePc, c: Choice, eff: Effect)
    requires StepCascade(s, k, c) == Some(eff)
    ensures ListsNext(Cascade(k), eff)
  {}

  // ---------------------------------------------------------------- debts are kept

  /** A container newly dead at this level was flipped by the statement. */
  lemma NewlyDead(db: Db, stmt: Statement, p: SprintId, level: Level)
    requires Rooted(db) && p in db.sprints && InsertsNew(db, stmt)
    requires DeadAt(Run(db, stmt), p, level) && !DeadAt(db, p, level)
    ensures match level
      case AtSprint => stmt == FlipSprint(p)
      case AtWorkstream => stmt == FlipWorkstream(db.sprints[p].workstream)
      case AtRepo => stmt == FlipRepo(db.workstreams[db.sprints[p].workstream].repo)
  {}

  lemma SamePlace(db: Db, db': Db, pc: Pc, a: AgentId, p: SprintId, level: Level)
    requires Rooted(db) && Rooted(db') && GrowsDb(db, db') && p in db.sprints
    ensures Visits(db', pc, a, p, level) == Visits(db, pc, a, p, level)
  {}

  /** A step makes the pending visit, or leaves it pending, and lists below what it flips. */
  ghost predicate Faithful(s: State, pc: Pc, eff: Effect, a: AgentId)
    requires Rooted(s.db)
  {
    && InsertsNew(s.db, eff.stmt) && ListsNext(pc, eff) && AdoptUndo.UndoIdle(s.db, UndoOf(pc))
    && forall l :: GoesOnFrom(s, pc, eff, a, l)
  }

  ghost predicate GoesOnFrom(s: State, pc: Pc, eff: Effect, a: AgentId, l: Level)
    requires Rooted(s.db)
  {
    a in s.db.agents ==>
      var p := s.db.agents[a].sprint;
      Below(s.db, a, p, l) && DeadHierarchy(s.db, p) && Visits(s.db, pc, a, p, l) ==> GoesOn(s, eff, a, p, l)
  }

  lemma StepFaithful(s: State, pc: Pc, c: Choice, eff: Effect, a: AgentId)
    requires Rooted(s.db) && Plan(s, pc, c) == Some(eff) && Sound(s, pc, c) && ThreadOk(s.db, pc)
    requires InsertsNew(s.db, eff.stmt) && AdoptUndo.UndoIdle(s.db, UndoOf(pc))
    ensures Faithful(s, pc, eff, a)
  {
    hide Plan, ListsNext, LosesTrack, VisitsAgent, VisitsSprint, VisitsWorkstream, DeadHierarchy, Arrives;
    FlipsThenLists(s, pc, c, eff);
    forall l ensures GoesOnFrom(s, pc, eff, a, l) {
      if a in s.db.agents {
        var p := s.db.agents[a].sprint;
        if Below(s.db, a, p, l) && DeadHierarchy(s.db, p) && Visits(s.db, pc, a, p, l) {
          assert Depends(s, pc, a);
          VisitOn(s, pc, c, eff, a, p, l);
        }
      }
    }
  }

  lemma FlipperVisits(db: Db, pc: Pc, eff: Effect, a: AgentId, p: SprintId, level: Level)
    requires Rooted(db) && p in db.sprints && InsertsNew(db, eff.stmt) && ListsNext(pc, eff)
    requires IsActive(db, a) && AdoptUndo.UndoIdle(db, UndoOf(pc))
    requires DeadAt(Run(db, eff.stmt), p, level) && !DeadAt(db, p, level)
    ensures eff.next.Some? && Visits(db, eff.next.value, a, p, level)
  {
    NewlyDead(db, eff.stmt, p, level);
  }

  /** Whoever is closest on the way: the containers in between are Active. */
  lemma Closest(s: State, a: AgentId, level: Level) returns (u: Tid, l: Level)
    requires Rooted(s.db) && IsActive(s.db, a) && DeadAt(s.db, s.db.agents[a].sprint, level)
    requires forall l :: UpTo(l, level) ==> Covered(s, a, l)
    ensures u in s.threads && UpTo(l, level) && Below(s.db, a, s.db.agents[a].sprint, l)
    ensures Visits(s.db, s.threads[u], a, s.db.agents[a].sprint, l)
  {
    hide Visits, DeadSprint, DeadWorkstream, DeadRepo;
    var p := s.db.agents[a].sprint;
    var lowest := if DeadSprint(s.db, p) then AtSprint else if DeadWorkstream(s.db, p) then AtWorkstream else AtRepo;
    assert UpTo(lowest, level) && DeadAt(s.db, p, lowest);
    u, l :| u in s.threads && UpTo(l, lowest) && Visits(s.db, s.threads[u], a, p, l);
  }

  /** After the step the visit is still to come, from the same place or from further down. */
  lemma VisitAfter(s: State, t: Tid, eff: Effect, a: AgentId, u: Tid, l: Level)
    requires Rooted(s.db) && IsActive(s.db, a) && u in s.threads && t in s.threads
    requires Faithful(s, s.threads[t], eff, a) && DeadHierarchy(s.db, s.db.agents[a].sprint)
    requires Below(s.db, a, s.db.agents[a].sprint, l) && Visits(s.db, s.threads[u], a, s.db.agents[a].sprint, l)
    requires Rooted(Perform(s, t, eff).db) && IsActive(Perform(s, t, eff).db, a)
    ensures Visited(Perform(s, t, eff).db, Perform(s, t, eff).threads, a, s.db.agents[a].sprint, l)
  {
    hide Visits, VisitsAgent, VisitsSprint, VisitsWorkstream, ListsNext, KilledStays, DeadHierarchy, Below, Faithful;
    var s', p := Perform(s, t, eff), s.db.agents[a].sprint;
    GrowsFaithful(s, t, eff, a);
    if u != t {
      SamePlace(s.db, s'.db, s'.threads[u], a, p, l);
      assert UpTo(l, l) && Visits(s'.db, s'.threads[u], a, p, l);
    } else {
      var l' := Onward(s, t, eff, a, l);
      SamePlace(s.db, s'.db, s'.threads[t], a, p, l');
      assert Visits(s'.db, s'.threads[t], a, p, l');
    }
  }

  lemma GrowsFaithful(s: State, t: Tid, eff: Effect, a: AgentId)
    requires Rooted(s.db) && t in s.threads && Faithful(s, s.threads[t], eff, a)
    ensures GrowsDb(s.db, Run(s.db, eff.stmt))
  {
    hide ListsNext, GoesOnFrom;
    GrowsRun(s.db, eff.stmt);
  }

  lemma Onward(s: State, t: Tid, eff: Effect, a: AgentId, l: Level) returns (l': Level)
    requires Rooted(s.db) && IsActive(s.db, a) && t in s.threads && IsActive(Run(s.db, eff.stmt), a)
    requires Faithful(s, s.threads[t], eff, a) && DeadHierarchy(s.db, s.db.agents[a].sprint)
    requires Below(s.db, a, s.db.agents[a].sprint, l) && Visits(s.db, s.threads[t], a, s.db.agents[a].sprint, l)
    ensures UpTo(l', l) && eff.next.Some? && Visits(s.db, eff.next.value, a, s.db.agents[a].sprint, l')
  {
    hide DeadHierarchy, Below;
    assert GoesOnFrom(s, s.threads[t], eff, a, l);
    var p := s.db.agents[a].sprint;
    if Arrives(s.db, eff.stmt, a, p, l) {
      l' := if l.AtRepo? then AtWorkstream else AtSprint;
    } else {
      l' := l;
    }
  }

  lemma VisitedFurther(db: Db, threads: map<Tid, Pc>, a: AgentId, p: SprintId, l: Level, level: Level)
    requires Rooted(db) && p in db.sprints && Visited(db, threads, a, p, l) && UpTo(l, level)
    ensures Visited(db, threads, a, p, level)
  {
    hide Visits;
    var t, l' :| t in threads && UpTo(l', l) && Visits(db, threads[t], a, p, l');
    assert UpTo(l', level);
  }

  /** An Active agent that was covered stays covered, or is no longer Active. */
  lemma CoveredAfter(s: State, t: Tid, eff: Effect, a: AgentId, level: Level)
    requires Rooted(s.db) && IsActive(s.db, a) && forall l :: UpTo(l, level) ==> Covered(s, a, l)
    requires t in s.threads && Faithful(s, s.threads[t], eff, a)
    requires Rooted(Perform(s, t, eff).db) && IsActive(Perform(s, t, eff).db, a)
    ensures Covered(Perform(s, t, eff), a, level)
  {
    hide KilledStays, Visits, Below, GoesOnFrom;
    var s', p := Perform(s, t, eff), s.db.agents[a].sprint;
    GrowsFaithful(s, t, eff, a);
    if DeadAt(s'.db, p, level) {
      if DeadAt(s.db, p, level) {
        var u, l := Closest(s, a, level);
        VisitAfter(s, t, eff, a, u, l);
        VisitedFurther(s'.db, s'.threads, a, p, l, level);
      } else {
        FlipperVisits(s.db, s.threads[t], eff, a, p, level);
        SamePlace(s.db, s'.db, s'.threads[t], a, p, level);
        assert UpTo(level, level) && Visits(s'.db, s'.threads[t], a, p, level);
      }
    }
  }

  /** More falls due only as a re-check reads a container that is Active, and as a respawn by hand
      turns a row Active below containers that are. */
  ghost predicate FallsDue(s: State, pc: Pc, eff: Effect, a: AgentId, level: Level) {
    var db := Run(s.db, eff.stmt);
    IsActive(db, a) && Due(HolderNext(eff, a), a, level) ==>
      (IsActive(s.db, a) && Due(Some(pc), a, level)) || !DeadAt(db, db.agents[a].sprint, level)
  }

  lemma DueCheck(s: State, k: CheckPc, c: Choice, eff: Effect, a: AgentId, level: Level)
    requires Rooted(s.db) && ThreadOk(s.db, Check(k)) && a in Holds(Check(k))
    requires StepCheck(s, k, c) == Some(eff) && Careful(Check(k), c)
    ensures FallsDue(s, Check(k), eff, a, level)
  {}

  lemma DueLaunch(s: State, k: LaunchPc, c: Choice, eff: Effect, a: AgentId, level: Level)
    requires a in Holds(Launch(k)) && StepLaunch(s, k, c) == Some(eff) && Careful(Launch(k), c)
    ensures FallsDue(s, Launch(k), eff, a, level)
  {}

  predicate Revives(stmt: Statement) { stmt.AddAgent? || (stmt.SetStatus? && stmt.status == Active) }

  lemma CascadesReviveNobody(s: State, k: CascadePc, c: Choice, eff: Effect)
    requires StepCascade(s, k, c) == Some(eff)
    ensures !Revives(eff.stmt)
  {
    hide StepCascade;
    CascadesOnlyFlip(s, k, c, eff);
  }

  /** Only an insert and a manual respawn turn a row Active. */
  lemma RevivesNowhereElse(s: State, pc: Pc, c: Choice, eff: Effect)
    requires !pc.Launch? && !pc.Cascade? && !pc.Resume? && Plan(s, pc, c) == Some(eff)
    ensures !Revives(eff.stmt)
  {}

  lemma DueResume(s: State, k: ResumePc, c: Choice, eff: Effect, a: AgentId, level: Level)
    requires StepResume(s, k, c) == Some(eff) && Sound(s, Resume(k), c)
    ensures FallsDue(s, Resume(k), eff, a, level)
  {
    hide Forgets;
  }

  lemma StaysIdle(db: Db, stmt: Statement, a: AgentId)
    requires !Revives(stmt) && IsActive(Run(db, stmt), a)
    ensures IsActive(db, a)
  {}

  lemma DueSoundly(s: State, pc: Pc, c: Choice, eff: Effect, a: AgentId, level: Level)
    requires Rooted(s.db) && ThreadOk(s.db, pc) && a in Holds(pc)
    requires Plan(s, pc, c) == Some(eff) && Careful(pc, c) && Sound(s, pc, c)
    ensures FallsDue(s, pc, eff, a, level)
  {
    match pc
    case Resume(k) => DueResume(s, k, c, eff, a, level);
    case Check(k) => DueCheck(s, k, c, eff, a, level);
    case Launch(k) => DueLaunch(s, k, c, eff, a, level);
    case Cascade(k) =>
      CascadesReviveNobody(s, k, c, eff);
      if IsActive(Run(s.db, eff.stmt), a) { StaysIdle(s.db, eff.stmt, a); }
    case _ =>
      RevivesNowhereElse(s, pc, c, eff);
      if IsActive(Run(s.db, eff.stmt), a) { StaysIdle(s.db, eff.stmt, a); }
  }

  /** A call that fails writes nothing. */
  lemma FaultWritesNothing(s: State, pc: Pc, c: Choice, eff: Effect)
    requires c.Fail? && LosesTrack(pc) && Plan(s, pc, c) == Some(eff)
    ensures eff.stmt.NoStatement?
  {
    hide StepLane, StepResume, StepAdopt;
  }

  lemma DueStep(s: State, pc: Pc, c: Choice, eff: Effect, a: AgentId, level: Level)
    requires Rooted(s.db) && ThreadOk(s.db, pc) && a in Holds(pc)
    requires Plan(s, pc, c) == Some(eff) && Sound(s, pc, c)
    ensures FallsDue(s, pc, eff, a, level)
  {
    hide Plan, LosesTrack, ThreadOk, Holds;
    if Careful(pc, c) {
      DueSoundly(s, pc, c, eff, a, level);
    } else {
      FaultWritesNothing(s, pc, c, eff);
      if IsActive(s.db, a) && DeadAt(s.db, s.db.agents[a].sprint, level) {
        assert !Depends(s, pc, a);
      }
    }
  }

  /** What is due is due from further down as well. */
  lemma DueBelow(pc: Option<Pc>, a: AgentId, l: Level, level: Level)
    requires Due(pc, a, level) && UpTo(l, level)
    ensures Due(pc, a, l)
  {}

  lemma DebtAfter(s: State, t: Tid, eff: Effect, a: AgentId, level: Level)
    requires Rooted(s.db) && LocksAgree(s.locks, s.threads) && Debts(s)
    requires t in s.threads && Scoped(s, s.threads[t], eff) && Grantable(s, eff)
    requires Faithful(s, s.threads[t], eff, a) && Rooted(Perform(s, t, eff).db)
    requires a in Holds(s.threads[t]) ==> FallsDue(s, s.threads[t], eff, a, level)
    requires IsActive(Perform(s, t, eff).db, a) && Due(HolderPc(Perform(s, t, eff), a), a, level)
    ensures Covered(Perform(s, t, eff), a, level)
  {
    hide Due, Scoped, FallsDue, Faithful, LocksAgree, Grantable, Visits;
    var s' := Perform(s, t, eff);
    WasDue(s, t, eff, a, level);
    GrowsFaithful(s, t, eff, a);
    if DeadAt(s'.db, s'.db.agents[a].sprint, level) {
      forall l | UpTo(l, level) ensures Covered(s, a, l) { DueBelow(HolderPc(s, a), a, l, level); }
      CoveredAfter(s, t, eff, a, level);
    }
  }

  /** What is due after the step was due before, unless the container is Active. */
  lemma WasDue(s: State, t: Tid, eff: Effect, a: AgentId, level: Level)
    requires Rooted(s.db) && LocksAgree(s.locks, s.threads)
    requires t in s.threads && Scoped(s, s.threads[t], eff) && Grantable(s, eff)
    requires a in Holds(s.threads[t]) ==> FallsDue(s, s.threads[t], eff, a, level)
    requires IsActive(Perform(s, t, eff).db, a) && Due(HolderPc(Perform(s, t, eff), a), a, level)
    ensures var db := Perform(s, t, eff).db;
      (IsActive(s.db, a) && Due(HolderPc(s, a), a, level)) || !DeadAt(db, db.agents[a].sprint, level)
  {
    hide DeadAt, Holds, WellFormed, Placing, DeadHierarchy;
    if a in Holds(s.threads[t]) {
      HolderHere(s, t, eff, a);
    } else {
      HolderElsewhere(s, t, eff, a);
      SameRowRun(s.db, eff.stmt, a);
    }
  }

  // ---------------------------------------------------------------- whole states and runs

  lemma Stable(s: State, s': State, pc: Pc)
    requires ThreadOk(s.db, pc) && GrowsDb(s.db, s'.db)
    ensures ThreadOk(s'.db, pc)
  {}

  ghost predicate Goes(s: State, eff: Effect) {
    eff.next.Some? ==> ThreadOk(Run(s.db, eff.stmt), eff.next.value)
  }

  lemma GoodLane(s: State, k: LanePc, c: Choice, eff: Effect)
    requires StepLane(s, k, c) == Some(eff)
    ensures Goes(s, eff)
  {}

  lemma GoodResume(s: State, k: ResumePc, c: Choice, eff: Effect)
    requires ThreadOk(s.db, Resume(k)) && StepResume(s, k, c) == Some(eff)
    ensures Goes(s, eff)
  {}

  lemma GoodExit(s: State, k: ExitPc, c: Choice, eff: Effect)
    requires ThreadOk(s.db, Exit(k)) && StepExit(s, k, c) == Some(eff)
    ensures Goes(s, eff)
  {}

  lemma GoodCheck(s: State, k: CheckPc, c: Choice, eff: Effect)
    requires ThreadOk(s.db, Check(k)) && StepCheck(s, k, c) == Some(eff)
    ensures Goes(s, eff)
  {}

  lemma GoodLaunch(s: State, k: LaunchPc, c: Choice, eff: Effect)
    requires StepLaunch(s, k, c) == Some(eff)
    ensures Goes(s, eff)
  {}

  lemma GoodAdopt(s: State, k: AdoptPc, c: Choice, eff: Effect)
    requires StepAdopt(s, k, c) == Some(eff)
    ensures Goes(s, eff)
  {}

  lemma GoodCascade(s: State, k: CascadePc, c: Choice, eff: Effect)
    requires ThreadOk(s.db, Cascade(k)) && StepCascade(s, k, c) == Some(eff)
    ensures Goes(s, eff)
  {
    hide StepNext;
    if k.Next? { GoodNext(s, k.work, c); }
  }

  lemma GoodNextSprint(s: State, work: Work, c: Choice)
    requires AtSprints(work)
    ensures Goes(s, StepNext(s, work, c))
  {
    hide NextAgent, NextWorkstream;
  }

  lemma GoodNextWorkstream(s: State, work: Work, c: Choice)
    requires AtWorkstreams(work)
    ensures Goes(s, StepNext(s, work, c))
  {
    hide NextAgent, NextSprint;
  }

  lemma GoodNext(s: State, work: Work, c: Choice)
    requires ThreadOk(s.db, Cascade(CascadePc.Next(work)))
    ensures Goes(s, StepNext(s, work, c))
  {
    hide NextSprint, NextWorkstream;
    if AtSprints(work) { GoodNextSprint(s, work, c); }
    else if AtWorkstreams(work) { GoodNextWorkstream(s, work, c); }
  }

  lemma GoodPlan(s: State, pc: Pc, c: Choice, eff: Effect)
    requires ThreadOk(s.db, pc) && Plan(s, pc, c) == Some(eff)
    ensures Goes(s, eff)
  {
    match pc
    case Lane(k) => GoodLane(s, k, c, eff);
    case Resume(k) => GoodResume(s, k, c, eff);
    case Exit(k) => GoodExit(s, k, c, eff);
    case Check(k) => GoodCheck(s, k, c, eff);
    case Launch(k) => GoodLaunch(s, k, c, eff);
    case Adopt(k) => GoodAdopt(s, k, c, eff);
    case Cascade(k) => GoodCascade(s, k, c, eff);
  }

  ghost predicate UndoesIdle(s: State) {
    forall t :: t in s.threads ==> AdoptUndo.UndoIdle(s.db, UndoOf(s.threads[t]))
  }

  /** What the argument takes from the incarnation and adopt invariants. */
  ghost predicate Facts(s: State) { Rooted(s.db) && UndoesIdle(s) }

  lemma FactsAlong(states: seq<State>, events: seq<Event>, n: nat)
    requires IsRun(states, events) && n < |states|
    requires forall i :: 0 <= i < n ==> Allowed(states[i], events[i])
    ensures Base(states[n]) && Facts(states[n])
  {
    IncarnationCoherence.Along(states, events, n);
    AdoptUndo.Along(states, events, n);
    forall t | t in states[n].threads ensures AdoptUndo.UndoIdle(states[n].db, UndoOf(states[n].threads[t])) {
      assert AdoptUndo.ThreadOk(states[n].db, states[n].threads[t]);
    }
  }

  lemma DebtsAfterStep(s: State, t: Tid, c: Choice, eff: Effect)
    requires Base(s) && Facts(s) && Threads(s) && Debts(s) && t in s.threads
    requires Plan(s, s.threads[t], c) == Some(eff) && Sound(s, s.threads[t], c)
    requires Scoped(s, s.threads[t], eff) && Grantable(s, eff) && Rooted(Perform(s, t, eff).db)
    ensures Debts(Perform(s, t, eff))
  {
    var s' := Perform(s, t, eff);
    forall a, level | IsActive(s'.db, a) && Due(HolderPc(s', a), a, level) ensures Covered(s', a, level) {
      StepFaithful(s, s.threads[t], c, eff, a);
      if a in Holds(s.threads[t]) { DueStep(s, s.threads[t], c, eff, a, level); }
      DebtAfter(s, t, eff, a, level);
    }
  }

  lemma CoveredOutside(s: State, s': State, a: AgentId, level: Level)
    requires Rooted(s.db) && Rooted(s'.db) && GrowsDb(s.db, s'.db) && a in s.db.agents && Covered(s, a, level)
    requires forall u :: u in s.threads ==> u in s'.threads && s'.threads[u] == s.threads[u]
    requires DeadAt(s'.db, s.db.agents[a].sprint, level) ==> DeadAt(s.db, s.db.agents[a].sprint, level)
    ensures Covered(s', a, level)
  {
    hide Visits, UpTo;
    var p := s.db.agents[a].sprint;
    if DeadAt(s'.db, p, level) {
      var u, l :| u in s.threads && UpTo(l, level) && Visits(s.db, s.threads[u], a, p, l);
      SamePlace(s.db, s'.db, s.threads[u], a, p, l);
      assert Visits(s'.db, s'.threads[u], a, p, l);
    }
  }

  lemma DebtsOutside(s: State, e: Event, s': State)
    requires (forall a :: a in s.locks ==> s.locks[a] in s.threads) && Rooted(s.db) && Debts(s) && Rooted(s'.db)
    requires Possible(s, e) && s'.db == OutsideDb(s.db, e) && s'.locks == s.locks
    requires s'.threads == if e.Begin? then s.threads[e.t := e.pc] else s.threads
    requires e.Begin? ==> e.t !in s.threads
    ensures Debts(s')
  {
    hide Due;
    GrowsOutsideDb(s, e);
    forall a, level | IsActive(s'.db, a) && Due(HolderPc(s', a), a, level) ensures Covered(s', a, level) {
      assert SameRow(s.db, s'.db, a);
      assert HolderPc(s', a) == HolderPc(s, a);
      DeadOutside(s, e, s.db.agents[a].sprint, level);
      CoveredOutside(s, s', a, level);
    }
  }

  lemma DeadOutside(s: State, e: Event, p: SprintId, level: Level)
    requires Rooted(s.db) && p in s.db.sprints && Possible(s, e)
    ensures DeadAt(OutsideDb(s.db, e), p, level) ==> DeadAt(s.db, p, level)
  {}

  lemma ThreadsAfterStep(s: State, t: Tid, c: Choice, eff: Effect, s': State)
    requires Threads(s) && t in s.threads && Plan(s, s.threads[t], c) == Some(eff)
    requires s' == Perform(s, t, eff) && GrowsDb(s.db, s'.db)
    ensures Threads(s')
  {
    GoodPlan(s, s.threads[t], c, eff);
    forall u | u in s'.threads ensures ThreadOk(s'.db, s'.threads[u]) {
      if u != t { Stable(s, s', s.threads[u]); }
    }
  }

  lemma NextOutside(s: State, e: Event, s': State)
    requires Base(s) && Rooted(s.db) && Rooted(s'.db) && Threads(s) && Debts(s)
    requires !e.Step? && Apply(s, e) == Some(s') && Allowed(s, e)
    ensures Threads(s') && Debts(s')
  {
    hide Apply, Plan;
    GrowsOutside(s, e, s');
    DebtsOutside(s, e, s');
    forall u | u in s'.threads ensures ThreadOk(s'.db, s'.threads[u]) {
      if u in s.threads { Stable(s, s', s.threads[u]); }
    }
  }

  lemma Next(s: State, e: Event, s': State)
    requires Base(s) && Facts(s) && Rooted(s'.db) && Threads(s) && Debts(s)
    requires Apply(s, e) == Some(s') && Allowed(s, e)
    ensures Threads(s') && Debts(s')
  {
    hide Apply, Plan;
    if e.Step? {
      var eff := Unpack(s, e.t, e.c, s');
      ThreadsAfterStep(s, e.t, e.c, eff, s');
      DebtsAfterStep(s, e.t, e.c, eff);
    } else {
      NextOutside(s, e, s');
    }
  }

  lemma First(s: State)
    requires Init(s)
    ensures Threads(s) && Debts(s)
  {}

  lemma {:induction false} Along(states: seq<State>, events: seq<Event>, n: nat)
    requires IsRun(states, events) && n < |states|
    requires forall i :: 0 <= i < n ==> Allowed(states[i], events[i])
    ensures Facts(states[n]) && Threads(states[n]) && Debts(states[n])
  {
    hide Init, Apply, Facts, Threads, Debts;
    FactsAlong(states, events, n);
    if n == 0 {
      First(states[0]);
    } else {
      Along(states, events, n - 1);
      FactsAlong(states, events, n - 1);
      assert Follows(states, events, n - 1);
      Next(states[n - 1], events[n - 1], states[n]);
    }
  }

  // ---------------------------------------------------------------- the property

  /** In the middle of a run an Active agent under a dead container always has a running thread
      that will deal with it. */
  lemma OrphanIsPending(states: seq<State>, events: seq<Event>, n: nat, a: AgentId)
    requires IsRun(states, events) && n < |states|
    requires forall i :: 0 <= i < n ==> Allowed(states[i], events[i])
    requires IsActive(states[n].db, a) && DeadHierarchy(states[n].db, states[n].db.agents[a].sprint)
    ensures var s := states[n];
      Rooted(s.db) && exists t :: t in s.threads && Pending(s.db, s.threads[t], a, s.db.agents[a].sprint)
  {
    Along(states, events, n);
    OrphanPendsIn(states[n], a);
  }

  lemma OrphanPendsIn(s: State, a: AgentId)
    requires Rooted(s.db) && Debts(s) && IsActive(s.db, a) && DeadHierarchy(s.db, s.db.agents[a].sprint)
    ensures exists t :: t in s.threads && Pending(s.db, s.threads[t], a, s.db.agents[a].sprint)
  {
    var p := s.db.agents[a].sprint;
    var level := if DeadSprint(s.db, p) then AtSprint else if DeadWorkstream(s.db, p) then AtWorkstream else AtRepo;
    if Due(HolderPc(s, a), a, level) {
      assert Covered(s, a, level);
    } else {
      assert Pending(s.db, s.threads[s.locks[a]], a, p);
    }
  }

  /** Once every handler and lane has finished there is no orphan. */
  lemma QuietMeansNoOrphan(states: seq<State>, events: seq<Event>, n: nat)
    requires IsRun(states, events) && n < |states| && states[n].threads == map[]
    requires forall i :: 0 <= i < n ==> Allowed(states[i], events[i])
    ensures NoOrphan(states[n].db)
  {
    forall a | IsActive(states[n].db, a) ensures !DeadHierarchy(states[n].db, states[n].db.agents[a].sprint) {
      if DeadHierarchy(states[n].db, states[n].db.agents[a].sprint) {
        OrphanIsPending(states, events, n, a);
      }
    }
  }

  // ---------------------------------------------------------------- what Allowed excludes

  /** Nobody is on the way to the agent or about to undo its launch. */
  ghost predicate NobodyPends(s: State, a: AgentId)
    requires Rooted(s.db) && a in s.db.agents
  {
    forall t :: t in s.threads ==> !Pending(s.db, s.threads[t], a, s.db.agents[a].sprint)
  }

  /** The code at pc fails or slips in, and a is the agent that matters. */
  ghost predicate Abandons(s: State, pc: Pc, c: Choice, a: AgentId)
    requires Rooted(s.db)
  {
    if c.Fail? then LosesTrack(pc) && Depends(s, pc, a)
    else SlipsBehind(s, pc) && pc.res.a == a
  }

  ghost predicate Drops(s: State, eff: Effect, a: AgentId, p: SprintId)
    requires Rooted(s.db) && p in s.db.sprints
  {
    eff.stmt.NoStatement? && (eff.next.Some? ==> !Pending(s.db, eff.next.value, a, p))
  }

  lemma FailingCascade(s: State, k: CascadePc, eff: Effect, a: AgentId, p: SprintId)
    requires LosesTrack(Cascade(k)) && ThreadOk(s.db, Cascade(k)) && StepCascade(s, k, Fail) == Some(eff)
    requires Rooted(s.db) && p in s.db.sprints && (k.Next? ==> Pending(s.db, Cascade(k), a, p))
    ensures Drops(s, eff, a, p)
  {
    hide StepNext;
    if k.Next? { FailingNext(s, k.work, a, p); }
  }

  lemma FailingNext(s: State, work: Work, a: AgentId, p: SprintId)
    requires work.ags == [] && Rooted(s.db) && p in s.db.sprints
    requires Pending(s.db, Cascade(CascadePc.Next(work)), a, p)
    ensures Drops(s, StepNext(s, work, Fail), a, p)
  {
    hide NextAgent;
  }

  lemma FailingForgets(s: State, pc: Pc, eff: Effect, a: AgentId, p: SprintId)
    requires LosesTrack(pc) && ThreadOk(s.db, pc) && Plan(s, pc, Fail) == Some(eff)
    requires Rooted(s.db) && p in s.db.sprints && Pending(s.db, pc, a, p)
    ensures Drops(s, eff, a, p)
  {
    hide StepLane, StepResume, StepAdopt, StepCascade, ThreadOk;
    if pc.Cascade? { FailingCascade(s, pc.cas, eff, a, p); }
  }

  lemma StaysAbandoned(db: Db, stmt: Statement, a: AgentId)
    requires Rooted(db) && a in db.agents && DeadHierarchy(db, db.agents[a].sprint)
    requires (stmt.NoStatement? && IsActive(db, a)) || stmt == SetStatus(a, Active)
    ensures var db' := Run(db, stmt);
      IsActive(db', a) && DeadHierarchy(db', db'.agents[a].sprint) && db'.agents[a].sprint == db.agents[a].sprint
  {}

  /** Each of those events is needed: unless another thread happens to deal with the agent, it
      leaves it Active under a dead container with nobody on the way. */
  lemma AbandonedForGood(s: State, t: Tid, c: Choice, a: AgentId, s': State)
    requires Base(s) && Rooted(s.db) && Rooted(s'.db) && t in s.threads && ThreadOk(s.db, s.threads[t])
    requires Apply(s, Step(t, c)) == Some(s') && Abandons(s, s.threads[t], c, a)
    requires forall u :: u in s.threads && u != t ==> !Pending(s.db, s.threads[u], a, s.db.agents[a].sprint)
    ensures IsActive(s'.db, a) && DeadHierarchy(s'.db, s'.db.agents[a].sprint) && NobodyPends(s', a)
  {
    hide Apply, Plan, LosesTrack, Pending, ThreadOk, Base, Scoped, Grantable, Rely, GrowsIds, GrowsWorld, KilledStays,
      CallOutside, Recount, Relock, DeadHierarchy;
    var eff := Unpack(s, t, c, s');
    var p := s.db.agents[a].sprint;
    if c.Fail? {
      FailingForgets(s, s.threads[t], eff, a, p);
    } else {
      SlippingRevives(s, s.threads[t], c, eff, a);
    }
    StaysAbandoned(s.db, eff.stmt, a);
    forall u | u in s'.threads ensures !Pending(s'.db, s'.threads[u], a, p) {
      SamePending(s.db, s'.db, s'.threads[u], a, p);
    }
  }

  lemma SlippingRevives(s: State, pc: Pc, c: Choice, eff: Effect, a: AgentId)
    requires !c.Fail? && SlipsBehind(s, pc) && pc.res.a == a && Plan(s, pc, c) == Some(eff) && Rooted(s.db)
    ensures a in s.db.agents && DeadHierarchy(s.db, s.db.agents[a].sprint)
    ensures eff.stmt == SetStatus(a, Active) && eff.next.Some?
    ensures !Pending(s.db, eff.next.value, a, s.db.agents[a].sprint)
  {}

  lemma SamePending(db: Db, db': Db, pc: Pc, a: AgentId, p: SprintId)
    requires Rooted(db) && Rooted(db') && GrowsDb(db, db') && p in db.sprints
    ensures Pending(db', pc, a, p) == Pending(db, pc, a, p)
  {}
}
