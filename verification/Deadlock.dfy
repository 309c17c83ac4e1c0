/** Deadlock freedom: some unfinished thread can always take its next step.

    Only an adopt waits while it holds something: for the placement mutex with its session's
    lock held, and for other agents' locks while it tears down the workstream it minted. Those
    agents all sit in that one workstream, and no other waiting adopt's agent does. */
module Deadlock {
  import opened Tables
  import opened Protocol
  import opened Interference

  ghost predicate MintedFor(relocs: map<WorkstreamId, AgentId>, w: WorkstreamId, a: AgentId) {
    w in relocs && relocs[w] == a
  }

  ghost predicate SprintIn(db: Db, p: SprintId, w: WorkstreamId) {
    p in db.sprints && db.sprints[p].workstream == w
  }

  ghost predicate AgentIn(db: Db, a: AgentId, w: WorkstreamId) {
    a in db.agents && SprintIn(db, db.agents[a].sprint, w)
  }

  /** An adopt past its insert has its row in the workstream it minted. */
  ghost predicate Placed(db: Db, relocs: map<WorkstreamId, AgentId>, a: AgentId, moved: Option<WorkstreamId>) {
    moved.Some? ==> MintedFor(relocs, moved.value, a) && (a in db.agents ==> AgentIn(db, a, moved.value))
  }

  ghost predicate OriginOk(db: Db, relocs: map<WorkstreamId, AgentId>, a: AgentId, origin: Origin) {
    origin.Adopted? ==> Placed(db, relocs, a, origin.moved)
  }

  /** The adopt is about to insert its row under sprint p. */
  ghost predicate Bound(db: Db, relocs: map<WorkstreamId, AgentId>, a: AgentId, p: SprintId,
                        moved: Option<WorkstreamId>) {
    && a !in db.agents
    && (moved.Some? ==> MintedFor(relocs, moved.value, a) && SprintIn(db, p, moved.value))
  }

  /** Everything a failing adopt's cascade will visit is in the workstream it minted. */
  ghost predicate Contained(db: Db, relocs: map<WorkstreamId, AgentId>, work: Work) {
    work.undo.Some? ==>
      var u := work.undo.value;
      && Placed(db, relocs, u.a, Some(u.w))
      && (forall w :: w in work.wss ==> w == u.w)
      && (forall p :: p in work.sps ==> SprintIn(db, p, u.w))
      && (forall b :: b in work.ags ==> AgentIn(db, b, u.w))
  }

  ghost predicate UndoOk(db: Db, relocs: map<WorkstreamId, AgentId>, undo: Option<Undoing>) {
    undo.Some? ==> Placed(db, relocs, undo.value.a, Some(undo.value.w))
  }

  ghost predicate AfterOk(db: Db, relocs: map<WorkstreamId, AgentId>, a: AgentId, after: After) {
    match after
    case ToCascade(work) => Contained(db, relocs, work)
    case ToUndo(origin) => OriginOk(db, relocs, a, origin)
    case _ => true
  }

  ghost predicate ThreadOk(db: Db, relocs: map<WorkstreamId, AgentId>, pc: Pc) {
    match pc
    case Lane(_) => true
    case Resume(_) => true
    case Exit(x) => x.KillLock? || x.KillRead? || AfterOk(db, relocs, x.a, x.after)
    case Check(k) => k.use.PostInsert? ==> OriginOk(db, relocs, k.use.a, k.use.origin)
    case Launch(n) =>
      (match n
       case LaunchChild(_) => true
       case LockNew(_, _, _, _) => true
       case Insert(a, p, _, _, origin) => origin.Adopted? ==> Bound(db, relocs, a, p, origin.moved)
       case _ => OriginOk(db, relocs, n.a, n.origin))
    case Adopt(d) =>
      (match d
       case AdoptLock(_, _) => true
       case AdoptCheck(_, _) => true
       case AdoptStop(a, _) => a !in db.agents
       case AdoptPlace(a, _) => a !in db.agents
       case AdoptResolve(a, _) => a !in db.agents
       case AdoptSprint(a, w) => a !in db.agents && MintedFor(relocs, w, a)
       case AdoptPlan(a, w) => a !in db.agents && MintedFor(relocs, w, a)
       case AdoptRename(a, w, p) => Bound(db, relocs, a, p, Some(w))
       case AdoptUnplace(a, p, moved) => Bound(db, relocs, a, p, moved)
       case AdoptLaunch(a, p, moved) => Bound(db, relocs, a, p, moved)
       case AdoptFail(_, _) => true
       case UndoRead(a, w, _) => Placed(db, relocs, a, Some(w))
       case Refused(_, _) => true)
    case Cascade(k) =>
      (match k
       case Next(work) => Contained(db, relocs, work)
       case ListSprints(w, work) => Contained(db, relocs, work) && (work.undo.Some? ==> w == work.undo.value.w)
       case ListAgents(p, work) =>
         Contained(db, relocs, work) && (work.undo.Some? ==> SprintIn(db, p, work.undo.value.w))
       case FlipRead(_, work) => Contained(db, relocs, work)
       case TearWorkspaces(_, undo) => UndoOk(db, relocs, undo)
       case _ => true)
  }

  ghost predicate Inv(s: State) {
    Base(s) && forall t :: t in s.threads ==> ThreadOk(s.db, s.relocs, s.threads[t])
  }

  lemma StableWork(s: State, s': State, work: Work)
    requires Contained(s.db, s.relocs, work) && GrowsDb(s.db, s'.db) && GrowsIds(s, s')
    requires work.undo.Some? ==> SameRow(s.db, s'.db, work.undo.value.a)
    ensures Contained(s'.db, s'.relocs, work)
  {}

  lemma Stable(s: State, s': State, pc: Pc)
    requires ThreadOk(s.db, s.relocs, pc) && Rely(s, s', Holds(pc))
    ensures ThreadOk(s'.db, s'.relocs, pc)
  {
    if WorkOf(pc).Some? {
      var work := WorkOf(pc).value;
      assert work.undo.Some? ==> work.undo.value.a in Holds(pc);
      StableWork(s, s', work);
    }
  }

  ghost predicate NextOk(s: State, eff: Effect) {
    eff.next.Some? ==>
      ThreadOk(Run(s.db, eff.stmt), if eff.birth.MintReloc? then s.relocs[eff.birth.w := eff.birth.a] else s.relocs,
               eff.next.value)
  }

  lemma GoodLane(s: State, k: LanePc, c: Choice, eff: Effect)
    requires StepLane(s, k, c) == Some(eff)
    ensures NextOk(s, eff)
  {}

  lemma GoodResume(s: State, k: ResumePc, c: Choice, eff: Effect)
    requires StepResume(s, k, c) == Some(eff)
    ensures NextOk(s, eff)
  {}

  lemma GoodExit(s: State, k: ExitPc, c: Choice, eff: Effect)
    requires ThreadOk(s.db, s.relocs, Exit(k)) && StepExit(s, k, c) == Some(eff)
    ensures NextOk(s, eff)
  {}

  lemma GoodCheck(s: State, k: CheckPc, c: Choice, eff: Effect)
    requires ThreadOk(s.db, s.relocs, Check(k)) && StepCheck(s, k, c) == Some(eff)
    ensures NextOk(s, eff)
  {}

  lemma GoodLaunch(s: State, k: LaunchPc, c: Choice, eff: Effect)
    requires ThreadOk(s.db, s.relocs, Launch(k)) && StepLaunch(s, k, c) == Some(eff)
    ensures NextOk(s, eff)
  {}

  lemma GoodAdopt(s: State, k: AdoptPc, c: Choice, eff: Effect)
    requires ThreadOk(s.db, s.relocs, Adopt(k)) && StepAdopt(s, k, c) == Some(eff)
    ensures NextOk(s, eff)
  {
    hide Lists;
  }

  /** Visiting less, under the same adopt, stays contained; so does a container status flip. */
  lemma ContainedLess(db: Db, db': Db, relocs: map<WorkstreamId, AgentId>, work: Work, work': Work)
    requires Contained(db, relocs, work) && work'.undo == work.undo
    requires db'.agents == db.agents && GrowsDb(db, db')
    requires forall w :: w in work'.wss ==> w in work.wss
    requires forall p :: p in work'.sps ==> p in work.sps
    requires forall a :: a in work'.ags ==> a in work.ags
    ensures Contained(db', relocs, work')
  {}

  lemma GoodNextAgent(s: State, work: Work, c: Choice)
    requires Contained(s.db, s.relocs, work) && work.ags != []
    ensures NextOk(s, StepNext(s, work, c))
  {
    ContainedLess(s.db, s.db, s.relocs, work, work.(ags := work.ags[1..]));
  }

  lemma GoodNextSprint(s: State, work: Work, c: Choice)
    requires Contained(s.db, s.relocs, work) && work.ags == [] && work.sps != []
    ensures NextOk(s, StepNext(s, work, c))
  {
    var eff, less := StepNext(s, work, c), work.(sps := work.sps[1..]);
    GrowsRun(s.db, eff.stmt);
    assert work.sps[0] in work.sps;
    ContainedLess(s.db, Run(s.db, eff.stmt), s.relocs, work, less);
    ContainedLess(s.db, Run(s.db, eff.stmt), s.relocs, work, less.Dropped());
  }

  lemma GoodNextWorkstream(s: State, work: Work, c: Choice)
    requires Contained(s.db, s.relocs, work) && work.ags == [] && work.sps == [] && work.wss != []
    ensures NextOk(s, StepNext(s, work, c))
  {
    var eff, less := StepNext(s, work, c), work.(wss := work.wss[1..]);
    GrowsRun(s.db, eff.stmt);
    assert work.wss[0] in work.wss;
    ContainedLess(s.db, Run(s.db, eff.stmt), s.relocs, work, less);
    ContainedLess(s.db, Run(s.db, eff.stmt), s.relocs, work, less.(torn := less.torn + [work.wss[0]]));
    ContainedLess(s.db, Run(s.db, eff.stmt), s.relocs, work, less.Dropped());
  }

  lemma GoodNext(s: State, work: Work, c: Choice)
    requires Contained(s.db, s.relocs, work)
    ensures NextOk(s, StepNext(s, work, c))
  {
    if work.ags != [] { GoodNextAgent(s, work, c); }
    else if work.sps != [] { GoodNextSprint(s, work, c); }
    else if work.wss != [] { GoodNextWorkstream(s, work, c); }
  }

  lemma GoodList(s: State, k: CascadePc, c: Choice, eff: Effect)
    requires (k.ListSprints? || k.ListAgents?) && ThreadOk(s.db, s.relocs, Cascade(k))
    requires StepCascade(s, k, c) == Some(eff)
    ensures NextOk(s, eff)
  {
    if c.Fail? { ContainedLess(s.db, s.db, s.relocs, k.work, k.work.Dropped()); }
  }

  lemma GoodCascade(s: State, k: CascadePc, c: Choice, eff: Effect)
    requires ThreadOk(s.db, s.relocs, Cascade(k)) && StepCascade(s, k, c) == Some(eff)
    ensures NextOk(s, eff)
  {
    if k.Next? {
      GoodNext(s, k.work, c);
    } else if k.ListSprints? || k.ListAgents? {
      GoodList(s, k, c, eff);
    } else if k.FlipRead? && eff.next.Some? && WorkOf(eff.next.value).Some? {
      ContainedLess(s.db, s.db, s.relocs, k.work, WorkOf(eff.next.value).value);
    }
  }

  lemma GoodPlan(s: State, pc: Pc, c: Choice, eff: Effect)
    requires ThreadOk(s.db, s.relocs, pc) && Plan(s, pc, c) == Some(eff)
    ensures NextOk(s, eff)
  {
    match pc
    case Lane(k) => GoodLane(s, k, c, eff);
    case Resume(k) => GoodResume(s, k, c, eff);
    case Exit(k) => GoodExit(s, k, c, eff);
    case Check(k) => GoodCheck(s, k, c, eff);
    case Launch(k) => GoodLaunch(s, k, c, eff);
    case Adopt(k) => GoodAdopt(s, k, c, eff);
    case Cascade(k) => GoodCascade(s, k, c, eff);
  }

  // ---------------------------------------------------------------- whole states and runs

  lemma Next(s: State, e: Event, s': State)
    requires Inv(s) && Apply(s, e) == Some(s')
    ensures Inv(s')
  {
    hide Apply, Plan;
    BaseNext(s, e, s');
    if e.Step? {
      var eff := Unpack(s, e.t, e.c, s');
      GoodPlan(s, s.threads[e.t], e.c, eff);
      forall u | u in s'.threads ensures ThreadOk(s'.db, s'.relocs, s'.threads[u]) {
        if u != e.t { Stable(s, s', s.threads[u]); }
      }
    } else {
      GrowsOutside(s, e, s');
      forall u | u in s'.threads ensures ThreadOk(s'.db, s'.relocs, s'.threads[u]) {
        if u in s.threads {
          RelyOutside(s, e, s', Holds(s.threads[u]));
          Stable(s, s', s.threads[u]);
        } else {
          assert ThreadOk(s'.db, s'.relocs, e.pc);
        }
      }
    }
  }

  lemma First(s: State)
    requires Init(s)
    ensures Inv(s)
  {}

  lemma {:induction false} Along(states: seq<State>, events: seq<Event>, n: nat)
    requires IsRun(states, events) && n < |states|
    ensures Inv(states[n])
  {
    hide Init, Apply, Inv;
    if n == 0 {
      First(states[0]);
    } else {
      Along(states, events, n - 1);
      assert Follows(states, events, n - 1);
      Next(states[n - 1], events[n - 1], states[n]);
    }
  }

  /** The agent lock a program counter is about to take. */
  ghost function Wants(pc: Pc): Option<AgentId> {
    match pc
    case Lane(l) => if l.LaneNext? && l.queue != [] then Some(l.queue[0].a) else None
    case Resume(r) => if r.RespawnLock? then Some(r.a) else None
    case Exit(x) => if x.KillLock? then Some(x.a) else None
    case Launch(n) => if n.LockNew? then Some(n.a) else None
    case Adopt(d) => if d.AdoptLock? then Some(d.a) else None
    case Cascade(k) =>
      if k.Next? && k.work.ags != [] && !k.work.Skips(k.work.ags[0]) then Some(k.work.ags[0])
      else if k.TearNext? && k.left != [] then Some(k.left[0])
      else None
    case Check(_) => None
  }

  ghost predicate WantsPlace(pc: Pc) { pc.Adopt? && pc.ado.AdoptPlace? }

  /** The thread waits for a mutex somebody holds. */
  ghost predicate Stuck(s: State, pc: Pc) {
    || (Wants(pc).Some? && Wants(pc).value in s.locks)
    || (WantsPlace(pc) && s.placement.Some?)
  }

  /** Nothing but a mutex stops a thread: whatever call comes next returns, if only an error. */
  lemma OnlyLocksBlock(s: State, t: Tid)
    requires t in s.threads && !Stuck(s, s.threads[t])
    ensures Apply(s, Step(t, Fail)).Some?
  {
    var pc := s.threads[t];
    var plan := Plan(s, pc, Fail);
    assert plan.Some?;
    assert plan.value.lock.Take? ==> Wants(pc) == Some(plan.value.lock.a);
    assert plan.value.place.TakePlace? ==> WantsPlace(pc);
  }

  /** Holding a lock and waiting for an agent's lock: only a cascade undoing an adopt does. */
  lemma HoldAndWait(pc: Pc, b: AgentId)
    requires b in Holds(pc) && Wants(pc).Some?
    ensures pc.Cascade? && pc.cas.Next? && pc.cas.work.undo.Some? && pc.cas.work.undo.value.a == b
  {}

  lemma PlaceAndWait(pc: Pc)
    requires Placing(pc) && (Wants(pc).Some? || WantsPlace(pc))
    ensures Wants(pc).Some? && pc.Cascade? && pc.cas.Next? && pc.cas.work.undo.Some?
  {}

  /** The holder of an agent that sits in another adopt's workstream is not waiting: it would be
      an adopt that minted that workstream too, or one that has no row yet. */
  lemma HolderMoves(s: State, pc: Pc, b: AgentId, u: Undoing)
    requires ThreadOk(s.db, s.relocs, pc) && b in Holds(pc) && b != u.a
    requires AgentIn(s.db, b, u.w) && MintedFor(s.relocs, u.w, u.a)
    ensures Wants(pc).None? && !WantsPlace(pc)
  {}

  /** An undoing cascade waits for somebody who can go on. */
  lemma UndoWaitsForMover(s: State, t: Tid) returns (v: Tid)
    requires Inv(s) && t in s.threads && Stuck(s, s.threads[t])
    requires s.threads[t].Cascade? && s.threads[t].cas.Next? && s.threads[t].cas.work.undo.Some?
    ensures v in s.threads && !Stuck(s, s.threads[v])
  {
    var work := s.threads[t].cas.work;
    var u, b := work.undo.value, work.ags[0];
    assert AgentIn(s.db, b, u.w) by { assert ThreadOk(s.db, s.relocs, s.threads[t]); }
    assert MintedFor(s.relocs, u.w, u.a);
    v := s.locks[b];
    assert ThreadOk(s.db, s.relocs, s.threads[v]);
    HolderMoves(s, s.threads[v], b, u);
  }

  /** Whoever a stuck thread waits for, following the waits ends at a thread that can go on. */
  lemma Mover(s: State, t: Tid) returns (v: Tid)
    requires Inv(s) && t in s.threads
    ensures v in s.threads && !Stuck(s, s.threads[v])
  {
    var pc := s.threads[t];
    if !Stuck(s, pc) { return t; }
    if Wants(pc).Some? {
      var b := Wants(pc).value;
      v := s.locks[b];
      if !Stuck(s, s.threads[v]) { return; }
      if Wants(s.threads[v]).Some? {
        HoldAndWait(s.threads[v], b);
        v := UndoWaitsForMover(s, v);
      } else {
        v := PlaceHolder(s);
      }
    } else {
      v := PlaceHolder(s);
    }
  }

  lemma PlaceHolder(s: State) returns (v: Tid)
    requires Inv(s) && s.placement.Some?
    ensures v in s.threads && !Stuck(s, s.threads[v])
  {
    v := s.placement.value;
    if Stuck(s, s.threads[v]) {
      PlaceAndWait(s.threads[v]);
      v := UndoWaitsForMover(s, v);
    }
  }

  /** In every reachable state with an unfinished thread, some unfinished thread can step. */
  lemma NoDeadlock(states: seq<State>, events: seq<Event>, n: nat)
    requires IsRun(states, events) && n < |states| && states[n].threads != map[]
    ensures exists t, c :: t in states[n].threads && Apply(states[n], Step(t, c)).Some?
  {
    Along(states, events, n);
    var t :| t in states[n].threads;
    var v := Mover(states[n], t);
    OnlyLocksBlock(states[n], v);
  }
}
