/** A relocating adopt rolls back: wherever it fails, when it returns its error the transcript
    lies at its original path, the workstream it minted is not Active, and the session has no
    Active agent. */
module Relocate {
  import opened Tables
  import opened Protocol
  import opened Interference

  ghost predicate Minted(db: Db, moved: Option<WorkstreamId>) {
    moved.Some? ==> moved.value in db.workstreams
  }

  /** The transcript is where an adopt that has got this far has put it. */
  ghost predicate PathFits(world: World, a: AgentId, moved: Option<WorkstreamId>) {
    match moved
    case None => a !in world.moved
    case Some(w) => a in world.moved && world.moved[a] == w
  }

  ghost predicate OriginFits(db: Db, world: World, a: AgentId, origin: Origin) {
    origin.Adopted? ==> PathFits(world, a, origin.moved) && Minted(db, origin.moved)
  }

  ghost predicate Down(db: Db, w: WorkstreamId) {
    w in db.workstreams && db.workstreams[w].status != Active
  }

  /** Nothing of the failed adopt is left but, until the cascade flips it, the workstream. */
  ghost predicate Withdrawn(db: Db, world: World, a: AgentId) {
    !IsActive(db, a) && a !in world.moved
  }

  ghost predicate UndoOk(db: Db, world: World, undo: Option<Undoing>) {
    undo.Some? ==> Withdrawn(db, world, undo.value.a) && Down(db, undo.value.w)
  }

  ghost predicate NextOk(db: Db, world: World, work: Work) {
    || UndoOk(db, world, work.undo)
    || (Withdrawn(db, world, work.undo.value.a) && work.undo.value.w in db.workstreams
        && work.wss == [work.undo.value.w] && work.sps == work.ags == [])
  }

  ghost predicate AfterOk(db: Db, world: World, a: AgentId, after: After) {
    match after
    case ToCascade(work) => UndoOk(db, world, work.undo)
    case ToUndo(origin) => OriginFits(db, world, a, origin) && (origin.Adopted? ==> !IsActive(db, a))
    case _ => true
  }

  ghost predicate ReturnOk(db: Db, world: World, a: AgentId, moved: Option<WorkstreamId>) {
    Withdrawn(db, world, a) && (moved.Some? ==> Down(db, moved.value))
  }

  ghost predicate ThreadOk(db: Db, world: World, pc: Pc) {
    match pc
    case Lane(_) => true
    case Resume(_) => true
    case Exit(x) =>
      (match x
       case KillLock(_) => true
       case KillRead(_) => true
       // A compensation has flipped the row once before it gets here.
       case _ => AfterOk(db, world, x.a, x.after))
    case Check(k) => k.use.PostInsert? ==> OriginFits(db, world, k.use.a, k.use.origin)
    case Launch(n) =>
      (match n
       case LaunchChild(_) => true
       case LockNew(_, _, _, _) => true
       case Insert(a, _, _, _, origin) => OriginFits(db, world, a, origin) && (origin.Adopted? ==> a !in db.agents)
       case KillOrphan(a, _, origin) => OriginFits(db, world, a, origin) && (origin.Adopted? ==> a !in db.agents)
       case UndoLaunch(a, origin) => OriginFits(db, world, a, origin) && (origin.Adopted? ==> !IsActive(db, a))
       case _ => OriginFits(db, world, n.a, n.origin))
    case Adopt(d) =>
      (match d
       case AdoptLock(_, _) => true
       case AdoptCheck(_, _) => true
       case AdoptUnplace(a, _, moved) => a !in db.agents && PathFits(world, a, moved) && Minted(db, moved)
       case AdoptLaunch(a, _, moved) => a !in db.agents && PathFits(world, a, moved) && Minted(db, moved)
       case AdoptFail(a, moved) => ReturnOk(db, world, a, moved)
       case Refused(a, moved) => ReturnOk(db, world, a, moved)
       case UndoRead(a, w, _) => Withdrawn(db, world, a) && w in db.workstreams
       case AdoptStop(a, _) => a !in db.agents && a !in world.moved
       case AdoptPlace(a, _) => a !in db.agents && a !in world.moved
       case AdoptResolve(a, _) => a !in db.agents && a !in world.moved
       case _ => d.a !in db.agents && d.a !in world.moved && d.w in db.workstreams)
    case Cascade(k) =>
      (match k
       case Next(work) => NextOk(db, world, work)
       case ListSprints(_, work) => UndoOk(db, world, work.undo)
       case ListAgents(_, work) => UndoOk(db, world, work.undo)
       case FlipRead(_, work) => UndoOk(db, world, work.undo)
       case TearWorkspaces(_, undo) => UndoOk(db, world, undo)
       case _ => true)
  }

  /** The code at pc has moved agent a's transcript and will insert the row or move it back. */
  ghost predicate Carrying(pc: Pc, a: AgentId) {
    || (pc.Adopt? && (pc.ado.AdoptUnplace? || pc.ado.AdoptLaunch?) && pc.ado.a == a && pc.ado.moved.Some?)
    || (pc.Launch? && (pc.lau.Insert? || pc.lau.KillOrphan? || pc.lau.UndoLaunch?) && pc.lau.a == a
        && pc.lau.origin.Adopted? && pc.lau.origin.moved.Some?)
  }

  ghost predicate MovedHasOwner(s: State) {
    forall a :: a in s.world.moved ==>
      a in s.db.agents || (HolderPc(s, a).Some? && Carrying(HolderPc(s, a).value, a))
  }

  ghost predicate Inv(s: State) {
    && Base(s) && MovedHasOwner(s)
    && forall t :: t in s.threads ==> ThreadOk(s.db, s.world, s.threads[t])
  }

  /** The calls of an undo that have to succeed: an adopt's compensation's status write, the
      rename back, and the teardown's read and flip of the workstream while that is Active; and
      the insert of the minted workstream's sprint, whose failure is not undone at all. */
  ghost predicate Undoes(s: State, pc: Pc) {
    || CallAt(pc) == RenameBack
    || (pc.Launch? && pc.lau.CompFlip? && pc.lau.origin.Adopted? && IsActive(s.db, pc.lau.a))
    || (pc.Adopt? && (pc.ado.AdoptSprint? || (pc.ado.UndoRead? && !Down(s.db, pc.ado.w))))
    || (pc.Cascade? && pc.cas.Next? && pc.cas.work.undo.Some? && pc.cas.work.wss != []
        && !Down(s.db, pc.cas.work.undo.value.w))
  }

  /** Those calls succeed, and nobody activates a workstream. */
  ghost predicate Allowed(s: State, e: Event) {
    !(e.Step? && e.t in s.threads && e.c.Fail? && Undoes(s, s.threads[e.t])) && !e.ActivateWorkstream?
  }

  ghost predicate Sound(s: State, pc: Pc, c: Choice) { c.Fail? ==> !Undoes(s, pc) }

  lemma Stable(s: State, s': State, pc: Pc)
    requires ThreadOk(s.db, s.world, pc) && Rely(s, s', Holds(pc)) && WorkstreamsStay(s.db, s'.db)
    ensures ThreadOk(s'.db, s'.world, pc)
  {
    if UndoOf(pc).Some? {
      assert UndoOf(pc).value.a in Holds(pc);
    }
  }

  ghost predicate Goes(s: State, eff: Effect) {
    eff.next.Some? ==> ThreadOk(Run(s.db, eff.stmt), CallOutside(s.world, eff.out), eff.next.value)
  }

  lemma GoodLane(s: State, k: LanePc, c: Choice, eff: Effect)
    requires StepLane(s, k, c) == Some(eff)
    ensures Goes(s, eff)
  {}

  lemma GoodResume(s: State, k: ResumePc, c: Choice, eff: Effect)
    requires StepResume(s, k, c) == Some(eff)
    ensures Goes(s, eff)
  {}

  lemma GoodExit(s: State, k: ExitPc, c: Choice, eff: Effect)
    requires WellFormed(Exit(k)) && ThreadOk(s.db, s.world, Exit(k)) && StepExit(s, k, c) == Some(eff)
    ensures Goes(s, eff)
  {}

  lemma GoodCheck(s: State, k: CheckPc, c: Choice, eff: Effect)
    requires ThreadOk(s.db, s.world, Check(k)) && StepCheck(s, k, c) == Some(eff)
    ensures Goes(s, eff)
  {}

  lemma GoodLaunch(s: State, k: LaunchPc, c: Choice, eff: Effect)
    requires ThreadOk(s.db, s.world, Launch(k)) && StepLaunch(s, k, c) == Some(eff) && Sound(s, Launch(k), c)
    ensures Goes(s, eff)
  {}

  lemma GoodAdopt(s: State, k: AdoptPc, c: Choice, eff: Effect)
    requires ThreadOk(s.db, s.world, Adopt(k)) && StepAdopt(s, k, c) == Some(eff) && Sound(s, Adopt(k), c)
    requires k.AdoptCheck? && k.a !in s.db.agents ==> k.a !in s.world.moved
    ensures Goes(s, eff)
  {
    hide Lists;
  }

  /** The one flip of an undoing cascade: afterwards the minted workstream is down. */
  lemma GoodFlip(s: State, work: Work, c: Choice)
    requires NextOk(s.db, s.world, work) && !UndoOk(s.db, s.world, work.undo)
    requires Sound(s, Cascade(CascadePc.Next(work)), c)
    ensures Goes(s, StepNext(s, work, c))
  {
    hide NextSprint, NextAgent;
  }

  lemma GoodNext(s: State, work: Work, c: Choice)
    requires NextOk(s.db, s.world, work) && Sound(s, Cascade(CascadePc.Next(work)), c)
    ensures Goes(s, StepNext(s, work, c))
  {
    hide StepNext;
    if UndoOk(s.db, s.world, work.undo) {
      NextLoops(s, work, c);
    } else {
      GoodFlip(s, work, c);
    }
  }

  lemma GoodCascade(s: State, k: CascadePc, c: Choice, eff: Effect)
    requires !k.Next? && ThreadOk(s.db, s.world, Cascade(k)) && StepCascade(s, k, c) == Some(eff)
    requires Sound(s, Cascade(k), c)
    ensures Goes(s, eff)
  {}

  lemma GoodPlan(s: State, pc: Pc, c: Choice, eff: Effect)
    requires WellFormed(pc) && ThreadOk(s.db, s.world, pc) && Plan(s, pc, c) == Some(eff) && Sound(s, pc, c)
    requires pc.Adopt? && pc.ado.AdoptCheck? && pc.ado.a !in s.db.agents ==> pc.ado.a !in s.world.moved
    ensures Goes(s, eff)
  {
    match pc
    case Lane(k) => GoodLane(s, k, c, eff);
    case Resume(k) => GoodResume(s, k, c, eff);
    case Exit(k) => GoodExit(s, k, c, eff);
    case Check(k) => GoodCheck(s, k, c, eff);
    case Launch(k) => GoodLaunch(s, k, c, eff);
    case Adopt(k) => GoodAdopt(s, k, c, eff);
    case Cascade(k) => if k.Next? { GoodNext(s, k.work, c); } else { GoodCascade(s, k, c, eff); }
  }

  // ---------------------------------------------------------------- whole states and runs

  /** A moved transcript's owner inserts the row, moves it back, or goes on owning it. */
  lemma CarryOn(s: State, pc: Pc, c: Choice, eff: Effect, a: AgentId)
    requires Plan(s, pc, c) == Some(eff) && Sound(s, pc, c) && Carrying(pc, a)
    ensures || a in Run(s.db, eff.stmt).agents || a !in CallOutside(s.world, eff.out).moved
            || (eff.next.Some? && Carrying(eff.next.value, a) && eff.lock.Keep?)
  {}

  lemma MoveCarries(s: State, pc: Pc, c: Choice, eff: Effect)
    requires Plan(s, pc, c) == Some(eff) && eff.out.MoveTranscript?
    ensures eff.next.Some? && Carrying(eff.next.value, eff.out.a) && eff.lock.Keep?
  {
    hide StepCascade, StepAdopt;
    if pc.Cascade? { CascadesOnlyFlip(s, pc.cas, c, eff); }
    if pc.Adopt? { AdoptCarries(s, pc.ado, c, eff); }
  }

  lemma AdoptCarries(s: State, k: AdoptPc, c: Choice, eff: Effect)
    requires StepAdopt(s, k, c) == Some(eff) && eff.out.MoveTranscript?
    ensures eff.next.Some? && Carrying(eff.next.value, eff.out.a) && eff.lock.Keep?
  {}

  lemma OwnersAfter(s: State, t: Tid, c: Choice, eff: Effect)
    requires LockInv(s) && MovedHasOwner(s) && t in s.threads && Scoped(s, s.threads[t], eff) && Grantable(s, eff)
    requires Plan(s, s.threads[t], c) == Some(eff) && Sound(s, s.threads[t], c)
    ensures MovedHasOwner(Perform(s, t, eff))
  {
    var s', pc := Perform(s, t, eff), s.threads[t];
    forall a | a in s'.world.moved && a !in s'.db.agents
      ensures HolderPc(s', a).Some? && Carrying(HolderPc(s', a).value, a)
    {
      GrowsRun(s.db, eff.stmt);
      if eff.out == MoveTranscript(a, s'.world.moved[a]) {
        MoveCarries(s, pc, c, eff);
        assert s.locks[a] == t;
      } else {
        assert a in s.world.moved && a !in s.db.agents;
        if a in Holds(pc) {
          assert s.locks[a] == t;
          CarryOn(s, pc, c, eff, a);
        } else {
          HolderElsewhere(s, t, eff, a);
        }
      }
    }
  }

  lemma CheckFindsHome(s: State, t: Tid)
    requires Inv(s) && t in s.threads && s.threads[t].Adopt? && s.threads[t].ado.AdoptCheck?
    ensures var a := s.threads[t].ado.a; a !in s.db.agents ==> a !in s.world.moved
  {
    var a := s.threads[t].ado.a;
    assert a in Holds(s.threads[t]) && s.locks[a] == t;
  }

  lemma Next(s: State, e: Event, s': State)
    requires Inv(s) && Apply(s, e) == Some(s') && Allowed(s, e)
    ensures Inv(s')
  {
    hide Apply, Plan;
    BaseNext(s, e, s');
    if e.Step? {
      var eff := Unpack(s, e.t, e.c, s');
      if s.threads[e.t].Adopt? && s.threads[e.t].ado.AdoptCheck? { CheckFindsHome(s, e.t); }
      GoodPlan(s, s.threads[e.t], e.c, eff);
      OwnersAfter(s, e.t, e.c, eff);
      forall u | u in s'.threads ensures ThreadOk(s'.db, s'.world, s'.threads[u]) {
        if u != e.t { Stable(s, s', s.threads[u]); }
      }
    } else {
      NextOutside(s, e, s');
    }
  }

  lemma EntryOk(s: State, s': State, pc: Pc)
    requires Entry(s, pc)
    ensures ThreadOk(s'.db, s'.world, pc)
  {}

  lemma NextOutside(s: State, e: Event, s': State)
    requires Inv(s) && !e.Step? && Apply(s, e) == Some(s') && Allowed(s, e)
    ensures MovedHasOwner(s') && forall t :: t in s'.threads ==> ThreadOk(s'.db, s'.world, s'.threads[t])
  {
    hide Apply, Plan, ThreadOk, Rely, Entry, KilledStays, WorkstreamsStay, GrowsDb, GrowsWorld, GrowsIds, Carrying;
    GrowsOutside(s, e, s');
    assert forall a :: a in s.locks ==> HolderPc(s', a) == HolderPc(s, a);
    forall u | u in s'.threads ensures ThreadOk(s'.db, s'.world, s'.threads[u]) {
      if u in s.threads {
        RelyOutside(s, e, s', Holds(s.threads[u]));
        Stable(s, s', s.threads[u]);
      } else {
        EntryOk(s, s', e.pc);
      }
    }
  }

  lemma First(s: State)
    requires Init(s)
    ensures Inv(s)
  {}

  lemma {:induction false} Along(states: seq<State>, events: seq<Event>, n: nat)
    requires IsRun(states, events) && n < |states|
    requires forall i :: 0 <= i < n ==> Allowed(states[i], events[i])
    ensures Inv(states[n])
  {
    hide Init, Apply, Inv;
    if n == 0 {
      First(states[0]);
    } else {
      Along(states, events, n - 1);
      assert Follows(states, events, n - 1);
      Next(states[n - 1], events[n - 1], states[n]);
    }
  }

  /** An adopt about to return an error past its validation: whether it failed in placement,
      launch, insert, re-check or log, concurrent handlers included. */
  lemma RefusedAdoptRollsBack(states: seq<State>, events: seq<Event>, n: nat, t: Tid,
                              a: AgentId, moved: Option<WorkstreamId>)
    requires IsRun(states, events) && n < |states|
    requires forall i :: 0 <= i < n ==> Allowed(states[i], events[i])
    requires t in states[n].threads && states[n].threads[t] == Adopt(Refused(a, moved))
    ensures a !in states[n].world.moved && !IsActive(states[n].db, a)
    ensures moved.Some? ==> Down(states[n].db, moved.value)
  {
    Along(states, events, n);
    assert ThreadOk(states[n].db, states[n].world, states[n].threads[t]);
  }
}
