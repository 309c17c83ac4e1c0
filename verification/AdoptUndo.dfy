/** What an adopt knows of its own session while it holds the session's lock: no row before its
    insert, and no Active row once it has begun to undo a relocation. */
module AdoptUndo {
  import opened Tables
  import opened Protocol
  import opened Interference

  ghost predicate UndoIdle(db: Db, undo: Option<Undoing>) {
    undo.Some? ==> !IsActive(db, undo.value.a)
  }

  /** The launch is that of a --relocate adopt, whose undo kills the workstream it minted. */
  predicate Relocated(origin: Origin) { origin.Adopted? && origin.moved.Some? }

  ghost predicate ThreadOk(db: Db, pc: Pc) {
    match pc
    case Lane(_) => true
    case Resume(_) => true
    case Exit(x) =>
      // A compensation has flipped the row once before it gets here.
      if x.KillLock? || x.KillRead? then true
      else if x.after.ToUndo? then Relocated(x.after.origin) ==> !IsActive(db, x.a)
      else UndoIdle(db, UndoOf(pc))
    case Check(_) => true
    case Launch(n) =>
      if n.Insert? || n.KillOrphan? then n.origin.Adopted? ==> n.a !in db.agents
      else if n.UndoLaunch? then Relocated(n.origin) ==> !IsActive(db, n.a)
      else true
    case Adopt(d) =>
      if d.AdoptLock? || d.AdoptCheck? then true
      else if d.AdoptFail? || d.Refused? then d.moved.Some? ==> !IsActive(db, d.a)
      else if d.UndoRead? then !IsActive(db, d.a)
      else d.a !in db.agents
    case Cascade(_) => UndoIdle(db, UndoOf(pc))
  }

  ghost predicate Inv(s: State) {
    Base(s) && forall t :: t in s.threads ==> ThreadOk(s.db, s.threads[t])
  }

  /** The status write that the compensation of a relocated launch begins with. */
  ghost predicate Compensates(pc: Pc) { pc.Launch? && pc.lau.CompFlip? && Relocated(pc.lau.origin) }

  ghost predicate Sound(pc: Pc, c: Choice) { c.Fail? ==> !Compensates(pc) }

  /** That write fails. */
  ghost predicate StaysUp(s: State, e: Event) {
    e.Step? && e.t in s.threads && e.c.Fail? && Compensates(s.threads[e.t])
  }

  ghost predicate Goes(s: State, eff: Effect) {
    eff.next.Some? ==> ThreadOk(Run(s.db, eff.stmt), eff.next.value)
  }

  lemma Stable(s: State, s': State, pc: Pc)
    requires ThreadOk(s.db, pc) && Rely(s, s', Holds(pc))
    ensures ThreadOk(s'.db, pc)
  {
    if UndoOf(pc).Some? { assert UndoOf(pc).value.a in Holds(pc); }
  }

  lemma GoodLane(s: State, k: LanePc, c: Choice, eff: Effect)
    requires StepLane(s, k, c) == Some(eff)
    ensures Goes(s, eff)
  {}

  lemma GoodResume(s: State, k: ResumePc, c: Choice, eff: Effect)
    requires StepResume(s, k, c) == Some(eff)
    ensures Goes(s, eff)
  {}

  lemma GoodExit(s: State, k: ExitPc, c: Choice, eff: Effect)
    requires WellFormed(Exit(k)) && ThreadOk(s.db, Exit(k)) && StepExit(s, k, c) == Some(eff)
    ensures Goes(s, eff)
  {}

  lemma GoodCheck(s: State, k: CheckPc, c: Choice, eff: Effect)
    requires StepCheck(s, k, c) == Some(eff)
    ensures Goes(s, eff)
  {}

  lemma GoodLaunch(s: State, k: LaunchPc, c: Choice, eff: Effect)
    requires ThreadOk(s.db, Launch(k)) && StepLaunch(s, k, c) == Some(eff) && Sound(Launch(k), c)
    ensures Goes(s, eff)
  {}

  lemma GoodAdopt(s: State, k: AdoptPc, c: Choice, eff: Effect)
    requires ThreadOk(s.db, Adopt(k)) && StepAdopt(s, k, c) == Some(eff)
    ensures Goes(s, eff)
  {}

  lemma GoodNext(s: State, work: Work, c: Choice)
    requires UndoIdle(s.db, work.undo)
    ensures Goes(s, StepNext(s, work, c))
  {
    hide StepNext;
    NextLoops(s, work, c);
  }

  lemma GoodCascade(s: State, k: CascadePc, c: Choice, eff: Effect)
    requires !k.Next? && ThreadOk(s.db, Cascade(k)) && StepCascade(s, k, c) == Some(eff)
    ensures Goes(s, eff)
  {}

  lemma GoodPlan(s: State, pc: Pc, c: Choice, eff: Effect)
    requires WellFormed(pc) && ThreadOk(s.db, pc) && Plan(s, pc, c) == Some(eff) && Sound(pc, c)
    ensures Goes(s, eff)
  {
    match pc
    case Lane(k) => GoodLane(s, k, c, eff);
    case Resume(k) => GoodResume(s, k, c, eff);
    case Exit(k) => GoodExit(s, k, c, eff);
    case Check(k) => GoodCheck(s, k, c, eff);
    case Launch(k) => GoodLaunch(s, k, c, eff);
    case Adopt(k) => GoodAdopt(s, k, c, eff);
    case Cascade(k) => if k.Next? { GoodNext(s, k.work, c); } else { GoodCascade(s, k, c, eff); }
  }

  lemma Next(s: State, e: Event, s': State)
    requires Inv(s) && Apply(s, e) == Some(s') && !StaysUp(s, e)
    ensures Inv(s')
  {
    hide Apply, Plan;
    BaseNext(s, e, s');
    if e.Step? {
      var eff := Unpack(s, e.t, e.c, s');
      GoodPlan(s, s.threads[e.t], e.c, eff);
      forall u | u in s'.threads ensures ThreadOk(s'.db, s'.threads[u]) {
        if u != e.t { Stable(s, s', s.threads[u]); }
      }
    } else {
      GrowsOutside(s, e, s');
      forall u | u in s'.threads ensures ThreadOk(s'.db, s'.threads[u]) {
        if u in s.threads {
          RelyOutside(s, e, s', Holds(s.threads[u]));
          Stable(s, s', s.threads[u]);
        } else {
          assert ThreadOk(s'.db, e.pc);
        }
      }
    }
  }

  lemma First(s: State)
    requires Init(s)
    ensures Inv(s)
  {}

  lemma {:induction false} Along(states: seq<State>, events: seq<Event>, n: nat)
    requires IsRun(states, events) && n < |states|
    requires forall i :: 0 <= i < n ==> !StaysUp(states[i], events[i])
    ensures Inv(states[n])
  {
    hide Init, Apply, Inv;
    if n == 0 {
      First(states[0]);
    } else {
      Along(states, events, n - 1);
      assert Follows(states, events, n - 1);
      Next(states[n - 1], events[n - 1], states[n]);
    }
  }
}
