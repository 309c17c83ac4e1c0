/** A failing call ends the work of its handler: a lane looks at no further agent, a kill visits
    and tears down nothing more. */
module Errors {
  import opened Tables
  import opened Protocol
  import opened Interference
  import opened Sections
  import opened Requests

  /** Code whose failing call is returned as an error at once. A launch that fails is taken back
      instead; a probe and a teardown that fail are passed over. */
  ghost predicate ReturnsError(pc: Pc) {
    match pc
    case Lane(l) => !l.LaneProbe?
    case Resume(r) => !r.KillNew?
    case Exit(x) => x.KillRead? || ((x.ExitFlip? || x.ExitLog?) && !x.after.ToUndo? && !x.after.ToTear?)
    case Check(k) => !k.use.PostInsert?
    case Launch(n) => n.LaunchChild?
    case Adopt(d) => d.AdoptCheck? || d.AdoptStop?
    case Cascade(k) => !k.TearRead? && !k.TearWorkspaces? && (k.Next? ==> HasMore(k.work))
  }

  /** The loop is not through: it makes a call next. */
  predicate HasMore(work: Work) {
    work.clearSprint || work.sps != [] || work.clearWorkstream || work.wss != [] || work.clearRepo
  }

  /** The way out. */
  ghost predicate Over(pc: Pc) {
    match pc
    case Lane(LaneNext(queue)) => queue == []
    case Resume(KillNew(_, _, _)) => true
    case Exit(Leave(_, after)) =>
      (match after
       case Finish => true
       case ToLane(rest) => rest == []
       case ToCascade(work) => work == work.Dropped()
       case _ => false)
    case Cascade(Next(work)) => work == work.Dropped()
    case Cascade(TearNext(left)) => left == []
    case Cascade(TearWorkspaces(wss, _)) => wss == []
    case Adopt(AdoptFail(_, _)) => true
    case Adopt(Refused(_, _)) => true
    case _ => false
  }

  /** Nothing but the terminal of a respawn that could not record it is touched any more. */
  ghost predicate Idles(pc: Pc, eff: Effect) {
    && eff.stmt.NoStatement? && (pc.Resume? || eff.out.NothingOutside?) && !eff.out.SpawnChild?
    && !eff.note.NoteExit? && !eff.note.NoteLog? && (eff.note.NoteTry? ==> pc.Resume? && pc.res.Respawn?)
    && (eff.next.Some? ==> Over(eff.next.value))
  }

  lemma FailsNext(s: State, work: Work, c: Choice)
    requires work.ags == [] && HasMore(work) && c.Fail?
    ensures Idles(Cascade(CascadePc.Next(work)), StepNext(s, work, c))
  {}

  lemma FailsCascade(s: State, k: CascadePc, c: Choice, eff: Effect)
    requires ReturnsError(Cascade(k)) && StepCascade(s, k, c) == Some(eff) && c.Fail? && CallAt(Cascade(k)) != NoCall
    ensures Idles(Cascade(k), eff)
  {
    hide StepNext;
    if k.Next? { FailsNext(s, k.work, c); }
  }

  lemma FailsOther(s: State, pc: Pc, c: Choice, eff: Effect)
    requires !pc.Cascade? && ReturnsError(pc) && Plan(s, pc, c) == Some(eff) && c.Fail? && CallAt(pc) != NoCall
    ensures Idles(pc, eff)
  {}

  lemma OverCascade(s: State, k: CascadePc, c: Choice, eff: Effect)
    requires Over(Cascade(k)) && StepCascade(s, k, c) == Some(eff)
    ensures Idles(Cascade(k), eff)
  {}

  lemma OverOther(s: State, pc: Pc, c: Choice, eff: Effect)
    requires !pc.Cascade? && Over(pc) && Plan(s, pc, c) == Some(eff)
    ensures Idles(pc, eff)
  {}

  /** What an own step on the way out changes, on the state. */
  ghost predicate Nothing(pc: Pc, s: State, s': State) {
    && s'.db == s.db && s'.world.spawned == s.world.spawned && s'.tally == s.tally.(tries := s'.tally.tries)
    && (!pc.Resume? ==> s'.world == s.world && s'.tally == s.tally)
  }

  lemma OverStep(s: State, t: Tid, c: Choice, s': State)
    requires t in s.threads && Apply(s, Step(t, c)) == Some(s')
    requires Over(s.threads[t])
      || (ReturnsError(s.threads[t]) && c.Fail? && CallAt(s.threads[t]) != NoCall)
    ensures Nothing(s.threads[t], s, s') && (t in s'.threads ==> Over(s'.threads[t]))
  {
    hide Plan, Over, ReturnsError, CallAt;
    var pc := s.threads[t];
    var eff := Plan(s, pc, c).value;
    if Over(pc) {
      if pc.Cascade? { PlanCascade(s, pc.cas, c); OverCascade(s, pc.cas, c, eff); } else { OverOther(s, pc, c, eff); }
    } else {
      if pc.Cascade? { PlanCascade(s, pc.cas, c); FailsCascade(s, pc.cas, c, eff); } else { FailsOther(s, pc, c, eff); }
    }
  }

  lemma PlanCascade(s: State, k: CascadePc, c: Choice)
    ensures Plan(s, Cascade(k), c) == StepCascade(s, k, c)
  {
    hide StepCascade;
  }

  lemma {:induction false} OverAlong(states: seq<State>, events: seq<Event>, i: nat, j: nat, t: Tid)
    requires IsRun(states, events) && i < j < |states| && FailsAt(states, events, i, t)
    requires ReturnsError(states[i].threads[t])
    requires forall m :: i < m <= j ==> t in states[m].threads
    ensures Over(states[j].threads[t])
  {
    hide Init, Apply, Over, ReturnsError, CallAt;
    assert Follows(states, events, j - 1);
    if j == i + 1 {
      OverStep(states[i], t, events[i].c, states[j]);
    } else {
      OverAlong(states, events, i, j - 1, t);
      if Own(events[j - 1], t) { OverStep(states[j - 1], t, events[j - 1].c, states[j]); }
      else { Waits(states, events, j - 1, t); }
    }
  }

  /** After a failing call at event i the handler's own steps write no row, spawn nothing and append
      no exit; and no terminal is killed but one that a respawn has just spawned and not recorded. */
  lemma ErrorEnds(states: seq<State>, events: seq<Event>, i: nat, j: nat, t: Tid)
    requires IsRun(states, events) && i <= j < |events| && FailsAt(states, events, i, t)
    requires ReturnsError(states[i].threads[t]) && Own(events[j], t)
    requires forall m :: i < m <= j ==> t in states[m].threads
    ensures Nothing(states[j].threads[t], states[j], states[j + 1])
  {
    hide Init, Apply, Over, ReturnsError, CallAt, Nothing;
    assert Follows(states, events, j);
    if i < j { OverAlong(states, events, i, j, t); }
    OverStep(states[j], t, events[j].c, states[j + 1]);
  }
}
