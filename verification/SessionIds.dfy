/** Session ids: one drawn from the uuid generator belongs to the spawn that drew it, and to no
    other thread, until that launch is over. An adopt may be asked for it meanwhile. */
module SessionIds {
  import opened Tables
  import opened Protocol
  import opened Interference

  /** The session the code at pc has drawn and is launching. */
  ghost predicate Draws(pc: Pc, a: AgentId) {
    && pc.Launch? && !pc.lau.LaunchChild? && pc.lau.a == a
    && (pc.lau.LockNew? || ((pc.lau.Insert? || pc.lau.KillOrphan?) && pc.lau.origin.Spawned?))
  }

  ghost predicate ThreadOk(minted: map<AgentId, Tid>, t: Tid, pc: Pc) {
    forall a :: Draws(pc, a) ==> a in minted && minted[a] == t
  }

  ghost predicate Inv(s: State) {
    Base(s) && forall t :: t in s.threads ==> ThreadOk(s.minted, t, s.threads[t])
  }

  /** Where drawn ids come from. */
  ghost predicate Traces(pc: Pc, eff: Effect) {
    forall a :: eff.next.Some? && Draws(eff.next.value, a) ==> Draws(pc, a) || eff.birth == MintSession(a)
  }

  lemma TracesLaunch(s: State, k: LaunchPc, c: Choice, eff: Effect)
    requires StepLaunch(s, k, c) == Some(eff)
    ensures Traces(Launch(k), eff)
  {}

  lemma TracesAdopt(s: State, k: AdoptPc, c: Choice, eff: Effect)
    requires StepAdopt(s, k, c) == Some(eff)
    ensures Traces(Adopt(k), eff)
  {}

  lemma TracesCascade(s: State, k: CascadePc, c: Choice, eff: Effect)
    requires StepCascade(s, k, c) == Some(eff)
    ensures Traces(Cascade(k), eff)
  {
    hide StepNext;
    if k.Next? { NextLoops(s, k.work, c); }
  }

  lemma TracesElsewhere(s: State, pc: Pc, c: Choice, eff: Effect)
    requires !pc.Launch? && !pc.Adopt? && !pc.Cascade? && Plan(s, pc, c) == Some(eff)
    ensures Traces(pc, eff)
  {}

  lemma TracesPlan(s: State, pc: Pc, c: Choice, eff: Effect)
    requires Plan(s, pc, c) == Some(eff)
    ensures Traces(pc, eff)
  {
    match pc
    case Launch(k) => TracesLaunch(s, k, c, eff);
    case Adopt(k) => TracesAdopt(s, k, c, eff);
    case Cascade(k) => TracesCascade(s, k, c, eff);
    case _ => TracesElsewhere(s, pc, c, eff);
  }

  lemma AfterStep(s: State, t: Tid, eff: Effect, u: Tid)
    requires Inv(s) && t in s.threads && Scoped(s, s.threads[t], eff) && Traces(s.threads[t], eff)
    requires u in Perform(s, t, eff).threads
    ensures ThreadOk(Perform(s, t, eff).minted, u, Perform(s, t, eff).threads[u])
  {
    hide Draws, Base, Relocks, WellFormed, Placing, Holds;
    assert ThreadOk(s.minted, t, s.threads[t]) && (u != t ==> ThreadOk(s.minted, u, s.threads[u]));
  }

  lemma Next(s: State, e: Event, s': State)
    requires Inv(s) && Apply(s, e) == Some(s')
    ensures Inv(s')
  {
    hide Apply, Plan;
    BaseNext(s, e, s');
    if e.Step? {
      var eff := Unpack(s, e.t, e.c, s');
      TracesPlan(s, s.threads[e.t], e.c, eff);
      forall u | u in s'.threads ensures ThreadOk(s'.minted, u, s'.threads[u]) {
        AfterStep(s, e.t, eff, u);
      }
    } else {
      GrowsOutside(s, e, s');
    }
  }

  lemma First(s: State)
    requires Init(s)
    ensures Inv(s)
  {}

  /** In every run. */
  lemma {:induction false} Along(states: seq<State>, events: seq<Event>, n: nat)
    requires IsRun(states, events) && n < |states|
    ensures Inv(states[n])
  {
    hide Init, Apply, Inv;
    if n == 0 {
      First(states[0]);
    } else {
      Along(states, events, n - 1);
      assert Follows(states, events, n - 1);
      Next(states[n - 1], events[n - 1], states[n]);
    }
  }

  /** No two launches ever run under one drawn session id. */
  lemma OneDrawer(states: seq<State>, events: seq<Event>, n: nat, t: Tid, u: Tid, a: AgentId)
    requires IsRun(states, events) && n < |states| && t in states[n].threads && u in states[n].threads
    requires Draws(states[n].threads[t], a) && Draws(states[n].threads[u], a)
    ensures t == u
  {
    Along(states, events, n);
    assert ThreadOk(states[n].minted, t, states[n].threads[t]) && ThreadOk(states[n].minted, u, states[n].threads[u]);
  }
}
