/** Crash loops end: between a live healthy status and the next, the supervisor makes at most
    RESTART_BUDGET respawn attempts for an agent, failed ones included, and the next death it
    detects ends the agent. */
module RestartBudget {
  import opened Tables
  import opened Protocol
  import opened Interference
  import opened Sections
  import opened Requests
  import ExitAccounting

  ghost predicate Within(db: Db) {
    forall a :: a in db.agents ==> db.agents[a].restarts <= RESTART_BUDGET
  }

  /** The count a decision was based on; a live tailer may have cleared it meanwhile. */
  ghost predicate ThreadOk(db: Db, pc: Pc) {
    match pc
    case Lane(l) =>
      (match l
       case LaneProbe(item, row, _) =>
         item.a in db.agents && db.agents[item.a].restarts <= row.restarts <= RESTART_BUDGET
       case Mark(item, row, _, _) =>
         item.a in db.agents && db.agents[item.a].restarts <= row.restarts < RESTART_BUDGET
       case _ => true)
    case _ => true
  }

  ghost predicate Inv(s: State) {
    Base(s) && Within(s.db) && forall t :: t in s.threads ==> ThreadOk(s.db, s.threads[t])
  }

  ghost function Restarts(db: Db, a: AgentId): nat {
    if a in db.agents then db.agents[a].restarts else 0
  }

  /** The code at pc has counted an attempt for agent a and not yet made it. */
  ghost predicate InFlight(pc: Pc, a: AgentId) {
    || (pc.Lane? && pc.lane.KillOld? && pc.lane.item.a == a)
    || (pc.Resume? && pc.res.Respawn? && pc.res.a == a)
  }

  /** Attempts made, attempts the budget still allows, and the one in flight. */
  ghost function Potential(db: Db, tally: Tally, pc: Option<Pc>, a: AgentId): int {
    Count(tally.tries, a) + (RESTART_BUDGET - Restarts(db, a))
      + (if pc.Some? && InFlight(pc.value, a) then 1 else 0)
  }

  /** The manual respawn of agent a clears the count, or turns the row Active. */
  ghost predicate Manual(pc: Pc, a: AgentId) {
    pc.Resume? && (pc.res.RespawnMark? || pc.res.RespawnActivate?) && pc.res.a == a
  }

  ghost predicate NextOk(s: State, eff: Effect) {
    && (eff.next.Some? ==> ThreadOk(Run(s.db, eff.stmt), eff.next.value))
    && (eff.stmt.SetRestarts? ==> eff.stmt.count <= RESTART_BUDGET)
    && (eff.stmt.AddAgent? ==> eff.stmt.row.restarts == 0 && eff.stmt.a !in s.db.agents)
  }

  /** Every attempt is paid for, except by a manual respawn. */
  ghost predicate Paid(s: State, pc: Pc, eff: Effect, a: AgentId) {
    Manual(pc, a) ||
    Potential(Run(s.db, eff.stmt), Recount(s.tally, eff.stmt, eff.note), eff.next, a)
      <= Potential(s.db, s.tally, Some(pc), a)
  }

  /** Steps that touch neither a restart count nor an attempt. */
  ghost predicate Calm(eff: Effect) {
    && !eff.stmt.SetRestarts? && !eff.note.NoteTry?
    && (eff.next.Some? && eff.next.value.Resume? ==> !eff.next.value.res.Respawn?)
    && (eff.next.Some? && eff.next.value.Lane? ==> !eff.next.value.lane.KillOld?)
  }

  lemma CalmPaid(s: State, pc: Pc, eff: Effect, a: AgentId)
    requires Calm(eff) && NextOk(s, eff)
    ensures Paid(s, pc, eff, a)
  {}

  lemma GoodLane(s: State, k: LanePc, c: Choice, eff: Effect)
    requires Within(s.db) && ThreadOk(s.db, Lane(k)) && StepLane(s, k, c) == Some(eff)
    ensures NextOk(s, eff) && (k.Mark? || k.KillOld? || Calm(eff))
  {}

  lemma LanePaid(s: State, k: LanePc, c: Choice, eff: Effect, a: AgentId)
    requires (k.Mark? || k.KillOld?) && ThreadOk(s.db, Lane(k)) && StepLane(s, k, c) == Some(eff)
    ensures Paid(s, Lane(k), eff, a)
  {}

  lemma GoodResume(s: State, k: ResumePc, c: Choice, eff: Effect)
    requires StepResume(s, k, c) == Some(eff)
    ensures NextOk(s, eff) && (k.Respawn? || k.RespawnMark? || k.RespawnActivate? || Calm(eff))
  {}

  lemma ResumePaid(s: State, k: ResumePc, c: Choice, eff: Effect, a: AgentId)
    requires (k.Respawn? || k.RespawnMark? || k.RespawnActivate?) && StepResume(s, k, c) == Some(eff)
    ensures Paid(s, Resume(k), eff, a)
  {}

  lemma GoodExit(s: State, k: ExitPc, c: Choice, eff: Effect)
    requires StepExit(s, k, c) == Some(eff)
    ensures NextOk(s, eff) && Calm(eff)
  {}

  lemma GoodCheck(s: State, k: CheckPc, c: Choice, eff: Effect)
    requires StepCheck(s, k, c) == Some(eff)
    ensures NextOk(s, eff) && Calm(eff)
  {}

  lemma GoodLaunch(s: State, k: LaunchPc, c: Choice, eff: Effect)
    requires StepLaunch(s, k, c) == Some(eff)
    ensures NextOk(s, eff) && Calm(eff)
  {}

  lemma GoodAdopt(s: State, k: AdoptPc, c: Choice, eff: Effect)
    requires StepAdopt(s, k, c) == Some(eff)
    ensures NextOk(s, eff) && Calm(eff)
  {}

  lemma GoodCascade(s: State, k: CascadePc, c: Choice, eff: Effect)
    requires StepCascade(s, k, c) == Some(eff)
    ensures NextOk(s, eff) && Calm(eff)
  {
    hide StepNext;
    if k.Next? { NextLoops(s, k.work, c); }
  }

  lemma GoodPlan(s: State, pc: Pc, c: Choice, eff: Effect, a: AgentId)
    requires Within(s.db) && ThreadOk(s.db, pc) && Plan(s, pc, c) == Some(eff)
    ensures NextOk(s, eff) && Paid(s, pc, eff, a)
  {
    match pc {
      case Lane(k) =>
        GoodLane(s, k, c, eff);
        if k.Mark? || k.KillOld? { LanePaid(s, k, c, eff, a); }
      case Resume(k) =>
        GoodResume(s, k, c, eff);
        if k.Respawn? || k.RespawnMark? || k.RespawnActivate? { ResumePaid(s, k, c, eff, a); }
      case Exit(k) => GoodExit(s, k, c, eff);
      case Check(k) => GoodCheck(s, k, c, eff);
      case Launch(k) => GoodLaunch(s, k, c, eff);
      case Adopt(k) => GoodAdopt(s, k, c, eff);
      case Cascade(k) => GoodCascade(s, k, c, eff);
    }
    if Calm(eff) { CalmPaid(s, pc, eff, a); }
  }

  // ---------------------------------------------------------------- whole states and runs

  lemma Stable(s: State, s': State, pc: Pc)
    requires ThreadOk(s.db, pc) && Rely(s, s', Holds(pc))
    ensures ThreadOk(s'.db, pc)
  {}

  lemma WithinAfter(s: State, eff: Effect)
    requires Within(s.db) && NextOk(s, eff)
    ensures Within(Run(s.db, eff.stmt))
  {}

  lemma WithinOutside(db: Db, e: Event)
    requires Within(db)
    ensures Within(OutsideDb(db, e))
  {}

  lemma Next(s: State, e: Event, s': State)
    requires Inv(s) && Apply(s, e) == Some(s')
    ensures Inv(s')
  {
    hide Apply, Plan;
    BaseNext(s, e, s');
    if e.Step? {
      var eff := Unpack(s, e.t, e.c, s');
      GoodPlan(s, s.threads[e.t], e.c, eff, 0);
      WithinAfter(s, eff);
      forall u | u in s'.threads ensures ThreadOk(s'.db, s'.threads[u]) {
        if u != e.t { Stable(s, s', s.threads[u]); }
      }
    } else {
      WithinOutside(s.db, e);
      GrowsOutside(s, e, s');
      forall u | u in s'.threads ensures ThreadOk(s'.db, s'.threads[u]) {
        if u in s.threads {
          RelyOutside(s, e, s', Holds(s.threads[u]));
          Stable(s, s', s.threads[u]);
        } else {
          assert ThreadOk(s'.db, e.pc);
        }
      }
    }
  }

  lemma First(s: State)
    requires Init(s)
    ensures Inv(s)
  {}

  /** RestartCount stays within 0..RESTART_BUDGET in every reachable state. */
  lemma {:induction false} Along(states: seq<State>, events: seq<Event>, n: nat)
    requires IsRun(states, events) && n < |states|
    ensures Inv(states[n])
  {
    hide Init, Apply, Inv;
    if n == 0 {
      First(states[0]);
    } else {
      Along(states, events, n - 1);
      assert Follows(states, events, n - 1);
      Next(states[n - 1], events[n - 1], states[n]);
    }
  }

  ghost function Total(s: State, a: AgentId): int {
    Potential(s.db, s.tally, HolderPc(s, a), a)
  }

  /** A live healthy status, or a manual respawn, gives the agent a fresh budget. */
  ghost predicate Refills(s: State, e: Event, a: AgentId) {
    || e == TailerReset(a)
    || (e.Step? && e.t in s.threads && Manual(s.threads[e.t], a))
  }

  lemma InFlightHolds(pc: Pc, a: AgentId)
    ensures InFlight(pc, a) || Manual(pc, a) ==> a in Holds(pc)
  {}

  lemma PotentialSame(db: Db, db': Db, tally: Tally, tally': Tally, pc: Option<Pc>, a: AgentId)
    requires (a in db.agents <==> a in db'.agents) && Restarts(db', a) == Restarts(db, a)
    requires Count(tally'.tries, a) == Count(tally.tries, a)
    ensures Potential(db', tally', pc, a) == Potential(db, tally, pc, a)
  {}

  lemma SameRestarts(db: Db, stmt: Statement, a: AgentId)
    requires a !in Writes(stmt)
    ensures Restarts(Run(db, stmt), a) == Restarts(db, a)
    ensures a in Run(db, stmt).agents <==> a in db.agents
  {}

  lemma TotalElsewhere(s: State, t: Tid, eff: Effect, a: AgentId)
    requires LockInv(s) && t in s.threads && Scoped(s, s.threads[t], eff) && Grantable(s, eff)
    requires Paid(s, s.threads[t], eff, a) && a !in Holds(s.threads[t])
    ensures Total(Perform(s, t, eff), a) <= Total(s, a)
  {
    InFlightHolds(s.threads[t], a);
    SameRestarts(s.db, eff.stmt, a);
    SameTallyNote(s.tally, eff.stmt, eff.note, a);
    HolderElsewhere(s, t, eff, a);
    var db', tally' := Run(s.db, eff.stmt), Recount(s.tally, eff.stmt, eff.note);
    PotentialSame(s.db, db', s.tally, tally', HolderPc(s, a), a);
    assert Potential(s.db, s.tally, Some(s.threads[t]), a) == Potential(s.db, s.tally, None, a);
  }

  lemma TotalHere(s: State, t: Tid, eff: Effect, a: AgentId)
    requires LockInv(s) && t in s.threads && Scoped(s, s.threads[t], eff)
    requires Paid(s, s.threads[t], eff, a) && a in Holds(s.threads[t]) && !Manual(s.threads[t], a)
    ensures Total(Perform(s, t, eff), a) <= Total(s, a)
  {
    hide InFlight, Holds, WellFormed, Placing, PlaceAgrees, Run, CallOutside, Recount, Manual;
    assert s.locks[a] == t;
    if eff.next.Some? { InFlightHolds(eff.next.value, a); }
  }

  lemma TotalOutside(s: State, e: Event, s': State, a: AgentId)
    requires Inv(s) && !e.Step? && Apply(s, e) == Some(s') && e != TailerReset(a)
    ensures Total(s', a) == Total(s, a)
  {
    hide Apply, Plan;
    GrowsOutside(s, e, s');
    assert HolderPc(s', a) == HolderPc(s, a);
    assert Restarts(s'.db, a) == Restarts(s.db, a);
    PotentialSame(s.db, s'.db, s.tally, s'.tally, HolderPc(s, a), a);
  }

  lemma TotalNext(s: State, e: Event, s': State, a: AgentId)
    requires Inv(s) && Apply(s, e) == Some(s') && !Refills(s, e, a)
    ensures Total(s', a) <= Total(s, a)
  {
    hide Apply, Plan;
    if e.Step? {
      var eff := Unpack(s, e.t, e.c, s');
      GoodPlan(s, s.threads[e.t], e.c, eff, a);
      if a in Holds(s.threads[e.t]) { TotalHere(s, e.t, eff, a); } else { TotalElsewhere(s, e.t, eff, a); }
    } else {
      TotalOutside(s, e, s', a);
    }
  }

  lemma {:induction false} TotalAlong(states: seq<State>, events: seq<Event>, i: nat, j: nat, a: AgentId)
    requires IsRun(states, events) && i <= j < |states|
    requires forall k :: i <= k < j ==> !Refills(states[k], events[k], a)
    ensures Total(states[j], a) <= Total(states[i], a)
    decreases j - i
  {
    hide Init, Apply, Inv, Refills, Total;
    if i < j {
      TotalAlong(states, events, i, j - 1, a);
      Along(states, events, j - 1);
      assert Follows(states, events, j - 1);
      TotalNext(states[j - 1], events[j - 1], states[j], a);
    }
  }

  /** From a moment nobody is inside the agent's critical section, and until something refills
      the budget, at most the rest of the budget is attempted; and once that much has been
      attempted, the row's count stands at the budget. */
  lemma CrashLoopEnds(states: seq<State>, events: seq<Event>, i: nat, j: nat, a: AgentId)
    requires IsRun(states, events) && i <= j < |states| && a !in states[i].locks
    requires forall k :: i <= k < j ==> !Refills(states[k], events[k], a)
    ensures var made := Count(states[j].tally.tries, a) - Count(states[i].tally.tries, a);
      && made <= RESTART_BUDGET - Restarts(states[i].db, a)
      && (made == RESTART_BUDGET - Restarts(states[i].db, a) ==> Restarts(states[j].db, a) == RESTART_BUDGET)
  {
    TotalAlong(states, events, i, j, a);
    Along(states, events, j);
  }

  // ---------------------------------------------------------------- the death that ends it

  /** The lane of thread t finds agent a dead with its budget used up. */
  ghost predicate FindsSpent(s: State, t: Tid, c: Choice, a: AgentId) {
    Found(s, t, c, a).Some? && Found(s, t, c, a).value.restarts == RESTART_BUDGET
  }

  /** The failing calls that keep the row Active: the abandonment's own append and the status
      write; and the one that only loses the event. */
  ghost predicate KeepsActive(pc: Pc) { (pc.Lane? && pc.lane.AbandonLog?) || (pc.Exit? && pc.ex.ExitFlip?) }

  /** Past the abandonment's own append. */
  ghost function Told(pc: Pc): nat { if pc.Lane? then 0 else 1 }

  ghost predicate LosesEvent(pc: Pc) { pc.Exit? && pc.ex.ExitLog? }

  /** What has become of agent a since state s0: status, exits and respawn attempts. */
  ghost predicate Became(s0: State, s: State, a: AgentId, status: Lifecycle, exits: nat, logs: nat) {
    && a in s.db.agents && s.db.agents[a].status == status
    && Count(s.tally.exits, a) == Count(s0.tally.exits, a) + exits
    && Count(s.tally.tries, a) == Count(s0.tally.tries, a)
    && Count(s.tally.logs, a) == Count(s0.tally.logs, a) + logs
  }

  /** How it ended, by what failed. */
  ghost predicate Ended(states: seq<State>, events: seq<Event>, i: nat, j: nat, t: Tid, a: AgentId)
    requires i < j <= |events| && |states| == |events| + 1
  {
    || (NoneFails(states, events, i, j, t) && Became(states[i], states[j], a, Exited, 1, 1))
    || exists m :: && i < m < j && FailsAt(states, events, m, t)
                   && ((KeepsActive(states[m].threads[t])
                        && Became(states[i], states[j], a, Active, 0, Told(states[m].threads[t])))
                       || (LosesEvent(states[m].threads[t]) && Became(states[i], states[j], a, Exited, 0, 1)))
  }

  /** The code that abandons agent a. */
  ghost predicate Abandons(pc: Pc, a: AgentId) {
    match pc
    case Lane(AbandonLog(item, _, _)) => item.a == a
    case Exit(ExitFlip(b, _, kill, after)) => b == a && !kill && after.ToLane?
    case Exit(ExitLog(b, _, kill, after)) => b == a && !kill && after.ToLane?
    case Exit(Leave(b, after)) => b == a && after.ToLane?
    case _ => false
  }

  ghost predicate Leaves(pc: Pc) { pc.Exit? && pc.ex.Leave? }

  /** How far the abandonment has got. */
  ghost predicate Abandoning(states: seq<State>, events: seq<Event>, i: nat, j: nat, t: Tid, a: AgentId)
    requires i < j <= |events| && |states| == |events| + 1
  {
    && t in states[j].threads && Abandons(states[j].threads[t], a)
    && (if Leaves(states[j].threads[t]) then Ended(states, events, i, j, t, a)
        else NoneFails(states, events, i, j, t)
             && Became(states[i], states[j], a, if LosesEvent(states[j].threads[t]) then Exited else Active, 0,
                       Told(states[j].threads[t])))
  }

  lemma SpentPlan(s: State, k: LanePc, c: Choice, eff: Effect, t: Tid, a: AgentId)
    requires t in s.threads && s.threads[t] == Lane(k) && FindsSpent(s, t, c, a)
    requires ExitAccounting.ThreadOk(s.db, Lane(k)) && StepLane(s, k, c) == Some(eff)
    ensures IsActive(s.db, a) && eff.next.Some? && eff.next.value.Lane? && eff.next.value.lane.AbandonLog?
    ensures eff.next.value.lane.item.a == a && eff.stmt.NoStatement? && eff.note.NoNote?
  {}

  lemma SpentStep(s: State, t: Tid, c: Choice, s': State, a: AgentId)
    requires FindsSpent(s, t, c, a) && ExitAccounting.ThreadOk(s.db, s.threads[t]) && Apply(s, Step(t, c)) == Some(s')
    ensures t in s'.threads && s'.threads[t].Lane? && s'.threads[t].lane.AbandonLog? && s'.threads[t].lane.item.a == a
    ensures Became(s, s', a, Active, 0, 0)
  {
    hide StepLane, ExitAccounting.ThreadOk;
    var k := s.threads[t].lane;
    SpentPlan(s, k, c, StepLane(s, k, c).value, t, a);
  }

  lemma AbandonBegins(states: seq<State>, events: seq<Event>, i: nat, t: Tid, c: Choice, a: AgentId)
    requires IsRun(states, events) && i < |events| && events[i] == Step(t, c) && FindsSpent(states[i], t, c, a)
    ensures Abandoning(states, events, i, i + 1, t, a)
  {
    hide Init, Apply, FindsSpent, Became, Ended, ExitAccounting.ThreadOk, ExitAccounting.Unaccounted, Base;
    ExitAccounting.Along(states, events, i, a);
    assert Follows(states, events, i) && t in states[i].threads by { SpentIn(states[i], t, c, a); }
    assert ExitAccounting.ThreadOk(states[i].db, states[i].threads[t]);
    SpentStep(states[i], t, c, states[i + 1], a);
  }

  lemma SpentIn(s: State, t: Tid, c: Choice, a: AgentId)
    requires FindsSpent(s, t, c, a)
    ensures t in s.threads
  {}

  /** One step of that code, short of letting go of the lock. */
  lemma AbandonStep(s: State, t: Tid, c: Choice, s': State, a: AgentId)
    requires t in s.threads && Abandons(s.threads[t], a) && !Leaves(s.threads[t])
    requires Apply(s, Step(t, c)) == Some(s') && a in s.db.agents
    ensures t in s'.threads && Abandons(s'.threads[t], a) && s'.locks == s.locks
    ensures c.Fail? ==> Leaves(s'.threads[t]) && Became(s, s', a, s.db.agents[a].status, 0, 0)
    ensures !c.Fail? && s.threads[t].Lane? ==>
      s'.threads[t].Exit? && s'.threads[t].ex.ExitFlip? && Became(s, s', a, s.db.agents[a].status, 0, 1)
    ensures !c.Fail? && s.threads[t].Exit? && s.threads[t].ex.ExitFlip? ==>
      s'.threads[t].Exit? && s'.threads[t].ex.ExitLog? && Became(s, s', a, Exited, 0, 0)
    ensures !c.Fail? && LosesEvent(s.threads[t]) ==>
      Leaves(s'.threads[t]) && Became(s, s', a, s.db.agents[a].status, 1, 0)
  {
    hide StepResume, StepCheck, StepLaunch, StepAdopt, StepCascade;
  }

  lemma LeaveDrops(s: State, t: Tid, c: Choice, s': State, a: AgentId)
    requires t in s.threads && Abandons(s.threads[t], a) && Leaves(s.threads[t]) && Apply(s, Step(t, c)) == Some(s')
    ensures !Holding(s', t, a) && (a in s.db.agents ==> Became(s, s', a, s.db.agents[a].status, 0, 0))
  {
    hide StepLane, StepResume, StepCheck, StepLaunch, StepAdopt, StepCascade;
  }

  lemma AbandonsHolds(pc: Pc, a: AgentId)
    requires Abandons(pc, a)
    ensures a in Holds(pc)
  {}

  lemma SameBecame(s: State, s': State, a: AgentId)
    requires a in s.db.agents && SameRow(s.db, s'.db, a) && SameTally(s.tally, s'.tally, a)
    ensures Became(s, s', a, s.db.agents[a].status, 0, 0)
  {}

  /** Whatever else happens leaves the agent alone. */
  lemma OthersLeaveIt(s: State, e: Event, s': State, t: Tid, a: AgentId)
    requires Base(s) && Apply(s, e) == Some(s') && !Own(e, t)
    requires t in s.threads && a in Holds(s.threads[t]) && a in s.db.agents
    ensures t in s'.threads && s'.threads[t] == s.threads[t] && Became(s, s', a, s.db.agents[a].status, 0, 0)
    ensures Holding(s, t, a) && Holding(s', t, a)
  {
    hide Apply, GrowsDb, GrowsWorld, GrowsIds, KilledStays, SameRow, SameTally, SamePath, NoNewChild, Holds, Holding,
      Became, Base;
    Others(s, e, s', t);
    BaseNext(s, e, s');
    SameBecame(s, s', a);
    HolderHolds(s, t, a);
    HolderHolds(s', t, a);
  }

  lemma BecameTwice(s0: State, s: State, s': State, a: AgentId, was: Lifecycle, status: Lifecycle, x: nat, y: nat,
                    m: nat, n: nat)
    requires Became(s0, s, a, was, x, m) && Became(s, s', a, status, y, n)
    ensures Became(s0, s', a, status, x + y, m + n)
  {}

  lemma EndedStays(states: seq<State>, events: seq<Event>, i: nat, j: nat, t: Tid, a: AgentId)
    requires IsRun(states, events) && i < j < |events| && Ended(states, events, i, j, t, a)
    requires !FailsAt(states, events, j, t) && a in states[j].db.agents
    requires Became(states[j], states[j + 1], a, states[j].db.agents[a].status, 0, 0)
    ensures Ended(states, events, i, j + 1, t, a)
  {
    hide Init, Follows, KeepsActive, LosesEvent;
    if m :| && i < m < j && FailsAt(states, events, m, t)
            && ((KeepsActive(states[m].threads[t])
                        && Became(states[i], states[j], a, Active, 0, Told(states[m].threads[t])))
                || (LosesEvent(states[m].threads[t]) && Became(states[i], states[j], a, Exited, 0, 1))) {
      var status := states[j].db.agents[a].status;
      BecameTwice(states[i], states[j], states[j + 1], a, status, status, 0, 0,
                  if Became(states[i], states[j], a, status, 0, 1) then 1 else Told(states[m].threads[t]), 0);
      assert i < m < j + 1;
    }
  }

  /** A step of the lane itself. */
  lemma AbandonOwn(states: seq<State>, events: seq<Event>, i: nat, j: nat, t: Tid, a: AgentId)
    requires IsRun(states, events) && i < j < |events| && Abandoning(states, events, i, j, t, a)
    requires Own(events[j], t) && Holding(states[j + 1], t, a)
    ensures Abandoning(states, events, i, j + 1, t, a)
  {
    hide Init, Apply, Abandons;
    assert Follows(states, events, j);
    var s, s', c := states[j], states[j + 1], events[j].c;
    if Leaves(s.threads[t]) {
      LeaveDrops(s, t, c, s', a);
      assert false;
    } else {
      AbandonStep(s, t, c, s', a);
      OwnKinds(s.threads[t], a);
      if c.Fail? { assert FailsAt(states, events, j, t); }
    }
  }

  lemma OwnKinds(pc: Pc, a: AgentId)
    requires Abandons(pc, a)
    ensures Leaves(pc) || KeepsActive(pc) || LosesEvent(pc)
    ensures (Leaves(pc) <==> CallAt(pc) == NoCall) && !(KeepsActive(pc) && LosesEvent(pc))
  {}

  lemma AbandonOther(states: seq<State>, events: seq<Event>, i: nat, j: nat, t: Tid, a: AgentId)
    requires IsRun(states, events) && i < j < |events| && Abandoning(states, events, i, j, t, a)
    requires !Own(events[j], t)
    ensures Abandoning(states, events, i, j + 1, t, a) && Holding(states[j + 1], t, a)
  {
    hide Init, Apply, Abandons, Leaves, LosesEvent, Ended, Base;
    assert Follows(states, events, j);
    BaseAlong(states, events, j);
    AbandonsHolds(states[j].threads[t], a);
    AbandonKnows(states, events, i, j, t, a);
    OthersLeaveIt(states[j], events[j], states[j + 1], t, a);
    if Leaves(states[j].threads[t]) { EndedStays(states, events, i, j, t, a); }
  }

  lemma AbandonKnows(states: seq<State>, events: seq<Event>, i: nat, j: nat, t: Tid, a: AgentId)
    requires i < j <= |events| && |states| == |events| + 1 && Abandoning(states, events, i, j, t, a)
    ensures a in states[j].db.agents
  {}

  lemma {:induction false} AbandonAlong(states: seq<State>, events: seq<Event>, i: nat, j: nat, t: Tid, c: Choice,
                                        a: AgentId)
    requires IsRun(states, events) && i < j <= |events| && events[i] == Step(t, c) && FindsSpent(states[i], t, c, a)
    requires forall m :: i < m <= j ==> Holding(states[m], t, a)
    ensures Abandoning(states, events, i, j, t, a)
  {
    hide Init, Follows, Abandoning, FindsSpent, Holding;
    if j == i + 1 {
      AbandonBegins(states, events, i, t, c, a);
    } else {
      AbandonAlong(states, events, i, j - 1, t, c, a);
      if Own(events[j - 1], t) { AbandonOwn(states, events, i, j - 1, t, a); }
      else { AbandonOther(states, events, i, j - 1, t, a); }
    }
  }

  /** The death found with the budget used up ends the agent. From the moment a lane finds it to
      the one it lets go of the agent's lock, whatever else runs, no respawn is attempted; and if
      none of the lane's calls fails, the row is Exited, the abandonment has been announced and one
      EventExited appended. If one fails, it is the abandonment's own append or the status write, and the row is still
      Active, or it is the EventExited append, and the row is Exited without its event. */
  lemma SpentBudgetExits(states: seq<State>, events: seq<Event>, i: nat, k: nat, t: Tid, c: Choice, a: AgentId)
    requires IsRun(states, events) && i < k < |events| && events[i] == Step(t, c) && FindsSpent(states[i], t, c, a)
    requires (forall m :: i < m <= k ==> Holding(states[m], t, a)) && !Holding(states[k + 1], t, a)
    ensures Count(states[k + 1].tally.tries, a) == Count(states[i].tally.tries, a)
    ensures NoneFails(states, events, i, k + 1, t) ==> Became(states[i], states[k + 1], a, Exited, 1, 1)
    ensures !NoneFails(states, events, i, k + 1, t) ==>
      exists m :: && i < m <= k && FailsAt(states, events, m, t)
                  && ((KeepsActive(states[m].threads[t])
                       && Became(states[i], states[k + 1], a, Active, 0, Told(states[m].threads[t])))
                      || (LosesEvent(states[m].threads[t]) && Became(states[i], states[k + 1], a, Exited, 0, 1)))
  {
    hide Init, Apply, FindsSpent, Abandons;
    AbandonAlong(states, events, i, k, t, c, a);
    AbandonDrops(states, events, i, k, t, a);
    assert Ended(states, events, i, k + 1, t, a);
  }

  lemma AbandonDrops(states: seq<State>, events: seq<Event>, i: nat, k: nat, t: Tid, a: AgentId)
    requires IsRun(states, events) && i < k < |events| && Abandoning(states, events, i, k, t, a)
    requires Holding(states[k], t, a) && !Holding(states[k + 1], t, a)
    ensures Ended(states, events, i, k + 1, t, a)
  {
    hide Init, Apply, Abandons, Ended, CallAt;
    assert Follows(states, events, k);
    if !Own(events[k], t) {
      AbandonOther(states, events, i, k, t, a);
    } else {
      AbandonKnows(states, events, i, k, t, a);
      OwnKinds(states[k].threads[t], a);
      if Leaves(states[k].threads[t]) {
        LeaveDrops(states[k], t, events[k].c, states[k + 1], a);
        EndedStays(states, events, i, k, t, a);
      } else {
        AbandonStep(states[k], t, events[k].c, states[k + 1], a);
      }
    }
  }
}
