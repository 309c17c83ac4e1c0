/** Exit accounting: every time an agent's row turned Active is matched by one EventExited, by
    the row still being Active, by an exit in progress under the agent's lock, or by one of the
    three failures that lose the event. No other way in or out exists, in any run. */
module ExitAccounting {
  import opened Tables
  import opened Protocol
  import opened Interference
  import IncarnationCoherence

  /** The code at pc has ended the agent and has its EventExited still to append. */
  ghost predicate Owes(db: Db, pc: Pc, a: AgentId) {
    pc.Exit? && (pc.ex.ExitLog? || pc.ex.ExitFlip?) && pc.ex.a == a
    && (pc.ex.ExitFlip? ==> !IsActive(db, a))
  }

  /** The step loses agent a's EventExited: the append failed; the second status write of a
      compensation failed; or the compensation could not read the row it was about to flip. */
  ghost predicate Loses(db: Db, pc: Pc, c: Choice, a: AgentId) {
    || (pc.Exit? && pc.ex.ExitLog? && pc.ex.a == a && c.Fail?)
    || (pc.Exit? && pc.ex.ExitFlip? && pc.ex.a == a && c.Fail? && !IsActive(db, a))
    || (pc.Launch? && pc.lau.CompFlip? && pc.lau.a == a && !c.Fail? && pc.lau.row.None? && IsActive(db, a))
  }

  function One(b: bool): int { if b then 1 else 0 }

  /** Activations not accounted for by an event, an Active row, or an exit in progress at pc. */
  ghost function Missing(db: Db, tally: Tally, pc: Option<Pc>, a: AgentId): int {
    Count(tally.activations, a) - Count(tally.exits, a) - One(IsActive(db, a))
      - One(pc.Some? && Owes(db, pc.value, a))
  }

  ghost predicate StatusStill(db: Db, a: AgentId, status: Lifecycle) {
    a in db.agents && db.agents[a].status == status
  }

  /** What the code at pc knows of the status it read under the lock. */
  ghost predicate ThreadOk(db: Db, pc: Pc) {
    match pc
    case Lane(l) => l.LaneProbe? || l.AbandonLog? ==> StatusStill(db, l.item.a, Active)
    case Resume(r) => r.RespawnMark? || r.RespawnActivate? ==> StatusStill(db, r.a, Exited)
    case Check(k) => k.use.ForRespawn? ==> StatusStill(db, k.use.a, Exited)
    case Launch(n) => n.CompFlip? && n.row.Some? ==> StatusStill(db, n.a, n.row.value.status)
    case Exit(_) => true
    case Adopt(_) => true
    case Cascade(_) => true
  }

  ghost predicate Balanced(s: State, pc: Pc, c: Choice, eff: Effect, a: AgentId) {
    Missing(Run(s.db, eff.stmt), Recount(s.tally, eff.stmt, eff.note), eff.next, a)
      == Missing(s.db, s.tally, Some(pc), a) + One(Loses(s.db, pc, c, a))
  }

  ghost predicate Good(s: State, pc: Pc, c: Choice, eff: Effect) {
    && (eff.next.Some? ==> ThreadOk(Run(s.db, eff.stmt), eff.next.value))
    && forall a :: Balanced(s, pc, c, eff, a)
  }

  /** The step neither changes a status nor appends an exit, and starts none that is owed. */
  ghost predicate Calm(s: State, pc: Pc, eff: Effect) {
    && !eff.stmt.AddAgent? && !eff.stmt.SetStatus? && !eff.note.NoteExit?
    && !(pc.Launch? && pc.lau.CompFlip?)
    && !(pc.Exit? && (pc.ex.ExitLog? || pc.ex.ExitFlip?))
    && (eff.next.Some? && eff.next.value.Exit? ==>
          && !eff.next.value.ex.ExitLog?
          && (eff.next.value.ex.ExitFlip? ==> IsActive(s.db, eff.next.value.ex.a)))
  }

  lemma CalmActive(db: Db, stmt: Statement, a: AgentId)
    requires !stmt.AddAgent? && !stmt.SetStatus?
    ensures IsActive(Run(db, stmt), a) <==> IsActive(db, a)
  {}

  lemma CalmBalanced(s: State, pc: Pc, c: Choice, eff: Effect, a: AgentId)
    requires Calm(s, pc, eff)
    ensures Balanced(s, pc, c, eff, a)
  {
    CalmActive(s.db, eff.stmt, a);
  }

  ghost predicate NextOk(s: State, eff: Effect) {
    eff.next.Some? ==> ThreadOk(Run(s.db, eff.stmt), eff.next.value)
  }

  lemma CalmLane(s: State, k: LanePc, c: Choice, eff: Effect)
    requires ThreadOk(s.db, Lane(k)) && StepLane(s, k, c) == Some(eff)
    ensures NextOk(s, eff) && Calm(s, Lane(k), eff)
  {}

  lemma CalmResume(s: State, k: ResumePc, c: Choice, eff: Effect)
    requires ThreadOk(s.db, Resume(k)) && StepResume(s, k, c) == Some(eff)
    ensures NextOk(s, eff) && ((k.RespawnActivate? && !c.Fail?) || Calm(s, Resume(k), eff))
  {}

  lemma ActivateBalanced(s: State, k: ResumePc, c: Choice, eff: Effect, a: AgentId)
    requires k.RespawnActivate? && !c.Fail?
    requires ThreadOk(s.db, Resume(k)) && StepResume(s, k, c) == Some(eff)
    ensures Balanced(s, Resume(k), c, eff, a)
  {}

  lemma CalmExit(s: State, k: ExitPc, c: Choice, eff: Effect)
    requires StepExit(s, k, c) == Some(eff)
    ensures NextOk(s, eff) && (k.ExitFlip? || k.ExitLog? || Calm(s, Exit(k), eff))
  {}

  lemma ExitBalanced(s: State, k: ExitPc, c: Choice, eff: Effect, a: AgentId)
    requires (k.ExitFlip? || k.ExitLog?) && StepExit(s, k, c) == Some(eff)
    ensures Balanced(s, Exit(k), c, eff, a)
  {}

  lemma CalmCheck(s: State, k: CheckPc, c: Choice, eff: Effect)
    requires ThreadOk(s.db, Check(k)) && StepCheck(s, k, c) == Some(eff)
    ensures NextOk(s, eff) && Calm(s, Check(k), eff)
  {}

  lemma CalmLaunch(s: State, k: LaunchPc, c: Choice, eff: Effect)
    requires ThreadOk(s.db, Launch(k)) && StepLaunch(s, k, c) == Some(eff)
    ensures NextOk(s, eff) && (k.Insert? || k.CompFlip? || Calm(s, Launch(k), eff))
  {}

  lemma LaunchBalanced(s: State, k: LaunchPc, c: Choice, eff: Effect, a: AgentId)
    requires (k.Insert? || k.CompFlip?) && ThreadOk(s.db, Launch(k)) && StepLaunch(s, k, c) == Some(eff)
    ensures Balanced(s, Launch(k), c, eff, a)
  {}

  lemma CalmAdopt(s: State, k: AdoptPc, c: Choice, eff: Effect)
    requires StepAdopt(s, k, c) == Some(eff)
    ensures NextOk(s, eff) && Calm(s, Adopt(k), eff)
  {}

  lemma CalmCascade(s: State, k: CascadePc, c: Choice, eff: Effect)
    requires StepCascade(s, k, c) == Some(eff)
    ensures NextOk(s, eff) && Calm(s, Cascade(k), eff)
  {
    hide StepNext;
    if k.Next? { NextLoops(s, k.work, c); }
  }

  /** The balance of one agent over one step of one thread. */
  lemma GoodPlan(s: State, pc: Pc, c: Choice, eff: Effect, a: AgentId)
    requires ThreadOk(s.db, pc) && Plan(s, pc, c) == Some(eff)
    ensures NextOk(s, eff) && Balanced(s, pc, c, eff, a)
  {
    match pc {
      case Lane(k) => CalmLane(s, k, c, eff);
      case Resume(k) =>
        CalmResume(s, k, c, eff);
        if k.RespawnActivate? && !c.Fail? { ActivateBalanced(s, k, c, eff, a); }
      case Exit(k) =>
        CalmExit(s, k, c, eff);
        if k.ExitFlip? || k.ExitLog? { ExitBalanced(s, k, c, eff, a); }
      case Check(k) => CalmCheck(s, k, c, eff);
      case Launch(k) =>
        CalmLaunch(s, k, c, eff);
        if k.Insert? || k.CompFlip? { LaunchBalanced(s, k, c, eff, a); }
      case Adopt(k) => CalmAdopt(s, k, c, eff);
      case Cascade(k) => CalmCascade(s, k, c, eff);
    }
    if Calm(s, pc, eff) { CalmBalanced(s, pc, c, eff, a); }
  }

  // ---------------------------------------------------------------- whole states and runs

  /** The exit in progress for agent a is the lock holder's, if anyone's. */
  ghost function Unaccounted(s: State, a: AgentId): int {
    Missing(s.db, s.tally, HolderPc(s, a), a)
  }

  ghost predicate Inv(s: State) {
    Base(s) && forall t :: t in s.threads ==> ThreadOk(s.db, s.threads[t])
  }

  lemma Stable(s: State, s': State, pc: Pc)
    requires ThreadOk(s.db, pc) && Rely(s, s', Holds(pc))
    ensures ThreadOk(s'.db, pc)
  {}

  ghost predicate LostBy(s: State, e: Event, a: AgentId) {
    e.Step? && e.t in s.threads && Loses(s.db, s.threads[e.t], e.c, a)
  }

  lemma OwesHolds(db: Db, pc: Pc, c: Choice, a: AgentId)
    ensures Owes(db, pc, a) || Loses(db, pc, c, a) ==> a in Holds(pc)
  {}

  lemma MissingSame(db: Db, db': Db, tally: Tally, tally': Tally, pc: Option<Pc>, a: AgentId)
    requires SameRow(db, db', a) && SameTally(tally, tally', a)
    ensures Missing(db', tally', pc, a) == Missing(db, tally, pc, a)
  {}

  /** Seen from an agent whose lock t does not hold, t's step changes nothing. */
  lemma BalanceElsewhere(s: State, t: Tid, c: Choice, eff: Effect, a: AgentId)
    requires LockInv(s) && t in s.threads && Scoped(s, s.threads[t], eff) && Grantable(s, eff)
    requires Balanced(s, s.threads[t], c, eff, a) && a !in Holds(s.threads[t])
    ensures Unaccounted(Perform(s, t, eff), a) == Unaccounted(s, a)
    ensures !Loses(s.db, s.threads[t], c, a)
  {
    OwesHolds(s.db, s.threads[t], c, a);
    SameRowRun(s.db, eff.stmt, a);
    SameTallyNote(s.tally, eff.stmt, eff.note, a);
    HolderElsewhere(s, t, eff, a);
    var db', tally' := Run(s.db, eff.stmt), Recount(s.tally, eff.stmt, eff.note);
    MissingSame(s.db, db', s.tally, tally', HolderPc(s, a), a);
    MissingSame(s.db, db', s.tally, tally', None, a);
    assert Missing(s.db, s.tally, Some(s.threads[t]), a) == Missing(s.db, s.tally, None, a);
  }

  lemma BalanceHere(s: State, t: Tid, c: Choice, eff: Effect, a: AgentId)
    requires LockInv(s) && t in s.threads && Scoped(s, s.threads[t], eff)
    requires Balanced(s, s.threads[t], c, eff, a) && a in Holds(s.threads[t])
    ensures Unaccounted(Perform(s, t, eff), a)
      == Unaccounted(s, a) + One(Loses(s.db, s.threads[t], c, a))
  {
    var s' := Perform(s, t, eff);
    assert s.locks[a] == t;
    if eff.next.Some? { OwesHolds(s'.db, eff.next.value, c, a); }
  }

  lemma BalanceAfter(s: State, t: Tid, c: Choice, eff: Effect, a: AgentId)
    requires LockInv(s) && t in s.threads && Scoped(s, s.threads[t], eff) && Grantable(s, eff)
    requires Balanced(s, s.threads[t], c, eff, a)
    ensures Unaccounted(Perform(s, t, eff), a)
      == Unaccounted(s, a) + One(Loses(s.db, s.threads[t], c, a))
  {
    if a in Holds(s.threads[t]) { BalanceHere(s, t, c, eff, a); } else { BalanceElsewhere(s, t, c, eff, a); }
  }

  lemma ThreadsNext(s: State, e: Event, s': State)
    requires Inv(s) && Apply(s, e) == Some(s')
    ensures Inv(s')
  {
    hide Apply, Plan;
    BaseNext(s, e, s');
    if e.Step? {
      var eff := Unpack(s, e.t, e.c, s');
      GoodPlan(s, s.threads[e.t], e.c, eff, 0);
      forall u | u in s'.threads ensures ThreadOk(s'.db, s'.threads[u]) {
        if u != e.t { Stable(s, s', s.threads[u]); }
      }
    } else {
      GrowsOutside(s, e, s');
      forall u | u in s'.threads ensures ThreadOk(s'.db, s'.threads[u]) {
        if u in s.threads {
          RelyOutside(s, e, s', Holds(s.threads[u]));
          Stable(s, s', s.threads[u]);
        } else {
          assert ThreadOk(s'.db, e.pc);
        }
      }
    }
  }

  lemma Next(s: State, e: Event, s': State, a: AgentId)
    requires Inv(s) && Apply(s, e) == Some(s')
    ensures Inv(s') && Unaccounted(s', a) == Unaccounted(s, a) + One(LostBy(s, e, a))
  {
    hide Apply, Plan;
    ThreadsNext(s, e, s');
    if e.Step? {
      var eff := Unpack(s, e.t, e.c, s');
      GoodPlan(s, s.threads[e.t], e.c, eff, a);
      BalanceAfter(s, e.t, e.c, eff, a);
    } else {
      BalanceOutside(s, e, s', a);
    }
  }

  lemma BalanceOutside(s: State, e: Event, s': State, a: AgentId)
    requires Inv(s) && !e.Step? && Apply(s, e) == Some(s')
    ensures Unaccounted(s', a) == Unaccounted(s, a)
  {
    hide Apply, Plan;
    GrowsOutside(s, e, s');
    assert a in s.db.agents ==> SameRow(s.db, s'.db, a);
    assert HolderPc(s', a) == HolderPc(s, a);
    MissingSame(s.db, s'.db, s.tally, s'.tally, HolderPc(s, a), a);
  }

  /** How many of the first n events lost agent a's EventExited. */
  ghost function Lost(states: seq<State>, events: seq<Event>, n: nat, a: AgentId): nat
    requires |states| == |events| + 1 && n <= |events|
  {
    if n == 0 then 0
    else Lost(states, events, n - 1, a) + (if LostBy(states[n - 1], events[n - 1], a) then 1 else 0)
  }

  lemma First(s: State, a: AgentId)
    requires Init(s)
    ensures Inv(s) && Unaccounted(s, a) == 0
  {}

  lemma {:induction false} Along(states: seq<State>, events: seq<Event>, n: nat, a: AgentId)
    requires IsRun(states, events) && n <= |events|
    ensures Inv(states[n]) && Unaccounted(states[n], a) == Lost(states, events, n, a)
  {
    hide Init, Apply, Inv;
    if n == 0 {
      First(states[0], a);
    } else {
      Along(states, events, n - 1, a);
      assert Follows(states, events, n - 1);
      Next(states[n - 1], events[n - 1], states[n], a);
    }
  }

  /** With any pattern of failures, an agent never has more EventExited than it had activations. */
  lemma NeverTooManyExits(states: seq<State>, events: seq<Event>, n: nat, a: AgentId)
    requires IsRun(states, events) && n <= |events|
    ensures Count(states[n].tally.exits, a) + One(IsActive(states[n].db, a))
      <= Count(states[n].tally.activations, a)
  {
    Along(states, events, n, a);
  }

  /** Whenever nobody is inside the agent's critical section, each activation has its EventExited
      or is the current one, exactly when no event so far lost the agent's EventExited. */
  lemma ExitsBalance(states: seq<State>, events: seq<Event>, n: nat, a: AgentId)
    requires IsRun(states, events) && n <= |events| && a !in states[n].locks
    ensures Count(states[n].tally.activations, a)
        == Count(states[n].tally.exits, a) + One(IsActive(states[n].db, a))
      <==> (forall i :: 0 <= i < n ==> !LostBy(states[i], events[i], a))
  {
    Along(states, events, n, a);
    LostIffSome(states, events, n, a);
  }

  lemma {:induction false} LostIffSome(states: seq<State>, events: seq<Event>, n: nat, a: AgentId)
    requires |states| == |events| + 1 && n <= |events|
    ensures Lost(states, events, n, a) == 0 <==> (forall i :: 0 <= i < n ==> !LostBy(states[i], events[i], a))
  {
    if n > 0 {
      LostIffSome(states, events, n - 1, a);
    }
  }

  // ---------------------------------------------------------------- without store faults

  /** A compensation that did not see the row it is about to flip. */
  ghost predicate Blind(pc: Pc) { pc.Launch? && pc.lau.CompFlip? && pc.lau.row.None? }

  ghost predicate NobodyBlind(s: State) {
    forall t :: t in s.threads ==> !Blind(s.threads[t])
  }

  ghost predicate StoreFault(s: State, e: Event) { Faulty(s, e, {StoreRead, StoreWrite, ExitAppend}) }

  lemma LaunchBlindByFault(s: State, k: LaunchPc, c: Choice, eff: Effect)
    requires IncarnationCoherence.ThreadOk(s.db, s.world, Launch(k))
    requires StepLaunch(s, k, c) == Some(eff) && eff.next.Some? && Blind(eff.next.value)
    ensures c.Fail? && CallAt(Launch(k)) == StoreRead
  {}

  lemma CascadesSee(s: State, k: CascadePc, c: Choice, eff: Effect)
    requires StepCascade(s, k, c) == Some(eff) && eff.next.Some?
    ensures !Blind(eff.next.value)
  {
    hide StepNext;
    if k.Next? { NextLoops(s, k.work, c); }
  }

  lemma OthersSee(s: State, pc: Pc, c: Choice, eff: Effect)
    requires !pc.Launch? && !pc.Cascade? && Plan(s, pc, c) == Some(eff) && eff.next.Some?
    ensures !Blind(eff.next.value)
  {}

  lemma BlindByFault(s: State, pc: Pc, c: Choice, eff: Effect)
    requires IncarnationCoherence.ThreadOk(s.db, s.world, pc)
    requires Plan(s, pc, c) == Some(eff) && eff.next.Some? && Blind(eff.next.value)
    ensures c.Fail? && CallAt(pc) == StoreRead
  {
    match pc
    case Launch(k) => LaunchBlindByFault(s, k, c, eff);
    case Cascade(k) => CascadesSee(s, k, c, eff);
    case _ => OthersSee(s, pc, c, eff);
  }

  lemma {:induction false} NobodyBlindAlong(states: seq<State>, events: seq<Event>, n: nat)
    requires IsRun(states, events) && n <= |events|
    requires forall i :: 0 <= i < n ==> !StoreFault(states[i], events[i])
    ensures NobodyBlind(states[n])
  {
    if n == 0 {
      NobodyBlindFirst(states[0]);
    } else {
      NobodyBlindAlong(states, events, n - 1);
      NobodyBlindStep(states, events, n - 1);
    }
  }

  lemma NobodyBlindFirst(s: State)
    requires Init(s)
    ensures NobodyBlind(s)
  {}

  lemma NobodyBlindStep(states: seq<State>, events: seq<Event>, i: nat)
    requires IsRun(states, events) && i < |events|
    requires NobodyBlind(states[i]) && !StoreFault(states[i], events[i])
    ensures NobodyBlind(states[i + 1])
  {
    IncarnationCoherence.Along(states, events, i);
    assert Follows(states, events, i);
    SeesAfter(states[i], events[i], states[i + 1]);
  }

  lemma SeesAfter(s: State, e: Event, s': State)
    requires IncarnationCoherence.Inv(s) && Apply(s, e) == Some(s') && NobodyBlind(s) && !StoreFault(s, e)
    ensures NobodyBlind(s')
  {
    hide Apply, Plan;
    if e.Step? {
      var eff := Unpack(s, e.t, e.c, s');
      if eff.next.Some? && Blind(eff.next.value) {
        BlindByFault(s, s.threads[e.t], e.c, eff);
        assert false;
      }
    } else {
      GrowsOutside(s, e, s');
    }
  }

  lemma LossIsAFault(s: State, e: Event, a: AgentId)
    requires LostBy(s, e, a) && NobodyBlind(s)
    ensures StoreFault(s, e)
  {}

  /** When the store's reads, status writes and appends succeed, activations and exits balance. */
  lemma ExitsBalanceWithoutFaults(states: seq<State>, events: seq<Event>, n: nat, a: AgentId)
    requires IsRun(states, events) && n <= |events| && a !in states[n].locks
    requires forall i :: 0 <= i < n ==> !StoreFault(states[i], events[i])
    ensures Count(states[n].tally.activations, a)
      == Count(states[n].tally.exits, a) + One(IsActive(states[n].db, a))
  {
    forall i | 0 <= i < n ensures !LostBy(states[i], events[i], a) {
      NobodyBlindAlong(states, events, i);
      if LostBy(states[i], events[i], a) { LossIsAFault(states[i], events[i], a); }
    }
    ExitsBalance(states, events, n, a);
  }
}
