/** Where a spawn and an adopt put their agent: in the sprint asked for, and, relocated, with the
    transcript moved to that sprint's workstream. */
module Placement {
  import opened Tables
  import opened Protocol
  import opened Interference
  import opened Sections
  import opened Requests

  /** What a request was asked for. */
  datatype Order = SpawnInto(p: SprintId) | AdoptInto(a: AgentId, relocate: bool)

  function EntryOf(o: Order): Pc {
    match o
    case SpawnInto(p) => Check(CheckSprint(p, PreSpawn(p)))
    case AdoptInto(a, relocate) => Adopt(AdoptLock(a, relocate))
  }

  predicate Relocates(o: Order) { o.AdoptInto? && o.relocate }

  /** Sprint p is where agent a goes: relocated, in the workstream its transcript has been moved to. */
  ghost predicate Fits(db: Db, world: World, a: AgentId, p: SprintId, moved: Option<WorkstreamId>, o: Order) {
    && (moved.Some? <==> Relocates(o))
    && (moved.Some? ==> a in world.moved && world.moved[a] == moved.value && Within(db, p, moved.value))
  }

  ghost predicate Within(db: Db, p: SprintId, w: WorkstreamId) {
    p in db.sprints && db.sprints[p].workstream == w
  }

  predicate Known(origin: Origin, o: Order) { origin.Adopted? && origin.moved.Some? ==> Relocates(o) }

  /** Nothing more is inserted or launched. */
  ghost predicate Past(pc: Pc, o: Order) {
    match pc
    case Check(k) => k.use.PostInsert? && Known(k.use.origin, o)
    case Launch(n) => !n.LaunchChild? && !n.LockNew? && !n.Insert? && Known(n.origin, o)
    case Exit(x) => x.KillLock? || x.KillRead? || (!x.after.ToLane? && (x.after.ToUndo? ==> Known(x.after.origin, o)))
    case Adopt(d) => d.AdoptFail? || d.UndoRead? || d.Refused?
    case Cascade(_) => true
    case _ => false
  }

  /** How far the request has got. */
  ghost predicate Serves(db: Db, world: World, pc: Pc, o: Order) {
    match o
    case SpawnInto(p) =>
      (match pc
       case Check(k) => k.use == PreSpawn(p) || Past(pc, o)
       case Launch(LaunchChild(q)) => q == p
       case Launch(LockNew(_, q, _, _)) => q == p
       case Launch(Insert(_, q, _, _, origin)) => q == p && origin.Spawned?
       case _ => Past(pc, o))
    case AdoptInto(a, relocate) =>
      (match pc
       case Adopt(AdoptLock(b, r)) => b == a && r == relocate
       case Adopt(AdoptCheck(b, r)) => b == a && r == relocate
       case Adopt(AdoptStop(b, r)) => b == a && r == relocate
       case Adopt(AdoptPlace(b, r)) => b == a && r == relocate
       case Adopt(AdoptResolve(b, r)) => b == a && r == relocate
       case Adopt(AdoptSprint(b, _)) => b == a && relocate
       case Adopt(AdoptPlan(b, _)) => b == a && relocate
       case Adopt(AdoptRename(b, w, p)) => b == a && relocate && Within(db, p, w)
       case Adopt(AdoptUnplace(b, p, moved)) => b == a && Fits(db, world, a, p, moved, o)
       case Adopt(AdoptLaunch(b, p, moved)) => b == a && Fits(db, world, a, p, moved, o)
       case Launch(Insert(b, p, _, _, origin)) => b == a && origin.Adopted? && Fits(db, world, a, p, origin.moved, o)
       case _ => Past(pc, o))
  }

  /** A step inserts the one row it was asked for, where it was asked to, and moves the transcript
      only of an agent that it was asked to relocate. */
  ghost predicate Delivers(db: Db, world: World, eff: Effect, o: Order) {
    && (eff.stmt.AddAgent? ==>
          && eff.stmt.row.status == Active && eff.stmt.row.restarts == 0
          && match o
             case SpawnInto(p) => eff.stmt.row.sprint == p
             case AdoptInto(a, relocate) => eff.stmt.a == a && Moved(db, world, a, eff.stmt.row.sprint, relocate))
    && (eff.out.MoveTranscript? || eff.out.MoveBack? ==> Relocates(o))
  }

  /** A relocated agent's transcript lies under the workstream of its sprint. */
  ghost predicate Moved(db: Db, world: World, a: AgentId, p: SprintId, relocate: bool) {
    relocate ==> a in world.moved && Within(db, p, world.moved[a])
  }

  ghost predicate Good(s: State, t: Tid, eff: Effect, o: Order) {
    && Delivers(s.db, s.world, eff, o)
    && (eff.next.Some? ==> Serves(Perform(s, t, eff).db, Perform(s, t, eff).world, eff.next.value, o))
  }

  lemma GoodExit(s: State, t: Tid, k: ExitPc, c: Choice, eff: Effect, o: Order)
    requires Serves(s.db, s.world, Exit(k), o) && StepExit(s, k, c) == Some(eff)
    ensures Good(s, t, eff, o)
  {
    hide Fits;
  }

  lemma GoodCheck(s: State, t: Tid, k: CheckPc, c: Choice, eff: Effect, o: Order)
    requires Serves(s.db, s.world, Check(k), o) && StepCheck(s, k, c) == Some(eff)
    ensures Good(s, t, eff, o)
  {
    hide Fits;
  }

  lemma GoodLaunch(s: State, t: Tid, k: LaunchPc, c: Choice, eff: Effect, o: Order)
    requires Serves(s.db, s.world, Launch(k), o) && StepLaunch(s, k, c) == Some(eff)
    ensures Good(s, t, eff, o)
  {}

  lemma GoodResolve(s: State, t: Tid, k: AdoptPc, c: Choice, eff: Effect, o: Order)
    requires (k.AdoptPlace? || k.AdoptResolve? || k.AdoptSprint?) && Serves(s.db, s.world, Adopt(k), o)
    requires StepAdopt(s, k, c) == Some(eff)
    ensures Good(s, t, eff, o)
  {
    hide Lists, Within;
  }

  lemma GoodMove(s: State, t: Tid, k: AdoptPc, c: Choice, eff: Effect, o: Order)
    requires (k.AdoptPlan? || k.AdoptRename?) && Serves(s.db, s.world, Adopt(k), o)
    requires StepAdopt(s, k, c) == Some(eff)
    ensures Good(s, t, eff, o)
  {
    hide Lists;
  }

  lemma GoodLaunching(s: State, t: Tid, k: AdoptPc, c: Choice, eff: Effect, o: Order)
    requires k.AdoptUnplace? || k.AdoptLaunch?
    requires Serves(s.db, s.world, Adopt(k), o) && StepAdopt(s, k, c) == Some(eff)
    ensures Good(s, t, eff, o)
  {}

  lemma GoodOther(s: State, t: Tid, k: AdoptPc, c: Choice, eff: Effect, o: Order)
    requires !Places(k) && !k.AdoptUnplace? && !k.AdoptLaunch?
    requires Serves(s.db, s.world, Adopt(k), o) && StepAdopt(s, k, c) == Some(eff)
    ensures Good(s, t, eff, o)
  {
    hide Fits;
  }

  lemma CascadeGoesPast(s: State, k: CascadePc, c: Choice, eff: Effect, o: Order)
    requires StepCascade(s, k, c) == Some(eff)
    ensures eff.next.Some? ==> Past(eff.next.value, o)
  {
    hide StepNext;
    if k.Next? { NextLoops(s, k.work, c); }
  }

  lemma GoodCascade(s: State, t: Tid, k: CascadePc, c: Choice, eff: Effect, o: Order)
    requires StepCascade(s, k, c) == Some(eff)
    ensures Good(s, t, eff, o)
  {
    hide StepCascade, Past, Fits;
    CascadesOnlyFlip(s, k, c, eff);
    CascadeGoesPast(s, k, c, eff, o);
    PastServes(s, t, eff, o);
  }

  lemma PastServes(s: State, t: Tid, eff: Effect, o: Order)
    requires eff.next.Some? ==> Past(eff.next.value, o)
    ensures eff.next.Some? ==> Serves(Perform(s, t, eff).db, Perform(s, t, eff).world, eff.next.value, o)
  {}

  lemma GoodPlan(s: State, t: Tid, pc: Pc, c: Choice, eff: Effect, o: Order)
    requires Serves(s.db, s.world, pc, o) && Plan(s, pc, c) == Some(eff)
    ensures Good(s, t, eff, o)
  {
    hide Good, StepLane, StepResume, StepExit, StepCheck, StepLaunch, StepAdopt, StepCascade;
    match pc
    case Exit(k) => GoodExit(s, t, k, c, eff, o);
    case Check(k) => GoodCheck(s, t, k, c, eff, o);
    case Launch(k) => GoodLaunch(s, t, k, c, eff, o);
    case Adopt(k) =>
      if k.AdoptPlan? || k.AdoptRename? { GoodMove(s, t, k, c, eff, o); }
      else if Places(k) { GoodResolve(s, t, k, c, eff, o); }
      else if k.AdoptUnplace? || k.AdoptLaunch? { GoodLaunching(s, t, k, c, eff, o); }
      else { GoodOther(s, t, k, c, eff, o); }
    case Cascade(k) => GoodCascade(s, t, k, c, eff, o);
  }

  lemma Stable(s: State, s': State, pc: Pc, o: Order)
    requires Serves(s.db, s.world, pc, o) && Rely(s, s', Holds(pc))
    ensures Serves(s'.db, s'.world, pc, o)
  {}

  /** What a step of the request changes, on the tables and transcripts themselves. */
  ghost predicate Delivered(s: State, s': State, o: Order) {
    && (forall a :: a in s'.db.agents && a !in s.db.agents ==>
          var row := s'.db.agents[a];
          && row.status == Active && row.restarts == 0
          && match o
             case SpawnInto(p) => row.sprint == p
             case AdoptInto(b, relocate) => a == b && Moved(s.db, s.world, a, row.sprint, relocate))
    && (!Relocates(o) ==> s'.world.moved == s.world.moved)
  }

  lemma EffectDelivers(s: State, t: Tid, eff: Effect, o: Order)
    requires Delivers(s.db, s.world, eff, o)
    ensures Delivered(s, Perform(s, t, eff), o)
  {
    hide Moved;
  }

  lemma ServesNext(s: State, e: Event, s': State, t: Tid, o: Order)
    requires Base(s) && Apply(s, e) == Some(s') && t in s.threads && Serves(s.db, s.world, s.threads[t], o)
    ensures t in s'.threads ==> Serves(s'.db, s'.world, s'.threads[t], o)
    ensures Own(e, t) ==> Delivered(s, s', o)
  {
    hide Apply, Plan, Serves, Rely, KilledStays, Holds, Scoped, GrowsDb, GrowsWorld, GrowsIds, Delivers;
    if Own(e, t) {
      var eff := Unpack(s, t, e.c, s');
      GoodPlan(s, t, s.threads[t], e.c, eff, o);
      EffectDelivers(s, t, eff, o);
    } else {
      Others(s, e, s', t);
      Stable(s, s', s.threads[t], o);
    }
  }

  lemma {:induction false} ServesAlong(states: seq<State>, events: seq<Event>, b: nat, j: nat, t: Tid, o: Order)
    requires IsRun(states, events) && b < j < |states| && events[b] == Begin(t, EntryOf(o))
    requires forall m :: b < m <= j ==> t in states[m].threads
    ensures Serves(states[j].db, states[j].world, states[j].threads[t], o)
  {
    hide Init, Apply, Serves, Base, Delivered;
    assert Follows(states, events, j - 1);
    if j == b + 1 {
      BeginServes(states[b], t, o, states[j]);
    } else {
      ServesAlong(states, events, b, j - 1, t, o);
      BaseAlong(states, events, j - 1);
      ServesNext(states[j - 1], events[j - 1], states[j], t, o);
    }
  }

  lemma BeginServes(s: State, t: Tid, o: Order, s': State)
    requires Apply(s, Begin(t, EntryOf(o))) == Some(s')
    ensures t in s'.threads && Serves(s'.db, s'.world, s'.threads[t], o)
  {
    hide StepThread;
  }

  /** A spawn or adopt request inserts no row but its own, Active and with a clear count: a spawn
      into the sprint asked for, an adopt for the session asked for and, if it relocates, into a
      sprint of the workstream that it has moved the transcript to. Without a relocation it never
      moves a transcript. */
  lemma RequestDelivers(states: seq<State>, events: seq<Event>, b: nat, j: nat, t: Tid, o: Order)
    requires IsRun(states, events) && b < j < |events| && events[b] == Begin(t, EntryOf(o))
    requires (forall m :: b < m <= j ==> t in states[m].threads) && Own(events[j], t)
    ensures Delivered(states[j], states[j + 1], o)
  {
    hide Init, Apply, Serves, Base, Delivered;
    ServesAlong(states, events, b, j, t, o);
    BaseAlong(states, events, j);
    assert Follows(states, events, j);
    ServesNext(states[j], events[j], states[j + 1], t, o);
  }

  // ---------------------------------------------------------------- the sprint is Active when chosen

  /** The sprint an adopt has been placed in. */
  function PlaceOf(pc: Pc): Option<SprintId> {
    match pc
    case Adopt(AdoptRename(_, _, p)) => Some(p)
    case Adopt(AdoptUnplace(_, p, _)) => Some(p)
    case Adopt(AdoptLaunch(_, p, _)) => Some(p)
    case Launch(Insert(_, p, _, _, origin)) => if origin.Adopted? then Some(p) else None
    case _ => None
  }

  ghost predicate SprintUp(db: Db, p: SprintId) { p in db.sprints && db.sprints[p].status == Active }

  lemma ChoosesUp(s: State, k: AdoptPc, c: Choice, eff: Effect)
    requires StepAdopt(s, k, c) == Some(eff) && eff.next.Some? && PlaceOf(eff.next.value).Some?
    ensures PlaceOf(eff.next.value) == PlaceOf(Adopt(k)) || SprintUp(s.db, PlaceOf(eff.next.value).value)
  {
    hide Lists;
  }

  lemma OnlyAdoptsChoose(s: State, pc: Pc, c: Choice, eff: Effect)
    requires !pc.Adopt? && Plan(s, pc, c) == Some(eff)
    ensures eff.next.Some? ==> PlaceOf(eff.next.value).None?
  {
    hide StepCascade;
    if pc.Cascade? { CascadeGoesPast(s, pc.cas, c, eff, SpawnInto(0)); }
  }

  lemma PlaceNext(s: State, e: Event, s': State, t: Tid)
    requires Base(s) && Apply(s, e) == Some(s') && t in s.threads && t in s'.threads
    ensures var p := PlaceOf(s'.threads[t]); p.Some? ==> p == PlaceOf(s.threads[t]) || SprintUp(s.db, p.value)
  {
    hide Plan, PlaceOf, SprintUp, Rely, KilledStays, Holds, Scoped, GrowsDb, GrowsWorld, GrowsIds;
    if Own(e, t) {
      var eff := Unpack(s, t, e.c, s');
      if s.threads[t].Adopt? { PlanAdopt(s, s.threads[t].ado, e.c); }
      if PlaceOf(eff.next.value).Some? {
        if s.threads[t].Adopt? { ChoosesUp(s, s.threads[t].ado, e.c, eff); }
        else { OnlyAdoptsChoose(s, s.threads[t], e.c, eff); }
      }
    } else {
      Others(s, e, s', t);
    }
  }

  lemma PlanAdopt(s: State, k: AdoptPc, c: Choice)
    ensures Plan(s, Adopt(k), c) == StepAdopt(s, k, c)
  {
    hide StepAdopt;
  }

  ghost predicate WasUp(states: seq<State>, b: nat, j: nat, p: SprintId)
    requires j < |states|
  {
    exists q :: b < q <= j && SprintUp(states[q].db, p)
  }

  lemma {:induction false} PlacedAlong(states: seq<State>, events: seq<Event>, b: nat, j: nat, t: Tid)
    requires IsRun(states, events) && b < j < |states| && events[b].Begin? && events[b].t == t
    requires forall m :: b < m <= j ==> t in states[m].threads
    ensures PlaceOf(states[j].threads[t]).Some? ==> WasUp(states, b, j, PlaceOf(states[j].threads[t]).value)
  {
    hide Init, Apply, PlaceOf, SprintUp, Base;
    assert Follows(states, events, j - 1);
    if j == b + 1 {
      BeginsNowhere(states[b], events[b], states[j]);
    } else {
      PlacedAlong(states, events, b, j - 1, t);
      BaseAlong(states, events, j - 1);
      PlaceNext(states[j - 1], events[j - 1], states[j], t);
    }
  }

  lemma BeginsNowhere(s: State, e: Event, s': State)
    requires e.Begin? && Apply(s, e) == Some(s')
    ensures e.t in s'.threads && PlaceOf(s'.threads[e.t]).None?
  {
    hide StepThread;
  }

  lemma InsertsPlace(s: State, t: Tid, c: Choice, s': State, a: AgentId, relocate: bool)
    requires t in s.threads && Apply(s, Step(t, c)) == Some(s') && a in s'.db.agents && a !in s.db.agents
    requires Serves(s.db, s.world, s.threads[t], AdoptInto(a, relocate))
    ensures PlaceOf(s.threads[t]) == Some(s'.db.agents[a].sprint)
  {
    hide Plan, Serves, PlaceOf, CallOutside, Recount, Relock;
    var pc := s.threads[t];
    InsertsOnly(s, pc, c, Plan(s, pc, c).value);
    AdoptPlaces(s, pc, a, relocate);
  }

  lemma AdoptPlaces(s: State, pc: Pc, a: AgentId, relocate: bool)
    requires pc.Launch? && pc.lau.Insert? && Serves(s.db, s.world, pc, AdoptInto(a, relocate))
    ensures PlaceOf(pc) == Some(pc.lau.p)
  {
    hide Fits;
  }

  lemma InsertsOnly(s: State, pc: Pc, c: Choice, eff: Effect)
    requires Plan(s, pc, c) == Some(eff)
    ensures eff.stmt.AddAgent? ==> pc.Launch? && pc.lau.Insert? && eff.stmt.row.sprint == pc.lau.p
  {
    hide StepCascade;
    if pc.Cascade? { CascadesOnlyFlip(s, pc.cas, c, eff); }
  }

  /** The sprint an adopt inserts its row into was Active at some moment since the request began. */
  lemma AdoptsIntoActive(states: seq<State>, events: seq<Event>, b: nat, j: nat, t: Tid, a: AgentId, relocate: bool)
    requires IsRun(states, events) && b < j < |events| && events[b] == Begin(t, Adopt(AdoptLock(a, relocate)))
    requires (forall m :: b < m <= j ==> t in states[m].threads) && Own(events[j], t)
    requires a !in states[j].db.agents && a in states[j + 1].db.agents
    ensures WasUp(states, b, j, states[j + 1].db.agents[a].sprint)
  {
    hide Init, Apply, Serves, PlaceOf, SprintUp, WasUp;
    ServesAlong(states, events, b, j, t, AdoptInto(a, relocate));
    PlacedAlong(states, events, b, j, t);
    assert Follows(states, events, j);
    InsertsPlace(states[j], t, events[j].c, states[j + 1], a, relocate);
  }
}
