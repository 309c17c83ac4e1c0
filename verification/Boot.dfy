/** The boot reconcile, which runs alone before the daemon serves: workstreams whose workspace is
    gone are killed, and agents whose terminal is gone are respawned under their budget or
    abandoned.

    Store calls, appends, spawns and the kill of a terminal that could not be recorded may fail;
    the boot gives up only when one has. A spawn returns a handle never used before. */
module Boot {
  import opened Tables
  import opened Store

  // ---------------------------------------------------------------- workstreams

  /** What the backends said: a workstream whose backend is unknown or whose enumeration failed
      is missing from the map. */
  type Presence = map<WorkstreamId, bool>

  /** The Active workstreams whose workspace is known to be gone. */
  ghost function Gone(db: Db, present: Presence): set<WorkstreamId> {
    set w | w in db.workstreams && db.workstreams[w].status == Active && w in present && !present[w]
  }

  ghost function GoneDown(db: Db, present: Presence): Db {
    Down(db, {}, Gone(db, present), DoomedSprints(db, Gone(db, present)), None)
  }

  lemma PrefixGone(db: Db, present: Presence, xs: seq<WorkstreamId>, i: nat)
    requires i < |xs| && Lists(xs, db.workstreams.Keys)
    ensures var gone := Gone(db, present);
      && (xs[i] in gone ==> Prefix(xs, i + 1) * gone == Prefix(xs, i) * gone + {xs[i]})
      && (xs[i] !in gone ==> Prefix(xs, i + 1) * gone == Prefix(xs, i) * gone)
      && xs[i] !in Prefix(xs, i) && xs[i] in db.workstreams
      && (i + 1 == |xs| ==> Prefix(xs, i + 1) * gone == gone)
  {}

  /** reconcileWorkstreams: kills, cascading, exactly the workstreams known to be gone. */
  method ReconcileWorkstreams(store: Store, present: Presence) returns (done: bool)
    modifies store
    ensures Faulted(old(store.faults), store.faults, !done)
    ensures done ==> store.Tables() == GoneDown(old(store.Tables()), present)
    ensures !done ==> PartWay(old(store.Tables()), store.Tables(), GoneDown(old(store.Tables()), present))
  {
    hide Cascaded, Down, DoomedAgents, PartWay;
    ghost var start, gone := store.State(), Gone(store.Tables(), present);
    ghost var none: set<WorkstreamId> := {};
    CascadeStarts(start, None);
    assert DoomedSprints(start.db, none) == {};
    CascadedSoFar(start, start, none, {}, gone, DoomedSprints(start.db, gone), None, []);
    CutOf(start, start, gone);
    var list := store.ListAllWorkstreams();
    if list.Failed? { return false; }
    var xs := list.value;
    // The listing carries the statuses: a row is judged by what it was when it was listed.
    var listed := store.workstreams;
    ghost var fs: seq<Flipped> := [];
    var i := 0;
    assert Prefix(xs, 0) * gone == none;
    while i < |xs|
      invariant 0 <= i <= |xs|
      invariant Ran(start, store.State(), Prefix(xs, i) * gone, fs) && |store.faults| == |old(store.faults)|
    {
      ghost var now, before := store.State(), Prefix(xs, i) * gone;
      PrefixGone(start.db, present, xs, i);
      var w := xs[i];
      if listed[w].status == Active && w in present && !present[w] {
        WorkstreamOpen(start, now, before, fs, w);
        var rows, won := store.MarkWorkstreamKilled(w, None);
        if won.Failed? {
          CascadeStops(start, now, store.State(), before, DoomedSprints(start.db, before), {w},
                       DoomedSprints(start.db, {w}), gone, DoomedSprints(start.db, gone), None, fs, rows);
          CutOf(start, store.State(), gone);
          return false;
        }
        CascadeThen(start, now, store.State(), before, DoomedSprints(start.db, before), {w},
                    DoomedSprints(start.db, {w}), None, fs, rows);
        fs := fs + rows;
        assert Ran(start, store.State(), before + {w}, fs);
      }
      i := i + 1;
    }
    if |xs| > 0 { PrefixGone(start.db, present, xs, |xs| - 1); } else { PrefixOf(xs, 0, start.db.workstreams.Keys); }
    assert Prefix(xs, |xs|) * gone == gone;
    RanAll(start, store.State(), gone, fs);
    return true;
  }

  ghost predicate Ran(start: Snapshot, now: Snapshot, wss: set<WorkstreamId>, fs: seq<Flipped>) {
    var sps := DoomedSprints(start.db, wss);
    Cascaded(start, now, Down(start.db, {}, wss, sps, None), DoomedAgents(start.db, sps, None), fs, Done(true))
  }

  lemma RanAll(start: Snapshot, now: Snapshot, wss: set<WorkstreamId>, fs: seq<Flipped>)
    requires Ran(start, now, wss, fs)
    ensures now.db == Down(start.db, {}, wss, DoomedSprints(start.db, wss), None)
  {}

  lemma CutOf(start: Snapshot, now: Snapshot, wss: set<WorkstreamId>)
    requires var sps := DoomedSprints(start.db, wss);
      Cascaded(start, now, Down(start.db, {}, wss, sps, None), DoomedAgents(start.db, sps, None), [], Failed)
    ensures PartWay(start.db, now.db, Down(start.db, {}, wss, DoomedSprints(start.db, wss), None))
  {}

  /** Booting again with the same answers kills nothing more. */
  lemma SecondBootKillsNothing(db: Db, present: Presence)
    ensures Gone(GoneDown(db, present), present) == {}
    ensures GoneDown(GoneDown(db, present), present) == GoneDown(db, present)
  {
    var once := GoneDown(db, present);
    assert Gone(once, present) == {};
    assert DoomedSprints(once, {}) == {};
    assert Down(once, {}, {}, {}, None) == once;
  }

  // ---------------------------------------------------------------- agents

  /** Agents past the first branch of respawnUnderBudget have one attempt more and a terminal of
      their own that is new; the others are exited. */
  ghost predicate Settled(before: AgentRow, after: AgentRow, a: AgentId, running: map<Handle, AgentId>, first: Handle) {
    if before.restarts >= RESTART_BUDGET then after == before.(status := Exited)
    else
      && after == before.(restarts := before.restarts + 1, handle := after.handle, nonce := after.nonce)
      && after.handle >= first && after.handle in running && running[after.handle] == a
  }

  /** The Active agents of Active workstreams with an enumerable backend whose terminal is gone. */
  ghost predicate Vanished(db: Db, running: map<Handle, AgentId>, answered: set<WorkstreamId>, a: AgentId) {
    && a in db.agents && db.agents[a].status == Active && db.agents[a].handle !in running
    && db.agents[a].sprint in db.sprints
    && var w := db.sprints[db.agents[a].sprint].workstream;
       w in db.workstreams && db.workstreams[w].status == Active && w in answered
  }

  /** The agents of these workstreams, through their sprints. */
  ghost function HomedIn(db: Db, wss: set<WorkstreamId>): set<AgentId> {
    set a | a in db.agents && db.agents[a].sprint in db.sprints && db.sprints[db.agents[a].sprint].workstream in wss
  }

  lemma HomedMore(db: Db, wss: set<WorkstreamId>, w: WorkstreamId)
    ensures HomedIn(db, wss + {w}) == HomedIn(db, wss) + HomedIn(db, {w})
  {}

  lemma ListedAgents(db: Db, was: map<Handle, AgentId>, answered: set<WorkstreamId>, w: WorkstreamId,
                     xs: seq<AgentId>, wss: set<WorkstreamId>)
    requires Lists(xs, HomedIn(db, {w})) && w !in wss
    requires w in db.workstreams && db.workstreams[w].status == Active && w in answered
    ensures Prefix(xs, |xs|) == HomedIn(db, {w})
    ensures forall a :: a in xs ==>
      && a in db.agents && a !in HomedIn(db, wss)
      && (Vanished(db, was, answered, a) <==> db.agents[a].status == Active && db.agents[a].handle !in was)
  {}

  lemma NoneVanished(db: Db, was: map<Handle, AgentId>, answered: set<WorkstreamId>, w: WorkstreamId, a: AgentId)
    requires w in db.workstreams && (db.workstreams[w].status != Active || w !in answered) && a in HomedIn(db, {w})
    ensures !Vanished(db, was, answered, a)
  {}

  ghost predicate Reached(db: Db, was: map<Handle, AgentId>, first: Handle, answered: set<WorkstreamId>,
                          visited: set<AgentId>,
                          agents: map<AgentId, AgentRow>, running: map<Handle, AgentId>) {
    && agents.Keys == db.agents.Keys
    && (forall h :: h < first ==> (h in running <==> h in was))
    && (forall a :: a in db.agents ==> db.agents[a].handle < first)
    && (forall a :: a in db.agents ==>
          if a in visited && Vanished(db, was, answered, a) then Settled(db.agents[a], agents[a], a, running, first)
          else agents[a] == db.agents[a])
  }

  /** No row but the vanished agents' has changed. */
  ghost predicate Untouched(db: Db, was: map<Handle, AgentId>, answered: set<WorkstreamId>,
                            agents: map<AgentId, AgentRow>) {
    agents.Keys == db.agents.Keys
    && forall b :: b in db.agents && !Vanished(db, was, answered, b) ==> agents[b] == db.agents[b]
  }

  lemma ReachedUntouched(db: Db, was: map<Handle, AgentId>, first: Handle, answered: set<WorkstreamId>,
                         visited: set<AgentId>, agents: map<AgentId, AgentRow>, running: map<Handle, AgentId>)
    requires Reached(db, was, first, answered, visited, agents, running)
    ensures Untouched(db, was, answered, agents)
  {}

  lemma ReachedElsewhere(db: Db, was: map<Handle, AgentId>, first: Handle, answered: set<WorkstreamId>,
                         visited: set<AgentId>, agents: map<AgentId, AgentRow>, running: map<Handle, AgentId>)
    requires Reached(db, was, first, answered, visited, agents, running)
    ensures agents.Keys == db.agents.Keys && forall h :: h < first ==> (h in running <==> h in was)
    ensures forall a :: a in db.agents && a !in visited ==> agents[a] == db.agents[a]
  {}

  lemma ReachedHomes(db: Db, was: map<Handle, AgentId>, first: Handle, answered: set<WorkstreamId>,
                     visited: set<AgentId>, agents: map<AgentId, AgentRow>, running: map<Handle, AgentId>,
                     w: WorkstreamId)
    requires Reached(db, was, first, answered, visited, agents, running)
    ensures db.(agents := agents).AgentsOfWorkstream(w) == HomedIn(db, {w})
  {}

  lemma ReachedNobody(db: Db, was: map<Handle, AgentId>, first: Handle, answered: set<WorkstreamId>)
    requires forall a :: a in db.agents ==> db.agents[a].handle < first
    ensures Reached(db, was, first, answered, {}, db.agents, was)
  {}

  lemma ReachedAll(db: Db, was: map<Handle, AgentId>, first: Handle, answered: set<WorkstreamId>,
                   agents: map<AgentId, AgentRow>, running: map<Handle, AgentId>)
    requires Reached(db, was, first, answered, HomedIn(db, db.workstreams.Keys), agents, running)
    ensures forall a :: a in db.agents && Vanished(db, was, answered, a) ==>
      Settled(db.agents[a], agents[a], a, running, first)
  {
    hide Settled;
  }

  lemma NobodyHomed(db: Db)
    ensures HomedIn(db, {}) == {}
  {}

  lemma NobodyYet(xs: seq<nat>)
    ensures Prefix(xs, 0) == {}
  {}

  lemma ReachedRow(db: Db, was: map<Handle, AgentId>, first: Handle, answered: set<WorkstreamId>, visited: set<AgentId>,
                   agents: map<AgentId, AgentRow>, running: map<Handle, AgentId>, a: AgentId)
    requires Reached(db, was, first, answered, visited, agents, running) && a in db.agents && a !in visited
    ensures agents.Keys == db.agents.Keys && agents[a] == db.agents[a] && agents[a].handle < first
    ensures agents[a].handle in running <==> agents[a].handle in was
    ensures forall b :: b in db.agents && !Vanished(db, was, answered, b) ==> agents[b] == db.agents[b]
  {}

  lemma ReachedIdle(db: Db, was: map<Handle, AgentId>, first: Handle, answered: set<WorkstreamId>,
                    visited: set<AgentId>,
                    agents: map<AgentId, AgentRow>, running: map<Handle, AgentId>, a: AgentId)
    requires Reached(db, was, first, answered, visited, agents, running)
    ensures !Vanished(db, was, answered, a) ==> Reached(db, was, first, answered, visited + {a}, agents, running)
  {}

  lemma ReachedIdlers(db: Db, was: map<Handle, AgentId>, first: Handle, answered: set<WorkstreamId>,
                      visited: set<AgentId>, idlers: set<AgentId>,
                      agents: map<AgentId, AgentRow>, running: map<Handle, AgentId>)
    requires Reached(db, was, first, answered, visited, agents, running)
    requires forall a :: a in idlers ==> !Vanished(db, was, answered, a)
    ensures Reached(db, was, first, answered, visited + idlers, agents, running)
  {}

  /** One more vanished agent is settled, in a terminal of its own if it got one. */
  lemma ReachedMore(db: Db, was: map<Handle, AgentId>, first: Handle, answered: set<WorkstreamId>,
                    visited: set<AgentId>,
                    agents: map<AgentId, AgentRow>, running: map<Handle, AgentId>,
                    agents': map<AgentId, AgentRow>, running': map<Handle, AgentId>, a: AgentId, n: Handle)
    requires Reached(db, was, first, answered, visited, agents, running)
    requires Vanished(db, was, answered, a) && a in agents' && agents' == agents[a := agents'[a]]
    requires n >= first && n !in running && (running' == running || running' == running[n := a])
    requires Settled(db.agents[a], agents'[a], a, running', n)
    ensures Reached(db, was, first, answered, visited + {a}, agents', running')
  {}

  class Daemon {
    const store: Store
    /** The terminals the backends enumerate, each with the session it runs, and the next handle
        a spawn will return. */
    var running: map<Handle, AgentId>
    var next: Handle
    /** The terminals a respawn could neither record nor kill. */
    ghost var leaked: set<Handle>

    /** Every running terminal but those is its session's row's. */
    ghost predicate Valid()
      reads this, store
    {
      && (forall a :: a in store.agents ==> store.agents[a].handle < next)
      && (forall h :: h in running ==> h < next)
      && (forall h :: h in running && h !in leaked ==>
            running[h] in store.agents && store.agents[running[h]].handle == h)
    }

    constructor (store: Store)
      requires forall a :: a in store.agents ==> store.agents[a].handle < 1
      ensures Valid() && this.store == store && running == map[] && leaked == {}
    {
      this.store, running, next, leaked := store, map[], 1, {};
    }

    /** respawnAgent: resumes the session in a new terminal and records it in one statement, or
        kills the new terminal again; it is leaked, and logged, only if both fail. */
    method RespawnAgent(a: AgentId) returns (done: bool)
      requires Valid() && a in store.agents && store.agents[a].handle !in running
      modifies this, store`agents, store`faults
      ensures Faulted(old(store.faults), store.faults, !done)
      ensures Valid() && next >= old(next)
      ensures done ==>
        && old(next) < next && running == old(running)[old(next) := a]
        && store.agents == old(store.agents)[a := old(store.agents[a]).(handle := old(next), nonce := old(next))]
        && leaked == old(leaked)
      ensures !done ==> store.agents == old(store.agents)
      ensures leaked != old(leaked) ==> store.faults == old(store.faults) + [SetsIncarnation(a), KillsNew(old(next))]
      ensures !done ==>
        || (running == old(running) && leaked == old(leaked))
        || (running == old(running)[old(next) := a] && leaked == old(leaked) + {old(next)})
    {
      if * {
        store.faults := store.faults + [Spawns(a)];
        return false;
      }
      var h := next;
      next := next + 1;
      running := running[h := a];
      done := store.SetAgentIncarnation(a, h, h);
      if !done {
        var killed: bool := *;
        if killed {
          running := running - {h};
        } else {
          leaked := leaked + {h};
          store.faults := store.faults + [KillsNew(h)];
        }
      }
    }

    /** respawnUnderBudget for a terminal that is already gone. */
    method RespawnUnderBudget(a: AgentId) returns (done: bool)
      requires Valid() && a in store.agents && store.agents[a].handle !in running
      modifies this, store`agents, store`exits, store`tailing, store`faults
      ensures Faulted(old(store.faults), store.faults, !done)
      ensures Valid() && next >= old(next)
      ensures a in store.agents && store.agents == old(store.agents)[a := store.agents[a]]
      ensures running == old(running) || running == old(running)[old(next) := a]
      ensures leaked == old(leaked) || (!done && leaked == old(leaked) + {old(next)})
      ensures done ==> Settled(old(store.agents[a]), store.agents[a], a, running, old(next))
      ensures old(store.agents[a]).restarts < RESTART_BUDGET ==> store.exits == old(store.exits)
      ensures done && old(store.agents[a]).restarts >= RESTART_BUDGET ==> store.exits == old(store.exits) + [a]
    {
      var cur := store.agents[a];
      if cur.restarts >= RESTART_BUDGET {
        if * {
          store.faults := store.faults + [AppendsAbandoned(a)];
          return false;
        }
        done := store.SoftExitAgent(a);
        return;
      }
      done := store.MarkRestartAttempt(a, cur.restarts + 1);
      if !done { return; }
      done := RespawnAgent(a);
      if !done { return; }
      if * {
        store.faults := store.faults + [AppendsRestarted(a)];
        return false;
      }
    }

    /** reconcileVanished: acts only if the row, re-read, is Active with the handle that was missing. */
    method ReconcileVanished(a: AgentId, seen: Handle) returns (done: bool)
      requires Valid() && a in store.agents && seen !in running
      modifies this, store`agents, store`exits, store`tailing, store`faults
      ensures Faulted(old(store.faults), store.faults, !done)
      ensures Valid() && next >= old(next)
      ensures a in store.agents && store.agents == old(store.agents)[a := store.agents[a]]
      ensures running == old(running) || running == old(running)[old(next) := a]
      ensures leaked == old(leaked) || (!done && leaked == old(leaked) + {old(next)})
      ensures old(store.agents[a]).status != Active || old(store.agents[a]).handle != seen ==>
        store.agents == old(store.agents)
      ensures done && old(store.agents[a]).status == Active && old(store.agents[a]).handle == seen ==>
        Settled(old(store.agents[a]), store.agents[a], a, running, old(next))
    {
      if * {
        store.faults := store.faults + [ReadsAgent(a)];
        return false;
      }
      var cur := store.agents[a];
      if cur.status != Active { return true; }
      if cur.handle != seen { return true; }
      done := RespawnUnderBudget(a);
    }

    /** Of the agents visited so far the vanished ones are settled; all others are untouched, and
        so are the terminals there were at first. */
    ghost predicate Progress(db: Db, was: map<Handle, AgentId>, first: Handle, answered: set<WorkstreamId>,
                             visited: set<AgentId>)
      reads this, store
    {
      && Valid() && first <= next && store.Tables() == db.(agents := store.agents)
      && Reached(db, was, first, answered, visited, store.agents, running)
      && Untouched(db, was, answered, store.agents)
    }

    /** One agent of the listing, with the row the listing gave. */
    method VisitAgent(a: AgentId, row: AgentRow, live: set<Handle>, ghost db: Db, ghost was: map<Handle, AgentId>,
                      ghost first: Handle, ghost answered: set<WorkstreamId>,
                        ghost visited: set<AgentId>) returns (done: bool)
      requires Progress(db, was, first, answered, visited) && a in db.agents && a !in visited && row == db.agents[a]
      requires forall h :: h < first ==> (h in live <==> h in was)
      requires Vanished(db, was, answered, a) <==> row.status == Active && row.handle !in live
      modifies this, store`agents, store`exits, store`tailing, store`faults
      ensures Faulted(old(store.faults), store.faults, !done)
      ensures done ==> Progress(db, was, first, answered, visited + {a}) && leaked == old(leaked)
      ensures Valid() && Untouched(db, was, answered, store.agents)
    {
      hide Reached, Settled, Vanished;
      ReachedRow(db, was, first, answered, visited, store.agents, running, a);
      ReachedIdle(db, was, first, answered, visited, store.agents, running, a);
      if row.status != Active || row.handle in live { return true; }
      ghost var agents, terminals, n := store.agents, running, next;
      done := ReconcileVanished(a, row.handle);
      if done {
        ReachedMore(db, was, first, answered, visited, agents, terminals, store.agents, running, a, n);
        ReachedUntouched(db, was, first, answered, visited + {a}, store.agents, running);
      }
    }

    /** The inner loop of reconcileAgents over the agents listed for one workstream. */
    method VisitListed(xs: seq<AgentId>, live: set<Handle>, ghost db: Db, ghost was: map<Handle, AgentId>,
                       ghost first: Handle, ghost answered: set<WorkstreamId>,
                         ghost visited: set<AgentId>) returns (done: bool)
      requires Progress(db, was, first, answered, visited) && NoDup(xs)
      requires forall a :: a in xs ==> a in db.agents && a !in visited
      requires forall h :: h < first ==> (h in live <==> h in was)
      requires forall a :: a in xs ==>
        (Vanished(db, was, answered, a) <==> db.agents[a].status == Active && db.agents[a].handle !in live)
      modifies this, store`agents, store`exits, store`tailing, store`faults
      ensures Faulted(old(store.faults), store.faults, !done)
      ensures done ==> Progress(db, was, first, answered, visited + Prefix(xs, |xs|)) && leaked == old(leaked)
      ensures Valid() && Untouched(db, was, answered, store.agents)
    {
      hide Reached, Settled, Vanished, NoDup, Untouched;
      var rows := store.agents;
      ReachedElsewhere(db, was, first, answered, visited, store.agents, running);
      assert visited + Prefix(xs, 0) == visited;
      var j := 0;
      while j < |xs|
        invariant 0 <= j <= |xs| && Progress(db, was, first, answered, visited + Prefix(xs, j)) && leaked == old(leaked)
        invariant |store.faults| == |old(store.faults)|
      {
        PrefixMore(xs, j);
        assert xs[j] in xs;
        done := VisitAgent(xs[j], rows[xs[j]], live, db, was, first, answered, visited + Prefix(xs, j));
        if !done { return; }
        assert visited + Prefix(xs, j) + {xs[j]} == visited + Prefix(xs, j + 1);
        j := j + 1;
      }
      return true;
    }

    /** reconcileAgents: every vanished agent settled, every other row as it was. The terminals are
        enumerated before the rows are listed, which is sound because nothing else runs. */
    method ReconcileAgents(answered: set<WorkstreamId>) returns (done: bool)
      requires Valid()
      modifies this, store`agents, store`exits, store`tailing, store`faults
      ensures Faulted(old(store.faults), store.faults, !done)
      ensures Valid() && store.agents.Keys == old(store.agents.Keys)
      ensures forall a :: a in store.agents && !Vanished(old(store.Tables()), old(running), answered, a) ==>
        store.agents[a] == old(store.agents)[a]
      ensures done ==> forall a :: a in store.agents && Vanished(old(store.Tables()), old(running), answered, a) ==>
        Settled(old(store.agents)[a], store.agents[a], a, running, old(next))
      ensures done ==> leaked == old(leaked)
    {
      hide Reached, Settled, Vanished, HomedIn, Prefix;
      ghost var db, was, first := store.Tables(), running, next;
      NobodyHomed(db);
      ReachedNobody(db, was, first, answered);
      ReachedUntouched(db, was, first, answered, {}, db.agents, was);
      var list := store.ListAllWorkstreams();
      if list.Failed? { return false; }
      var wss := list.value;
      var i := 0;
      NobodyYet(wss);
      while i < |wss|
        invariant 0 <= i <= |wss| && Progress(db, was, first, answered, HomedIn(db, Prefix(wss, i)))
        invariant leaked == old(leaked) && |store.faults| == |old(store.faults)|
      {
        var w := wss[i];
        PrefixMore(wss, i);
        HomedMore(db, Prefix(wss, i), w);
        assert w in wss;
        if store.workstreams[w].status == Active && w in answered {
          var live := running.Keys;
          var xs := store.ListWorkstreamAgents(w);
          if xs.Failed? { return false; }
          ReachedHomes(db, was, first, answered, HomedIn(db, Prefix(wss, i)), store.agents, running, w);
          ReachedElsewhere(db, was, first, answered, HomedIn(db, Prefix(wss, i)), store.agents, running);
          ListedAgents(db, was, answered, w, xs.value, Prefix(wss, i));
          done := VisitListed(xs.value, live, db, was, first, answered, HomedIn(db, Prefix(wss, i)));
          if !done { return; }
        } else {
          forall a | a in HomedIn(db, {w}) ensures !Vanished(db, was, answered, a) {
            NoneVanished(db, was, answered, w, a);
          }
          ReachedIdlers(db, was, first, answered, HomedIn(db, Prefix(wss, i)), HomedIn(db, {w}), store.agents, running);
        }
        i := i + 1;
      }
      PrefixOf(wss, |wss|, db.workstreams.Keys);
      ReachedAll(db, was, first, answered, store.agents, running);
      return true;
    }
  }

  /** So after the boot, too, no session runs in two terminals, save one that was leaked; and a
      boot that gets through leaks none. */
  lemma NoSessionTwice(d: Daemon, g: Handle, h: Handle)
    requires d.Valid() && g in d.running && h in d.running && d.running[g] == d.running[h]
    requires g !in d.leaked && h !in d.leaked
    ensures g == h
  {
    assert d.store.agents[d.running[g]].handle == g;
  }
}
