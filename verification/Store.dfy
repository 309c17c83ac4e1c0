/** The store, and the kill cascades run by themselves: what markSprintKilled,
    markWorkstreamKilled and killRepo leave behind when no other handler interleaves.

    Any statement and any append may fail; a cascade then stops where it is and reports only
    the error, and it reports one only then. */
module Store {
  import opened Tables

  datatype Outcome<+T> = Done(value: T) | Failed

  /** The calls that may fail, with what they were made for. */
  datatype Call =
    | FlipsRepo(r: RepoId)
    | FlipsWorkstream(w: WorkstreamId)
    | FlipsSprint(p: SprintId)
    | ListsAgents(p: SprintId)
    | ListsSprints(w: WorkstreamId)
    | ListsWorkstreams(r: RepoId)
    | ListsAllWorkstreams
    | ListsAgentsUnder(w: WorkstreamId)
    | ReadsAgent(a: AgentId)
    | SetsRestarts(a: AgentId)
    | SetsIncarnation(a: AgentId)
    | SetsExited(a: AgentId)
    | AppendsExited(a: AgentId)
    | AppendsAbandoned(a: AgentId)
    | AppendsRestarted(a: AgentId)
    | Clears(key: Selection)
    | Spawns(a: AgentId)
    | KillsNew(h: Handle)

  /** An operation answers with an error exactly if a call failed meanwhile. */
  ghost predicate Faulted(was: seq<Call>, now: seq<Call>, failed: bool) {
    |was| <= |now| && (failed <==> |was| < |now|)
  }

  /** An agent a cascade exited, with its row from before the exit (for the teardown). */
  datatype Flipped = Flipped(id: AgentId, row: AgentRow)

  ghost function Ids(fs: seq<Flipped>): (ids: seq<AgentId>)
    ensures |ids| == |fs| && forall i :: 0 <= i < |fs| ==> ids[i] == fs[i].id
  {
    seq(|fs|, i requires 0 <= i < |fs| => fs[i].id)
  }

  // ---------------------------------------------------------------- the cascades at one stroke

  ghost function DoomedWorkstreams(db: Db, rs: set<RepoId>): set<WorkstreamId> {
    set w | w in db.workstreams && db.workstreams[w].status == Active && db.workstreams[w].repo in rs
  }

  ghost function DoomedSprints(db: Db, wss: set<WorkstreamId>): set<SprintId> {
    set p | p in db.sprints && db.sprints[p].status == Active && db.sprints[p].workstream in wss
  }

  ghost function DoomedAgents(db: Db, sps: set<SprintId>, skip: Option<AgentId>): set<AgentId> {
    set a | a in db.agents && db.agents[a].status == Active && db.agents[a].sprint in sps && skip != Some(a)
  }

  ghost function ExitAgents(agents: map<AgentId, AgentRow>, ags: set<AgentId>): map<AgentId, AgentRow> {
    map a | a in agents :: if a in ags then agents[a].(status := Exited) else agents[a]
  }

  ghost function KillSprints(sprints: map<SprintId, SprintRow>, sps: set<SprintId>): map<SprintId, SprintRow> {
    map p | p in sprints :: if p in sps then sprints[p].(status := Killed) else sprints[p]
  }

  ghost function KillWorkstreams(workstreams: map<WorkstreamId, WorkstreamRow>,
                                 wss: set<WorkstreamId>): map<WorkstreamId, WorkstreamRow> {
    map w | w in workstreams :: if w in wss then workstreams[w].(status := Killed) else workstreams[w]
  }

  ghost function KillRepos(repos: map<RepoId, RepoRow>, rs: set<RepoId>): map<RepoId, RepoRow> {
    map r | r in repos :: if r in rs then repos[r].(status := Killed) else repos[r]
  }

  /** The selections left when these containers are killed. */
  ghost function Unselected(config: map<Selection, nat>, rs: set<RepoId>, wss: set<WorkstreamId>,
                            sps: set<SprintId>): map<Selection, nat> {
    map k | k in config
      && config[k] !in (match k case ActiveRepo => rs case ActiveWorkstream => wss case ActiveSprint => sps)
      :: config[k]
  }

  /** These containers killed, their agents exited, the selections that named them cleared. */
  ghost function Down(db: Db, rs: set<RepoId>, wss: set<WorkstreamId>, sps: set<SprintId>, skip: Option<AgentId>): Db {
    Db(KillRepos(db.repos, rs), KillWorkstreams(db.workstreams, wss), KillSprints(db.sprints, sps),
       ExitAgents(db.agents, DoomedAgents(db, sps, skip)), Unselected(db.config, rs, wss, sps))
  }

  ghost function SprintDown(db: Db, p: SprintId, skip: Option<AgentId>): Db {
    Down(db, {}, {}, {p}, skip)
  }

  ghost function WorkstreamDown(db: Db, w: WorkstreamId, skip: Option<AgentId>): Db {
    Down(db, {}, {w}, DoomedSprints(db, {w}), skip)
  }

  ghost function RepoDown(db: Db, r: RepoId): Db {
    var wss := DoomedWorkstreams(db, {r});
    Down(db, {r}, wss, DoomedSprints(db, wss), None)
  }

  /** A cascade cut short: every row and selection is as before it or as after all of it. */
  ghost predicate PartWay(db: Db, db': Db, down: Db) {
    && PartContainers(db, db', down) && PartAgents(db.agents, db'.agents, down.agents)
    && PartConfig(db.config, db'.config, down.config)
  }

  ghost predicate PartContainers(db: Db, db': Db, down: Db) {
    && db'.repos.Keys == db.repos.Keys == down.repos.Keys
    && db'.workstreams.Keys == db.workstreams.Keys == down.workstreams.Keys
    && db'.sprints.Keys == db.sprints.Keys == down.sprints.Keys
    && (forall r :: r in db.repos ==> db'.repos[r] == db.repos[r] || db'.repos[r] == down.repos[r])
    && (forall w :: w in db.workstreams ==>
          db'.workstreams[w] == db.workstreams[w] || db'.workstreams[w] == down.workstreams[w])
    && (forall p :: p in db.sprints ==> db'.sprints[p] == db.sprints[p] || db'.sprints[p] == down.sprints[p])
  }

  ghost predicate PartAgents(agents: map<AgentId, AgentRow>, agents': map<AgentId, AgentRow>,
                             down: map<AgentId, AgentRow>) {
    && agents'.Keys == agents.Keys == down.Keys
    && (forall a :: a in agents ==> agents'[a] == agents[a] || agents'[a] == down[a])
  }

  ghost predicate PartConfig(config: map<Selection, nat>, config': map<Selection, nat>, down: map<Selection, nat>) {
    && config'.Keys <= config.Keys
    && (forall k :: k in config ==> if k in config' then config'[k] == config[k] else k !in down)
  }

  /** Two cascades that skip the same agent add up. */
  lemma DownTwice(db: Db, wss: set<WorkstreamId>, wss': set<WorkstreamId>, sps: set<SprintId>, sps': set<SprintId>,
                  skip: Option<AgentId>)
    ensures Down(Down(db, {}, wss, sps, skip), {}, wss', sps', skip) == Down(db, {}, wss + wss', sps + sps', skip)
  {}

  /** The cascade reported exactly the agents in ags, each once, with the row it had. */
  ghost predicate Reports(fs: seq<Flipped>, agents: map<AgentId, AgentRow>, ags: set<AgentId>) {
    && Lists(Ids(fs), ags)
    && forall i :: 0 <= i < |fs| ==> fs[i].id in agents && fs[i].row == agents[fs[i].id]
  }

  lemma ReportsOne(a: AgentId, agents: map<AgentId, AgentRow>)
    requires a in agents
    ensures Reports([Flipped(a, agents[a])], agents, {a})
  {
    assert Ids([Flipped(a, agents[a])]) == [a];
  }

  lemma ReportsNobody(agents: map<AgentId, AgentRow>, exits: seq<AgentId>)
    ensures Reports([], agents, {}) && exits + Ids([]) == exits
  {}

  lemma ReportsMore(fs: seq<Flipped>, gs: seq<Flipped>, agents: map<AgentId, AgentRow>, ags: set<AgentId>,
                    bgs: set<AgentId>)
    requires Reports(fs, agents, ags) && Reports(gs, ExitAgents(agents, ags), bgs) && ags !! bgs
    ensures Reports(fs + gs, agents, ags + bgs) && Ids(fs + gs) == Ids(fs) + Ids(gs)
  {
    assert Ids(fs + gs) == Ids(fs) + Ids(gs);
  }

  /** The appends of a cascade cut short: agents it was to exit, none twice. */
  ghost predicate LogsPart(exits: seq<AgentId>, exits': seq<AgentId>, ags: set<AgentId>) {
    && |exits| <= |exits'| && exits'[..|exits|] == exits
    && NoDup(exits'[|exits|..]) && forall a :: a in exits'[|exits|..] ==> a in ags
  }

  /** Some of the agents in ags have been exited, and no other row touched. */
  ghost predicate ExitedSome(agents: map<AgentId, AgentRow>, agents': map<AgentId, AgentRow>, ags: set<AgentId>) {
    && agents'.Keys == agents.Keys
    && forall a :: a in agents ==>
         agents'[a] == agents[a] || (a in ags && agents'[a] == agents[a].(status := Exited))
  }

  lemma ExitTwice(agents: map<AgentId, AgentRow>, ags: set<AgentId>, bgs: set<AgentId>)
    ensures ExitAgents(ExitAgents(agents, ags), bgs) == ExitAgents(agents, ags + bgs)
  {}

  /** The agents among the first i listed that are not skipped. */
  ghost function Seen(xs: seq<AgentId>, i: nat, skip: Option<AgentId>): set<AgentId>
    requires i <= |xs|
  {
    set a | a in xs[..i] && skip != Some(a)
  }

  lemma SeenMore(skip: Option<AgentId>, xs: seq<AgentId>, i: nat)
    requires i < |xs| && NoDup(xs)
    ensures xs[i] !in Seen(xs, i, skip)
    ensures Seen(xs, i + 1, skip) == if skip == Some(xs[i]) then Seen(xs, i, skip) else Seen(xs, i, skip) + {xs[i]}
    ensures Seen(xs, i + 1, skip) <= Seen(xs, |xs|, skip)
  {}

  lemma SeenAll(db: Db, p: SprintId, skip: Option<AgentId>, xs: seq<AgentId>)
    requires Lists(xs, db.ActiveAgentsOf(p))
    ensures Seen(xs, |xs|, skip) == DoomedAgents(db, {p}, skip)
  {
    assert xs[..|xs|] == xs;
    assert DoomedAgents(db, {p}, skip) == set a | a in db.ActiveAgentsOf(p) && skip != Some(a);
  }

  lemma ReportsLog(exits: seq<AgentId>, fs: seq<Flipped>, agents: map<AgentId, AgentRow>, ags: set<AgentId>,
                   all: set<AgentId>)
    requires Reports(fs, agents, ags) && ags <= all
    ensures LogsPart(exits, exits + Ids(fs), all)
  {}

  /** The tables, the EventExited appends so far, and the agents whose transcript is tailed. */
  datatype Snapshot = Snapshot(db: Db, exits: seq<AgentId>, tailing: set<AgentId>)

  /** What a cascade did that was to leave the tables down and exit the agents in doomed: all of
      it and a report of exactly those agents, nothing because it lost the flip, or a part and no
      report because a call failed. */
  ghost predicate Cascaded(before: Snapshot, after: Snapshot, down: Db, doomed: set<AgentId>,
                           flipped: seq<Flipped>, won: Outcome<bool>) {
    match won
    case Done(true) =>
      && after.db == down && after.tailing == before.tailing - doomed
      && Reports(flipped, before.db.agents, doomed) && after.exits == before.exits + Ids(flipped)
    case Done(false) => after == before && flipped == []
    case Failed =>
      flipped == [] && PartWay(before.db, after.db, down) && LogsPart(before.exits, after.exits, doomed)
  }

  lemma CascadedNothing(before: Snapshot, rs: set<RepoId>, wss: set<WorkstreamId>, sps: set<SprintId>,
                        skip: Option<AgentId>, doomed: set<AgentId>)
    ensures Cascaded(before, before, Down(before.db, rs, wss, sps, skip), doomed, [], Failed)
    ensures Cascaded(before, before, Down(before.db, rs, wss, sps, skip), doomed, [], Done(false))
  {}

  lemma CascadedSprint(before: Snapshot, after: Snapshot, p: SprintId, skip: Option<AgentId>,
                       flipped: seq<Flipped>, all: bool)
    requires before.db.CasSprintKilled(p).1
    requires var doomed := DoomedAgents(before.db, {p}, skip);
      if all then
        && after == Snapshot(before.db.CasSprintKilled(p).0.(agents := ExitAgents(before.db.agents, doomed),
                                                             config := Unselected(before.db.config, {}, {}, {p})),
                             before.exits + Ids(flipped), before.tailing - doomed)
        && Reports(flipped, before.db.agents, doomed)
      else
        && after.db == before.db.CasSprintKilled(p).0.(agents := after.db.agents)
        && ExitedSome(before.db.agents, after.db.agents, doomed) && LogsPart(before.exits, after.exits, doomed)
        && flipped == []
    ensures Cascaded(before, after, SprintDown(before.db, p, skip), DoomedAgents(before.db, {p}, skip), flipped,
                     if all then Done(true) else Failed)
  {}

  lemma DoomedTwice(db: Db, wss: set<WorkstreamId>, sps: set<SprintId>, sps': set<SprintId>, skip: Option<AgentId>)
    ensures var mid := Down(db, {}, wss, sps, skip);
      && DoomedAgents(db, sps, skip) !! DoomedAgents(mid, sps', skip)
      && DoomedAgents(db, sps, skip) + DoomedAgents(mid, sps', skip) == DoomedAgents(db, sps + sps', skip)
  {}

  /** A cascade after a cascade is one over both. */
  lemma CascadeThen(start: Snapshot, now: Snapshot, next: Snapshot, wss: set<WorkstreamId>, sps: set<SprintId>,
                    wss': set<WorkstreamId>, sps': set<SprintId>, skip: Option<AgentId>, fs: seq<Flipped>,
                      gs: seq<Flipped>)
    requires Cascaded(start, now, Down(start.db, {}, wss, sps, skip), DoomedAgents(start.db, sps, skip), fs, Done(true))
    requires Cascaded(now, next, Down(now.db, {}, wss', sps', skip), DoomedAgents(now.db, sps', skip), gs, Done(true))
    ensures Cascaded(start, next, Down(start.db, {}, wss + wss', sps + sps', skip),
                     DoomedAgents(start.db, sps + sps', skip), fs + gs, Done(true))
  {
    DownTwice(start.db, wss, wss', sps, sps', skip);
    DoomedTwice(start.db, wss, sps, sps', skip);
    ReportsMore(fs, gs, start.db.agents, DoomedAgents(start.db, sps, skip), DoomedAgents(now.db, sps', skip));
  }

  lemma PartContainersTwice(db: Db, db': Db, wss: set<WorkstreamId>, sps: set<SprintId>, wss': set<WorkstreamId>,
                            sps': set<SprintId>, allWss: set<WorkstreamId>, allSps: set<SprintId>,
                              skip: Option<AgentId>)
    requires var mid := Down(db, {}, wss, sps, skip); PartContainers(mid, db', Down(mid, {}, wss', sps', skip))
    requires wss + wss' <= allWss && sps + sps' <= allSps
    ensures PartContainers(db, db', Down(db, {}, allWss, allSps, skip))
  {}

  lemma PartAgentsTwice(db: Db, db': Db, wss: set<WorkstreamId>, sps: set<SprintId>, wss': set<WorkstreamId>,
                        sps': set<SprintId>, allWss: set<WorkstreamId>, allSps: set<SprintId>, skip: Option<AgentId>)
    requires var mid := Down(db, {}, wss, sps, skip);
      PartAgents(mid.agents, db'.agents, Down(mid, {}, wss', sps', skip).agents)
    requires wss + wss' <= allWss && sps + sps' <= allSps
    ensures PartAgents(db.agents, db'.agents, Down(db, {}, allWss, allSps, skip).agents)
  {}

  lemma PartTwice(db: Db, db': Db, wss: set<WorkstreamId>, sps: set<SprintId>, wss': set<WorkstreamId>,
                  sps': set<SprintId>,
                  allWss: set<WorkstreamId>, allSps: set<SprintId>, skip: Option<AgentId>)
    requires var mid := Down(db, {}, wss, sps, skip); PartWay(mid, db', Down(mid, {}, wss', sps', skip))
    requires wss + wss' <= allWss && sps + sps' <= allSps
    ensures PartWay(db, db', Down(db, {}, allWss, allSps, skip))
  {
    PartContainersTwice(db, db', wss, sps, wss', sps', allWss, allSps, skip);
    PartAgentsTwice(db, db', wss, sps, wss', sps', allWss, allSps, skip);
  }

  lemma NoDupJoin(xs: seq<nat>, ys: seq<nat>)
    requires NoDup(xs) && NoDup(ys) && forall x :: x in xs ==> x !in ys
    ensures NoDup(xs + ys)
  {
    var zs := xs + ys;
    forall i, j | 0 <= i < j < |zs| ensures zs[i] != zs[j] {
      if i < |xs| <= j { assert xs[i] in xs && ys[j - |xs|] in ys; }
    }
  }

  lemma LogsTwice(log: seq<AgentId>, mid: seq<AgentId>, log': seq<AgentId>, ags: set<AgentId>,
                  bgs: set<AgentId>, all: set<AgentId>)
    requires LogsPart(log, mid, ags) && LogsPart(mid, log', bgs) && ags !! bgs && ags + bgs <= all
    ensures LogsPart(log, log', all)
  {
    assert log'[|log|..] == mid[|log|..] + log'[|mid|..];
    NoDupJoin(mid[|log|..], log'[|mid|..]);
  }

  /** A cascade cut short after a cascade is one over both cut short. */
  lemma CascadeStops(start: Snapshot, now: Snapshot, next: Snapshot, wss: set<WorkstreamId>, sps: set<SprintId>,
                     wss': set<WorkstreamId>, sps': set<SprintId>, allWss: set<WorkstreamId>, allSps: set<SprintId>,
                     skip: Option<AgentId>, fs: seq<Flipped>, gs: seq<Flipped>)
    requires Cascaded(start, now, Down(start.db, {}, wss, sps, skip), DoomedAgents(start.db, sps, skip), fs, Done(true))
    requires Cascaded(now, next, Down(now.db, {}, wss', sps', skip), DoomedAgents(now.db, sps', skip), gs, Failed)
    requires wss + wss' <= allWss && sps + sps' <= allSps
    ensures Cascaded(start, next, Down(start.db, {}, allWss, allSps, skip), DoomedAgents(start.db, allSps, skip), [],
      Failed)
  {
    PartTwice(start.db, next.db, wss, sps, wss', sps', allWss, allSps, skip);
    DoomedTwice(start.db, wss, sps, sps', skip);
    ReportsLog(start.exits, fs, start.db.agents, DoomedAgents(start.db, sps, skip), DoomedAgents(start.db, sps, skip));
    LogsTwice(start.exits, now.exits, next.exits, DoomedAgents(start.db, sps, skip), DoomedAgents(now.db, sps', skip),
              DoomedAgents(start.db, allSps, skip));
  }

  /** Whatever has been done so far is a part of what is still to come. */
  lemma CascadedSoFar(start: Snapshot, now: Snapshot, wss: set<WorkstreamId>, sps: set<SprintId>,
                      allWss: set<WorkstreamId>, allSps: set<SprintId>, skip: Option<AgentId>, fs: seq<Flipped>)
    requires Cascaded(start, now, Down(start.db, {}, wss, sps, skip), DoomedAgents(start.db, sps, skip), fs, Done(true))
    requires wss <= allWss && sps <= allSps
    ensures Cascaded(start, now, Down(start.db, {}, allWss, allSps, skip), DoomedAgents(start.db, allSps, skip), [],
      Failed)
  {}

  lemma CascadeStarts(start: Snapshot, skip: Option<AgentId>)
    ensures Cascaded(start, start, Down(start.db, {}, {}, {}, skip), DoomedAgents(start.db, {}, skip), [], Done(true))
  {}

  /** The containers a cascade flips before it lists their children. */
  ghost function Top(db: Db, rs: set<RepoId>, wss: set<WorkstreamId>): Db {
    db.(repos := KillRepos(db.repos, rs), workstreams := KillWorkstreams(db.workstreams, wss))
  }

  lemma DownUnder(db: Db, rs: set<RepoId>, tops: set<WorkstreamId>, wss: set<WorkstreamId>, sps: set<SprintId>,
                  skip: Option<AgentId>)
    ensures var mid := Down(Top(db, rs, tops), {}, wss, sps, skip);
      mid.(config := Unselected(mid.config, rs, tops, {})) == Down(db, rs, tops + wss, sps, skip)
  {}

  lemma PartUnder(db: Db, db': Db, rs: set<RepoId>, tops: set<WorkstreamId>, wss: set<WorkstreamId>,
                  sps: set<SprintId>, skip: Option<AgentId>)
    requires PartWay(Top(db, rs, tops), db', Down(Top(db, rs, tops), {}, wss, sps, skip))
    ensures PartWay(db, db', Down(db, rs, tops + wss, sps, skip))
  {}

  lemma StopsUnder(before: Snapshot, after: Snapshot, rs: set<RepoId>, tops: set<WorkstreamId>,
                   wss: set<WorkstreamId>, sps: set<SprintId>, skip: Option<AgentId>)
    requires var start := before.(db := Top(before.db, rs, tops));
      Cascaded(start, after, Down(start.db, {}, wss, sps, skip), DoomedAgents(start.db, sps, skip), [], Failed)
    ensures Cascaded(before, after, Down(before.db, rs, tops + wss, sps, skip), DoomedAgents(before.db, sps, skip),
      [], Failed)
  {
    PartUnder(before.db, after.db, rs, tops, wss, sps, skip);
  }

  lemma EndsUnder(before: Snapshot, mid: Snapshot, rs: set<RepoId>, tops: set<WorkstreamId>,
                  wss: set<WorkstreamId>, sps: set<SprintId>, skip: Option<AgentId>, fs: seq<Flipped>)
    requires var start := before.(db := Top(before.db, rs, tops));
      Cascaded(start, mid, Down(start.db, {}, wss, sps, skip), DoomedAgents(start.db, sps, skip), fs, Done(true))
    ensures Cascaded(before, mid.(db := mid.db.(config := Unselected(mid.db.config, rs, tops, {}))),
                     Down(before.db, rs, tops + wss, sps, skip), DoomedAgents(before.db, sps, skip), fs, Done(true))
  {
    DownUnder(before.db, rs, tops, wss, sps, skip);
  }

  lemma TopWorkstream(db: Db, w: WorkstreamId)
    requires db.CasWorkstreamKilled(w).1
    ensures db.CasWorkstreamKilled(w).0 == Top(db, {}, {w})
  {}

  lemma TopRepo(db: Db, r: RepoId)
    requires db.CasRepoKilled(r).1
    ensures db.CasRepoKilled(r).0 == Top(db, {r}, {})
  {}

  /** A sprint the cascade has not come to is still Active. */
  lemma SprintOpen(start: Snapshot, now: Snapshot, sps: set<SprintId>, skip: Option<AgentId>, fs: seq<Flipped>,
                   p: SprintId)
    requires Cascaded(start, now, Down(start.db, {}, {}, sps, skip), DoomedAgents(start.db, sps, skip), fs, Done(true))
    requires start.db.CasSprintKilled(p).1 && p !in sps
    ensures now.db.CasSprintKilled(p).1
  {}

  lemma WorkstreamOpen(start: Snapshot, now: Snapshot, wss: set<WorkstreamId>, fs: seq<Flipped>, w: WorkstreamId)
    requires var sps := DoomedSprints(start.db, wss);
      Cascaded(start, now, Down(start.db, {}, wss, sps, None), DoomedAgents(start.db, sps, None), fs, Done(true))
    requires start.db.CasWorkstreamKilled(w).1 && w !in wss
    ensures now.db.CasWorkstreamKilled(w).1 && DoomedSprints(now.db, {w}) == DoomedSprints(start.db, {w})
    ensures DoomedSprints(start.db, wss) + DoomedSprints(start.db, {w}) == DoomedSprints(start.db, wss + {w})
  {}

  ghost function Prefix(xs: seq<nat>, i: nat): set<nat>
    requires i <= |xs|
  {
    set x | x in xs[..i]
  }

  lemma PrefixMore(xs: seq<nat>, i: nat)
    requires i < |xs| && NoDup(xs)
    ensures xs[i] !in Prefix(xs, i) && Prefix(xs, i + 1) == Prefix(xs, i) + {xs[i]}
  {}

  lemma PrefixOf(xs: seq<nat>, i: nat, all: set<nat>)
    requires i <= |xs| && Lists(xs, all)
    ensures Prefix(xs, i) <= all && Prefix(xs, |xs|) == all
  {}

  // ---------------------------------------------------------------- the store

  class Store {
    var repos: map<RepoId, RepoRow>
    var workstreams: map<WorkstreamId, WorkstreamRow>
    var sprints: map<SprintId, SprintRow>
    var agents: map<AgentId, AgentRow>
    var config: map<Selection, nat>
    /** The EventExited appends, and the agents whose transcript is tailed. */
    var exits: seq<AgentId>
    var tailing: set<AgentId>
    /** The calls that have failed so far. */
    ghost var faults: seq<Call>

    constructor ()
      ensures Tables() == Db(map[], map[], map[], map[], map[]) && exits == [] && tailing == {} && faults == []
    {
      repos, workstreams, sprints, agents, config := map[], map[], map[], map[], map[];
      exits, tailing, faults := [], {}, [];
    }

    ghost function Tables(): Db
      reads this
    {
      Db(repos, workstreams, sprints, agents, config)
    }

    ghost function State(): Snapshot
      reads this
    {
      Snapshot(Tables(), exits, tailing)
    }

    // Statements.

    method CasSprintKilled(p: SprintId) returns (won: Outcome<bool>)
      modifies this`sprints, this`faults
      ensures won.Done? ==>
        won.value == old(Tables()).CasSprintKilled(p).1 && Tables() == old(Tables()).CasSprintKilled(p).0
      ensures won.Failed? ==> Tables() == old(Tables())
      ensures faults == old(faults) + if won.Failed? then [FlipsSprint(p)] else []
    {
      if * {
        faults := faults + [FlipsSprint(p)];
        return Failed;
      }
      if p in sprints && sprints[p].status == Active {
        sprints := sprints[p := sprints[p].(status := Killed)];
        return Done(true);
      }
      return Done(false);
    }

    method CasWorkstreamKilled(w: WorkstreamId) returns (won: Outcome<bool>)
      modifies this`workstreams, this`faults
      ensures won.Done? ==>
        won.value == old(Tables()).CasWorkstreamKilled(w).1 && Tables() == old(Tables()).CasWorkstreamKilled(w).0
      ensures won.Failed? ==> Tables() == old(Tables())
      ensures faults == old(faults) + if won.Failed? then [FlipsWorkstream(w)] else []
    {
      if * {
        faults := faults + [FlipsWorkstream(w)];
        return Failed;
      }
      if w in workstreams && workstreams[w].status == Active {
        workstreams := workstreams[w := workstreams[w].(status := Killed)];
        return Done(true);
      }
      return Done(false);
    }

    method CasRepoKilled(r: RepoId) returns (won: Outcome<bool>)
      modifies this`repos, this`faults
      ensures won.Done? ==>
        won.value == old(Tables()).CasRepoKilled(r).1 && Tables() == old(Tables()).CasRepoKilled(r).0
      ensures won.Failed? ==> Tables() == old(Tables())
      ensures faults == old(faults) + if won.Failed? then [FlipsRepo(r)] else []
    {
      if * {
        faults := faults + [FlipsRepo(r)];
        return Failed;
      }
      if r in repos && repos[r].status == Active {
        repos := repos[r := repos[r].(status := Killed)];
        return Done(true);
      }
      return Done(false);
    }

    method ListAgents(p: SprintId) returns (xs: Outcome<seq<AgentId>>)
      modifies this`faults
      ensures xs.Done? ==> Lists(xs.value, Tables().ActiveAgentsOf(p))
      ensures faults == old(faults) + if xs.Failed? then [ListsAgents(p)] else []
    {
      if * {
        faults := faults + [ListsAgents(p)];
        return Failed;
      }
      var out: seq<AgentId> := [];
      var left := agents.Keys;
      while left != {}
        invariant left <= agents.Keys
        invariant forall a ::
          a in out <==> a in agents && a !in left && agents[a].sprint == p && agents[a].status == Active
        invariant NoDup(out)
        decreases left
      {
        var a :| a in left;
        left := left - {a};
        if agents[a].sprint == p && agents[a].status == Active { out := out + [a]; }
      }
      return Done(out);
    }

    method ListSprints(w: WorkstreamId) returns (xs: Outcome<seq<SprintId>>)
      modifies this`faults
      ensures xs.Done? ==> Lists(xs.value, Tables().ActiveSprintsOf(w))
      ensures faults == old(faults) + if xs.Failed? then [ListsSprints(w)] else []
    {
      if * {
        faults := faults + [ListsSprints(w)];
        return Failed;
      }
      var out: seq<SprintId> := [];
      var left := sprints.Keys;
      while left != {}
        invariant left <= sprints.Keys
        invariant forall p ::
          p in out <==> p in sprints && p !in left && sprints[p].workstream == w && sprints[p].status == Active
        invariant NoDup(out)
        decreases left
      {
        var p :| p in left;
        left := left - {p};
        if sprints[p].workstream == w && sprints[p].status == Active { out := out + [p]; }
      }
      return Done(out);
    }

    method ListWorkstreams(r: RepoId) returns (xs: Outcome<seq<WorkstreamId>>)
      modifies this`faults
      ensures xs.Done? ==> Lists(xs.value, Tables().ActiveWorkstreamsOf(r))
      ensures faults == old(faults) + if xs.Failed? then [ListsWorkstreams(r)] else []
    {
      if * {
        faults := faults + [ListsWorkstreams(r)];
        return Failed;
      }
      var out: seq<WorkstreamId> := [];
      var left := workstreams.Keys;
      while left != {}
        invariant left <= workstreams.Keys
        invariant forall w ::
          w in out <==> w in workstreams && w !in left && workstreams[w].repo == r && workstreams[w].status == Active
        invariant NoDup(out)
        decreases left
      {
        var w :| w in left;
        left := left - {w};
        if workstreams[w].repo == r && workstreams[w].status == Active { out := out + [w]; }
      }
      return Done(out);
    }

    /** listWorkstreams with no filter. */
    method ListAllWorkstreams() returns (xs: Outcome<seq<WorkstreamId>>)
      modifies this`faults
      ensures xs.Done? ==> Lists(xs.value, workstreams.Keys)
      ensures faults == old(faults) + if xs.Failed? then [ListsAllWorkstreams] else []
    {
      if * {
        faults := faults + [ListsAllWorkstreams];
        return Failed;
      }
      var out: seq<WorkstreamId> := [];
      var left := workstreams.Keys;
      while left != {}
        invariant left <= workstreams.Keys
        invariant forall w :: w in out <==> w in workstreams && w !in left
        invariant NoDup(out)
        decreases left
      {
        var w :| w in left;
        left := left - {w};
        out := out + [w];
      }
      return Done(out);
    }

    method ListWorkstreamAgents(w: WorkstreamId) returns (xs: Outcome<seq<AgentId>>)
      modifies this`faults
      ensures xs.Done? ==> Lists(xs.value, Tables().AgentsOfWorkstream(w))
      ensures faults == old(faults) + if xs.Failed? then [ListsAgentsUnder(w)] else []
    {
      if * {
        faults := faults + [ListsAgentsUnder(w)];
        return Failed;
      }
      var out: seq<AgentId> := [];
      var left := agents.Keys;
      while left != {}
        invariant left <= agents.Keys
        invariant forall a :: a in out <==>
          a in agents && a !in left && agents[a].sprint in sprints && sprints[agents[a].sprint].workstream == w
        invariant NoDup(out)
        decreases left
      {
        var a :| a in left;
        left := left - {a};
        if agents[a].sprint in sprints && sprints[agents[a].sprint].workstream == w { out := out + [a]; }
      }
      return Done(out);
    }

    method MarkRestartAttempt(a: AgentId, count: nat) returns (done: bool)
      modifies this`agents, this`faults
      ensures Tables() == if done then old(Tables()).MarkRestartAttempt(a, count) else old(Tables())
      ensures faults == old(faults) + if !done then [SetsRestarts(a)] else []
    {
      if * {
        faults := faults + [SetsRestarts(a)];
        return false;
      }
      if a in agents { agents := agents[a := agents[a].(restarts := count)]; }
      return true;
    }

    method SetAgentIncarnation(a: AgentId, h: Handle, n: Nonce) returns (done: bool)
      modifies this`agents, this`faults
      ensures Tables() == if done then old(Tables()).SetAgentIncarnation(a, h, n) else old(Tables())
      ensures faults == old(faults) + if !done then [SetsIncarnation(a)] else []
    {
      if * {
        faults := faults + [SetsIncarnation(a)];
        return false;
      }
      if a in agents { agents := agents[a := agents[a].(handle := h, nonce := n)]; }
      return true;
    }

    /** clearActiveSelection: drops the key only while it names the killed entity. */
    method ClearActiveSelection(key: Selection, killed: nat) returns (done: bool)
      modifies this`config, this`faults
      ensures done ==> config == match key
        case ActiveRepo => Unselected(old(config), {killed}, {}, {})
        case ActiveWorkstream => Unselected(old(config), {}, {killed}, {})
        case ActiveSprint => Unselected(old(config), {}, {}, {killed})
      ensures !done ==> config == old(config)
      ensures faults == old(faults) + if !done then [Clears(key)] else []
    {
      if * {
        faults := faults + [Clears(key)];
        return false;
      }
      if key in config && config[key] == killed { config := config - {key}; }
      return true;
    }

    // Cascades.

    /** softExitAgent: stops the tailer, sets the row Exited, appends EventExited. */
    method SoftExitAgent(a: AgentId) returns (done: bool)
      requires a in agents
      modifies this`agents, this`exits, this`tailing, this`faults
      ensures tailing == old(tailing) - {a} && Faulted(old(faults), faults, !done)
      ensures done ==> agents == ExitAgents(old(agents), {a}) && exits == old(exits) + [a]
      ensures !done ==> (agents == old(agents) || agents == ExitAgents(old(agents), {a})) && exits == old(exits)
    {
      tailing := tailing - {a};
      if * {
        faults := faults + [SetsExited(a)];
        return false;
      }
      agents := agents[a := agents[a].(status := Exited)];
      assert agents == ExitAgents(old(agents), {a});
      if * {
        faults := faults + [AppendsExited(a)];
        return false;
      }
      exits := exits + [a];
      return true;
    }

    method FlipAgentExited(a: AgentId) returns (row: Outcome<Option<AgentRow>>)
      modifies this`agents, this`exits, this`tailing, this`faults
      ensures Faulted(old(faults), faults, row.Failed? && a in old(agents))
      ensures row.Done? ==> a in old(agents)
      ensures row.Done? && old(agents)[a].status == Active ==>
        && row.value == Some(old(agents)[a]) && agents == ExitAgents(old(agents), {a})
        && exits == old(exits) + [a] && tailing == old(tailing) - {a}
      ensures row.Done? && old(agents)[a].status != Active ==>
        row.value == None && Tables() == old(Tables()) && exits == old(exits) && tailing == old(tailing)
      ensures row.Failed? ==>
        && exits == old(exits) && tailing >= old(tailing) - {a}
        && (agents == old(agents)
            || (a in old(agents) && old(agents)[a].status == Active && agents == ExitAgents(old(agents), {a})))
    {
      if a !in agents { return Failed; }
      if * {
        faults := faults + [ReadsAgent(a)];
        return Failed;
      }
      var cur := agents[a];
      if cur.status != Active { return Done(None); }
      var done := SoftExitAgent(a);
      return if done then Done(Some(cur)) else Failed;
    }

    /** The loop of markSprintKilled over the agents it has listed. */
    method ExitListed(xs: seq<AgentId>, skip: Option<AgentId>) returns (flipped: seq<Flipped>, done: bool)
      requires NoDup(xs) && forall a :: a in xs ==> a in agents && agents[a].status == Active
      modifies this`agents, this`exits, this`tailing, this`faults
      ensures Faulted(old(faults), faults, !done)
      ensures done ==>
        && agents == ExitAgents(old(agents), Seen(xs, |xs|, skip))
        && Reports(flipped, old(agents), Seen(xs, |xs|, skip))
        && exits == old(exits) + Ids(flipped) && tailing == old(tailing) - Seen(xs, |xs|, skip)
      ensures !done ==> flipped == []
      ensures ExitedSome(old(agents), agents, Seen(xs, |xs|, skip)) && LogsPart(old(exits), exits, Seen(xs, |xs|, skip))
    {
      hide Reports, LogsPart;
      ghost var before, log := agents, exits;
      ReportsNobody(before, log);
      assert Seen(xs, 0, skip) == {};
      flipped := [];
      var i := 0;
      while i < |xs|
        invariant 0 <= i <= |xs|
        invariant agents == ExitAgents(before, Seen(xs, i, skip)) && Reports(flipped, before, Seen(xs, i, skip))
        invariant exits == log + Ids(flipped) && tailing == old(tailing) - Seen(xs, i, skip)
        invariant |faults| == |old(faults)|
      {
        ghost var seen := Seen(xs, i, skip);
        SeenMore(skip, xs, i);
        if skip != Some(xs[i]) {
          ReportsLog(log, flipped, before, seen, Seen(xs, |xs|, skip));
          ExitTwice(before, seen, {xs[i]});
          var row := FlipAgentExited(xs[i]);
          if row.Failed? { return [], false; }
          if row.value.Some? {
            ReportsOne(xs[i], ExitAgents(before, seen));
            ReportsMore(flipped, [Flipped(xs[i], row.value.value)], before, seen, {xs[i]});
            flipped := flipped + [Flipped(xs[i], row.value.value)];
          }
        }
        i := i + 1;
      }
      ReportsLog(log, flipped, before, Seen(xs, |xs|, skip), Seen(xs, |xs|, skip));
      return flipped, true;
    }

    /** markSprintKilled: flips the sprint, then exits the agents listed under it. */
    method MarkSprintKilled(p: SprintId, skip: Option<AgentId>) returns (flipped: seq<Flipped>, won: Outcome<bool>)
      modifies this`sprints, this`agents, this`config, this`exits, this`tailing, this`faults
      ensures Faulted(old(faults), faults, won.Failed?)
      ensures won.Done? ==> won.value == old(Tables()).CasSprintKilled(p).1
      ensures Cascaded(old(State()), State(), SprintDown(old(Tables()), p, skip),
                       DoomedAgents(old(Tables()), {p}, skip), flipped, won)
    {
      ghost var before := State();
      CascadedNothing(before, {}, {}, {p}, skip, DoomedAgents(before.db, {p}, skip));
      won := CasSprintKilled(p);
      if won != Done(true) { return [], won; }
      var list := ListAgents(p);
      if list.Failed? {
        CascadedSprint(before, State(), p, skip, [], false);
        return [], Failed;
      }
      SeenAll(before.db, p, skip, list.value);
      var done;
      flipped, done := ExitListed(list.value, skip);
      if !done {
        CascadedSprint(before, State(), p, skip, [], false);
        return [], Failed;
      }
      done := ClearActiveSelection(ActiveSprint, p);
      CascadedSprint(before, State(), p, skip, if done then flipped else [], done);
      return if done then flipped else [], if done then Done(true) else Failed;
    }

    /** The loop of markWorkstreamKilled over the sprints it lists. */
    method KillSprintsOf(w: WorkstreamId, skip: Option<AgentId>) returns (flipped: seq<Flipped>, done: Outcome<bool>)
      modifies this`sprints, this`agents, this`config, this`exits, this`tailing, this`faults
      ensures Faulted(old(faults), faults, done.Failed?)
      ensures if done.Done? then done.value else flipped == []
      ensures var sps := DoomedSprints(old(Tables()), {w});
        Cascaded(old(State()), State(), Down(old(Tables()), {}, {}, sps, skip),
          DoomedAgents(old(Tables()), sps, skip), flipped, done)
    {
      hide Cascaded, Down, DoomedAgents;
      ghost var start, sps := State(), DoomedSprints(Tables(), {w});
      CascadeStarts(start, skip);
      CascadedSoFar(start, start, {}, {}, {}, sps, skip, []);
      var list := ListSprints(w);
      if list.Failed? { return [], Failed; }
      var xs := list.value;
      assert sps == start.db.ActiveSprintsOf(w);
      ghost var none: set<WorkstreamId> := {};
      assert none + none == none && Prefix(xs, 0) == {};
      flipped := [];
      var i := 0;
      while i < |xs|
        invariant 0 <= i <= |xs|
        invariant |faults| == |old(faults)|
        invariant Cascaded(start, State(), Down(start.db, {}, {}, Prefix(xs, i), skip),
                           DoomedAgents(start.db, Prefix(xs, i), skip), flipped, Done(true))
      {
        ghost var now := State();
        PrefixMore(xs, i);
        PrefixOf(xs, i + 1, sps);
        SprintOpen(start, now, Prefix(xs, i), skip, flipped, xs[i]);
        var rows, flip := MarkSprintKilled(xs[i], skip);
        if flip.Failed? {
          CascadeStops(start, now, State(), none, Prefix(xs, i), none, {xs[i]}, none, sps, skip, flipped, rows);
          return [], Failed;
        }
        CascadeThen(start, now, State(), none, Prefix(xs, i), none, {xs[i]}, skip, flipped, rows);
        flipped := flipped + rows;
        i := i + 1;
      }
      PrefixOf(xs, |xs|, sps);
      return flipped, Done(true);
    }

    /** markWorkstreamKilled: flips the workstream, then kills the sprints listed under it. */
    method MarkWorkstreamKilled(w: WorkstreamId, skip: Option<AgentId>) returns (flipped: seq<Flipped>,
                                won: Outcome<bool>)
      modifies this`workstreams, this`sprints, this`agents, this`config, this`exits, this`tailing, this`faults
      ensures Faulted(old(faults), faults, won.Failed?)
      ensures won.Done? ==> won.value == old(Tables()).CasWorkstreamKilled(w).1
      ensures Cascaded(old(State()), State(), WorkstreamDown(old(Tables()), w, skip),
                       DoomedAgents(old(Tables()), DoomedSprints(old(Tables()), {w}), skip), flipped, won)
    {
      hide Cascaded, Down;
      ghost var before, sps := State(), DoomedSprints(Tables(), {w});
      CascadedNothing(before, {}, {w}, sps, skip, DoomedAgents(before.db, sps, skip));
      won := CasWorkstreamKilled(w);
      if won != Done(true) { return [], won; }
      ghost var start := State();
      TopWorkstream(before.db, w);
      assert {w} + {} == {w};
      assert start == before.(db := Top(before.db, {}, {w})) && DoomedSprints(start.db, {w}) == sps;
      flipped, won := KillSprintsOf(w, skip);
      if won.Failed? {
        StopsUnder(before, State(), {}, {w}, {}, sps, skip);
        return [], Failed;
      }
      EndsUnder(before, State(), {}, {w}, {}, sps, skip, flipped);
      var done := ClearActiveSelection(ActiveWorkstream, w);
      if !done {
        CascadedSoFar(start, State(), {}, sps, {}, sps, skip, flipped);
        StopsUnder(before, State(), {}, {w}, {}, sps, skip);
        return [], Failed;
      }
    }

    /** The loop of killRepo over the workstreams it lists. */
    method KillWorkstreamsOf(r: RepoId) returns (flipped: seq<Flipped>, torn: seq<WorkstreamId>, done: Outcome<bool>)
      modifies this`workstreams, this`sprints, this`agents, this`config, this`exits, this`tailing, this`faults
      ensures Faulted(old(faults), faults, done.Failed?)
      ensures if done.Done? then done.value else flipped == [] && torn == []
      ensures done.Done? ==> Lists(torn, DoomedWorkstreams(old(Tables()), {r}))
      ensures var wss := DoomedWorkstreams(old(Tables()), {r});
        var sps := DoomedSprints(old(Tables()), wss);
        Cascaded(old(State()), State(), Down(old(Tables()), {}, wss, sps, None),
          DoomedAgents(old(Tables()), sps, None), flipped, done)
    {
      hide Cascaded, Down, DoomedAgents;
      ghost var start, wss := State(), DoomedWorkstreams(Tables(), {r});
      ghost var sps := DoomedSprints(start.db, wss);
      CascadeStarts(start, None);
      CascadedSoFar(start, start, {}, {}, wss, sps, None, []);
      var list := ListWorkstreams(r);
      if list.Failed? { return [], [], Failed; }
      var xs := list.value;
      assert wss == start.db.ActiveWorkstreamsOf(r);
      flipped, torn := [], [];
      assert Prefix(xs, 0) == {} && DoomedSprints(start.db, {}) == {};
      var i := 0;
      while i < |xs|
        invariant 0 <= i <= |xs| && torn == xs[..i] && |faults| == |old(faults)|
        invariant var done := DoomedSprints(start.db, Prefix(xs, i));
          Cascaded(start, State(), Down(start.db, {}, Prefix(xs, i), done, None),
                   DoomedAgents(start.db, done, None), flipped, Done(true))
      {
        ghost var now, before := State(), Prefix(xs, i);
        PrefixMore(xs, i);
        PrefixOf(xs, i + 1, wss);
        WorkstreamOpen(start, now, before, flipped, xs[i]);
        var rows, flip := MarkWorkstreamKilled(xs[i], None);
        if flip.Failed? {
          CascadeStops(start, now, State(), before, DoomedSprints(start.db, before), {xs[i]},
                       DoomedSprints(start.db, {xs[i]}), wss, sps, None, flipped, rows);
          return [], [], Failed;
        }
        if flip.value {
          CascadeThen(start, now, State(), before, DoomedSprints(start.db, before), {xs[i]},
                      DoomedSprints(start.db, {xs[i]}), None, flipped, rows);
          flipped := flipped + rows;
          torn := torn + [xs[i]];
        }
        i := i + 1;
      }
      PrefixOf(xs, |xs|, wss);
      return flipped, torn, Done(true);
    }

    /** killRepo: flips the repo, then kills the workstreams listed under it. */
    method KillRepo(r: RepoId) returns (flipped: seq<Flipped>, torn: seq<WorkstreamId>, won: Outcome<bool>)
      modifies this
      ensures Faulted(old(faults), faults, won.Failed?)
      ensures won.Done? ==> won.value == old(Tables()).CasRepoKilled(r).1
      ensures if won == Done(true) then Lists(torn, DoomedWorkstreams(old(Tables()), {r})) else torn == []
      ensures var sps := DoomedSprints(old(Tables()), DoomedWorkstreams(old(Tables()), {r}));
        Cascaded(old(State()), State(), RepoDown(old(Tables()), r), DoomedAgents(old(Tables()), sps, None), flipped,
          won)
    {
      hide Cascaded, Down;
      ghost var before, wss := State(), DoomedWorkstreams(Tables(), {r});
      ghost var sps := DoomedSprints(before.db, wss);
      CascadedNothing(before, {r}, wss, sps, None, DoomedAgents(before.db, sps, None));
      won := CasRepoKilled(r);
      if won != Done(true) { return [], [], won; }
      ghost var start, none: set<WorkstreamId> := State(), {};
      TopRepo(before.db, r);
      assert none + wss == wss;
      assert start == before.(db := Top(before.db, {r}, none));
      assert DoomedWorkstreams(start.db, {r}) == wss && DoomedSprints(start.db, wss) == sps;
      flipped, torn, won := KillWorkstreamsOf(r);
      if won.Failed? {
        StopsUnder(before, State(), {r}, none, wss, sps, None);
        return [], [], Failed;
      }
      EndsUnder(before, State(), {r}, none, wss, sps, None, flipped);
      var done := ClearActiveSelection(ActiveRepo, r);
      if !done {
        CascadedSoFar(start, State(), wss, sps, wss, sps, None, flipped);
        StopsUnder(before, State(), {r}, none, wss, sps, None);
        return [], [], Failed;
      }
    }
  }
}
