/** What a repo kill reaches. On tables where Active children sit under Active parents it takes
    the whole subtree and nothing else; where an Active child sits under a parent that is not
    Active, as a cut cascade or a late create can leave one, it walks past that child. */
module KillExactness {
  import opened Tables
  import opened Store

  ghost predicate WorkstreamIn(db: Db, w: WorkstreamId, r: RepoId) {
    w in db.workstreams && db.workstreams[w].repo == r
  }

  ghost predicate SprintIn(db: Db, p: SprintId, r: RepoId) {
    p in db.sprints && WorkstreamIn(db, db.sprints[p].workstream, r)
  }

  ghost predicate AgentIn(db: Db, a: AgentId, r: RepoId) {
    a in db.agents && SprintIn(db, db.agents[a].sprint, r)
  }

  /** Nothing in the repo's subtree is Active. */
  ghost predicate AllDown(db: Db, r: RepoId) {
    && (r in db.repos ==> db.repos[r].status != Active)
    && (forall w :: WorkstreamIn(db, w, r) ==> db.workstreams[w].status != Active)
    && (forall p :: SprintIn(db, p, r) ==> db.sprints[p].status != Active)
    && (forall a :: AgentIn(db, a, r) ==> db.agents[a].status != Active)
  }

  /** In the repo's subtree, Active children have Active parents. */
  ghost predicate ActiveTree(db: Db, r: RepoId) {
    && (forall p :: SprintIn(db, p, r) && db.sprints[p].status == Active ==>
          db.workstreams[db.sprints[p].workstream].status == Active)
    && (forall a :: AgentIn(db, a, r) && db.agents[a].status == Active ==>
          db.sprints[db.agents[a].sprint].status == Active)
  }

  lemma SameSubtree(db: Db, r: RepoId)
    ensures var down := RepoDown(db, r);
      && (forall w :: WorkstreamIn(down, w, r) <==> WorkstreamIn(db, w, r))
      && (forall p :: SprintIn(down, p, r) <==> SprintIn(db, p, r))
      && (forall a :: AgentIn(down, a, r) <==> AgentIn(db, a, r))
  {}

  /** A won repo kill leaves nothing Active below it exactly when it started from a tree. */
  lemma KillReachesAll(db: Db, r: RepoId)
    requires db.CasRepoKilled(r).1
    ensures AllDown(RepoDown(db, r), r) <==> ActiveTree(db, r)
  {
    SameSubtree(db, r);
    var down := RepoDown(db, r);
    if !ActiveTree(db, r) {
      if p :| (SprintIn(db, p, r) && db.sprints[p].status == Active
               && db.workstreams[db.sprints[p].workstream].status != Active) {
        assert down.sprints[p].status == Active;
      } else {
        var a :| AgentIn(db, a, r) && db.agents[a].status == Active && db.sprints[db.agents[a].sprint].status != Active;
        assert AgentIn(down, a, r) && down.agents[a].status == Active;
      }
    }
  }

  /** On a tree the agents exited are exactly the Active ones of the repo. */
  lemma ReportsTheActive(db: Db, r: RepoId, a: AgentId)
    requires ActiveTree(db, r)
    ensures a in DoomedAgents(db, DoomedSprints(db, DoomedWorkstreams(db, {r})), None)
      <==> AgentIn(db, a, r) && db.agents[a].status == Active
  {}

  /** Nothing outside the subtree changes, and inside it only statuses do. */
  lemma KillStaysInside(db: Db, r: RepoId)
    ensures var down := RepoDown(db, r);
      && (forall s :: s in db.repos && s != r ==> s in down.repos && down.repos[s] == db.repos[s])
      && (forall w :: w in db.workstreams && !WorkstreamIn(db, w, r) ==>
            w in down.workstreams && down.workstreams[w] == db.workstreams[w])
      && (forall p :: p in db.sprints && !SprintIn(db, p, r) ==> p in down.sprints && down.sprints[p] == db.sprints[p])
      && (forall a :: a in db.agents && !AgentIn(db, a, r) ==> a in down.agents && down.agents[a] == db.agents[a])
      && (forall a :: AgentIn(db, a, r) ==>
            a in down.agents && down.agents[a].(status := Active) == db.agents[a].(status := Active))
      && down.repos.Keys == db.repos.Keys && down.workstreams.Keys == db.workstreams.Keys
      && down.sprints.Keys == db.sprints.Keys && down.agents.Keys == db.agents.Keys
  {}

  /** A kill cut short by a failing call has not touched anything outside the subtree either. */
  lemma CutKillStaysInside(db: Db, db': Db, r: RepoId)
    requires PartWay(db, db', RepoDown(db, r))
    ensures forall w :: w in db.workstreams && !WorkstreamIn(db, w, r) ==> db'.workstreams[w] == db.workstreams[w]
    ensures forall p :: p in db.sprints && !SprintIn(db, p, r) ==> db'.sprints[p] == db.sprints[p]
    ensures forall a :: a in db.agents && !AgentIn(db, a, r) ==> db'.agents[a] == db.agents[a]
    ensures forall a ::
      AgentIn(db, a, r) ==> db'.agents[a] == db.agents[a] || db'.agents[a] == db.agents[a].(status := Exited)
  {
    KillStaysInside(db, r);
  }

  /** The selection names the repo or a container in its subtree. */
  ghost predicate PointsInto(db: Db, r: RepoId, k: Selection) {
    k in db.config &&
    match k
    case ActiveRepo => db.config[k] == r
    case ActiveWorkstream => WorkstreamIn(db, db.config[k], r)
    case ActiveSprint => SprintIn(db, db.config[k], r)
  }

  /** What a selection names is Active, and so is what that sits under. */
  ghost predicate SelectsActive(db: Db, r: RepoId, k: Selection) {
    PointsInto(db, r, k) ==>
      match k
      case ActiveRepo => true
      case ActiveWorkstream => db.workstreams[db.config[k]].status == Active
      case ActiveSprint =>
        db.sprints[db.config[k]].status == Active
        && db.workstreams[db.sprints[db.config[k]].workstream].status == Active
  }

  /** The kill clears exactly the selections that point into the subtree, exactly when those name
      Active containers; no other selection changes. */
  lemma ClearsItsSelections(db: Db, r: RepoId, k: Selection)
    ensures k in RepoDown(db, r).config ==> k in db.config && RepoDown(db, r).config[k] == db.config[k]
    ensures k in db.config ==>
      ((k in RepoDown(db, r).config <==> !PointsInto(db, r, k)) <==> SelectsActive(db, r, k))
  {}

  /** On a tree it is enough that the selected sprint itself is Active. */
  lemma TreeSelects(db: Db, r: RepoId, k: Selection)
    requires ActiveTree(db, r) && PointsInto(db, r, k)
    ensures SelectsActive(db, r, k) <==>
      match k
      case ActiveRepo => true
      case ActiveWorkstream => db.workstreams[db.config[k]].status == Active
      case ActiveSprint => db.sprints[db.config[k]].status == Active
  {}

  /** The second of two kills of a repo loses: it changes nothing and reports nobody. */
  method KillTwice(store: Store, r: RepoId)
    returns (first: Outcome<bool>, second: Outcome<bool>, again: seq<Flipped>, torn: seq<WorkstreamId>)
    modifies store
    ensures first == Done(true) && second.Done? ==>
      second == Done(false) && again == [] && torn == [] && store.Tables() == RepoDown(old(store.Tables()), r)
  {
    var _, _, won := store.KillRepo(r);
    first := won;
    again, torn, second := store.KillRepo(r);
  }
}
