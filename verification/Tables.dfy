/** The daemon's tables, and each store statement as one function on them.

    A statement is what the store runs atomically: the concurrent protocol takes one
    statement per step, and the sequential Store class runs the same statements on its
    fields. Ids, handles and nonces are opaque, so naturals stand for them. An UPDATE
    whose WHERE clause matches no row changes nothing. */
module Tables {
  type RepoId = nat
  type WorkstreamId = nat
  type SprintId = nat
  /** An agent's id is its Claude session id. */
  type AgentId = nat
  type Handle = nat
  type Nonce = nat

  /** How many respawns an agent gets before a death abandons it. */
  const RESTART_BUDGET: nat := 3

  datatype Option<+T> = None | Some(value: T)

  datatype Lifecycle = Active | Exited | Killed

  datatype RepoRow = RepoRow(status: Lifecycle)
  datatype WorkstreamRow = WorkstreamRow(repo: RepoId, status: Lifecycle)
  datatype SprintRow = SprintRow(workstream: WorkstreamId, status: Lifecycle)
  datatype AgentRow =
    AgentRow(sprint: SprintId, handle: Handle, nonce: Nonce, status: Lifecycle, restarts: nat)

  /** The active-* config keys a bare spawn falls back through. */
  datatype Selection = ActiveRepo | ActiveWorkstream | ActiveSprint

  datatype Db = Db(
    repos: map<RepoId, RepoRow>,
    workstreams: map<WorkstreamId, WorkstreamRow>,
    sprints: map<SprintId, SprintRow>,
    agents: map<AgentId, AgentRow>,
    config: map<Selection, nat>)
  {
    /** casRepoKilled: the new tables, and whether this call won the flip. */
    function CasRepoKilled(r: RepoId): (Db, bool) {
      if r in repos && repos[r].status == Active then
        (this.(repos := repos[r := repos[r].(status := Killed)]), true)
      else
        (this, false)
    }

    function CasWorkstreamKilled(w: WorkstreamId): (Db, bool) {
      if w in workstreams && workstreams[w].status == Active then
        (this.(workstreams := workstreams[w := workstreams[w].(status := Killed)]), true)
      else
        (this, false)
    }

    function CasSprintKilled(p: SprintId): (Db, bool) {
      if p in sprints && sprints[p].status == Active then
        (this.(sprints := sprints[p := sprints[p].(status := Killed)]), true)
      else
        (this, false)
    }

    function SetRepoStatus(r: RepoId, status: Lifecycle): Db {
      if r in repos then this.(repos := repos[r := repos[r].(status := status)]) else this
    }

    function SetWorkstreamStatus(w: WorkstreamId, status: Lifecycle): Db {
      if w in workstreams then
        this.(workstreams := workstreams[w := workstreams[w].(status := status)])
      else this
    }

    function SetSprintStatus(p: SprintId, status: Lifecycle): Db {
      if p in sprints then this.(sprints := sprints[p := sprints[p].(status := status)]) else this
    }

    function SetAgentLifecycle(a: AgentId, status: Lifecycle): Db {
      if a in agents then this.(agents := agents[a := agents[a].(status := status)]) else this
    }

    function MarkRestartAttempt(a: AgentId, count: nat): Db {
      if a in agents then this.(agents := agents[a := agents[a].(restarts := count)]) else this
    }

    /** setAgentIncarnation: the handle and the nonce change in one statement. */
    function SetAgentIncarnation(a: AgentId, h: Handle, n: Nonce): Db {
      if a in agents then
        this.(agents := agents[a := agents[a].(handle := h, nonce := n)])
      else this
    }

    function InsertRepo(r: RepoId): Db {
      this.(repos := repos[r := RepoRow(Active)])
    }

    function InsertWorkstream(w: WorkstreamId, r: RepoId): Db {
      this.(workstreams := workstreams[w := WorkstreamRow(r, Active)])
    }

    function InsertSprint(p: SprintId, w: WorkstreamId): Db {
      this.(sprints := sprints[p := SprintRow(w, Active)])
    }

    function InsertAgent(a: AgentId, row: AgentRow): Db {
      this.(agents := agents[a := row])
    }

    // Filtered lists, as sets; a SELECT returns some ordering of them.

    function ActiveWorkstreamsOf(r: RepoId): set<WorkstreamId> {
      set w | w in workstreams && workstreams[w].repo == r && workstreams[w].status == Active
    }

    function ActiveSprintsOf(w: WorkstreamId): set<SprintId> {
      set p | p in sprints && sprints[p].workstream == w && sprints[p].status == Active
    }

    function ActiveAgentsOf(p: SprintId): set<AgentId> {
      set a | a in agents && agents[a].sprint == p && agents[a].status == Active
    }

    /** listWorkstreamAgents: every agent joined through its sprint, whatever its status. */
    function AgentsOfWorkstream(w: WorkstreamId): set<AgentId> {
      set a | a in agents && agents[a].sprint in sprints && sprints[agents[a].sprint].workstream == w
    }
  }

  /** xs lists exactly the elements of s, each once: one ordering a SELECT may return. */
  ghost predicate Lists(xs: seq<nat>, s: set<nat>) {
    && (forall x :: x in xs <==> x in s)
    && NoDup(xs)
  }

  ghost predicate NoDup(xs: seq<nat>) {
    forall i, j :: 0 <= i < j < |xs| ==> xs[i] != xs[j]
  }
}
