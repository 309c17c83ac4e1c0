/** The tailer manager: one running transcript tailer an agent.

    A tailer is known by the cancel handle made when it was started, compared by identity. A
    finished tailer gives back its handle, which may by then have been replaced by a successor
    under the same agent id. */
module TailerManager {
  import opened Tables

  class TailerCancel {
    const agent: AgentId
    var cancelled: bool

    constructor (a: AgentId)
      ensures agent == a && !cancelled
    {
      agent, cancelled := a, false;
    }

    method Cancel()
      modifies this
      ensures cancelled
    {
      cancelled := true;
    }
  }

  class Manager {
    var cancels: map<AgentId, TailerCancel>
    /** Every tailer ever launched. */
    ghost var launched: set<TailerCancel>

    /** A launched tailer that has not been cancelled is the current entry of its agent, and an
        entry is a launched tailer that has not been cancelled. */
    ghost predicate Valid()
      reads this, launched
    {
      && (forall tc :: tc in launched && !tc.cancelled ==> tc.agent in cancels && cancels[tc.agent] == tc)
      && (forall a :: a in cancels ==> cancels[a] in launched && cancels[a].agent == a && !cancels[a].cancelled)
    }

    constructor ()
      ensures Valid() && cancels == map[] && launched == {}
    {
      cancels, launched := map[], {};
    }

    /** start: an agent without a session is skipped; a tailer already running is replaced. */
    method Start(a: AgentId, hasSession: bool) returns (tc: TailerCancel?)
      requires Valid()
      modifies this, launched
      ensures Valid()
      ensures !hasSession ==> tc == null && cancels == old(cancels) && launched == old(launched)
      ensures hasSession ==>
        && tc != null && fresh(tc) && tc.agent == a
        && cancels == old(cancels)[a := tc] && launched == old(launched) + {tc}
      ensures forall x :: x in old(launched) ==>
        x.cancelled == (old(x.cancelled) || (hasSession && a in old(cancels) && old(cancels)[a] == x))
    {
      if !hasSession { return null; }
      tc := new TailerCancel(a);
      if a in cancels { cancels[a].Cancel(); }
      cancels := cancels[a := tc];
      launched := launched + {tc};
    }

    method Stop(a: AgentId)
      requires Valid()
      modifies this, launched
      ensures Valid() && launched == old(launched) && cancels == old(cancels) - {a}
      ensures forall x ::
        x in launched ==> x.cancelled == (old(x.cancelled) || (a in old(cancels) && old(cancels)[a] == x))
    {
      if a in cancels {
        cancels[a].Cancel();
        cancels := cancels - {a};
      }
    }

    /** finish: the tailer's own entry goes, a successor's does not, and only the tailer that
        finished is cancelled. */
    method Finish(tc: TailerCancel)
      requires Valid() && tc in launched
      modifies this, launched
      ensures Valid() && launched == old(launched)
      ensures cancels
        == if tc.agent in old(cancels) && old(cancels)[tc.agent] == tc then old(cancels) - {tc.agent} else old(cancels)
      ensures forall x :: x in launched ==> x.cancelled == (old(x.cancelled) || x == tc)
    {
      tc.Cancel();
      if tc.agent in cancels && cancels[tc.agent] == tc { cancels := cancels - {tc.agent}; }
    }
  }

  /** At most one tailer runs for an agent, in every state the three operations can reach. */
  lemma OneTailerPerAgent(m: Manager, x: TailerCancel, y: TailerCancel)
    requires m.Valid() && x in m.launched && y in m.launched && x.agent == y.agent
    requires !x.cancelled && !y.cancelled
    ensures x == y
  {
    assert m.cancels[x.agent] == x;
  }

  /** A tailer replaced and finishing late leaves its successor running and registered. */
  method FinishAfterReplacement(m: Manager, a: AgentId) returns (second: TailerCancel)
    requires m.Valid()
    modifies m, m.launched
    ensures m.Valid() && second.agent == a && !second.cancelled && a in m.cancels && m.cancels[a] == second
  {
    var first := m.Start(a, true);
    second := m.Start(a, true);
    m.Finish(first);
  }

  // ---------------------------------------------------------------- any sequence of operations

  datatype Op = StartOp(a: AgentId, hasSession: bool) | StopOp(a: AgentId) | FinishOp(k: nat)

  /** The operation launches a tailer. */
  predicate Launches(op: Op) { op.StartOp? && op.hasSession }

  /** How many of the first n operations launch one; the next launched has this number. */
  function Starts(ops: seq<Op>, n: nat): nat
    requires n <= |ops|
  {
    if n == 0 then 0 else Starts(ops, n - 1) + (if Launches(ops[n - 1]) then 1 else 0)
  }

  /** The operation ends tailer k of agent a, if that runs: it replaces, stops or finishes it. */
  predicate Ends(op: Op, a: AgentId, k: nat) {
    match op
    case StartOp(b, hasSession) => hasSession && b == a
    case StopOp(b) => b == a
    case FinishOp(j) => j == k
  }

  /** Operation e launches a tailer that none of the later ones, up to n, ends. */
  ghost predicate Survives(ops: seq<Op>, e: nat, n: nat)
    requires n <= |ops|
  {
    e < n && Launches(ops[e]) && forall j :: e < j < n ==> !Ends(ops[j], ops[e].a, Starts(ops, e))
  }

  /** What an operation does to the current numbers, number being the next one. */
  function After(current: map<AgentId, nat>, number: nat, op: Op): map<AgentId, nat> {
    match op
    case StartOp(a, hasSession) => if hasSession then current[a := number] else current
    case StopOp(a) => current - {a}
    case FinishOp(k) => map a | a in current && current[a] != k :: current[a]
  }

  /** Which tailer is each agent's after the first n operations, by number. */
  function Current(ops: seq<Op>, n: nat): (current: map<AgentId, nat>)
    requires n <= |ops|
    ensures forall a :: a in current ==> current[a] < Starts(ops, n)
  {
    if n == 0 then map[] else After(Current(ops, n - 1), Starts(ops, n - 1), ops[n - 1])
  }

  lemma {:induction false} Backwards(ops: seq<Op>, a: AgentId, n: nat) returns (e: nat)
    requires n <= |ops| && a in Current(ops, n)
    ensures Survives(ops, e, n) && ops[e].a == a && Current(ops, n)[a] == Starts(ops, e)
  {
    if Launches(ops[n - 1]) && ops[n - 1].a == a {
      e := n - 1;
    } else {
      e := Backwards(ops, a, n - 1);
    }
  }

  lemma {:induction false} Forwards(ops: seq<Op>, e: nat, n: nat)
    requires n <= |ops| && Survives(ops, e, n)
    ensures ops[e].a in Current(ops, n) && Current(ops, n)[ops[e].a] == Starts(ops, e)
  {
    if e < n - 1 { Forwards(ops, e, n - 1); }
  }

  /** The current tailer of an agent is the last one started for it with no later start, stop or
      finish of that same tailer, and there is none without such a start. */
  lemma CurrentIsLastStart(ops: seq<Op>, n: nat, a: AgentId, k: nat)
    requires n <= |ops|
    ensures (a in Current(ops, n) && Current(ops, n)[a] == k)
      <==> exists e: nat :: Survives(ops, e, n) && ops[e].a == a && Starts(ops, e) == k
  {
    if a in Current(ops, n) && Current(ops, n)[a] == k { var _ := Backwards(ops, a, n); }
    if e: nat :| Survives(ops, e, n) && ops[e].a == a && Starts(ops, e) == k { Forwards(ops, e, n); }
  }

  ghost predicate Distinct(started: seq<TailerCancel>) {
    forall i, j :: 0 <= i < j < |started| ==> started[i] != started[j]
  }

  /** The map names the current tailers. */
  ghost predicate Shows(cancels: map<AgentId, TailerCancel>, started: seq<TailerCancel>, current: map<AgentId, nat>) {
    && cancels.Keys == current.Keys
    && forall a :: a in cancels ==> current[a] < |started| && cancels[a] == started[current[a]]
  }

  lemma FirstOp(ops: seq<Op>)
    ensures Starts(ops, 0) == 0 && Current(ops, 0) == map[] && Distinct([])
  {}

  /** A tailer is in the map exactly under the agent whose current number is its own. */
  lemma NumberOf(started: seq<TailerCancel>, current: map<AgentId, nat>, cancels: map<AgentId, TailerCancel>, k: nat)
    requires Distinct(started) && Shows(cancels, started, current) && k < |started|
    ensures forall a :: a in cancels ==> (cancels[a] == started[k] <==> current[a] == k)
  {}

  /** The entry of agent a is tailer k exactly if that is the last one started for the agent and
      nothing has ended it since. */
  ghost predicate IsCurrent(ops: seq<Op>, cancels: map<AgentId, TailerCancel>, started: seq<TailerCancel>, a: AgentId,
                            k: nat)
    requires k < |started|
  {
    (a in cancels && cancels[a] == started[k])
    <==> exists e: nat :: Survives(ops, e, |ops|) && ops[e].a == a && Starts(ops, e) == k
  }

  ghost predicate RunsOn(ops: seq<Op>, k: nat) {
    exists e: nat :: Survives(ops, e, |ops|) && Starts(ops, e) == k
  }

  lemma EntryIsLast(ops: seq<Op>, cancels: map<AgentId, TailerCancel>, started: seq<TailerCancel>,
                    current: map<AgentId, nat>, a: AgentId, k: nat)
    requires current == Current(ops, |ops|) && Distinct(started) && Shows(cancels, started, current) && k < |started|
    ensures IsCurrent(ops, cancels, started, a, k)
  {
    hide Current, Distinct;
    CurrentIsLastStart(ops, |ops|, a, k);
    NumberOf(started, current, cancels, k);
  }

  lemma RunningIsLast(ops: seq<Op>, m: Manager, started: seq<TailerCancel>, k: nat)
    requires m.Valid() && (forall y :: y in m.launched <==> y in started) && k < |started|
    requires forall a :: IsCurrent(ops, m.cancels, started, a, k)
    ensures !started[k].cancelled <==> RunsOn(ops, k)
  {
    RunningIsCurrent(m, started, started[k]);
    if !started[k].cancelled {
      assert IsCurrent(ops, m.cancels, started, started[k].agent, k);
    } else if e: nat :| Survives(ops, e, |ops|) && Starts(ops, e) == k {
      assert IsCurrent(ops, m.cancels, started, ops[e].a, k);
    }
  }

  lemma RunningIsCurrent(m: Manager, started: seq<TailerCancel>, x: TailerCancel)
    requires m.Valid() && (forall y :: y in m.launched <==> y in started) && x in started
    ensures !x.cancelled <==> exists a :: a in m.cancels && m.cancels[a] == x
  {
    if !x.cancelled { assert m.cancels[x.agent] == x; }
  }

  /** One operation; FinishOp(k) finishes the k-th tailer started so far, current or not. */
  method RunOne(m: Manager, started: seq<TailerCancel>, op: Op, ghost current: map<AgentId, nat>)
    returns (started': seq<TailerCancel>)
    requires m.Valid() && (forall x :: x in m.launched <==> x in started) && Distinct(started)
    requires Shows(m.cancels, started, current)
    modifies m, m.launched
    ensures m.Valid() && (forall x :: x in m.launched <==> x in started') && Distinct(started')
    ensures |started'| == |started| + (if Launches(op) then 1 else 0) && fresh(m.launched - old(m.launched))
    ensures Shows(m.cancels, started', After(current, |started|, op))
  {
    started' := started;
    match op {
      case StartOp(a, hasSession) =>
        var tc := m.Start(a, hasSession);
        if tc != null { started' := started + [tc]; }
      case StopOp(a) => m.Stop(a);
      case FinishOp(k) =>
        if k < |started| {
          NumberOf(started, current, m.cancels, k);
          m.Finish(started[k]);
        }
    }
  }

  method RunAll(ops: seq<Op>) returns (m: Manager, started: seq<TailerCancel>)
    ensures fresh(m) && m.Valid() && |started| == Starts(ops, |ops|) && Distinct(started)
    ensures forall x :: x in m.launched <==> x in started
    ensures forall a, k :: 0 <= k < |started| ==> IsCurrent(ops, m.cancels, started, a, k)
    ensures forall k :: 0 <= k < |started| ==> (!started[k].cancelled <==> RunsOn(ops, k))
  {
    hide Survives, Distinct, IsCurrent, RunsOn, After;
    m := new Manager();
    started := [];
    FirstOp(ops);
    var i := 0;
    while i < |ops|
      invariant i <= |ops| && fresh(m) && fresh(m.launched) && m.Valid()
      invariant |started| == Starts(ops, i) && Distinct(started) && forall x :: x in m.launched <==> x in started
      invariant Shows(m.cancels, started, Current(ops, i))
    {
      started := RunOne(m, started, ops[i], Current(ops, i));
      i := i + 1;
    }
    forall a, k | 0 <= k < |started| ensures IsCurrent(ops, m.cancels, started, a, k) {
      EntryIsLast(ops, m.cancels, started, Current(ops, |ops|), a, k);
    }
    forall k | 0 <= k < |started| ensures !started[k].cancelled <==> RunsOn(ops, k) {
      RunningIsLast(ops, m, started, k);
    }
  }
}
