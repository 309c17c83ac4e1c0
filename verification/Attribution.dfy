/** Which live claude process an adoption stops: attributeForeignClaude, against a verdict that
    reads the processes and the candidate sessions as sets.

    Times are nanoseconds; a process's start is known to the second. */
module Attribution {
  import opened Tables

  const SECOND: int := 1_000_000_000

  datatype Process = Process(pid: int, ppid: int, cwd: string, argv: seq<string>, start: int)
  datatype Candidate = Candidate(sid: string, mtime: int)

  datatype Attribution =
    | Stop(pid: int)              // the process to stop
    | Refuse(pids: seq<int>)      // ambiguous
    | NoProcess                   // adopted without a kill

  ghost predicate UniquePids(procs: seq<Process>) {
    forall i, j :: 0 <= i < j < |procs| ==> procs[i].pid != procs[j].pid
  }

  ghost predicate UniqueSids(candidates: seq<Candidate>) {
    forall i, j :: 0 <= i < j < |candidates| ==> candidates[i].sid != candidates[j].sid
  }

  // ---------------------------------------------------------------- arguments

  /** argv names the session as an argument of its own. */
  ghost predicate Names(argv: seq<string>, sid: string) {
    sid in argv || "--resume=" + sid in argv || "--session-id=" + sid in argv
  }

  ghost predicate Excluded(argv: seq<string>) {
    || "--session-id" in argv || "--resume" in argv
    || exists i :: 0 <= i < |argv| - 1 && argv[i] == "mcp" && argv[i + 1] == "serve"
  }

  method ArgvHasSid(argv: seq<string>, sid: string) returns (has: bool)
    ensures has == Names(argv, sid)
  {
    for i := 0 to |argv|
      invariant !Names(argv[..i], sid)
    {
      if argv[i] == sid || argv[i] == "--resume=" + sid || argv[i] == "--session-id=" + sid { return true; }
      assert argv[..i + 1] == argv[..i] + [argv[i]];
    }
    assert argv[..|argv|] == argv;
    return false;
  }

  method Tier2Excluded(argv: seq<string>) returns (excluded: bool)
    ensures excluded == Excluded(argv)
  {
    for i := 0 to |argv|
      invariant "--session-id" !in argv[..i] && "--resume" !in argv[..i]
      invariant forall k :: 0 <= k < i && k < |argv| - 1 ==> !(argv[k] == "mcp" && argv[k + 1] == "serve")
    {
      if argv[i] == "--session-id" || argv[i] == "--resume" { return true; }
      if argv[i] == "mcp" && i + 1 < |argv| && argv[i + 1] == "serve" { return true; }
      assert argv[..i + 1] == argv[..i] + [argv[i]];
    }
    assert argv[..|argv|] == argv;
    return false;
  }

  // ---------------------------------------------------------------- the verdict

  /** The processes in cwd whose arguments name the session. */
  ghost function Named(procs: set<Process>, cwd: string, sid: string): set<Process> {
    set p | p in procs && p.cwd == cwd && Names(p.argv, sid)
  }

  /** The claudes in cwd that look hand-started: nothing excluded, no parent among the others. */
  ghost function Bare(procs: set<Process>, cwd: string): set<Process> {
    set p |
      && p in procs && p.cwd == cwd && !Excluded(p.argv)
      && !exists q :: q in procs && q.cwd == cwd && q.pid == p.ppid
  }

  /** Written past the second in which the process started. */
  ghost predicate Claims(c: Candidate, p: Process) { c.mtime >= p.start + SECOND }

  /** The session with the strictly newest transcript. */
  ghost predicate Newest(c: Candidate, candidates: set<Candidate>) {
    forall d :: d in candidates && d.sid != c.sid ==> d.mtime < c.mtime
  }

  ghost predicate IsPids(pids: seq<int>, procs: set<Process>) {
    forall n :: n in pids <==> exists p :: p in procs && p.pid == n
  }

  /** What to do about the only bare process. */
  ghost predicate BareVerdict(p: Process, candidates: set<Candidate>, sid: string, r: Attribution) {
    if !exists c :: c in candidates && c.sid == sid then r == Refuse([p.pid])
    else
      exists t :: t in candidates && t.sid == sid &&
        r == if Claims(t, p) then Stop(p.pid)
             else if exists c :: c in candidates && c.sid != sid && Claims(c, p) then NoProcess
             else if exists c :: c in candidates && c.mtime >= p.start then Refuse([p.pid])
             else if Newest(t, candidates) then Stop(p.pid)
             else Refuse([p.pid])
  }

  ghost predicate Verdict(procs: set<Process>, cwd: string, candidates: set<Candidate>, sid: string, r: Attribution) {
    var named, bare := Named(procs, cwd, sid), Bare(procs, cwd);
    if named != {} then
      if |named| == 1 then exists p :: p in named && r == Stop(p.pid) else r.Refuse? && IsPids(r.pids, named)
    else if bare == {} then r == NoProcess
    else if |bare| == 1 then exists p :: p in bare && BareVerdict(p, candidates, sid, r)
    else r.Refuse? && IsPids(r.pids, bare)
  }

  // ---------------------------------------------------------------- the algorithm

  ghost function SetOf<T>(xs: seq<T>): set<T> { set x | x in xs }

  /** Of the first i processes, those in all. */
  ghost function Upto(procs: seq<Process>, i: nat, all: set<Process>): set<Process>
    requires i <= |procs|
  {
    set p | p in procs[..i] && p in all
  }

  /** found lists those of the first i processes that are in all, each once. */
  ghost predicate Collects(found: seq<Process>, procs: seq<Process>, i: nat, all: set<Process>)
    requires i <= |procs|
  {
    SetOf(found) == Upto(procs, i, all) && |found| == |SetOf(found)|
  }

  lemma CollectNext(found: seq<Process>, procs: seq<Process>, i: nat, all: set<Process>)
    requires UniquePids(procs) && i < |procs| && Collects(found, procs, i, all)
    ensures Collects(if procs[i] in all then found + [procs[i]] else found, procs, i + 1, all)
  {
    assert procs[..i + 1] == procs[..i] + [procs[i]];
    assert procs[i] !in procs[..i];
    if procs[i] in all { assert SetOf(found + [procs[i]]) == SetOf(found) + {procs[i]}; }
  }

  lemma CollectAll(found: seq<Process>, procs: seq<Process>, all: set<Process>)
    requires Collects(found, procs, |procs|, all) && all <= SetOf(procs)
    ensures SetOf(found) == all && |found| == |all|
  {}

  ghost predicate PidsIn(pids: set<int>, procs: seq<Process>, cwd: string) {
    forall n :: n in pids <==> exists q :: q in procs && q.cwd == cwd && q.pid == n
  }

  lemma BareIff(procs: seq<Process>, i: nat, cwd: string, pids: set<int>)
    requires i < |procs| && PidsIn(pids, procs, cwd)
    ensures procs[i] in Bare(SetOf(procs), cwd)
      <==> procs[i].cwd == cwd && !Excluded(procs[i].argv) && procs[i].ppid !in pids
  {}

  method CwdPids(procs: seq<Process>, cwd: string) returns (pids: set<int>)
    ensures PidsIn(pids, procs, cwd)
  {
    pids := {};
    for i := 0 to |procs|
      invariant PidsIn(pids, procs[..i], cwd)
    {
      assert procs[..i + 1] == procs[..i] + [procs[i]];
      if procs[i].cwd == cwd { pids := pids + {procs[i].pid}; }
    }
    assert procs[..|procs|] == procs;
  }

  method BareCwdClaudes(procs: seq<Process>, cwd: string) returns (bare: seq<Process>)
    requires UniquePids(procs)
    ensures SetOf(bare) == Bare(SetOf(procs), cwd) && |bare| == |Bare(SetOf(procs), cwd)|
  {
    hide Collects, Bare, PidsIn;
    var cwdPids := CwdPids(procs, cwd);
    bare := [];
    ghost var all := Bare(SetOf(procs), cwd);
    CollectNone(procs, all);
    for i := 0 to |procs|
      invariant Collects(bare, procs, i, all)
    {
      CollectNext(bare, procs, i, all);
      BareIff(procs, i, cwd, cwdPids);
      var excluded := Tier2Excluded(procs[i].argv);
      if procs[i].cwd != cwd || excluded { continue; }
      if procs[i].ppid in cwdPids { continue; }
      bare := bare + [procs[i]];
    }
    BareAmong(SetOf(procs), cwd);
    CollectAll(bare, procs, all);
  }

  lemma CollectNone(procs: seq<Process>, all: set<Process>)
    ensures Collects([], procs, 0, all)
  {}

  lemma BareAmong(procs: set<Process>, cwd: string)
    ensures Bare(procs, cwd) <= procs
  {}

  method PidsOf(procs: seq<Process>) returns (pids: seq<int>)
    ensures |pids| == |procs| && forall i :: 0 <= i < |procs| ==> pids[i] == procs[i].pid
  {
    pids := [];
    for i := 0 to |procs|
      invariant |pids| == i && forall k :: 0 <= k < i ==> pids[k] == procs[k].pid
    {
      pids := pids + [procs[i].pid];
    }
  }

  method CandidateById(candidates: seq<Candidate>, sid: string) returns (c: Option<Candidate>)
    ensures c.Some? ==> c.value in candidates && c.value.sid == sid
    ensures c.None? ==> forall d :: d in candidates ==> d.sid != sid
  {
    for i := 0 to |candidates|
      invariant forall k :: 0 <= k < i ==> candidates[k].sid != sid
    {
      if candidates[i].sid == sid { return Some(candidates[i]); }
    }
    return None;
  }

  method IsNewestCandidate(target: Candidate, candidates: seq<Candidate>) returns (newest: bool)
    ensures newest == Newest(target, SetOf(candidates))
  {
    for i := 0 to |candidates|
      invariant forall k :: 0 <= k < i && candidates[k].sid != target.sid ==> candidates[k].mtime < target.mtime
    {
      if candidates[i].sid == target.sid { continue; }
      if candidates[i].mtime >= target.mtime {
        assert candidates[i] in SetOf(candidates);
        return false;
      }
    }
    return true;
  }

  /** The part that decides about the only bare process. */
  method AttributeBare(p: Process, candidates: seq<Candidate>, sid: string) returns (r: Attribution)
    ensures BareVerdict(p, SetOf(candidates), sid, r)
  {
    var target := CandidateById(candidates, sid);
    if target.None? { return Refuse([p.pid]); }
    var t := target.value;
    assert t in SetOf(candidates);
    var claimThreshold := p.start + SECOND;
    if t.mtime >= claimThreshold { return Stop(p.pid); }
    for i := 0 to |candidates|
      invariant forall k :: 0 <= k < i && candidates[k].sid != sid ==> !Claims(candidates[k], p)
    {
      if candidates[i].sid != sid && candidates[i].mtime >= claimThreshold {
        assert candidates[i] in SetOf(candidates);
        return NoProcess;
      }
    }
    for i := 0 to |candidates|
      invariant forall k :: 0 <= k < i ==> candidates[k].mtime < p.start
    {
      if candidates[i].mtime >= p.start {
        assert candidates[i] in SetOf(candidates);
        return Refuse([p.pid]);
      }
    }
    var newest := IsNewestCandidate(t, candidates);
    return if newest then Stop(p.pid) else Refuse([p.pid]);
  }

  method AttributeForeignClaude(procs: seq<Process>, cwd: string, candidates: seq<Candidate>,
                                sid: string) returns (r: Attribution)
    requires UniquePids(procs)
    ensures Verdict(SetOf(procs), cwd, SetOf(candidates), sid, r)
  {
    hide Collects;
    ghost var named := Named(SetOf(procs), cwd, sid);
    var tier1: seq<int> := [];
    ghost var found: seq<Process> := [];
    CollectNone(procs, named);
    for i := 0 to |procs|
      invariant |tier1| == |found| && forall k :: 0 <= k < |found| ==> tier1[k] == found[k].pid
      invariant Collects(found, procs, i, named)
    {
      CollectNext(found, procs, i, named);
      var has := ArgvHasSid(procs[i].argv, sid);
      if procs[i].cwd == cwd && has {
        found, tier1 := found + [procs[i]], tier1 + [procs[i].pid];
      }
    }
    CollectAll(found, procs, named);
    PidsAre(tier1, found);
    if |tier1| == 1 {
      assert found[0] in named;
      return Stop(tier1[0]);
    }
    if |tier1| > 1 { return Refuse(tier1); }
    var bare := BareCwdClaudes(procs, cwd);
    if |bare| == 0 { return NoProcess; }
    if |bare| > 1 {
      var pids := PidsOf(bare);
      PidsAre(pids, bare);
      return Refuse(pids);
    }
    assert bare[0] in SetOf(bare);
    r := AttributeBare(bare[0], candidates, sid);
  }

  lemma PidsAre(pids: seq<int>, procs: seq<Process>)
    requires |pids| == |procs| && forall i :: 0 <= i < |procs| ==> pids[i] == procs[i].pid
    ensures IsPids(pids, SetOf(procs))
  {}

  // ---------------------------------------------------------------- order-free

  /** The same decision: for a refusal, over the same processes in whatever order. */
  ghost predicate SameDecision(r: Attribution, r': Attribution) {
    if r.Refuse? && r'.Refuse? then forall n :: n in r.pids <==> n in r'.pids else r == r'
  }

  ghost predicate OneEach(candidates: set<Candidate>) {
    forall c, d :: c in candidates && d in candidates && c.sid == d.sid ==> c == d
  }

  lemma OneOf<T>(s: set<T>, x: T, y: T)
    requires |s| == 1 && x in s && y in s
    ensures x == y
  {
    assert |s - {x}| == 0;
    assert y !in s - {x};
  }

  lemma OneBareVerdict(p: Process, candidates: set<Candidate>, sid: string, r: Attribution, r': Attribution)
    requires OneEach(candidates) && BareVerdict(p, candidates, sid, r) && BareVerdict(p, candidates, sid, r')
    ensures r == r'
  {}

  lemma OneVerdict(procs: set<Process>, cwd: string, candidates: set<Candidate>, sid: string, r: Attribution,
                   r': Attribution)
    requires OneEach(candidates)
    requires Verdict(procs, cwd, candidates, sid, r) && Verdict(procs, cwd, candidates, sid, r')
    ensures SameDecision(r, r')
  {
    var named, bare := Named(procs, cwd, sid), Bare(procs, cwd);
    if |named| == 1 {
      var p :| p in named && r == Stop(p.pid);
      var p' :| p' in named && r' == Stop(p'.pid);
      OneOf(named, p, p');
    } else if named == {} && |bare| == 1 {
      var p :| p in bare && BareVerdict(p, candidates, sid, r);
      var p' :| p' in bare && BareVerdict(p', candidates, sid, r');
      OneOf(bare, p, p');
      OneBareVerdict(p, candidates, sid, r, r');
    }
  }

  lemma SameElements<T>(xs: seq<T>, ys: seq<T>)
    requires multiset(xs) == multiset(ys)
    ensures SetOf(xs) == SetOf(ys)
  {
    forall x ensures x in xs <==> x in ys {
      assert x in xs <==> x in multiset(xs);
    }
  }

  /** The decision does not depend on the order in which processes and candidates were listed. */
  lemma OrderFree(procs: seq<Process>, procs': seq<Process>, cwd: string, candidates: seq<Candidate>,
                  candidates': seq<Candidate>,
                  sid: string, r: Attribution, r': Attribution)
    requires multiset(procs) == multiset(procs') && multiset(candidates) == multiset(candidates')
    requires UniqueSids(candidates)
    requires Verdict(SetOf(procs), cwd, SetOf(candidates), sid, r)
    requires Verdict(SetOf(procs'), cwd, SetOf(candidates'), sid, r')
    ensures SameDecision(r, r')
  {
    SameElements(procs, procs');
    SameElements(candidates, candidates');
    OneVerdict(SetOf(procs), cwd, SetOf(candidates), sid, r, r');
  }

  // ---------------------------------------------------------------- soundness

  ghost predicate OwnedBy(p: Process, candidates: set<Candidate>, sid: string) {
    exists t :: t in candidates && t.sid == sid
      && (Claims(t, p) || (Newest(t, candidates) && forall c :: c in candidates ==> c.mtime < p.start))
  }

  ghost predicate OnlyFor(procs: set<Process>, cwd: string, candidates: set<Candidate>, sid: string, p: Process) {
    || Named(procs, cwd, sid) == {p}
    || (Named(procs, cwd, sid) == {} && Bare(procs, cwd) == {p} && OwnedBy(p, candidates, sid))
  }

  /** A pid is given only to the one process whose arguments name the session, or to the one bare
      claude of the directory when the session wrote past its start, or when every session wrote
      before its start and this one last. */
  lemma PidIsJustified(procs: set<Process>, cwd: string, candidates: set<Candidate>, sid: string, pid: int)
    requires Verdict(procs, cwd, candidates, sid, Stop(pid))
    ensures exists p :: p in procs && p.pid == pid && p.cwd == cwd && OnlyFor(procs, cwd, candidates, sid, p)
  {
    var named, bare := Named(procs, cwd, sid), Bare(procs, cwd);
    if named != {} {
      var p :| p in named && p.pid == pid;
      forall q | q in named ensures q == p { OneOf(named, p, q); }
      assert named == {p};
    } else {
      var p :| p in bare && BareVerdict(p, candidates, sid, Stop(pid));
      forall q | q in bare ensures q == p { OneOf(bare, p, q); }
      assert bare == {p};
    }
  }

  ghost predicate OnePerPid(procs: set<Process>) {
    forall p, q :: p in procs && q in procs && p.pid == q.pid ==> p == q
  }

  lemma OwnedStops(p: Process, candidates: set<Candidate>, sid: string)
    requires OneEach(candidates)
    ensures BareVerdict(p, candidates, sid, Stop(p.pid)) <==> OwnedBy(p, candidates, sid)
  {
    if t :| t in candidates && t.sid == sid {
      assert forall c :: c in candidates && c.sid == sid ==> c == t;
    }
  }

  lemma JustifiedStops(procs: set<Process>, cwd: string, candidates: set<Candidate>, sid: string, p: Process)
    requires OneEach(candidates) && OnlyFor(procs, cwd, candidates, sid, p)
    ensures Verdict(procs, cwd, candidates, sid, Stop(p.pid))
  {
    if Named(procs, cwd, sid) == {p} {
      assert p in Named(procs, cwd, sid);
    } else {
      assert p in Bare(procs, cwd);
      OwnedStops(p, candidates, sid);
    }
  }

  /** Exactly when a process is given to a session. */
  lemma StopIff(procs: set<Process>, cwd: string, candidates: set<Candidate>, sid: string, p: Process)
    requires OnePerPid(procs) && OneEach(candidates) && p in procs
    ensures Verdict(procs, cwd, candidates, sid, Stop(p.pid)) <==> OnlyFor(procs, cwd, candidates, sid, p)
  {
    hide Verdict, OnlyFor;
    if Verdict(procs, cwd, candidates, sid, Stop(p.pid)) { PidIsJustified(procs, cwd, candidates, sid, p.pid); }
    if OnlyFor(procs, cwd, candidates, sid, p) { JustifiedStops(procs, cwd, candidates, sid, p); }
  }

  /** The session did not write past p's start and some other one did. */
  ghost predicate OwnedByAnother(p: Process, candidates: set<Candidate>, sid: string) {
    && (exists t :: t in candidates && t.sid == sid && !Claims(t, p))
    && exists c :: c in candidates && c.sid != sid && Claims(c, p)
  }

  /** The session is no candidate; or no session wrote past p's start, and either one may have
      written since or this one did not write last. */
  ghost predicate Unclear(p: Process, candidates: set<Candidate>, sid: string) {
    || (forall t :: t in candidates ==> t.sid != sid)
    || ((forall c :: c in candidates ==> !Claims(c, p))
        && ((exists c :: c in candidates && c.mtime >= p.start)
            || exists t :: t in candidates && t.sid == sid && !Newest(t, candidates)))
  }

  /** What a verdict about the only bare process is, by whose writes are past its start. */
  lemma BareCases(p: Process, candidates: set<Candidate>, sid: string, r: Attribution)
    requires OneEach(candidates)
    ensures BareVerdict(p, candidates, sid, NoProcess) <==> OwnedByAnother(p, candidates, sid)
    ensures r.Refuse? ==> (BareVerdict(p, candidates, sid, r) <==> Unclear(p, candidates, sid) && r.pids == [p.pid])
  {
    if t :| t in candidates && t.sid == sid {
      assert forall c :: c in candidates && c.sid == sid ==> c == t;
    }
  }

  lemma OnlyOne<T>(s: set<T>, x: T)
    requires |s| == 1 && x in s
    ensures s == {x}
  {
    forall y | y in s ensures y == x { OneOf(s, x, y); }
  }

  /** Exactly when a session is adopted without a kill: nothing names it, and no claude there is
      bare or the only one that is belongs to another session by its writes. */
  lemma NoProcessIff(procs: set<Process>, cwd: string, candidates: set<Candidate>, sid: string)
    requires OneEach(candidates)
    ensures Verdict(procs, cwd, candidates, sid, NoProcess) <==>
      && Named(procs, cwd, sid) == {}
      && (Bare(procs, cwd) == {} || exists p :: Bare(procs, cwd) == {p} && OwnedByAnother(p, candidates, sid))
  {
    hide BareVerdict, OwnedByAnother;
    var bare := Bare(procs, cwd);
    forall p | p in bare && |bare| == 1
      ensures bare == {p} && (BareVerdict(p, candidates, sid, NoProcess) <==> OwnedByAnother(p, candidates, sid))
    {
      OnlyOne(bare, p);
      BareCases(p, candidates, sid, NoProcess);
    }
    if p :| bare == {p} { assert p in bare && |bare| == 1; }
  }

  /** Exactly when an adopt is refused, and over which processes: several name the session; or
      none does and several are bare, or the only bare one is nobody's for certain. */
  lemma RefuseIff(procs: set<Process>, cwd: string, candidates: set<Candidate>, sid: string, pids: seq<int>)
    requires OneEach(candidates)
    ensures Verdict(procs, cwd, candidates, sid, Refuse(pids)) <==>
      var named, bare := Named(procs, cwd, sid), Bare(procs, cwd);
      || (|named| > 1 && IsPids(pids, named))
      || (named == {} && |bare| > 1 && IsPids(pids, bare))
      || (named == {} && exists p :: bare == {p} && Unclear(p, candidates, sid) && pids == [p.pid])
  {
    hide BareVerdict, Unclear, IsPids;
    var bare := Bare(procs, cwd);
    forall p | p in bare && |bare| == 1
      ensures bare == {p}
      ensures BareVerdict(p, candidates, sid, Refuse(pids)) <==> Unclear(p, candidates, sid) && pids == [p.pid]
    {
      OnlyOne(bare, p);
      BareCases(p, candidates, sid, Refuse(pids));
    }
    if p :| bare == {p} { assert p in bare && |bare| == 1; }
  }

  /** Which claudes of a directory are bare: those without a session flag as an argument of its
      own that are no mcp server and were not started by another process there. */
  lemma BareExactly(procs: set<Process>, cwd: string, p: Process)
    requires p in procs && p.cwd == cwd
    ensures p in Bare(procs, cwd) <==>
      && "--session-id" !in p.argv && "--resume" !in p.argv
      && (forall before, after :: p.argv != before + ["mcp", "serve"] + after)
      && (forall q :: q in procs && q.cwd == cwd ==> q.pid != p.ppid)
  {
    if i :| 0 <= i < |p.argv| - 1 && p.argv[i] == "mcp" && p.argv[i + 1] == "serve" {
      assert p.argv == p.argv[..i] + ["mcp", "serve"] + p.argv[i + 2..];
    }
    forall before: seq<string>, after: seq<string> | p.argv == before + ["mcp", "serve"] + after
      ensures Excluded(p.argv)
    {
      assert p.argv[|before|] == "mcp" && p.argv[|before| + 1] == "serve";
    }
  }

  /** argv gives the session to --resume or --session-id as the argument after it. */
  ghost predicate TakesAsOperand(argv: seq<string>, sid: string) {
    exists i :: 0 < i < |argv| && argv[i] == sid && (argv[i - 1] == "--resume" || argv[i - 1] == "--session-id")
  }

  /** A process whose arguments name another session, and not this one, is given to this one
      exactly when it is the only bare process of the directory, nothing there names this session,
      and this session owns it by its writes. It then has neither flag as an argument of its own
      and is no mcp server, so it names the other session by a combined form, or as an argument
      that belongs to no flag. */
  lemma GivenDespiteNaming(procs: set<Process>, cwd: string, candidates: set<Candidate>, sid: string, other: string,
                           p: Process)
    requires OnePerPid(procs) && OneEach(candidates) && p in procs
    requires !Names(p.argv, sid) && Names(p.argv, other)
    ensures Verdict(procs, cwd, candidates, sid, Stop(p.pid))
      <==> Named(procs, cwd, sid) == {} && Bare(procs, cwd) == {p} && OwnedBy(p, candidates, sid)
    ensures Verdict(procs, cwd, candidates, sid, Stop(p.pid)) ==>
      && !Excluded(p.argv) && !TakesAsOperand(p.argv, other)
      && ("--resume=" + other in p.argv || "--session-id=" + other in p.argv || other in p.argv)
  {
    hide Verdict;
    StopIff(procs, cwd, candidates, sid, p);
    assert p !in Named(procs, cwd, sid);
    if Bare(procs, cwd) == {p} { BareTakesNoOperand(procs, cwd, p, other); }
  }

  lemma BareTakesNoOperand(procs: set<Process>, cwd: string, p: Process, other: string)
    requires p in Bare(procs, cwd)
    ensures !Excluded(p.argv) && !TakesAsOperand(p.argv, other)
  {}

  /** A process that no session claims, neither through its arguments nor by writing past its
      start, is given to at most one session. */
  lemma UnclaimedGoesToOne(procs: set<Process>, cwd: string, candidates: set<Candidate>, s: string, s': string,
                           p: Process)
    requires OnePerPid(procs)
    requires p in procs && !Names(p.argv, s) && !Names(p.argv, s')
    requires forall c :: c in candidates && (c.sid == s || c.sid == s') ==> !Claims(c, p)
    requires Verdict(procs, cwd, candidates, s, Stop(p.pid)) && Verdict(procs, cwd, candidates, s', Stop(p.pid))
    ensures s == s'
  {
    PidIsJustified(procs, cwd, candidates, s, p.pid);
    PidIsJustified(procs, cwd, candidates, s', p.pid);
    assert p !in Named(procs, cwd, s) && p !in Named(procs, cwd, s');
    var t :| t in candidates && t.sid == s && Newest(t, candidates);
    var t' :| t' in candidates && t'.sid == s' && Newest(t', candidates);
  }

  /** Two sessions that both wrote past the start of the one bare claude are both given it. */
  lemma TwoClaimantsShare(p: Process, c: Candidate, d: Candidate)
    requires !Excluded(p.argv) && p.ppid != p.pid && Claims(c, p) && Claims(d, p)
    requires !Names(p.argv, c.sid) && !Names(p.argv, d.sid)
    ensures Verdict({p}, p.cwd, {c, d}, c.sid, Stop(p.pid)) || c.sid == d.sid
    ensures Verdict({p}, p.cwd, {c, d}, d.sid, Stop(p.pid)) || c.sid == d.sid
  {
    assert Named({p}, p.cwd, c.sid) == {} && Named({p}, p.cwd, d.sid) == {};
    assert Bare({p}, p.cwd) == {p};
    assert BareVerdict(p, {c, d}, c.sid, Stop(p.pid)) && BareVerdict(p, {c, d}, d.sid, Stop(p.pid));
  }

  /** The exclusion looks for the flag as an argument of its own, so a claude started with the
      combined form --resume=<other> still counts as bare and can be given to a session that is
      not the one it names. */
  lemma CombinedFormCountsAsBare(pid: int, cwd: string, other: string, t: Candidate, start: int)
    requires t.mtime >= start + SECOND && t.sid != other && |t.sid| > 0 && t.sid[0] != '-' && t.sid != "claude"
    ensures var p := Process(pid, pid - 1, cwd, ["claude", "--resume=" + other], start);
      Names(p.argv, other) && Verdict({p}, cwd, {t}, t.sid, Stop(pid))
  {
    var argv := ["claude", "--resume=" + other];
    var p := Process(pid, pid - 1, cwd, argv, start);
    DistinctForms(other, t.sid);
    assert argv[1] == "--resume=" + other;
    assert !Excluded(argv) by {
      assert argv[0] == "claude" && argv[0] != "--resume" && argv[0] != "--session-id" && argv[0] != "mcp";
    }
    assert Named({p}, cwd, t.sid) == {};
    assert Bare({p}, cwd) == {p};
    assert BareVerdict(p, {t}, t.sid, Stop(pid));
  }

  lemma DistinctForms(other: string, sid: string)
    requires sid != other && |sid| > 0 && sid[0] != '-' && sid != "claude"
    ensures var a := "--resume=" + other;
      && a != sid && a != "--resume=" + sid && a != "--session-id=" + sid && a != "--resume" && a != "--session-id"
      && !Names(["claude", a], sid)
  {
    var a := "--resume=" + other;
    assert a[0] == '-' && a[2] == 'r' && |a| >= 9;
    assert a[9..] == other && ("--resume=" + sid)[9..] == sid;
    assert ("--session-id=" + sid)[2] == 's' && "--session-id"[2] == 's';
    assert "claude"[0] == 'c' && ("--resume=" + sid)[0] == '-' && ("--session-id=" + sid)[0] == '-';
  }
}
