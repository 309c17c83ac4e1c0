/** The fleet stream: one append-only log of frames, its token-only status frames coalesced.

    Times are nanoseconds of one clock. What the append call returns is the environment's
    choice: no seq when it fails, a seq past every earlier one when it succeeds. */
module Fleet {
  import opened Tables

  const COALESCE_WINDOW: int := 3_000_000_000

  /** The part of a status whose change is a transition. */
  datatype Activity = Activity(state: string, tool: string, target: string)

  datatype Frame =
    | AgentStatus(agent: AgentId, activity: Activity, tokens: int)
    | AgentSpawned(agent: AgentId)
    | AgentRestarted(agent: AgentId, attempt: int)
    | AgentExited(agent: AgentId, reason: string)
    | AgentAbandoned(agent: AgentId, attempts: int)
    | AgentMessage(agent: AgentId)
    | AgentReport(agent: AgentId, state: string)
    | Container(frameType: string, id: nat)

  /** The frames that begin or end one life of agent a. */
  predicate Resets(fr: Frame, a: AgentId) {
    (fr.AgentSpawned? || fr.AgentRestarted? || fr.AgentExited?) && fr.agent == a
  }

  datatype Entry = Entry(seqno: nat, at: int, frame: Frame)
  datatype Coalesced = Coalesced(activity: Activity, lastEmit: int)

  /** The stream as a value; log holds the frames appended since it was started. */
  datatype Stream = Stream(lastSeq: nat, coalesce: map<AgentId, Coalesced>, log: seq<Entry>)

  /** One call of emit: the frame, the clock, and what the append would return. */
  datatype Input = Input(frame: Frame, now: int, append: Option<nat>)

  // ---------------------------------------------------------------- one emit

  predicate Admits(coalesce: map<AgentId, Coalesced>, a: AgentId, activity: Activity, now: int) {
    a in coalesce && coalesce[a].activity == activity ==> now - coalesce[a].lastEmit >= COALESCE_WINDOW
  }

  function Emitted(s: Stream, x: Input): Stream {
    if x.frame.AgentStatus? && !Admits(s.coalesce, x.frame.agent, x.frame.activity, x.now) then s
    else
      var coalesce :=
        if x.frame.AgentStatus? then s.coalesce[x.frame.agent := Coalesced(x.frame.activity, x.now)]
        else if x.frame.AgentSpawned? || x.frame.AgentRestarted? || x.frame.AgentExited? then
          s.coalesce - {x.frame.agent}
        else s.coalesce;
      match x.append
      case None => Stream(s.lastSeq, coalesce, s.log)
      case Some(n) => Stream(n, coalesce, s.log + [Entry(n, x.now, x.frame)])
  }

  class FleetStream {
    var lastSeq: nat
    var coalesce: map<AgentId, Coalesced>
    ghost var log: seq<Entry>

    ghost function State(): Stream
      reads this
    {
      Stream(lastSeq, coalesce, log)
    }

    /** startFleetStream: resumes the subject's seq with nothing coalesced. */
    constructor (current: nat)
      ensures State() == Stream(current, map[], [])
    {
      lastSeq, coalesce, log := current, map[], [];
    }

    method AdmitStatus(a: AgentId, activity: Activity, now: int) returns (admitted: bool)
      modifies this`coalesce
      ensures admitted == Admits(old(coalesce), a, activity, now)
      ensures coalesce == if admitted then old(coalesce)[a := Coalesced(activity, now)] else old(coalesce)
    {
      if a !in coalesce || coalesce[a].activity != activity {
        coalesce := coalesce[a := Coalesced(activity, now)];
        return true;
      }
      if now - coalesce[a].lastEmit >= COALESCE_WINDOW {
        coalesce := coalesce[a := coalesce[a].(lastEmit := now)];
        return true;
      }
      return false;
    }

    method ResetCoalesceOn(fr: Frame)
      modifies this`coalesce
      ensures coalesce ==
        if fr.AgentSpawned? || fr.AgentRestarted? || fr.AgentExited? then old(coalesce) - {fr.agent} else old(coalesce)
    {
      match fr
      case AgentExited(a, _) => coalesce := coalesce - {a};
      case AgentRestarted(a, _) => coalesce := coalesce - {a};
      case AgentSpawned(a) => coalesce := coalesce - {a};
      case _ =>
    }

    /** emit, under the stream's lock. */
    method Emit(fr: Frame, now: int, append: Option<nat>)
      modifies this
      ensures State() == Emitted(old(State()), Input(fr, now, append))
    {
      if fr.AgentStatus? {
        var admitted := AdmitStatus(fr.agent, fr.activity, now);
        if !admitted { return; }
      }
      ResetCoalesceOn(fr);
      if append.None? { return; }
      log := log + [Entry(append.value, now, fr)];
      lastSeq := append.value;
    }
  }

  // ---------------------------------------------------------------- runs

  function Run(s: Stream, xs: seq<Input>): Stream
    decreases |xs|
  {
    if xs == [] then s else Run(Emitted(s, xs[0]), xs[1..])
  }

  ghost predicate AppendsSucceed(xs: seq<Input>) {
    forall i :: 0 <= i < |xs| ==> xs[i].append.Some?
  }

  lemma {:induction false} LogGrows(s: Stream, xs: seq<Input>)
    ensures |Run(s, xs).log| >= |s.log| && Run(s, xs).log[..|s.log|] == s.log
    decreases |xs|
  {
    if xs != [] {
      LogGrows(Emitted(s, xs[0]), xs[1..]);
      var mid, end := Emitted(s, xs[0]).log, Run(s, xs).log;
      assert end[..|s.log|] == end[..|mid|][..|s.log|];
    }
  }

  /** What a run appends. */
  function Appended(s: Stream, xs: seq<Input>): seq<Entry> {
    LogGrows(s, xs);
    Run(s, xs).log[|s.log|..]
  }

  // ---------------------------------------------------------------- the published seq

  /** The seqs the log hands out grow, and are past the one the stream was resumed at. */
  ghost predicate SeqsGrow(s: Stream, xs: seq<Input>) {
    && (forall i :: 0 <= i < |xs| && xs[i].append.Some? ==> xs[i].append.value > s.lastSeq)
    && (forall i, j :: 0 <= i < j < |xs| && xs[i].append.Some? && xs[j].append.Some? ==>
          xs[i].append.value < xs[j].append.value)
  }

  ghost function Newest(log: seq<Entry>, start: nat): nat {
    if log == [] then start else log[|log| - 1].seqno
  }

  /** The published seq is that of the newest entry, whatever was coalesced and whichever appends
      failed: the one the stream was resumed at if nothing has been appended. */
  lemma {:induction false} PublishesNewest(s: Stream, xs: seq<Input>)
    ensures Run(s, xs).lastSeq == Newest(Appended(s, xs), s.lastSeq)
    decreases |xs|
  {
    if xs != [] {
      var mid := Emitted(s, xs[0]);
      PublishesNewest(mid, xs[1..]);
      LogGrows(s, xs);
      LogGrows(mid, xs[1..]);
      assert Appended(s, xs) == mid.log[|s.log|..] + Appended(mid, xs[1..]);
    }
  }

  ghost predicate Rising(es: seq<Entry>, start: nat) {
    && (forall i :: 0 <= i < |es| ==> start < es[i].seqno)
    && forall i, j :: 0 <= i < j < |es| ==> es[i].seqno < es[j].seqno
  }

  lemma RisingMore(e: Entry, es: seq<Entry>, start: nat)
    requires start < e.seqno && Rising(es, e.seqno)
    ensures Rising([e] + es, start)
  {}

  /** With growing seqs the published one never falls, and the entries' seqs rise. */
  lemma {:induction false} SeqNeverFalls(s: Stream, xs: seq<Input>)
    requires SeqsGrow(s, xs)
    ensures s.lastSeq <= Run(s, xs).lastSeq && Rising(Appended(s, xs), s.lastSeq)
    decreases |xs|
  {
    hide Rising;
    if xs == [] {
      assert Rising([], s.lastSeq) by { NoneRise(s.lastSeq); }
    } else {
      var mid := Emitted(s, xs[0]);
      assert SeqsGrow(mid, xs[1..]);
      SeqNeverFalls(mid, xs[1..]);
      LogGrows(s, xs);
      LogGrows(mid, xs[1..]);
      assert Appended(s, xs) == mid.log[|s.log|..] + Appended(mid, xs[1..]);
      if mid.log == s.log {
        assert Appended(s, xs) == Appended(mid, xs[1..]);
      } else {
        RisingMore(Entry(xs[0].append.value, xs[0].now, xs[0].frame), Appended(mid, xs[1..]), s.lastSeq);
        assert mid.log[|s.log|..] == [Entry(xs[0].append.value, xs[0].now, xs[0].frame)];
      }
    }
  }

  lemma NoneRise(start: nat)
    ensures Rising([], start)
  {}

  // ---------------------------------------------------------------- coalescing is stuttering

  /** What a consumer that follows one agent sees of a frame. */
  datatype Symbol = Shows(activity: Activity) | NewLife

  function Seen(a: AgentId, fr: Frame): seq<Symbol> {
    if fr.AgentStatus? && fr.agent == a then [Shows(fr.activity)]
    else if Resets(fr, a) then [NewLife]
    else []
  }

  function SeenIn(a: AgentId, frames: seq<Frame>): seq<Symbol> {
    if frames == [] then [] else Seen(a, frames[0]) + SeenIn(a, frames[1..])
  }

  /** Leaves out each activity that repeats the one before it in the same life. */
  function Destutter(prev: Option<Activity>, xs: seq<Symbol>): seq<Symbol>
    decreases |xs|
  {
    if xs == [] then []
    else match xs[0]
      case NewLife => [NewLife] + Destutter(None, xs[1..])
      case Shows(act) => (if prev == Some(act) then [] else [xs[0]]) + Destutter(Some(act), xs[1..])
  }

  function Frames(xs: seq<Input>): (frames: seq<Frame>)
    ensures |frames| == |xs| && forall i :: 0 <= i < |xs| ==> frames[i] == xs[i].frame
  {
    seq(|xs|, i requires 0 <= i < |xs| => xs[i].frame)
  }

  function Logged(es: seq<Entry>): (frames: seq<Frame>)
    ensures |frames| == |es| && forall i :: 0 <= i < |es| ==> frames[i] == es[i].frame
  {
    seq(|es|, i requires 0 <= i < |es| => es[i].frame)
  }

  function Current(s: Stream, a: AgentId): Option<Activity> {
    if a in s.coalesce then Some(s.coalesce[a].activity) else None
  }

  lemma AppendedStep(s: Stream, xs: seq<Input>)
    requires xs != []
    ensures var mid := Emitted(s, xs[0]);
      && |mid.log| >= |s.log|
      && Logged(Appended(s, xs)) == Logged(mid.log[|s.log|..]) + Logged(Appended(mid, xs[1..]))
  {
    var mid := Emitted(s, xs[0]);
    LogGrows(s, xs);
    LogGrows(mid, xs[1..]);
    assert Appended(s, xs) == mid.log[|s.log|..] + Appended(mid, xs[1..]);
  }

  /** With successful appends, a consumer of the coalesced log sees every agent go through the
      same activities, life by life, as one of the uncoalesced stream. */
  lemma {:induction false} CoalescingIsStuttering(s: Stream, xs: seq<Input>, a: AgentId)
    requires AppendsSucceed(xs)
    ensures Destutter(Current(s, a), SeenIn(a, Logged(Appended(s, xs))))
      == Destutter(Current(s, a), SeenIn(a, Frames(xs)))
    decreases |xs|
  {
    if xs == [] {
      assert Appended(s, xs) == [];
    } else {
      hide Run, Appended, Destutter;
      var mid := Emitted(s, xs[0]);
      var rest := Logged(Appended(mid, xs[1..]));
      CoalescingIsStuttering(mid, xs[1..], a);
      AppendedStep(s, xs);
      assert Frames(xs) == [xs[0].frame] + Frames(xs[1..]);
      SeenFirst(a, xs[0].frame, Frames(xs[1..]));
      DestutterSeen(s, a, xs[0], SeenIn(a, Frames(xs[1..])));
      if mid.log == s.log {
        assert Logged(mid.log[|s.log|..]) + rest == rest;
      } else {
        assert mid.log[|s.log|..] == [Entry(xs[0].append.value, xs[0].now, xs[0].frame)];
        assert Logged(mid.log[|s.log|..]) + rest == [xs[0].frame] + rest;
        SeenFirst(a, xs[0].frame, rest);
        DestutterSeen(s, a, xs[0], SeenIn(a, rest));
      }
    }
  }

  /** One frame: what it adds to the destuttered view, and how the view then goes on. */
  lemma DestutterSeen(s: Stream, a: AgentId, x: Input, rest: seq<Symbol>)
    requires x.append.Some?
    ensures var mid := Emitted(s, x);
      Destutter(Current(s, a), Seen(a, x.frame) + rest)
      == (if Resets(x.frame, a) || Current(mid, a) != Current(s, a) then Seen(a, x.frame) else [])
         + Destutter(Current(mid, a), rest)
  {
    var seen := Seen(a, x.frame);
    if seen == [] {
      assert seen + rest == rest;
    } else {
      assert (seen + rest)[1..] == rest;
    }
  }

  lemma SeenFirst(a: AgentId, fr: Frame, frames: seq<Frame>)
    ensures SeenIn(a, [fr] + frames) == Seen(a, fr) + SeenIn(a, frames)
  {}

  // ---------------------------------------------------------------- the throttle

  /** The agent's last status in its present life, read off the log. */
  function LastStatus(log: seq<Entry>, a: AgentId): Option<Coalesced> {
    if log == [] then None
    else
      var e := log[|log| - 1];
      if e.frame.AgentStatus? && e.frame.agent == a then Some(Coalesced(e.frame.activity, e.at))
      else if Resets(e.frame, a) then None
      else LastStatus(log[..|log| - 1], a)
  }

  /** The coalescing map says what the log says. */
  ghost predicate Faithful(s: Stream) {
    forall a :: LastStatus(s.log, a) == if a in s.coalesce then Some(s.coalesce[a]) else None
  }

  /** A frame is dropped exactly when it repeats, within the window, the activity the log shows
      last for its agent's present life; and the map goes on mirroring the log. */
  lemma DropsOnlyRepeats(s: Stream, x: Input)
    requires Faithful(s) && x.append.Some?
    ensures Faithful(Emitted(s, x))
    ensures Emitted(s, x).log ==
      if x.frame.AgentStatus? && LastStatus(s.log, x.frame.agent).Some?
        && LastStatus(s.log, x.frame.agent).value.activity == x.frame.activity
        && x.now - LastStatus(s.log, x.frame.agent).value.lastEmit < COALESCE_WINDOW
      then s.log
      else s.log + [Entry(x.append.value, x.now, x.frame)]
  {
    var s' := Emitted(s, x);
    if s'.log != s.log {
      assert s'.log[..|s'.log| - 1] == s.log;
      forall a ensures LastStatus(s'.log, a) == if a in s'.coalesce then Some(s'.coalesce[a]) else None {
        assert LastStatus(s.log, a) == if a in s.coalesce then Some(s.coalesce[a]) else None;
      }
    }
  }

  /** The entry at i only adds tokens to the status before it in the same life. */
  ghost predicate TokenOnly(log: seq<Entry>, i: nat)
    requires i < |log|
  {
    var e := log[i];
    e.frame.AgentStatus? && LastStatus(log[..i], e.frame.agent).Some?
    && LastStatus(log[..i], e.frame.agent).value.activity == e.frame.activity
  }

  ghost predicate Spaced(log: seq<Entry>) {
    forall i :: 0 <= i < |log| && TokenOnly(log, i) ==>
      log[i].at - LastStatus(log[..i], log[i].frame.agent).value.lastEmit >= COALESCE_WINDOW
  }

  lemma SpacedStep(s: Stream, x: Input)
    requires Faithful(s) && x.append.Some? && Spaced(s.log)
    ensures Spaced(Emitted(s, x).log)
  {
    DropsOnlyRepeats(s, x);
    var log := Emitted(s, x).log;
    forall i | 0 <= i < |log| && TokenOnly(log, i)
      ensures log[i].at - LastStatus(log[..i], log[i].frame.agent).value.lastEmit >= COALESCE_WINDOW
    {
      if i < |s.log| {
        assert log[..i] == s.log[..i];
        assert TokenOnly(s.log, i);
      } else {
        assert log[..i] == s.log;
      }
    }
  }

  /** A token-only status is never appended sooner than the window after its agent's last one. */
  lemma {:induction false} TokenOnlyIsSpaced(s: Stream, xs: seq<Input>)
    requires Faithful(s) && AppendsSucceed(xs) && Spaced(s.log)
    ensures Faithful(Run(s, xs)) && Spaced(Run(s, xs).log)
    decreases |xs|
  {
    if xs != [] {
      SpacedStep(s, xs[0]);
      DropsOnlyRepeats(s, xs[0]);
      TokenOnlyIsSpaced(Emitted(s, xs[0]), xs[1..]);
    }
  }

  /** After a frame that begins or ends a life, even one whose append fails, the agent's next
      status is appended whatever it is and however soon. */
  lemma NewLifeShows(s: Stream, x: Input, y: Input)
    requires y.frame.AgentStatus? && y.append.Some? && Resets(x.frame, y.frame.agent)
    ensures var mid := Emitted(s, x);
      Emitted(mid, y).log == mid.log + [Entry(y.append.value, y.now, y.frame)]
  {}

  /** Why the appends have to succeed: a transition whose append fails still becomes the
      reference, so the same status again within the window is dropped and never seen. */
  lemma FailedAppendLosesTransition(a: AgentId, act: Activity, now: int, n: nat)
    ensures var fr := AgentStatus(a, act, 0);
      var xs := [Input(fr, now, None), Input(fr, now + 1, Some(n))];
      && Appended(Stream(0, map[], []), xs) == []
      && SeenIn(a, Frames(xs)) == [Shows(act), Shows(act)]
  {
    var fr := AgentStatus(a, act, 0);
    var xs := [Input(fr, now, None), Input(fr, now + 1, Some(n))];
    var s0 := Stream(0, map[], []);
    var s1 := Emitted(s0, xs[0]);
    assert Emitted(s1, xs[1]) == s1;
    assert xs[1..] == [xs[1]] && xs[1..][1..] == [];
    assert Run(s1, xs[1..]) == Run(s1, []) == s1;
    var frames := Frames(xs);
    assert frames == [fr, fr] && frames[1..] == [fr] && frames[1..][1..] == [];
    assert SeenIn(a, [fr]) == [Shows(act)] by { assert [fr][1..] == []; }
  }
}
