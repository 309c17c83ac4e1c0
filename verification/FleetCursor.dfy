/** The resume cursor of a fleet status never leads its snapshot.

    Handlers commit a mutation, then emit its frame under the stream's lock; emit appends and
    only then publishes the seq. A status request reads the seq under the same lock, and the
    tables one by one; the status handler reads the seq first. Every interleaving of those steps
    is a run, whatever order the request reads in. */
module FleetCursor {
  import opened Tables
  import Fleet

  datatype Table = Repos | Workstreams | Sprints | Agents | SubjectLog
  datatype Mutation = Mutation(table: Table, id: nat)
  datatype Logged = Logged(seqno: nat, mutation: Mutation)

  /** Where the emit that holds the stream's lock is. */
  datatype Lock = Free | Holding(m: Mutation) | Appended(n: nat) | Leaving

  /** A status request: the cursor once read, the number of frames then in the log, and the
      table reads made so far. */
  datatype Reader = Reader(cursor: Option<nat>, cut: nat, views: map<Table, set<Mutation>>)

  datatype State = State(committed: set<Mutation>, frames: seq<Logged>, lock: Lock, lastSeq: nat, reader: Reader)

  datatype Event =
    | Commit(m: Mutation)
    | LockFor(m: Mutation)       // emit starts on the frame of a committed mutation
    | Append(n: nat)             // the log accepts the frame under a seq past all others
    | Drop                       // the frame is coalesced away, or its append fails
    | Publish                    // lastSeq = seq
    | Unlock
    | ReadCursor
    | ReadTable(t: Table)

  ghost function Apply(s: State, e: Event): Option<State> {
    match e
    case Commit(m) => Some(s.(committed := s.committed + {m}))
    case LockFor(m) =>
      if s.lock.Free? && m in s.committed then Some(s.(lock := Holding(m))) else None
    case Append(n) =>
      if s.lock.Holding? && n > 0 && forall i :: 0 <= i < |s.frames| ==> s.frames[i].seqno < n then
        Some(s.(frames := s.frames + [Logged(n, s.lock.m)], lock := Appended(n)))
      else None
    case Drop => if s.lock.Holding? then Some(s.(lock := Leaving)) else None
    case Publish => if s.lock.Appended? then Some(s.(lastSeq := s.lock.n, lock := Leaving)) else None
    case Unlock => if s.lock.Leaving? then Some(s.(lock := Free)) else None
    case ReadCursor =>
      if s.lock.Free? && s.reader.cursor.None? then
        Some(s.(reader := s.reader.(cursor := Some(s.lastSeq), cut := |s.frames|)))
      else None
    case ReadTable(t) =>
      Some(s.(reader := s.reader.(views := s.reader.views[t := set m | m in s.committed && m.table == t])))
  }

  /** A daemon that resumed the subject at its last seq. */
  ghost predicate Init(s: State) {
    && s.lock.Free? && s.reader == Reader(None, 0, map[])
    && Ordered(s.frames) && s.lastSeq == High(s.frames)
    && forall i :: 0 <= i < |s.frames| ==> s.frames[i].mutation in s.committed
  }

  ghost predicate Ordered(frames: seq<Logged>) {
    && (forall i :: 0 <= i < |frames| ==> frames[i].seqno > 0)
    && forall i, j :: 0 <= i < j < |frames| ==> frames[i].seqno < frames[j].seqno
  }

  ghost function High(frames: seq<Logged>): nat {
    if frames == [] then 0 else frames[|frames| - 1].seqno
  }

  ghost predicate IsRun(states: seq<State>, events: seq<Event>) {
    && |states| == |events| + 1 && Init(states[0])
    && forall i :: 0 <= i < |events| ==> Apply(states[i], events[i]) == Some(states[i + 1])
  }

  /** The status handler's order: no table is read before the cursor. */
  ghost predicate CursorFirst(s: State, e: Event) { e.ReadTable? ==> s.reader.cursor.Some? }

  // ---------------------------------------------------------------- the invariant

  /** The log holds frames of committed mutations, and the published seq is that of the newest
      frame but the one just being appended. */
  ghost predicate LogOk(s: State) {
    && Ordered(s.frames)
    && (forall i :: 0 <= i < |s.frames| ==> s.frames[i].mutation in s.committed)
    && (s.lock.Holding? ==> s.lock.m in s.committed)
    && (if s.lock.Appended? then
          s.frames != [] && s.lock.n == High(s.frames) && s.lastSeq == High(s.frames[..|s.frames| - 1])
        else s.lastSeq == High(s.frames))
  }

  /** The cursor splits the log at the frames there were when it was read, and each table read
      since shows the mutations of those. */
  ghost predicate ReaderOk(s: State) {
    if s.reader.cursor.None? then s.reader.views == map[]
    else
      var cut, c := s.reader.cut, s.reader.cursor.value;
      && cut <= |s.frames| && c == High(s.frames[..cut])
      && forall i :: 0 <= i < cut && s.frames[i].mutation.table in s.reader.views.Keys ==>
           s.frames[i].mutation in s.reader.views[s.frames[i].mutation.table]
  }

  lemma Next(s: State, e: Event, s': State)
    requires LogOk(s) && ReaderOk(s) && Apply(s, e) == Some(s') && CursorFirst(s, e)
    ensures LogOk(s') && ReaderOk(s')
  {
    if e.Append? {
      assert s'.frames[..|s'.frames| - 1] == s.frames;
      if s.reader.cursor.Some? { assert s'.frames[..s.reader.cut] == s.frames[..s.reader.cut]; }
    } else if e.ReadCursor? {
      assert s.frames[..|s.frames|] == s.frames;
    }
  }

  lemma {:induction false} Along(states: seq<State>, events: seq<Event>, n: nat)
    requires IsRun(states, events) && n < |states|
    requires forall i :: 0 <= i < n ==> CursorFirst(states[i], events[i])
    ensures LogOk(states[n]) && ReaderOk(states[n])
  {
    if n > 0 {
      Along(states, events, n - 1);
      assert Apply(states[n - 1], events[n - 1]) == Some(states[n]);
      Next(states[n - 1], events[n - 1], states[n]);
    }
  }

  // ---------------------------------------------------------------- the property

  /** Whatever interleaves with the status handler's request, a mutation whose frame the cursor covers is
      in the view of its table; what a view lacks is delivered by the frames past the cursor. */
  lemma CursorNeverLeads(states: seq<State>, events: seq<Event>, n: nat, i: nat)
    requires IsRun(states, events) && n < |states|
    requires forall j :: 0 <= j < n ==> CursorFirst(states[j], events[j])
    requires states[n].reader.cursor.Some? && i < |states[n].frames|
    requires states[n].frames[i].mutation.table in states[n].reader.views.Keys
    ensures var s, f := states[n], states[n].frames[i];
      f.seqno <= s.reader.cursor.value ==> f.mutation in s.reader.views[f.mutation.table]
  {
    Along(states, events, n);
    var s := states[n];
    if i >= s.reader.cut && s.reader.cut > 0 {
      assert s.frames[s.reader.cut - 1].seqno < s.frames[i].seqno;
    }
  }

  // ---------------------------------------------------------------- emit takes these steps

  /** The stream that was resumed with the first k frames in the log. */
  ghost predicate Mirrors(s: State, k: nat, stream: Fleet.Stream) {
    && s.lastSeq == stream.lastSeq && |s.frames| == k + |stream.log|
    && forall i :: 0 <= i < |stream.log| ==> s.frames[k + i].seqno == stream.log[i].seqno
  }

  /** The steps of an emit that has the lock. */
  ghost function EmitSteps(s: State, appends: Option<nat>): seq<Event> {
    match appends
    case Some(n) => [Append(n), Publish, Unlock]
    case None => [Drop, Unlock]
  }

  /** The seq under which an emit appends its frame, if it is admitted and its append succeeds. */
  ghost function Accepted(stream: Fleet.Stream, x: Fleet.Input): Option<nat> {
    if Fleet.Emitted(stream, x).log == stream.log then None else x.append
  }

  /** One emit of the stream, from its lock to its unlock, is a run of these steps: the frame is
      appended before its seq is published, or both are left out. */
  lemma EmitIsSteps(s: State, k: nat, stream: Fleet.Stream, x: Fleet.Input) returns (states: seq<State>)
    requires Mirrors(s, k, stream) && s.lock.Holding?
    requires x.append.Some? ==>
      x.append.value > 0 && forall i :: 0 <= i < |s.frames| ==> s.frames[i].seqno < x.append.value
    ensures var events := EmitSteps(s, Accepted(stream, x));
      && |states| == |events| + 1 && states[0] == s
      && (forall i :: 0 <= i < |events| ==> Apply(states[i], events[i]) == Some(states[i + 1]))
      && states[|events|].lock.Free? && Mirrors(states[|events|], k, Fleet.Emitted(stream, x))
  {
    if Accepted(stream, x).Some? {
      var s1 := s.(frames := s.frames + [Logged(x.append.value, s.lock.m)], lock := Appended(x.append.value));
      var s2 := s1.(lastSeq := x.append.value, lock := Leaving);
      states := [s, s1, s2, s2.(lock := Free)];
    } else {
      var s1 := s.(lock := Leaving);
      states := [s, s1, s1.(lock := Free)];
    }
  }

  /** The order matters: a table read before the cursor can miss a mutation that the cursor
      covers, which the resumed stream then never delivers. One mutation is committed and its
      frame published in between. */
  lemma TablesFirstWouldLead(m: Mutation) returns (states: seq<State>, events: seq<Event>)
    ensures IsRun(states, events)
    ensures var s := states[|events|];
      && s.reader.cursor.Some? && |s.frames| == 1 && s.frames[0].mutation == m
      && s.frames[0].seqno <= s.reader.cursor.value
      && m.table in s.reader.views && m !in s.reader.views[m.table]
  {
    var s0 := State({}, [], Free, 0, Reader(None, 0, map[]));
    var s1 := s0.(reader := Reader(None, 0, map[m.table := {}]));
    var s2 := s1.(committed := s1.committed + {m});
    var s3 := s2.(lock := Holding(m));
    var s4 := s3.(frames := s3.frames + [Logged(1, m)], lock := Appended(1));
    var s5 := s4.(lastSeq := 1, lock := Leaving);
    var s6 := s5.(lock := Free);
    var s7 := s6.(reader := Reader(Some(1), 1, map[m.table := {}]));
    assert (set x | x in s0.committed && x.table == m.table) == {};
    assert Apply(s0, ReadTable(m.table)) == Some(s1) && Apply(s1, Commit(m)) == Some(s2);
    assert Apply(s2, LockFor(m)) == Some(s3) && Apply(s3, Append(1)) == Some(s4);
    assert Apply(s4, Publish) == Some(s5) && Apply(s5, Unlock) == Some(s6) && Apply(s6, ReadCursor) == Some(s7);
    states := [s0, s1, s2, s3, s4, s5, s6, s7];
    events := [ReadTable(m.table), Commit(m), LockFor(m), Append(1), Publish, Unlock, ReadCursor];
  }
}
