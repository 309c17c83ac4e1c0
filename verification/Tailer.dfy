/** The transcript tailer: an append-only file read in whatever pieces the polls find, against
    the fold over its complete lines. */
module Tailer {
  import opened Octets
  import opened Tables
  import opened Transcript

  const NEWLINE: Byte := 10

  /** The JSON decoding of one line. */
  type Decoder = Bytes -> Option<Line>

  // ---------------------------------------------------------------- lines of a file

  /** The position of the first newline, or the length when there is none. */
  function FirstNewline(data: Bytes): (i: nat)
    ensures i <= |data| && (forall j :: 0 <= j < i ==> data[j] != NEWLINE) && (i < |data| ==> data[i] == NEWLINE)
  {
    if data == [] || data[0] == NEWLINE then 0 else 1 + FirstNewline(data[1..])
  }

  /** The newline-terminated lines, without their newlines. */
  function Lines(data: Bytes): seq<Bytes> {
    var i := FirstNewline(data);
    if i == |data| then [] else [data[..i]] + Lines(data[i + 1..])
  }

  /** What follows the last newline. */
  function Partial(data: Bytes): Bytes {
    var i := FirstNewline(data);
    if i == |data| then data else Partial(data[i + 1..])
  }

  lemma CutAtFirst(data: Bytes, i: nat)
    requires i < |data| && data[i] == NEWLINE && forall j :: 0 <= j < i ==> data[j] != NEWLINE
    ensures Lines(data) == [data[..i]] + Lines(data[i + 1..]) && Partial(data) == Partial(data[i + 1..])
  {}

  lemma NoCut(data: Bytes)
    requires FirstNewline(data) == |data|
    ensures Lines(data) == [] && Partial(data) == data
  {}

  /** Cutting the bytes anywhere, and carrying the partial line over the cut, gives the same lines. */
  lemma {:induction false} LinesSplit(a: Bytes, b: Bytes)
    ensures Lines(a + b) == Lines(a) + Lines(Partial(a) + b)
    ensures Partial(a + b) == Partial(Partial(a) + b)
  {
    hide Lines, Partial;
    var i := FirstNewline(a);
    if i == |a| {
      NoCut(a);
    } else {
      CutAtFirst(a, i);
      assert (a + b)[..i] == a[..i] && (a + b)[i + 1..] == a[i + 1..] + b;
      CutAtFirst(a + b, i);
      LinesSplit(a[i + 1..], b);
    }
  }

  lemma {:induction false} PartialHasNoNewline(data: Bytes)
    ensures NEWLINE !in Partial(data)
  {
    if FirstNewline(data) < |data| { PartialHasNoNewline(data[FirstNewline(data) + 1..]); }
  }

  function Decoded(decode: Decoder, lines: seq<Bytes>): (out: seq<Option<Line>>)
    ensures |out| == |lines| && forall i :: 0 <= i < |lines| ==> out[i] == decode(lines[i])
  {
    seq(|lines|, i requires 0 <= i < |lines| => decode(lines[i]))
  }

  /** The accumulator after every complete line of the data. */
  function FoldOf(decode: Decoder, data: Bytes): Acc { Fold(Decoded(decode, Lines(data))) }

  lemma FoldMore(decode: Decoder, lines: seq<Bytes>, line: Bytes)
    ensures Fold(Decoded(decode, lines + [line])) == Feed(Fold(Decoded(decode, lines)), decode(line))
  {
    var all := Decoded(decode, lines + [line]);
    assert all[..|all| - 1] == Decoded(decode, lines);
  }

  // ---------------------------------------------------------------- the tailer

  /** One callback: the poll it was made at, the status, and the live flag. */
  datatype Call = Call(poll: nat, status: Status, live: bool)

  const BASELINE := StatusOf(EMPTY)

  predicate Grows(file: Bytes, ends: seq<nat>) {
    && (forall i :: 0 <= i < |ends| ==> ends[i] <= |file|)
    && (forall i, j :: 0 <= i < j < |ends| ==> ends[i] <= ends[j])
  }

  /** The status of the first n polls' bytes, the baseline before any. */
  function StatusAfter(decode: Decoder, file: Bytes, ends: seq<nat>, n: nat): Status
    requires Grows(file, ends) && n <= |ends|
  {
    if n == 0 then BASELINE else StatusOf(FoldOf(decode, file[..ends[n - 1]]))
  }

  /** A callback for each poll that changed the status, live but for the first. */
  function Expected(decode: Decoder, file: Bytes, ends: seq<nat>, n: nat): seq<Call>
    requires Grows(file, ends) && n <= |ends|
  {
    if n == 0 then []
    else
      var st := StatusAfter(decode, file, ends, n);
      Expected(decode, file, ends, n - 1)
        + if st != StatusAfter(decode, file, ends, n - 1) then [Call(n - 1, st, n > 1)] else []
  }

  lemma NothingYet(decode: Decoder, file: Bytes)
    ensures FoldOf(decode, file[..0]) == EMPTY && Partial(file[..0]) == []
  {}

  /** runTailer: poll i finds the file grown to file[..ends[i]]; the tailer is cancelled after the
      last poll, and stops early when a read fails or a callback returns an error. */
  method RunTailer(decode: Decoder, file: Bytes, ends: seq<nat>, readable: nat -> bool, accepts: nat -> bool)
    returns (calls: seq<Call>, polls: nat, acc: StatusAcc, buf: Bytes, failed: bool)
    requires Grows(file, ends)
    ensures polls <= |ends| && calls == Expected(decode, file, ends, polls)
    ensures !failed ==> polls == |ends|
    ensures failed ==>
      || (polls < |ends| && !readable(polls))
      || (calls != [] && calls[|calls| - 1].poll == polls - 1 && !accepts(polls - 1))
    ensures !failed && polls > 0 ==>
      acc.Value() == FoldOf(decode, file[..ends[polls - 1]]) && buf == Partial(file[..ends[polls - 1]])
    ensures fresh(acc)
  {
    hide FoldOf, Fold, Lines, Partial, StatusOf;
    NothingYet(decode, file);
    acc := new StatusAcc();
    var last := acc.CurrentStatus();
    var offset, live := 0, false;
    calls, polls, buf, failed := [], 0, [], false;
    while polls < |ends|
      invariant polls <= |ends| && offset == (if polls == 0 then 0 else ends[polls - 1]) && live == (polls > 0)
      invariant calls == Expected(decode, file, ends, polls)
      invariant last == StatusAfter(decode, file, ends, polls) && fresh(acc)
      invariant acc.Value() == FoldOf(decode, file[..offset]) && buf == Partial(file[..offset])
      decreases |ends| - polls
    {
      if !readable(polls) { return calls, polls, acc, buf, true; }
      assert polls > 0 ==> ends[polls - 1] <= ends[polls];
      buf := FeedLines(decode, acc, buf, file[offset..ends[polls]], file[..offset]);
      assert file[..offset] + file[offset..ends[polls]] == file[..ends[polls]];
      offset := ends[polls];
      var cur := acc.CurrentStatus();
      polls := polls + 1;
      if cur != last {
        calls := calls + [Call(polls - 1, cur, live)];
        if !accepts(polls - 1) { return calls, polls, acc, buf, true; }
        last := cur;
      }
      live := true;
    }
  }

  /** The inner loop of runTailer: appends what was read to the buffer and feeds each line that
      is now complete. */
  method FeedLines(decode: Decoder, acc: StatusAcc, buf: Bytes, appended: Bytes,
                   ghost before: Bytes) returns (rest: Bytes)
    requires acc.Value() == FoldOf(decode, before) && buf == Partial(before)
    modifies acc
    ensures acc.Value() == FoldOf(decode, before + appended) && rest == Partial(before + appended)
  {
    hide Lines, Partial, Fold;
    rest := buf + appended;
    ghost var fed := Lines(before);
    LinesSplit(before, appended);
    while true
      invariant acc.Value() == Fold(Decoded(decode, fed))
      invariant fed + Lines(rest) == Lines(before + appended) && Partial(rest) == Partial(before + appended)
      decreases |rest|
    {
      var i := FirstNewline(rest);
      if i == |rest| {
        NoCut(rest);
        break;
      }
      CutAtFirst(rest, i);
      FoldMore(decode, fed, rest[..i]);
      acc.FeedLine(decode(rest[..i]));
      assert fed + Lines(rest) == (fed + [rest[..i]]) + Lines(rest[i + 1..]);
      fed := fed + [rest[..i]];
      rest := rest[i + 1..];
    }
    assert fed + [] == fed;
  }

  // ---------------------------------------------------------------- what that means

  /** What the consumer has been told last, the baseline if nothing. */
  function LastTold(calls: seq<Call>): Status {
    if calls == [] then BASELINE else calls[|calls| - 1].status
  }

  /** After every poll the consumer has been told the current status. */
  lemma {:induction false} ToldTheCurrent(decode: Decoder, file: Bytes, ends: seq<nat>, n: nat)
    requires Grows(file, ends) && n <= |ends|
    ensures LastTold(Expected(decode, file, ends, n)) == StatusAfter(decode, file, ends, n)
  {
    hide FoldOf, StatusOf;
    if n > 0 { ToldTheCurrent(decode, file, ends, n - 1); }
  }

  lemma ExpectedStep(decode: Decoder, file: Bytes, ends: seq<nat>, n: nat)
    requires Grows(file, ends) && 0 < n <= |ends|
    ensures var st, before := StatusAfter(decode, file, ends, n), Expected(decode, file, ends, n - 1);
      Expected(decode, file, ends, n)
        == if st != StatusAfter(decode, file, ends, n - 1) then before + [Call(n - 1, st, n > 1)] else before
  {}

  /** No callback repeats what the consumer was told before it, and only the first poll's is not live. */
  ghost predicate NoRepeats(calls: seq<Call>, n: nat) {
    forall i :: 0 <= i < |calls| ==>
      calls[i].status != LastTold(calls[..i]) && calls[i].poll < n && (calls[i].live <==> calls[i].poll > 0)
  }

  lemma NoRepeatsMore(calls: seq<Call>, call: Call, n: nat)
    requires NoRepeats(calls, n) && call.status != LastTold(calls) && call.poll == n && (call.live <==> n > 0)
    ensures NoRepeats(calls + [call], n + 1)
  {}

  lemma NeverRepeatsStep(decode: Decoder, file: Bytes, ends: seq<nat>, n: nat)
    requires Grows(file, ends) && 0 < n <= |ends| && NoRepeats(Expected(decode, file, ends, n - 1), n - 1)
    ensures NoRepeats(Expected(decode, file, ends, n), n)
  {
    hide Expected, StatusAfter, LastTold;
    ToldTheCurrent(decode, file, ends, n - 1);
    ExpectedStep(decode, file, ends, n);
    var before, st := Expected(decode, file, ends, n - 1), StatusAfter(decode, file, ends, n);
    if st != StatusAfter(decode, file, ends, n - 1) {
      NoRepeatsMore(before, Call(n - 1, st, n > 1), n - 1);
    }
  }

  lemma {:induction false} NeverRepeats(decode: Decoder, file: Bytes, ends: seq<nat>, n: nat)
    requires Grows(file, ends) && n <= |ends|
    ensures NoRepeats(Expected(decode, file, ends, n), n)
  {
    hide FoldOf, StatusOf, StatusAfter, LastTold;
    if n > 0 {
      NeverRepeats(decode, file, ends, n - 1);
      NeverRepeatsStep(decode, file, ends, n);
    }
  }

  /** How the file's bytes were cut into reads makes no difference to where the tailer ends up. */
  lemma ChunksDoNotMatter(decode: Decoder, file: Bytes, ends: seq<nat>, ends': seq<nat>)
    requires Grows(file, ends) && Grows(file, ends') && ends != [] && ends' != []
    requires ends[|ends| - 1] == ends'[|ends'| - 1]
    ensures LastTold(Expected(decode, file, ends, |ends|)) == LastTold(Expected(decode, file, ends', |ends'|))
  {
    ToldTheCurrent(decode, file, ends, |ends|);
    ToldTheCurrent(decode, file, ends', |ends'|);
  }

  /** onStatus: whether the restart budget of an agent that started its tailer with restarts is
      cleared by a callback. */
  function ResetsBudget(call: Call, restarts: nat): bool {
    call.live && restarts > 0 && HealthyState(call.status.state)
  }

  /** Only new transcript lines clear the budget: a reset needs a line completed since the replay. */
  lemma {:induction false} ReplayNeverResets(decode: Decoder, file: Bytes, ends: seq<nat>, n: nat, restarts: nat)
    requires Grows(file, ends) && 0 < n <= |ends| && Lines(file[..ends[n - 1]]) == Lines(file[..ends[0]])
    ensures forall call :: call in Expected(decode, file, ends, n) ==> !ResetsBudget(call, restarts)
  {
    if n > 1 {
      LinesBetween(file, ends[0], ends[n - 2], ends[n - 1]);
      ReplayNeverResets(decode, file, ends, n - 1, restarts);
    }
  }

  /** A call made at poll k. */
  lemma {:induction false} CallsOfPoll(decode: Decoder, file: Bytes, ends: seq<nat>, n: nat, k: nat, call: Call)
    requires Grows(file, ends) && k < n <= |ends|
    ensures call.poll == k ==>
      (call in Expected(decode, file, ends, n) <==>
         StatusAfter(decode, file, ends, k + 1) != StatusAfter(decode, file, ends, k)
         && call == Call(k, StatusAfter(decode, file, ends, k + 1), k > 0))
  {
    hide StatusAfter;
    ExpectedStep(decode, file, ends, n);
    if k < n - 1 { CallsOfPoll(decode, file, ends, n - 1, k, call); } else { NoneYet(decode, file, ends, k, k, call); }
  }

  lemma {:induction false} NoneYet(decode: Decoder, file: Bytes, ends: seq<nat>, n: nat, k: nat, call: Call)
    requires Grows(file, ends) && n <= k < |ends|
    ensures call.poll == k ==> call !in Expected(decode, file, ends, n)
  {
    hide StatusAfter;
    if n > 0 { NoneYet(decode, file, ends, n - 1, k, call); }
  }

  /** Exactly when poll k clears the restart count: it is not the replay, the agent had restarts
      when its tailer started, and the poll's lines gave it a new status that is a known one. */
  lemma ResetsExactly(decode: Decoder, file: Bytes, ends: seq<nat>, n: nat, k: nat, restarts: nat)
    requires Grows(file, ends) && k < n <= |ends|
    ensures (exists call :: call in Expected(decode, file, ends, n) && call.poll == k && ResetsBudget(call, restarts))
      <==> var st := StatusAfter(decode, file, ends, k + 1);
           k > 0 && restarts > 0 && st != StatusAfter(decode, file, ends, k) && st.state != Unknown
  {
    hide Expected, FoldOf;
    var st := StatusAfter(decode, file, ends, k + 1);
    forall call: Call | call.poll == k
      ensures call in Expected(decode, file, ends, n) <==>
        st != StatusAfter(decode, file, ends, k) && call == Call(k, st, k > 0)
    {
      CallsOfPoll(decode, file, ends, n, k, call);
    }
    assert Call(k, st, k > 0).poll == k;
  }

  lemma LinesBetween(file: Bytes, i: nat, j: nat, k: nat)
    requires i <= j <= k <= |file| && Lines(file[..k]) == Lines(file[..i])
    ensures Lines(file[..j]) == Lines(file[..i])
  {
    assert file[..j] == file[..i] + file[i..j] && file[..k] == file[..j] + file[j..k];
    LinesSplit(file[..i], file[i..j]);
    LinesSplit(file[..j], file[j..k]);
    assert |Lines(file[..j])| <= |Lines(file[..k])|;
  }
}
