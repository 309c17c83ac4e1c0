/** The head and tail windows an adoption reads of a long transcript: their lines are a prefix
    and a suffix of the whole file's, so the state read off the tail never claims a question to
    the user that the whole transcript does not have open. */
module AdoptWindows {
  import opened Octets
  import opened Tables
  import opened Transcript
  import opened Tailer

  const HEAD_WINDOW: nat := 0x10000
  const TAIL_WINDOW: nat := 0x40000

  /** The position past the last newline, 0 when there is none. */
  function PastLastNewline(data: Bytes): (i: nat)
    ensures i <= |data| && (i > 0 ==> data[i - 1] == NEWLINE) && NEWLINE !in data[i..]
  {
    if data == [] then 0
    else if data[|data| - 1] == NEWLINE then |data|
    else
      var i := PastLastNewline(data[..|data| - 1]);
      assert data[i..] == data[..|data| - 1][i..] + [data[|data| - 1]];
      i
  }

  function TrimNewline(data: Bytes): Bytes {
    if data != [] && data[|data| - 1] == NEWLINE then data[..|data| - 1] else data
  }

  /** The file's lines: its newline-separated pieces, without an empty last one. */
  function Pieces(data: Bytes): seq<Bytes> {
    var t := TrimNewline(data);
    if t == [] then [] else Lines(t) + [Partial(t)]
  }

  /** What follows the first newline. */
  function PastFirst(data: Bytes): Bytes {
    if FirstNewline(data) == |data| then [] else data[FirstNewline(data) + 1..]
  }

  /** What does not follow the last newline. */
  function UpToLast(data: Bytes): Bytes { data[..PastLastNewline(data)] }

  /** The bytes a window keeps. */
  function Kept(data: Bytes, discardFirst: bool, discardLast: bool): Bytes {
    var rest := if discardFirst then PastFirst(data) else data;
    if discardLast then UpToLast(rest) else rest
  }

  lemma NothingLast(data: Bytes)
    requires data == [] || data[|data| - 1] == NEWLINE
    ensures UpToLast(data) == data
  {}

  lemma PiecesSplit(data: Bytes)
    ensures Pieces(data) == if TrimNewline(data) == [] then [] else Split(TrimNewline(data))
  {
    hide Lines, Partial;
  }

  lemma CutLast(data: Bytes, past: nat)
    requires past == PastLastNewline(data)
    ensures UpToLast(data) == data[..past] && (past == 0 ==> UpToLast(data) == [])
  {}

  lemma NoPiecesInNothing()
    ensures Pieces([]) == [] && UpToLast([]) == []
  {}

  method SplitTranscriptLines(data: Bytes, discardFirst: bool, discardLast: bool) returns (lines: seq<Bytes>)
    ensures lines == Pieces(Kept(data, discardFirst, discardLast))
  {
    hide Lines, Partial, PastLastNewline, Split, Pieces, UpToLast, TrimNewline;
    PiecesSplit(Kept(data, discardFirst, discardLast));
    NoPiecesInNothing();
    var data := data;
    if discardFirst {
      var firstNewline := FirstNewline(data);
      if firstNewline == |data| { return []; }
      data := data[firstNewline + 1..];
    }
    if discardLast && |data| > 0 && data[|data| - 1] != NEWLINE {
      var past := PastLastNewline(data);
      CutLast(data, past);
      if past == 0 { return []; }
      data := data[..past];
    } else if discardLast {
      NothingLast(data);
    }
    data := TrimNewline(data);
    if data == [] { return []; }
    return Split(data);
  }

  /** bytes.Split on the newline. */
  function Split(data: Bytes): (pieces: seq<Bytes>)
    ensures pieces == Lines(data) + [Partial(data)]
  {
    var i := FirstNewline(data);
    if i == |data| then [data] else [data[..i]] + Split(data[i + 1..])
  }

  function TailStart(file: Bytes): nat {
    if |file| > TAIL_WINDOW then |file| - TAIL_WINDOW else 0
  }

  method ReadAdoptWindows(file: Bytes) returns (head: seq<Bytes>, tail: seq<Bytes>)
    // The head is the whole file's, or the lines that end inside its window; a line that is
    // empty is not one when it stands alone.
    ensures head <= Pieces(file)
    ensures |file| <= HEAD_WINDOW ==> head == Pieces(file)
    ensures |file| > HEAD_WINDOW ==>
      head == if Lines(file[..HEAD_WINDOW]) == [[]] then [] else Lines(file[..HEAD_WINDOW])
    // The tail is the whole file's, or that of what follows the first newline in its window.
    ensures exists k :: 0 <= k <= |Pieces(file)| && tail == Pieces(file)[k..]
    ensures |file| <= TAIL_WINDOW ==> tail == Pieces(file)
    ensures |file| > TAIL_WINDOW ==>
      var window := file[|file| - TAIL_WINDOW..];
      tail == if FirstNewline(window) == |window| then [] else Pieces(window[FirstNewline(window) + 1..])
  {
    hide Lines, Partial, Pieces, PastLastNewline, FirstNewline;
    var headSize := if |file| < HEAD_WINDOW then |file| else HEAD_WINDOW;
    var tailStart := TailStart(file);
    head := SplitTranscriptLines(file[..headSize], false, |file| > headSize);
    tail := SplitTranscriptLines(file[tailStart..], tailStart > 0, false);
    HeadIsPrefix(file, headSize);
    TailIsSuffix(file, tailStart);
    assert file[..|file|] == file && file[0..] == file;
    if |file| > HEAD_WINDOW { HeadLines(file[..headSize]); }
    NoPieces([]);
  }

  /** The pieces of what precedes the last newline are the complete lines. */
  lemma HeadLines(window: Bytes)
    ensures Pieces(UpToLast(window)) == if Lines(window) == [[]] then [] else Lines(window)
  {
    hide Lines, Partial, Pieces, PastLastNewline;
    var before := UpToLast(window);
    var rest := window[|before|..];
    assert window == before + rest && FirstNewline(rest) == |rest|;
    LinesAfter(before, rest);
    NoCut(rest);
    assert Lines(before) + [] == Lines(before);
    if before == [] {
      NoPieces(before);
      NoCut(before);
    } else {
      WholeLines(before);
      OneLine(before);
    }
  }

  lemma OneLine(before: Bytes)
    requires before != [] && before[|before| - 1] == NEWLINE
    ensures Lines(before) == [[]] <==> |before| == 1
  {
    hide Partial;
    if |before| == 1 {
      CutAtFirst(before, 0);
      NoCut(before[1..]);
    } else if before[0] == NEWLINE {
      CutAtFirst(before, 0);
      assert Lines(before[1..]) != [];
    }
  }

  // ---------------------------------------------------------------- prefixes and suffixes

  lemma {:induction false} EndsWithNewline(data: Bytes)
    requires data == [] || data[|data| - 1] == NEWLINE
    ensures Partial(data) == []
  {
    var i := FirstNewline(data);
    if i < |data| { EndsWithNewline(data[i + 1..]); }
  }

  lemma TrimAfter(before: Bytes, data: Bytes)
    requires data != []
    ensures TrimNewline(before + data) == before + TrimNewline(data)
  {}

  lemma PiecesOf(data: Bytes, t: Bytes)
    requires TrimNewline(data) == t && t != []
    ensures Pieces(data) == Lines(t) + [Partial(t)]
  {}

  lemma LinesAfter(before: Bytes, t: Bytes)
    requires before == [] || before[|before| - 1] == NEWLINE
    ensures Lines(before + t) == Lines(before) + Lines(t) && Partial(before + t) == Partial(t)
  {
    hide Lines, Partial;
    EndsWithNewline(before);
    LinesSplit(before, t);
    assert [] + t == t;
  }

  /** Whole lines in front of some bytes are in front of their pieces. */
  lemma PiecesAfter(before: Bytes, data: Bytes)
    requires before == [] || before[|before| - 1] == NEWLINE
    requires TrimNewline(data) != []
    ensures Pieces(before + data) == Lines(before) + Pieces(data)
  {
    hide Lines, Partial, Pieces;
    var t := TrimNewline(data);
    TrimAfter(before, data);
    LinesAfter(before, t);
    PiecesOf(data, t);
    PiecesOf(before + data, before + t);
  }

  lemma HeadIsPrefix(file: Bytes, size: nat)
    requires size <= |file|
    ensures Pieces(Kept(file[..size], false, |file| > size)) <= Pieces(file)
  {
    if size == |file| {
      assert file[..size] == file;
    } else {
      var head := file[..size];
      var before := head[..PastLastNewline(head)];
      var rest := file[|before|..];
      assert file == before + rest;
      if before == [] {
        assert Pieces(before) == [];
      } else {
        WholeLines(before);
        if TrimNewline(rest) != [] {
          PiecesAfter(before, rest);
        } else {
          assert rest == [NEWLINE];
          assert TrimNewline(file) == before;
        }
      }
    }
  }

  lemma OneMoreNewline(t: Bytes)
    ensures Lines(t + [NEWLINE]) == Lines(t) + [Partial(t)]
  {
    hide Lines, Partial;
    var p := Partial(t) + [NEWLINE];
    LinesSplit(t, [NEWLINE]);
    PartialHasNoNewline(t);
    CutAtFirst(p, |Partial(t)|);
    NoCut([]);
    assert p[..|Partial(t)|] == Partial(t) && p[|Partial(t)| + 1..] == [];
  }

  lemma NoPieces(data: Bytes)
    requires TrimNewline(data) == []
    ensures Pieces(data) == []
  {}

  /** Of whole lines, the pieces are the lines, save that one empty line is none. */
  lemma WholeLines(before: Bytes)
    requires before != [] && before[|before| - 1] == NEWLINE
    ensures Pieces(before) == (if |before| == 1 then [] else Lines(before))
    ensures Pieces(before) <= Lines(before)
  {
    hide Lines, Partial, Pieces;
    var t := before[..|before| - 1];
    assert before == t + [NEWLINE] && TrimNewline(before) == t;
    OneMoreNewline(t);
    if t == [] { NoPieces(before); } else { PiecesOf(before, t); }
  }

  lemma TailIsSuffix(file: Bytes, start: nat)
    requires start <= |file|
    ensures exists k :: 0 <= k <= |Pieces(file)| && Pieces(Kept(file[start..], start > 0, false)) == Pieces(file)[k..]
  {
    hide Lines, Partial, Pieces;
    var all := Pieces(file);
    if start == 0 {
      assert file[0..] == file && all[0..] == all;
    } else {
      var data := file[start..];
      var kept := Kept(data, true, false);
      if TrimNewline(kept) == [] {
        NoPieces(kept);
        assert all[|all|..] == [];
      } else {
        var cut := start + FirstNewline(data) + 1;
        assert kept == file[cut..] && file == file[..cut] + kept;
        PiecesAfter(file[..cut], kept);
        assert all[|Lines(file[..cut])|..] == Pieces(kept);
      }
    }
  }

  // ---------------------------------------------------------------- the state read off the tail

  lemma DecodedTail(decode: Decoder, lines: seq<Bytes>, k: nat)
    requires k <= |lines|
    ensures Decoded(decode, lines[k..]) == Decoded(decode, lines)[k..]
  {}

  /** An adoption candidate that reads as awaiting input has a question open in its whole file. */
  lemma TailAwaitingIsReal(decode: Decoder, file: Bytes, tail: seq<Bytes>, k: nat)
    requires k <= |Pieces(file)| && tail == Pieces(file)[k..]
    ensures var part, whole := Fold(Decoded(decode, tail)), Fold(Decoded(decode, Pieces(file)));
      && part.pending.Keys <= whole.pending.Keys
      && (StateOf(part).Awaiting? ==> StateOf(whole).Awaiting?)
  {
    DecodedTail(decode, Pieces(file), k);
    TailUnderstates(Decoded(decode, Pieces(file)), k);
  }

  /** A tail may still understate: with the question before the window, the tail says unknown. */
  lemma TailCanMiss(id: string)
    ensures var line := Some(Line(Assistant, false, Some(Message("m", "", None, Blocks([ToolUse(id, ASK_USER, "")])))));
      StateOf(Fold([line])).Awaiting? && StateOf(Fold([line][1..])).Unknown?
  {
    var line := Some(Line(Assistant, false, Some(Message("m", "", None, Blocks([ToolUse(id, ASK_USER, "")])))));
    var bs := [ToolUse(id, ASK_USER, "")];
    assert [line][..0] == [] && [line][1..] == [] && bs[..0] == [];
    assert FeedBlocks(EMPTY, bs) == FeedBlock(EMPTY, bs[0]);
    var a := Fold([line]);
    assert id in a.pending && a.pending[id] == ASK_USER;
    assert a.pending[id] in a.pending.Values;
  }
}
