/** The superset pty-daemon's control frames: a u32 big-endian total length, a u32 big-endian
    JSON length, the JSON. A body is the JSON's bytes. */
module FrameCodec {
  import opened Octets
  import opened Tables

  const MAX_FRAME: nat := 0x80_0000
  const U32: nat := 0x1_0000_0000

  // ---------------------------------------------------------------- u32, big-endian

  /** The bytes of a u32; a larger number is cut to its low 32 bits, as a conversion does. */
  function Encode32(n: nat): (bs: Bytes)
    ensures |bs| == 4
  {
    [n % U32 / 0x100_0000, n / 0x1_0000 % 256, n / 256 % 256, n % 256]
  }

  function Decode32(bs: Bytes): (n: nat)
    requires |bs| == 4
    ensures n < U32
  {
    var a: int, b: int, c: int, d: int := bs[0], bs[1], bs[2], bs[3];
    a * 0x100_0000 + b * 0x1_0000 + c * 256 + d
  }

  lemma U32RoundTrip(n: nat)
    ensures Decode32(Encode32(n)) == n % U32
  {
    var m := n % U32;
    LowBytes(n, m, n / U32);
    Digits(m);
  }

  lemma Digits(m: nat)
    ensures m / 0x100_0000 * 0x100_0000 + m / 0x1_0000 % 256 * 0x1_0000 + m / 256 % 256 * 256 + m % 256 == m
  {}

  lemma LowBytes(n: nat, m: nat, q: nat)
    requires n == q * U32 + m && m < U32
    ensures n % 256 == m % 256 && n / 256 % 256 == m / 256 % 256 && n / 0x1_0000 % 256 == m / 0x1_0000 % 256
  {
    assert n == q * 0x100_0000 * 256 + m;
    assert n / 256 == q * 0x100_0000 + m / 256;
    assert n / 256 == q * 0x1_0000 * 256 + m / 256;
    assert n / 0x1_0000 == q * 0x1_0000 + m / 0x1_0000;
    assert n / 0x1_0000 == q * 256 * 256 + m / 0x1_0000;
  }

  method PutU32(out: array<Byte>, at: nat, n: nat)
    requires at + 4 <= out.Length
    modifies out
    ensures out[at..at + 4] == Encode32(n)
    ensures out[..at] == old(out[..at]) && out[at + 4..] == old(out[at + 4..])
  {
    out[at] := n % U32 / 0x100_0000;
    out[at + 1] := n / 0x1_0000 % 256;
    out[at + 2] := n / 256 % 256;
    out[at + 3] := n % 256;
  }

  // ---------------------------------------------------------------- writing

  function Encode(body: Bytes): Bytes {
    Encode32(4 + |body|) + Encode32(|body|) + body
  }

  method WriteFrame(body: Bytes) returns (out: array<Byte>)
    ensures fresh(out) && out[..] == Encode(body)
  {
    out := new Byte[8 + |body|](_ => 0);
    PutU32(out, 0, 4 + |body|);
    PutU32(out, 4, |body|);
    forall i | 0 <= i < |body| { out[8 + i] := body[i]; }
    assert out[..] == out[..4] + out[4..8] + out[8..];
  }

  // ---------------------------------------------------------------- reading

  datatype Read = Frame(body: Bytes, consumed: nat) | Error

  function Decode(data: Bytes): Read {
    if |data| < 4 then Error
    else
      var total := Decode32(data[..4]);
      if total < 4 || total > MAX_FRAME || |data| < 4 + total then Error
      else
        var jsonLen := Decode32(data[4..8]);
        if jsonLen > total - 4 then Error else Frame(data[8..8 + jsonLen], 4 + total)
  }

  class Reader {
    const data: Bytes
    var pos: nat

    ghost predicate Valid()
      reads this
    {
      pos <= |data|
    }

    ghost function Rest(): Bytes
      reads this
      requires Valid()
    {
      data[pos..]
    }

    constructor (bytes: Bytes)
      ensures Valid() && Rest() == bytes && data == bytes
    {
      data, pos := bytes, 0;
    }

    /** io.ReadFull: n bytes or an error, having consumed what there was. */
    method ReadFull(n: nat) returns (bs: Option<Bytes>)
      requires Valid()
      modifies this
      ensures Valid()
      ensures n <= |old(Rest())| ==> bs == Some(old(Rest())[..n]) && Rest() == old(Rest())[n..]
      ensures n > |old(Rest())| ==> bs == None && Rest() == []
    {
      if pos + n > |data| {
        pos := |data|;
        return None;
      }
      assert data[pos..][..n] == data[pos..pos + n] && data[pos..][n..] == data[pos + n..];
      bs := Some(data[pos..pos + n]);
      pos := pos + n;
    }

    /** readSupersetFrame, up to the JSON decoding of the slice it returns. */
    method ReadFrame() returns (body: Option<Bytes>)
      requires Valid()
      modifies this
      ensures Valid()
      ensures match Decode(old(Rest()))
        case Error => body == None
        case Frame(b, consumed) => body == Some(b) && consumed <= |old(Rest())| && Rest() == old(Rest())[consumed..]
    {
      ghost var rest := Rest();
      var hdr := ReadFull(4);
      if hdr.None? { return None; }
      var total := Decode32(hdr.value);
      if total < 4 || total > MAX_FRAME { return None; }
      var buf := ReadFull(total);
      if buf.None? { return None; }
      assert rest[4..][..total] == rest[4..4 + total] && rest[4..][total..] == rest[4 + total..];
      assert buf.value[..4] == rest[4..8];
      var jsonLen := Decode32(buf.value[..4]);
      if jsonLen > |buf.value| - 4 { return None; }
      assert buf.value[4..4 + jsonLen] == rest[8..8 + jsonLen];
      return Some(buf.value[4..4 + jsonLen]);
    }
  }

  // ---------------------------------------------------------------- round trip

  lemma EncodedParts(body: Bytes, rest: Bytes)
    ensures var data := Encode(body) + rest;
      && |data| == 8 + |body| + |rest| && data[..4] == Encode32(4 + |body|) && data[4..8] == Encode32(|body|)
      && data[8..8 + |body|] == body && data[8 + |body|..] == rest
  {}

  lemma InCapReadsBack(body: Bytes, rest: Bytes)
    requires 4 + |body| <= MAX_FRAME
    ensures Decode(Encode(body) + rest) == Frame(body, |Encode(body)|)
  {
    hide Encode32, Decode32;
    EncodedParts(body, rest);
    U32RoundTrip(4 + |body|);
    U32RoundTrip(|body|);
  }

  /** A written frame reads back, and nothing after it is consumed, exactly when it is within the
      cap. Past the cap the reader refuses it or, once the lengths wrap, reads something else. */
  lemma RoundTripIff(body: Bytes, rest: Bytes)
    ensures var r := Decode(Encode(body) + rest);
      && (r.Frame? && r.body == body <==> 4 + |body| <= MAX_FRAME)
      && (4 + |body| <= MAX_FRAME ==> r.consumed == |Encode(body)|)
  {
    if 4 + |body| <= MAX_FRAME {
      InCapReadsBack(body, rest);
    } else {
      DecodeBounds(Encode(body) + rest);
    }
  }

  /** A frame with a payload after its JSON. */
  function Framed(json: Bytes, payload: Bytes): Bytes {
    Encode32(4 + |json| + |payload|) + Encode32(|json|) + json + payload
  }

  lemma FramedParts(json: Bytes, payload: Bytes, rest: Bytes)
    ensures var data, total := Framed(json, payload) + rest, 4 + |json| + |payload|;
      && |data| == 4 + total + |rest| && data[..4] == Encode32(total) && data[4..8] == Encode32(|json|)
      && data[8..8 + |json|] == json
  {}

  /** Of a frame with a payload exactly the JSON is read back, the payload is skipped with it and
      nothing after it is consumed, if and only if the frame is within the cap. */
  lemma PayloadIsSkipped(json: Bytes, payload: Bytes, rest: Bytes)
    ensures Decode(Framed(json, payload) + rest) == Frame(json, |Framed(json, payload)|)
      <==> 4 + |json| + |payload| <= MAX_FRAME
  {
    hide Encode32, Decode32;
    if 4 + |json| + |payload| <= MAX_FRAME {
      FramedParts(json, payload, rest);
      U32RoundTrip(4 + |json| + |payload|);
      U32RoundTrip(|json|);
    } else {
      DecodeBounds(Framed(json, payload) + rest);
    }
  }

  lemma DigitsBack(a: nat, b: nat, c: nat, d: nat, n: nat)
    requires a < 256 && b < 256 && c < 256 && d < 256 && n == a * 0x100_0000 + b * 0x1_0000 + c * 256 + d
    ensures n / 0x100_0000 == a && n / 0x1_0000 % 256 == b && n / 256 % 256 == c && n % 256 == d
  {
    assert n / 0x1_0000 == a * 256 + b;
    assert n / 256 == a * 0x1_0000 + b * 256 + c;
  }

  lemma BytesRoundTrip(bs: Bytes)
    requires |bs| == 4
    ensures Encode32(Decode32(bs)) == bs
  {
    var n := Decode32(bs);
    DigitsBack(bs[0], bs[1], bs[2], bs[3], n);
    assert n % U32 == n;
  }

  /** The reader accepts nothing else: what it returns is the JSON of a frame that starts there,
      and it consumes that frame. */
  lemma AcceptsOnlyFrames(data: Bytes) returns (payload: Bytes, rest: Bytes)
    ensures Decode(data).Frame? ==>
      && data == Framed(Decode(data).body, payload) + rest
      && Decode(data).consumed == |Framed(Decode(data).body, payload)|
  {
    hide Encode32, Decode32;
    payload, rest := [], [];
    if Decode(data).Frame? {
      var body, consumed := Decode(data).body, Decode(data).consumed;
      BytesRoundTrip(data[..4]);
      BytesRoundTrip(data[4..8]);
      payload, rest := data[8 + |body|..consumed], data[consumed..];
      assert data == data[..4] + data[4..8] + data[8..8 + |body|] + payload + rest;
    }
  }

  function EncodeAll(bodies: seq<Bytes>): Bytes {
    if bodies == [] then [] else Encode(bodies[0]) + EncodeAll(bodies[1..])
  }

  function DecodeAll(data: Bytes, n: nat): Option<(seq<Bytes>, Bytes)> {
    if n == 0 then Some(([], data))
    else match Decode(data)
      case Error => None
      case Frame(body, consumed) =>
        DecodeBounds(data);
        match DecodeAll(data[consumed..], n - 1)
        case None => None
        case Some((bs, rest)) => Some(([body] + bs, rest))
  }

  /** Whatever the bytes, the reader errors or returns a slice of what it consumed, and it never
      takes more than a frame's cap. */
  lemma DecodeBounds(data: Bytes)
    ensures Decode(data).Frame? ==>
      var r := Decode(data);
      && 8 <= 8 + |r.body| <= r.consumed <= |data| && r.consumed <= 4 + MAX_FRAME
      && r.body == data[8..8 + |r.body|]
  {}

  /** Any frames within the cap, written one after another, read back one after another, and
      exactly their bytes are consumed. */
  lemma {:induction false} StreamRoundTrip(bodies: seq<Bytes>, rest: Bytes)
    requires forall i :: 0 <= i < |bodies| ==> 4 + |bodies[i]| <= MAX_FRAME
    ensures DecodeAll(EncodeAll(bodies) + rest, |bodies|) == Some((bodies, rest))
  {
    if bodies == [] {
      assert [] + rest == rest;
    } else {
      var more := EncodeAll(bodies[1..]) + rest;
      assert EncodeAll(bodies) + rest == Encode(bodies[0]) + more;
      InCapReadsBack(bodies[0], more);
      StreamRoundTrip(bodies[1..], rest);
      assert (Encode(bodies[0]) + more)[|Encode(bodies[0])|..] == more;
      assert bodies == [bodies[0]] + bodies[1..];
    }
  }
}
