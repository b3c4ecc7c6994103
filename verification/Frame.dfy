/** Length-delimited framing over a byte stream that delivers arbitrary short reads. */
module Frames {
  import opened Wrappers
  import opened Texts

  const MAX_FRAME_BYTES: nat := 1_048_576

  datatype FrameError =
    | Transport
    | UnexpectedEof
    | TooLarge(length: nat)
    | EmptyBody

  // ----- the wire format -----------------------------------------------------------

  /** u32::to_be_bytes. */
  function BigEndian(n: nat): seq<Byte>
    requires n < 0x1_0000_0000
  {
    [n / 0x100_0000, n / 0x1_0000 % 256, n / 256 % 256, n % 256]
  }

  /** u32::from_be_bytes. */
  function FromBigEndian(prefix: seq<Byte>): nat
    requires |prefix| == 4
  {
    var a: int, b: int, c: int, d: int := prefix[0], prefix[1], prefix[2], prefix[3];
    a * 0x100_0000 + b * 0x1_0000 + c * 256 + d
  }

  /** Dividing by a byte again and again. */
  lemma ByteByByte(n: nat)
    ensures n / 0x1_0000 == n / 256 / 256
    ensures n / 0x100_0000 == n / 256 / 256 / 256
  {
  }

  lemma BigEndianRoundTrip(n: nat)
    requires n < 0x1_0000_0000
    ensures FromBigEndian(BigEndian(n)) == n
    ensures var b: seq<int> := BigEndian(n); b[0] * 16_777_216 + b[1] * 65_536 + b[2] * 256 + b[3] == n
  {
    ByteByByte(n);
    var q := n / 256;
    var p := q / 256;
    assert n == q * 256 + n % 256 && q == p * 256 + q % 256 && p == p / 256 * 256 + p % 256;
  }

  predicate Sendable(body: seq<Byte>) {
    0 < |body| <= MAX_FRAME_BYTES
  }

  function Encode(body: seq<Byte>): seq<Byte>
    requires Sendable(body)
  {
    BigEndian(|body|) + body
  }

  /** The outcome of one read: a body, a clean end of the stream, or an error. */
  type Read = Result<Option<seq<Byte>>, FrameError>

  /** What one read makes of the bytes to come, and what it leaves of them. */
  function Decode(input: seq<Byte>): (Read, seq<Byte>) {
    if input == [] then (Ok(None), [])
    else if |input| < 4 then (Err(UnexpectedEof), [])
    else
      var length, rest := FromBigEndian(input[..4]), input[4..];
      if length == 0 then (Err(EmptyBody), rest)
      else if length > MAX_FRAME_BYTES then (Err(TooLarge(length)), rest)
      else if |rest| < length then (Err(UnexpectedEof), [])
      else (Ok(Some(rest[..length])), rest[length..])
  }

  /** Reading goes on after a frame and after an empty one, which both end at a boundary. */
  predicate AtBoundary(read: Read) {
    (read.Ok? && read.value.Some?) || read == Err(EmptyBody)
  }

  /** Every read a serve loop makes of a stream, in order. */
  function Reads(input: seq<Byte>): seq<Read>
    decreases |input|
  {
    var (read, rest) := Decode(input);
    if AtBoundary(read) then [read] + Reads(rest) else [read]
  }

  /** The bytes no read has looked at once the reading is over. */
  function Leftover(input: seq<Byte>): seq<Byte>
    decreases |input|
  {
    var (read, rest) := Decode(input);
    if AtBoundary(read) then Leftover(rest) else rest
  }

  function EncodeAll(bodies: seq<seq<Byte>>): seq<Byte>
    requires forall k :: 0 <= k < |bodies| ==> Sendable(bodies[k])
  {
    if bodies == [] then [] else Encode(bodies[0]) + EncodeAll(bodies[1..])
  }

  function Bodies(bodies: seq<seq<Byte>>): (list: seq<Read>)
    ensures |list| == |bodies|
  {
    if bodies == [] then [] else [Ok(Some(bodies[0]))] + Bodies(bodies[1..])
  }

  lemma {:induction false} ReadsUnfold(input: seq<Byte>, read: Read, rest: seq<Byte>)
    requires Decode(input) == (read, rest)
    ensures Reads(input) == if AtBoundary(read) then [read] + Reads(rest) else [read]
  {
  }

  lemma {:induction false} LeftoverUnfold(input: seq<Byte>, read: Read, rest: seq<Byte>)
    requires Decode(input) == (read, rest)
    ensures Leftover(input) == if AtBoundary(read) then Leftover(rest) else rest
    ensures AtBoundary(read) ==> |rest| < |input|
  {
  }

  // ----- round trip ------------------------------------------------------------------

  lemma DecodeFrame(body: seq<Byte>, tail: seq<Byte>)
    requires Sendable(body)
    ensures Decode(Encode(body) + tail) == (Ok(Some(body)), tail)
  {
    var input := Encode(body) + tail;
    assert input[..4] == BigEndian(|body|);
    assert input[4..] == body + tail;
    BigEndianRoundTrip(|body|);
  }

  /** A proper, non-empty prefix of a frame is an error, never a frame and never a clean end. */
  lemma DecodeTruncated(body: seq<Byte>, k: nat)
    requires Sendable(body) && 0 < k < |Encode(body)|
    ensures Decode(Encode(body)[..k]) == (Err(UnexpectedEof), [])
  {
    var input := Encode(body)[..k];
    if k >= 4 {
      assert input[..4] == BigEndian(|body|);
      BigEndianRoundTrip(|body|);
    }
  }

  /** A zero length is refused and leaves the reader at a frame boundary. */
  lemma {:induction false} DecodeEmpty(tail: seq<Byte>)
    ensures Reads(BigEndian(0) + tail) == [Err(EmptyBody)] + Reads(tail)
  {
    var input := BigEndian(0) + tail;
    assert input[..4] == BigEndian(0);
    assert input[4..] == tail;
    assert Decode(input) == (Err(EmptyBody), tail);
  }

  /** One whole frame ahead of anything is read as itself, then the rest. */
  lemma {:induction false} ReadsFrame(body: seq<Byte>, tail: seq<Byte>)
    requires Sendable(body)
    ensures Reads(Encode(body) + tail) == [Ok(Some(body))] + Reads(tail)
  {
    DecodeFrame(body, tail);
    assert Decode(Encode(body) + tail) == (Ok(Some(body)), tail);
  }

  /** Frames ahead of a tail are read as themselves, then the tail. */
  lemma {:induction false} ReadsFrames(bodies: seq<seq<Byte>>, tail: seq<Byte>)
    requires forall k :: 0 <= k < |bodies| ==> Sendable(bodies[k])
    ensures Reads(EncodeAll(bodies) + tail) == Bodies(bodies) + Reads(tail)
  {
    if bodies == [] {
      assert EncodeAll(bodies) + tail == tail;
      assert Bodies(bodies) + Reads(tail) == Reads(tail);
    } else {
      ReadsFrames(bodies[1..], tail);
      FrameAhead(bodies[0], EncodeAll(bodies[1..]), tail, Bodies(bodies[1..]));
    }
  }

  lemma FrameAhead(body: seq<Byte>, others: seq<Byte>, tail: seq<Byte>, received: seq<Read>)
    requires Sendable(body) && Reads(others + tail) == received + Reads(tail)
    ensures Reads(Encode(body) + others + tail) == [Ok(Some(body))] + received + Reads(tail)
  {
    ReadsFrame(body, others + tail);
    assert Encode(body) + others + tail == Encode(body) + (others + tail);
    assert [Ok(Some(body))] + (received + Reads(tail)) == [Ok(Some(body))] + received + Reads(tail);
  }

  lemma {:induction false} LeftoverPastFrames(bodies: seq<seq<Byte>>, tail: seq<Byte>)
    requires forall k :: 0 <= k < |bodies| ==> Sendable(bodies[k])
    ensures Leftover(EncodeAll(bodies) + tail) == Leftover(tail)
  {
    if bodies == [] {
      assert EncodeAll(bodies) + tail == tail;
    } else {
      var rest := EncodeAll(bodies[1..]) + tail;
      assert EncodeAll(bodies) + tail == Encode(bodies[0]) + rest;
      DecodeFrame(bodies[0], rest);
      assert Decode(Encode(bodies[0]) + rest) == (Ok(Some(bodies[0])), rest);
      LeftoverPastFrames(bodies[1..], tail);
    }
  }

  /** A length over the maximum ends the reading: no byte after it is looked at. */
  lemma {:induction false} OversizeEndsReading(bodies: seq<seq<Byte>>, length: nat, junk: seq<Byte>)
    requires forall k :: 0 <= k < |bodies| ==> Sendable(bodies[k])
    requires MAX_FRAME_BYTES < length < 0x1_0000_0000
    ensures Reads(EncodeAll(bodies) + (BigEndian(length) + junk)) == Bodies(bodies) + [Err(TooLarge(length))]
    ensures Leftover(EncodeAll(bodies) + (BigEndian(length) + junk)) == junk
  {
    var input := BigEndian(length) + junk;
    assert input[..4] == BigEndian(length);
    BigEndianRoundTrip(length);
    ReadsFrames(bodies, input);
    LeftoverPastFrames(bodies, input);
    assert input[4..] == junk;
    assert Decode(input) == (Err(TooLarge(length)), junk);
  }

  /** Writing bodies and reading the stream gives the bodies back, then a clean end. */
  lemma {:induction false} RoundTrip(bodies: seq<seq<Byte>>)
    requires forall k :: 0 <= k < |bodies| ==> Sendable(bodies[k])
    ensures Reads(EncodeAll(bodies)) == Bodies(bodies) + [Ok(None)]
  {
    ReadsFrames(bodies, []);
    assert EncodeAll(bodies) + [] == EncodeAll(bodies);
  }

  /** What reading yields after `whole` frames when the stream was cut at `cut`. */
  function Ending(cut: nat, boundary: nat): Read {
    if cut == boundary then Ok(None) else Err(UnexpectedEof)
  }

  /** Exactly the first `whole` frames lie before `cut`. */
  predicate WholeFrames(bodies: seq<seq<Byte>>, cut: nat, whole: nat)
    requires forall k :: 0 <= k < |bodies| ==> Sendable(bodies[k])
  {
    && whole <= |bodies|
    && |EncodeAll(bodies[..whole])| <= cut
    && (whole < |bodies| ==> cut < |EncodeAll(bodies[..whole + 1])|)
  }

  /**
    Cut anywhere, the stream reads as the frames that are whole, then cleanly
    ends when the cut is a frame boundary and is an error when it is not.
   */
  lemma {:induction false} CutAnywhere(bodies: seq<seq<Byte>>, cut: nat) returns (whole: nat)
    requires forall k :: 0 <= k < |bodies| ==> Sendable(bodies[k])
    requires cut <= |EncodeAll(bodies)|
    ensures WholeFrames(bodies, cut, whole)
    ensures Reads(EncodeAll(bodies)[..cut])
            == Bodies(bodies[..whole]) + [Ending(cut, |EncodeAll(bodies[..whole])|)]
  {
    if bodies == [] {
      whole := 0;
    } else if cut < |Encode(bodies[0])| {
      whole := 0;
      CutInFirst(bodies, cut);
    } else {
      var n := CutAnywhere(bodies[1..], cut - |Encode(bodies[0])|);
      whole := n + 1;
      CutPastFirst(bodies, cut, n);
    }
  }

  lemma {:induction false} CutInFirst(bodies: seq<seq<Byte>>, cut: nat)
    requires bodies != [] && forall k :: 0 <= k < |bodies| ==> Sendable(bodies[k])
    requires cut < |Encode(bodies[0])|
    ensures WholeFrames(bodies, cut, 0)
    ensures Reads(EncodeAll(bodies)[..cut]) == Bodies(bodies[..0]) + [Ending(cut, |EncodeAll(bodies[..0])|)]
  {
    var first := Encode(bodies[0]);
    assert EncodeAll(bodies)[..cut] == first[..cut];
    PrefixSize(bodies, 0);
    assert bodies[1..][..0] == [];
    if cut > 0 {
      DecodeTruncated(bodies[0], cut);
      assert Reads(first[..cut]) == [Err(UnexpectedEof)];
    }
  }

  lemma CutPastFirst(bodies: seq<seq<Byte>>, cut: nat, n: nat)
    requires bodies != [] && forall k :: 0 <= k < |bodies| ==> Sendable(bodies[k])
    requires |Encode(bodies[0])| <= cut <= |EncodeAll(bodies)|
    requires WholeFrames(bodies[1..], cut - |Encode(bodies[0])|, n)
    requires var left := cut - |Encode(bodies[0])|;
             Reads(EncodeAll(bodies[1..])[..left])
             == Bodies(bodies[1..][..n]) + [Ending(left, |EncodeAll(bodies[1..][..n])|)]
    ensures WholeFrames(bodies, cut, n + 1)
    ensures Reads(EncodeAll(bodies)[..cut])
            == Bodies(bodies[..n + 1]) + [Ending(cut, |EncodeAll(bodies[..n + 1])|)]
  {
    PrefixSize(bodies, n);
    if n + 1 < |bodies| {
      PrefixSize(bodies, n + 1);
    }
    assert bodies[..n + 1][1..] == bodies[1..][..n];
    OneMoreRead(bodies, cut, Bodies(bodies[1..][..n]), Ending(cut, |EncodeAll(bodies[..n + 1])|));
  }

  lemma OneMoreRead(bodies: seq<seq<Byte>>, cut: nat, whole: seq<Read>, ending: Read)
    requires bodies != [] && forall k :: 0 <= k < |bodies| ==> Sendable(bodies[k])
    requires |Encode(bodies[0])| <= cut <= |EncodeAll(bodies)|
    requires Reads(EncodeAll(bodies[1..])[..cut - |Encode(bodies[0])|]) == whole + [ending]
    ensures Reads(EncodeAll(bodies)[..cut]) == [Ok(Some(bodies[0]))] + whole + [ending]
  {
    var first, rest := Encode(bodies[0]), EncodeAll(bodies[1..]);
    ReadsFrame(bodies[0], rest[..cut - |first|]);
    assert EncodeAll(bodies)[..cut] == first + rest[..cut - |first|];
  }

  lemma {:induction false} EncodeOneMore(bodies: seq<seq<Byte>>, body: seq<Byte>)
    requires Sendable(body) && forall k :: 0 <= k < |bodies| ==> Sendable(bodies[k])
    ensures EncodeAll(bodies + [body]) == EncodeAll(bodies) + Encode(body)
  {
    if bodies == [] {
      assert bodies + [body] == [body] && [body][1..] == [];
    } else {
      assert (bodies + [body])[1..] == bodies[1..] + [body];
      EncodeOneMore(bodies[1..], body);
    }
  }

  lemma PrefixSize(bodies: seq<seq<Byte>>, n: nat)
    requires n < |bodies| && forall k :: 0 <= k < |bodies| ==> Sendable(bodies[k])
    ensures EncodeAll(bodies[..n + 1]) == Encode(bodies[0]) + EncodeAll(bodies[1..][..n])
  {
    assert bodies[..n + 1][1..] == bodies[1..][..n];
  }

  /** What a partial read does to the part read and the part to come. */
  lemma PartRead(input: seq<Byte>, filled: nat, n: nat)
    requires filled + n <= |input|
    ensures input[..filled] + input[filled..][..n] == input[..filled + n]
    ensures input[filled..][n..] == input[filled + n..]
  {
  }

  // ----- reading -----------------------------------------------------------------------

  /** A connected byte stream: what the peer has still to deliver, and what was sent to it. */
  class Stream {
    var pending: seq<Byte>
    var sent: seq<Byte>

    constructor (pending: seq<Byte>)
      ensures this.pending == pending && sent == []
    {
      this.pending := pending;
      sent := [];
    }

    /** One read into a buffer from `filled` on: any non-zero part of what is there. */
    method ReadInto(buf: array<Byte>, filled: nat) returns (r: Result<nat, FrameError>)
      requires filled < buf.Length
      modifies this`pending, buf
      ensures r.Err? ==> r.error == Transport
      ensures r.Ok? ==>
                && r.value <= |old(pending)| && filled + r.value <= buf.Length
                && (r.value == 0 <==> old(pending) == [])
                && pending == old(pending)[r.value..]
                && buf[..filled + r.value] == old(buf[..filled]) + old(pending)[..r.value]
    {
      var broken: bool := *;
      if broken {
        return Err(Transport);
      }
      if pending == [] {
        return Ok(0);
      }
      var room := buf.Length - filled;
      var most := if |pending| < room then |pending| else room;
      var n: nat :| 1 <= n <= most;
      forall k | 0 <= k < n {
        buf[filled + k] := pending[k];
      }
      pending := pending[n..];
      r := Ok(n);
    }

    /** read_exact: fills the buffer or fails. */
    method ReadExact(buf: array<Byte>) returns (r: Result<(), FrameError>)
      modifies this`pending, buf
      ensures r.Err? ==> r.error == Transport || (r.error == UnexpectedEof && |old(pending)| < buf.Length && pending == [])
      ensures r.Ok? ==> |old(pending)| >= buf.Length
                        && buf[..] == old(pending)[..buf.Length] && pending == old(pending)[buf.Length..]
    {
      var filled := 0;
      ghost var input := pending;
      while filled < buf.Length
        invariant filled <= buf.Length && filled <= |input|
        invariant buf[..filled] == input[..filled] && pending == input[filled..]
        decreases buf.Length - filled
      {
        var read := ReadInto(buf, filled);
        if read.Err? {
          return Err(read.error);
        }
        if read.value == 0 {
          return Err(UnexpectedEof);
        }
        PartRead(input, filled, read.value);
        filled := filled + read.value;
      }
      assert buf[..] == buf[..filled];
      r := Ok(());
    }

    /**
      Reads one frame.  However the stream splits its reads, the result and what
      is left are those of the bytes themselves, unless the transport breaks.
     */
    method ReadFrame() returns (r: Read)
      modifies this`pending
      ensures r == Err(Transport) || (r, pending) == Decode(old(pending))
    {
      ghost var input := pending;
      var lenBuf := new Byte[4];
      var filled := 0;
      while filled < lenBuf.Length
        invariant filled <= 4 && filled <= |input|
        invariant lenBuf[..filled] == input[..filled] && pending == input[filled..]
        invariant lenBuf.Length == 4
        decreases 4 - filled
      {
        var read := ReadInto(lenBuf, filled);
        if read.Err? {
          return Err(read.error);
        }
        if read.value == 0 {
          if filled == 0 {
            return Ok(None);
          }
          return Err(UnexpectedEof);
        }
        PartRead(input, filled, read.value);
        filled := filled + read.value;
      }
      assert lenBuf[..] == input[..4];
      var length := FromBigEndian(lenBuf[..]);
      if length == 0 {
        return Err(EmptyBody);
      }
      if length > MAX_FRAME_BYTES {
        return Err(TooLarge(length));
      }
      var body := new Byte[length];
      var read := ReadExact(body);
      if read.Err? {
        return Err(read.error);
      }
      r := Ok(Some(body[..]));
    }

    /** Part or all of some bytes leave; a broken transport may take any prefix. */
    method WriteAll(bytes: seq<Byte>) returns (r: Result<(), FrameError>)
      modifies this`sent
      ensures r.Ok? ==> sent == old(sent) + bytes
      ensures r.Err? ==> r.error == Transport && exists k :: 0 <= k <= |bytes| && sent == old(sent) + bytes[..k]
    {
      var broken: bool := *;
      if broken {
        var k: nat :| k <= |bytes|;
        sent := sent + bytes[..k];
        return Err(Transport);
      }
      sent := sent + bytes;
      r := Ok(());
    }

    /** Writes one frame; the two bodies a reader would refuse never reach the wire. */
    method WriteFrame(body: seq<Byte>) returns (r: Result<(), FrameError>)
      modifies this`sent
      ensures body == [] ==> r == Err(EmptyBody) && sent == old(sent)
      ensures |body| > MAX_FRAME_BYTES ==> r == Err(TooLarge(|body|)) && sent == old(sent)
      ensures Sendable(body) && r.Ok? ==> sent == old(sent) + Encode(body)
      ensures Sendable(body) && r.Err? ==>
                r.error == Transport && exists k :: 0 <= k <= |Encode(body)| && sent == old(sent) + Encode(body)[..k]
    {
      if body == [] {
        return Err(EmptyBody);
      }
      if |body| > MAX_FRAME_BYTES {
        return Err(TooLarge(|body|));
      }
      ghost var before := sent;
      var prefix := BigEndian(|body|);
      var first := WriteAll(prefix);
      if first.Err? {
        ghost var k :| 0 <= k <= |prefix| && sent == before + prefix[..k];
        assert prefix[..k] == Encode(body)[..k];
        return Err(first.error);
      }
      var second := WriteAll(body);
      if second.Err? {
        ghost var k :| 0 <= k <= |body| && sent == before + prefix + body[..k];
        assert before + prefix + body[..k] == before + Encode(body)[..4 + k];
        return Err(second.error);
      }
      assert before + prefix + body == before + Encode(body);
      r := Ok(());
    }
  }
}
