/** The bytes of WebSocket frames (RFC 6455, sections 5.2 and 5.3): what `send_frame` puts
    on the wire and what `read_frame` makes of a byte stream.

    Source: discord/scripts/discord_gateway_service.py, `GatewayWebSocket`. */
module WebSocketFrames {
  type Byte = bv8
  type Bytes = seq<Byte>
  type Mask = m: Bytes | |m| == 4 witness [0, 0, 0, 0]

  const MAX_FRAME_BYTES: nat := 16 * 1024 * 1024

  datatype Error =
    | SocketClosed
    | FrameTooLarge
    | UnexpectedContinuation
    | MessageTooLarge
    | CloseRequested
    | UnsupportedOpcode(opcode: Byte)

  datatype Frame = Frame(fin: bool, opcode: Byte, payload: Bytes)

  datatype Parse = Parsed(frame: Frame, rest: Bytes) | Broken(error: Error)

  // ---------------------------------------------------------------- numbers as bytes

  function Power256(k: nat): nat {
    if k == 0 then 1 else 256 * Power256(k - 1)
  }

  /** struct.pack("!H") and ("!Q"): `k` bytes, most significant first. */
  function BigEndian(n: nat, k: nat): (b: Bytes)
    ensures |b| == k
  {
    if k == 0 then [] else BigEndian(n / 256, k - 1) + [(n % 256) as Byte]
  }

  function FromBigEndian(b: Bytes): nat {
    if b == [] then 0 else 256 * FromBigEndian(b[..|b| - 1]) + b[|b| - 1] as nat
  }

  lemma {:induction false} BigEndianRoundTrip(n: nat, k: nat)
    requires n < Power256(k)
    ensures FromBigEndian(BigEndian(n, k)) == n
  {
    if k > 0 {
      assert n / 256 < Power256(k - 1);
      BigEndianRoundTrip(n / 256, k - 1);
      FromBigEndianAppend(BigEndian(n / 256, k - 1), (n % 256) as Byte);
      ByteValue(n % 256);
    }
  }

  lemma FromBigEndianAppend(b: Bytes, last: Byte)
    ensures FromBigEndian(b + [last]) == 256 * FromBigEndian(b) + last as nat
  {
    assert (b + [last])[..|b|] == b;
  }

  lemma {:induction false} SomeByte(n: nat) returns (b: Byte)
    requires n < 256
    ensures b as nat == n
  {
    if n == 0 {
      b := 0;
    } else {
      b := SomeByte(n - 1);
      b := b + 1;
    }
  }

  lemma ByteValue(n: nat)
    requires n < 256
    ensures (n as Byte) as nat == n
  {
    var b := SomeByte(n);
  }

  // ---------------------------------------------------------------- masking

  function Xor(payload: Bytes, mask: Mask): (r: Bytes)
    ensures |r| == |payload|
  {
    seq(|payload|, i requires 0 <= i < |payload| => payload[i] ^ mask[i % 4])
  }

  lemma XorByte(a: Byte, m: Byte)
    ensures (a ^ m) ^ m == a
  {
  }

  /** Masking twice with the same key gives the payload back. */
  lemma MaskInvolution(payload: Bytes, mask: Mask)
    ensures Xor(Xor(payload, mask), mask) == payload
  {
    forall i | 0 <= i < |payload| ensures Xor(Xor(payload, mask), mask)[i] == payload[i] {
      XorByte(payload[i], mask[i % 4]);
    }
  }

  // ---------------------------------------------------------------- writing

  /** Lengths of 2^64 and more do not exist in a byte string; the eight-byte form would cut them. */
  function Header(fin: bool, opcode: Byte, masked: bool, length: nat): Bytes {
    var first: Byte := (if fin then 0x80 else 0) | (opcode & 0x0F);
    var flag: Byte := if masked then 0x80 else 0;
    if length < 126 then [first, flag | length as Byte]
    else if length < 65536 then [first, flag | 126] + BigEndian(length, 2)
    else [first, flag | 127] + BigEndian(length, 8)
  }

  /** What `send_frame` sends: always final, always masked. */
  function ClientFrame(opcode: Byte, payload: Bytes, mask: Mask): Bytes {
    Header(true, opcode, true, |payload|) + mask + Xor(payload, mask)
  }

  /** A frame as a server may send it, masked or not. */
  datatype Masking = Plain | Masked(key: Mask)

  function WireFrame(frame: Frame, masking: Masking): Bytes {
    Header(frame.fin, frame.opcode, masking.Masked?, |frame.payload|) + Body(frame.payload, masking)
  }

  // ---------------------------------------------------------------- reading

  /** `read_frame` on everything the peer will ever send. */
  function ParseFrame(s: Bytes): (p: Parse)
    ensures p.Parsed? ==> |p.rest| < |s| && |p.frame.payload| <= MAX_FRAME_BYTES
  {
    if |s| < 2 then Broken(SocketClosed)
    else
      var short := (s[1] & 0x7F) as nat;
      var ext := if short == 126 then 2 else if short == 127 then 8 else 0;
      if |s| < 2 + ext then Broken(SocketClosed)
      else
        var length := if ext == 0 then short else FromBigEndian(s[2..2 + ext]);
        if length > MAX_FRAME_BYTES then Broken(FrameTooLarge)
        else ParseBody(s[0], s[1], length, s[2 + ext..])
  }

  function ParseBody(first: Byte, second: Byte, length: nat, s: Bytes): (p: Parse)
    ensures p.Parsed? ==> |p.rest| <= |s| && |p.frame.payload| == length
  {
    var masked := second & 0x80 != 0;
    var skip := if masked then 4 else 0;
    if |s| < skip + length then Broken(SocketClosed)
    else
      var raw := s[skip..skip + length];
      var payload := if masked then Xor(raw, s[..4]) else raw;
      Parsed(Frame(first & 0x80 != 0, first & 0x0F, payload), s[skip + length..])
  }

  lemma LengthBits(flag: Byte, b: Byte)
    requires (flag == 0 || flag == 0x80) && b < 0x80
    ensures (flag | b) & 0x7F == b && (flag | b) & 0x80 == flag
  {
  }

  lemma LengthByte(flag: Byte, n: nat)
    requires (flag == 0 || flag == 0x80) && n < 128
    ensures ((flag | n as Byte) & 0x7F) as nat == n
    ensures (flag | n as Byte) & 0x80 == flag
  {
    LengthBits(flag, n as Byte);
    ByteValue(n);
  }

  lemma FirstByte(fin: bool, opcode: Byte)
    ensures var first: Byte := (if fin then 0x80 else 0) | (opcode & 0x0F);
      (first & 0x80 != 0) == fin && first & 0x0F == opcode & 0x0F
  {
  }

  lemma Powers()
    ensures Power256(2) == 65536 && Power256(8) == 18446744073709551616
  {
    assert Power256(2) == 256 * (256 * Power256(0));
    assert Power256(4) == 256 * (256 * Power256(2));
    assert Power256(6) == 256 * (256 * Power256(4));
    assert Power256(8) == 256 * (256 * Power256(6));
  }

  /** The three length forms all read back. */
  lemma HeaderReads(fin: bool, opcode: Byte, masked: bool, length: nat, tail: Bytes)
    requires length < Power256(8)
    ensures var h := Header(fin, opcode, masked, length);
      ParseFrame(h + tail) == if length > MAX_FRAME_BYTES then Broken(FrameTooLarge) else ParseBody(h[0], h[1], length, tail)
  {
    hide ParseBody;
    Powers();
    var h := Header(fin, opcode, masked, length);
    var flag: Byte := if masked then 0x80 else 0;
    var short, ext := if length < 126 then length else if length < 65536 then 126 else 127, |h| - 2;
    LengthByte(flag, short);
    assert (h + tail)[1] == flag | short as Byte;
    assert (h + tail)[2 + ext..] == tail;
    if length >= 126 {
      BigEndianRoundTrip(length, ext);
      assert (h + tail)[2..2 + ext] == BigEndian(length, ext);
    }
  }

  function Body(payload: Bytes, masking: Masking): Bytes {
    if masking.Masked? then masking.key + Xor(payload, masking.key) else payload
  }

  lemma BodyReads(first: Byte, second: Byte, payload: Bytes, masking: Masking, rest: Bytes)
    requires (second & 0x80 != 0) == masking.Masked?
    ensures ParseBody(first, second, |payload|, Body(payload, masking) + rest) ==
              Parsed(Frame(first & 0x80 != 0, first & 0x0F, payload), rest)
  {
    hide Xor;
    var s, length := Body(payload, masking) + rest, |payload|;
    if masking.Masked? {
      MaskInvolution(payload, masking.key);
      assert s[..4] == masking.key && s[4..4 + length] == Xor(payload, masking.key) && s[4 + length..] == rest;
    } else {
      assert s[0..0 + length] == payload && s[0 + length..] == rest;
    }
  }

  /** Whatever frame a peer writes, followed by anything, is read back whole (with the opcode
      cut to four bits) and nothing of the rest is touched -- exactly when the payload is
      within the limit; a longer one is refused. */
  lemma FrameRoundTrip(frame: Frame, masking: Masking, rest: Bytes)
    requires |frame.payload| < Power256(8)
    ensures ParseFrame(WireFrame(frame, masking) + rest) ==
              if |frame.payload| <= MAX_FRAME_BYTES then Parsed(frame.(opcode := frame.opcode & 0x0F), rest)
              else Broken(FrameTooLarge)
  {
    hide Power256, BigEndian, ParseBody, ParseFrame, Body;
    var length := |frame.payload|;
    var h := Header(frame.fin, frame.opcode, masking.Masked?, length);
    var body := Body(frame.payload, masking);
    assert WireFrame(frame, masking) + rest == h + (body + rest);
    HeaderReads(frame.fin, frame.opcode, masking.Masked?, length, body + rest);
    FirstByte(frame.fin, frame.opcode);
    LengthByte(if masking.Masked? then 0x80 else 0, if length < 126 then length else if length < 65536 then 126 else 127);
    BodyReads(h[0], h[1], frame.payload, masking, rest);
  }

  /** The client's own frames, read by a peer that runs the same reader. */
  lemma ClientFrameRoundTrip(opcode: Byte, payload: Bytes, mask: Mask, rest: Bytes)
    requires |payload| < Power256(8)
    ensures ParseFrame(ClientFrame(opcode, payload, mask) + rest) ==
              if |payload| <= MAX_FRAME_BYTES then Parsed(Frame(true, opcode & 0x0F, payload), rest) else Broken(FrameTooLarge)
  {
    hide ParseFrame, Header, Power256;
    FrameRoundTrip(Frame(true, opcode, payload), Masked(mask), rest);
    assert ClientFrame(opcode, payload, mask) == WireFrame(Frame(true, opcode, payload), Masked(mask));
  }
}
