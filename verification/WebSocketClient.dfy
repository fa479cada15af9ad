/** The gateway's WebSocket client: a receive buffer over a socket that hands out bytes in
    chunks of its own choosing, frame reading and writing, and the reassembly of one
    message from fragments with pings in between (RFC 6455, sections 5.4 and 5.5).

    Source: discord/scripts/discord_gateway_service.py, `GatewayWebSocket`. */
module WebSocketClient {
  import opened WebSocketFrames
  import opened Wrappers

  /** `recv_event` up to JSON decoding: a text message, or None for a pong. */
  datatype Event = Message(payload: Bytes) | Nothing

  // ---------------------------------------------------------------- reassembly as a function

  datatype Reception =
    | Got(event: Event, rest: Bytes, pongs: seq<Bytes>)
    | Lost(error: Error, pongs: seq<Bytes>)

  function Concat(parts: seq<Bytes>): Bytes {
    if parts == [] then [] else Concat(parts[..|parts| - 1]) + parts[|parts| - 1]
  }

  function WithPong(pong: Bytes, r: Reception): Reception {
    r.(pongs := [pong] + r.pongs)
  }

  /** What one frame means to a reader that has collected `fragments`. */
  datatype Decision =
    | Deliver(event: Event)
    | Fail(error: Error)
    | Collect(fragments: seq<Bytes>)
    | Answer(ping: Bytes)

  function Decide(frame: Frame, fragments: seq<Bytes>): (d: Decision)
    ensures d.Answer? ==> d.ping == frame.payload
  {
    if frame.opcode == 0x1 then
      if frame.fin then Deliver(Message(frame.payload)) else Collect([frame.payload])
    else if frame.opcode == 0x0 then
      if fragments == [] then Fail(UnexpectedContinuation)
      else
        var all := fragments + [frame.payload];
        if |Concat(all)| > MAX_FRAME_BYTES then Fail(MessageTooLarge)
        else if frame.fin then Deliver(Message(Concat(all)))
        else Collect(all)
    else if frame.opcode == 0x8 then Fail(CloseRequested)
    else if frame.opcode == 0x9 then Answer(frame.payload)
    else if frame.opcode == 0xA then Deliver(Nothing)
    else Fail(UnsupportedOpcode(frame.opcode))
  }

  /** What reading events off the stream `s` comes to, with `fragments` collected so far. */
  function Receive(s: Bytes, fragments: seq<Bytes>): Reception
    decreases |s|
  {
    match ParseFrame(s)
    case Broken(error) => Lost(error, [])
    case Parsed(frame, rest) =>
      match Decide(frame, fragments)
      case Deliver(event) => Got(event, rest, [])
      case Fail(error) => Lost(error, [])
      case Collect(collected) => Receive(rest, collected)
      case Answer(ping) => WithPong(ping, Receive(rest, fragments))
  }

  /** No stream whatsoever makes the client hand out a message over the limit. */
  lemma {:induction false} ReceivedWithinLimit(s: Bytes, fragments: seq<Bytes>)
    ensures var r := Receive(s, fragments);
      r.Got? && r.event.Message? ==> |r.event.payload| <= MAX_FRAME_BYTES
    decreases |s|
  {
    hide ParseFrame, Concat;
    var p := ParseFrame(s);
    if p.Parsed? {
      var d := Decide(p.frame, fragments);
      ReceivedWithinLimit(p.rest, if d.Collect? then d.fragments else fragments);
    }
  }

  // ---------------------------------------------------------------- a message on the wire

  /** One frame of a fragmented message, or a ping somewhere between its frames. */
  datatype Item = Part(payload: Bytes, masking: Masking) | Ping(payload: Bytes, masking: Masking)

  predicate Fits(items: seq<Item>) {
    forall item | item in items :: |item.payload| <= MAX_FRAME_BYTES
  }

  function Parts(items: seq<Item>): seq<Bytes> {
    if items == [] then []
    else (if items[0].Part? then [items[0].payload] else []) + Parts(items[1..])
  }

  function Pings(items: seq<Item>): seq<Bytes> {
    if items == [] then []
    else (if items[0].Ping? then [items[0].payload] else []) + Pings(items[1..])
  }

  /** The frame an item becomes: the first part is a text frame, later ones continuations, and
      the part with no part behind it is final. */
  function ItemFrame(item: Item, started: bool, more: bool): Frame {
    if item.Ping? then Frame(true, 0x9, item.payload)
    else Frame(!more, if started then 0x0 else 0x1, item.payload)
  }

  function Wire(items: seq<Item>, started: bool): Bytes {
    if items == [] then []
    else
      WireFrame(ItemFrame(items[0], started, Parts(items[1..]) != []), items[0].masking)
        + Wire(items[1..], started || items[0].Part?)
  }

  lemma {:induction false} ConcatAppend(a: seq<Bytes>, b: seq<Bytes>)
    ensures Concat(a + b) == Concat(a) + Concat(b)
  {
    if b == [] {
      assert a + b == a;
    } else {
      var n := |b| - 1;
      assert (a + b)[..|a + b| - 1] == a + b[..n];
      ConcatAppend(a, b[..n]);
    }
  }

  /** The next item of a message, seen from the reader. */
  lemma ReceiveItem(items: seq<Item>, fragments: seq<Bytes>, rest: Bytes)
    requires items != [] && Fits(items)
    ensures var started := fragments != [];
      var frame := ItemFrame(items[0], started, Parts(items[1..]) != []);
      var tail := Wire(items[1..], started || items[0].Part?) + rest;
      ParseFrame(Wire(items, started) + rest) == Parsed(frame, tail)
  {
    hide ParseFrame, Power256, WireFrame;
    Powers();
    var started := fragments != [];
    var frame := ItemFrame(items[0], started, Parts(items[1..]) != []);
    var tail := Wire(items[1..], started || items[0].Part?) + rest;
    assert items[0] in items;
    assert Wire(items, started) + rest == WireFrame(frame, items[0].masking) + tail;
    FrameRoundTrip(frame, items[0].masking, tail);
    assert frame.opcode & 0x0F == frame.opcode;
  }

  predicate EndsWithPart(items: seq<Item>) {
    items != [] && items[|items| - 1].Part?
  }

  lemma {:induction false} EndPartCounts(items: seq<Item>)
    requires EndsWithPart(items)
    ensures Parts(items) != []
  {
    if |items| > 1 {
      EndPartCounts(items[1..]);
    }
  }

  lemma WireNothing(rest: Bytes)
    ensures Wire([], true) + rest == rest
  {
  }

  /** Reading one part: the message ends here, goes on with one more fragment, or is too long. */
  lemma ReceivePart(items: seq<Item>, fragments: seq<Bytes>, rest: Bytes)
    requires items != [] && items[0].Part? && Fits(items) && |Concat(fragments)| <= MAX_FRAME_BYTES
    ensures var all := fragments + [items[0].payload]; var later := items[1..];
      Receive(Wire(items, fragments != []) + rest, fragments) ==
        if |Concat(all)| > MAX_FRAME_BYTES then Lost(MessageTooLarge, [])
        else if Parts(later) == [] then Got(Message(Concat(all)), Wire(later, true) + rest, [])
        else Receive(Wire(later, true) + rest, all)
  {
    hide ParseFrame, Wire, Parts, Pings;
    ReceiveItem(items, fragments, rest);
    var payload := items[0].payload;
    assert items[0] in items;
    assert Concat([]) == [];
    ConcatAppend([], [payload]);
    assert Concat([payload]) == payload;
    var frame := ItemFrame(items[0], fragments != [], Parts(items[1..]) != []);
    var all := fragments + [payload];
    assert Decide(frame, fragments) ==
        if |Concat(all)| > MAX_FRAME_BYTES then Fail(MessageTooLarge)
        else if Parts(items[1..]) == [] then Deliver(Message(Concat(all))) else Collect(all) by {
      if fragments == [] {
        assert all == [payload];
      }
    }
    hide Decide;
  }

  lemma ReceivePing(items: seq<Item>, fragments: seq<Bytes>, rest: Bytes)
    requires items != [] && items[0].Ping? && Fits(items)
    ensures Receive(Wire(items, fragments != []) + rest, fragments) ==
              WithPong(items[0].payload, Receive(Wire(items[1..], fragments != []) + rest, fragments))
  {
    hide ParseFrame, Wire, Parts, Pings;
    ReceiveItem(items, fragments, rest);
  }

  /** From any point inside a message: the rest of it is delivered joined to what was already
      collected exactly when the whole stays within the limit, each ping has been answered
      once, in order, and the stream stands right behind the message. */
  lemma {:induction false} ReassemblesFrom(items: seq<Item>, fragments: seq<Bytes>, rest: Bytes)
    requires EndsWithPart(items) && Fits(items) && |Concat(fragments)| <= MAX_FRAME_BYTES
    ensures var whole := Concat(fragments + Parts(items)); var r := Receive(Wire(items, fragments != []) + rest, fragments);
      if |whole| <= MAX_FRAME_BYTES then r == Got(Message(whole), rest, Pings(items))
      else r.Lost? && r.error == MessageTooLarge
    decreases |items|
  {
    hide Receive, Wire, Concat;
    var item, later := items[0], items[1..];
    assert forall i | i in later :: i in items;
    if item.Ping? {
      ReceivePing(items, fragments, rest);
      ReassemblesFrom(later, fragments, rest);
      assert Parts(items) == Parts(later);
    } else {
      var all := fragments + [item.payload];
      ReceivePart(items, fragments, rest);
      assert fragments + Parts(items) == all + Parts(later);
      if later == [] {
        assert all + Parts(later) == all;
        WireNothing(rest);
      } else {
        EndPartCounts(later);
        ConcatAppend(all, Parts(later));
        if |Concat(all)| <= MAX_FRAME_BYTES {
          ReassemblesFrom(later, all, rest);
        }
      }
    }
  }

  /** A text message cut into any frames, masked or not, with pings anywhere before its last
      frame, is received as the concatenation of its parts with one pong per ping -- exactly
      when it is within the limit. */
  lemma MessageRoundTrip(items: seq<Item>, rest: Bytes)
    requires EndsWithPart(items) && Fits(items)
    ensures var whole := Concat(Parts(items)); var r := Receive(Wire(items, false) + rest, []);
      && (|whole| <= MAX_FRAME_BYTES ==> r == Got(Message(whole), rest, Pings(items)))
      && (|whole| > MAX_FRAME_BYTES ==> r.Lost? && r.error == MessageTooLarge)
  {
    ReassemblesFrom(items, [], rest);
    assert [] + Parts(items) == Parts(items);
  }

  // ---------------------------------------------------------------- the client itself

  /** A connected socket: `incoming` is everything the peer will send before it closes. */
  class Socket {
    var incoming: Bytes
    var sent: Bytes

    constructor (incoming: Bytes)
      ensures this.incoming == incoming && sent == []
    {
      this.incoming, sent := incoming, [];
    }

    /** recv: some non-empty prefix of what is still to come, at most `limit` bytes; empty
        only at the end of the stream. */
    method Recv(limit: nat) returns (chunk: Bytes)
      requires limit > 0
      modifies this`incoming
      ensures old(incoming) == chunk + incoming && |chunk| <= limit
      ensures chunk == [] <==> old(incoming) == []
    {
      if incoming == [] {
        return [];
      }
      var n: nat :| 0 < n <= limit && n <= |incoming|;
      chunk, incoming := incoming[..n], incoming[n..];
    }

    method SendAll(data: Bytes)
      modifies this`sent
      ensures sent == old(sent) + data
    {
      sent := sent + data;
    }
  }

  /** The client frames of `payloads`, masked with the keys drawn from position `drawn` on. */
  function PongBytes(payloads: seq<Bytes>, masks: nat -> Mask, drawn: nat): Bytes {
    if payloads == [] then []
    else
      var last := |payloads| - 1;
      PongBytes(payloads[..last], masks, drawn) + ClientFrame(0xA, payloads[last], masks(drawn + last))
  }

  class GatewayWebSocket {
    const sock: Socket
    const masks: nat -> Mask  // the operating system's random bytes, four at a time
    var recvBuffer: Bytes
    var drawn: nat

    constructor (sock: Socket, remainder: Bytes, masks: nat -> Mask)
      ensures this.sock == sock && this.masks == masks && recvBuffer == remainder && drawn == 0
    {
      this.sock, this.masks, recvBuffer, drawn := sock, masks, remainder, 0;
    }

    /** Every byte the peer will have sent that no frame has consumed yet. */
    function Pending(): Bytes
      reads this, sock
    {
      recvBuffer + sock.incoming
    }

    /** `read_exact`: takes from the buffer first and never reads past what it was asked for. */
    method ReadExact(length: nat) returns (r: Result<Bytes, Error>)
      modifies this`recvBuffer, sock`incoming
      ensures if |old(Pending())| >= length
              then r == Ok(old(Pending())[..length]) && Pending() == old(Pending())[length..]
              else r == Err(SocketClosed)
      ensures recvBuffer == old(recvBuffer)[if length < |old(recvBuffer)| then length else |old(recvBuffer)|..]
    {
      var take := if length < |recvBuffer| then length else |recvBuffer|;
      var data := recvBuffer[..take];
      recvBuffer := recvBuffer[take..];
      while |data| < length
        invariant |data| <= length && (|data| < length ==> recvBuffer == [])
        invariant recvBuffer == old(recvBuffer)[take..]
        invariant data + Pending() == old(Pending())
        decreases length - |data|
      {
        var chunk := sock.Recv(length - |data|);
        if chunk == [] {
          return Err(SocketClosed);
        }
        data := data + chunk;
      }
      return Ok(data);
    }

    /** `read_frame`, against the byte-level specification. */
    method ReadFrame() returns (r: Result<Frame, Error>)
      modifies this`recvBuffer, sock`incoming
      ensures match ParseFrame(old(Pending()))
              case Parsed(frame, rest) => r == Ok(frame) && Pending() == rest
              case Broken(error) => r == Err(error)
    {
      hide ParseBody, FromBigEndian;
      ghost var stream := Pending();
      var head := ReadExact(2);
      if head.Err? {
        return Err(head.error);
      }
      var first, second := head.value[0], head.value[1];
      assert first == stream[0] && second == stream[1];
      var length := ReadLength((second & 0x7F) as nat, stream);
      if length.Err? {
        return Err(length.error);
      }
      if length.value > MAX_FRAME_BYTES {
        return Err(FrameTooLarge);
      }
      r := ReadBody(first & 0x80 != 0, first & 0x0F, second & 0x80 != 0, length.value, first, second);
    }

    /** The 16- or 64-bit length behind the first two bytes of `stream`, when `short` calls for it. */
    method ReadLength(short: nat, ghost stream: Bytes) returns (r: Result<nat, Error>)
      requires |stream| >= 2 && Pending() == stream[2..]
      modifies this`recvBuffer, sock`incoming
      ensures var ext := if short == 126 then 2 else if short == 127 then 8 else 0;
              if |stream| < 2 + ext then r == Err(SocketClosed)
              else r == Ok(if ext == 0 then short else FromBigEndian(stream[2..2 + ext])) && Pending() == stream[2 + ext..]
    {
      if short != 126 && short != 127 {
        return Ok(short);
      }
      ghost var ext := if short == 126 then 2 else 8;
      var extended := ReadExact(if short == 126 then 2 else 8);
      if extended.Err? {
        return Err(extended.error);
      }
      assert extended.value == stream[2..2 + ext] && Pending() == stream[2 + ext..];
      return Ok(FromBigEndian(extended.value));
    }

    method ReadBody(fin: bool, opcode: Byte, masked: bool, length: nat, ghost first: Byte, ghost second: Byte)
      returns (r: Result<Frame, Error>)
      requires fin == (first & 0x80 != 0) && opcode == first & 0x0F && masked == (second & 0x80 != 0)
      modifies this`recvBuffer, sock`incoming
      ensures match ParseBody(first, second, length, old(Pending()))
              case Parsed(frame, rest) => r == Ok(frame) && Pending() == rest
              case Broken(error) => r == Err(error)
    {
      ghost var stream := Pending();
      var mask: Mask := [0, 0, 0, 0];
      if masked {
        var key := ReadExact(4);
        if key.Err? {
          return Err(key.error);
        }
        mask := key.value;
      }
      var payload := [];
      if length > 0 {
        var raw := ReadExact(length);
        if raw.Err? {
          return Err(raw.error);
        }
        payload := raw.value;
      }
      ghost var skip := if masked then 4 else 0;
      assert payload == stream[skip..skip + length];
      assert Pending() == stream[skip + length..];
      if masked {
        payload := Xor(payload, mask);
      }
      return Ok(Frame(fin, opcode, payload));
    }

    /** `send_frame`. */
    method SendFrame(opcode: Byte, payload: Bytes)
      requires |payload| < Power256(8)
      modifies this`drawn, sock`sent
      ensures sock.sent == old(sock.sent) + ClientFrame(opcode, payload, masks(old(drawn)))
      ensures drawn == old(drawn) + 1
    {
      var mask := masks(drawn);
      drawn := drawn + 1;
      sock.SendAll(Header(true, opcode, true, |payload|) + mask + Xor(payload, mask));
    }

    /** `recv_event` up to JSON decoding: the event, the unread rest of the stream and the
        pongs sent are those of `Receive`, whatever chunks the socket delivers. */
    method RecvEvent() returns (r: Result<Event, Error>)
      modifies this, sock
      ensures var spec := Receive(old(Pending()), []);
        && (match spec
            case Got(event, rest, _) => r == Ok(event) && Pending() == rest
            case Lost(error, _) => r == Err(error))
        && sock.sent == old(sock.sent) + PongBytes(spec.pongs, masks, old(drawn))
        && drawn == old(drawn) + |spec.pongs|
    {
      hide ParseFrame, PongBytes, ClientFrame, Decide, Concat, Receive;
      ghost var stream := Pending();
      ghost var answered: seq<Bytes> := [];
      var fragments: seq<Bytes> := [];
      AfterPongsStart(stream, masks, drawn);
      while true
        invariant Receive(stream, []) == AfterPongs(answered, Receive(Pending(), fragments))
        invariant drawn == old(drawn) + |answered|
        invariant sock.sent == old(sock.sent) + PongBytes(answered, masks, old(drawn))
        decreases |Pending()|
      {
        ReceiveStep(Pending(), fragments, answered);
        var next := ReadFrame();
        if next.Err? {
          return Err(next.error);
        }
        match Decide(next.value, fragments) {
          case Deliver(event) =>
            return Ok(event);
          case Fail(error) =>
            return Err(error);
          case Collect(collected) =>
            fragments := collected;
          case Answer(ping) =>
            Powers();
            SendFrame(0xA, ping);
            PongsAppend(answered, ping, masks, old(drawn));
            answered := answered + [ping];
        }
      }
    }
  }

  /** `pongs` went out before the reception `r`. */
  function AfterPongs(pongs: seq<Bytes>, r: Reception): Reception {
    r.(pongs := pongs + r.pongs)
  }

  lemma AfterPongsStart(s: Bytes, masks: nat -> Mask, drawn: nat)
    ensures AfterPongs([], Receive(s, [])) == Receive(s, [])
    ensures PongBytes([], masks, drawn) == []
  {
  }

  function Decided(d: Decision, rest: Bytes, fragments: seq<Bytes>, answered: seq<Bytes>): Reception {
    match d
    case Deliver(event) => Got(event, rest, answered)
    case Fail(error) => Lost(error, answered)
    case Collect(collected) => AfterPongs(answered, Receive(rest, collected))
    case Answer(ping) => AfterPongs(answered + [ping], Receive(rest, fragments))
  }

  lemma ReceiveStep(s: Bytes, fragments: seq<Bytes>, answered: seq<Bytes>)
    ensures var p := ParseFrame(s);
      AfterPongs(answered, Receive(s, fragments)) ==
        if p.Broken? then Lost(p.error, answered) else Decided(Decide(p.frame, fragments), p.rest, fragments, answered)
  {
    hide ParseFrame, Decide;
    var p := ParseFrame(s);
    if p.Parsed? && Decide(p.frame, fragments).Answer? {
      var ping, later := Decide(p.frame, fragments).ping, Receive(p.rest, fragments).pongs;
      assert answered + ([ping] + later) == answered + [ping] + later;
    } else {
      assert answered + [] == answered;
    }
  }

  lemma PongsAppend(payloads: seq<Bytes>, payload: Bytes, masks: nat -> Mask, drawn: nat)
    ensures PongBytes(payloads + [payload], masks, drawn) ==
              PongBytes(payloads, masks, drawn) + ClientFrame(0xA, payload, masks(drawn + |payloads|))
  {
    assert (payloads + [payload])[..|payloads|] == payloads;
  }
}
