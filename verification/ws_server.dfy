/** The server's side of a WebSocket connection: a buffer drained frame by frame as bytes arrive. */
module WsServers {
  import opened Bytes
  import opened Options
  import opened WebSocketFrames

  /** Why the drain loop ended: it needs more bytes, met a frame that is not text, or the connection is over. */
  datatype Stop = Waiting | NotText | Dead | Failed

  datatype Drained = Drained(messages: seq<seq<Byte>>, rest: seq<Byte>, stop: Stop)

  /** Every complete text frame at the front of the buffer goes to the handler. */
  function Drain(buf: seq<Byte>): Drained
    decreases |buf|
  {
    match Parse(buf)
    case Incomplete => Drained([], buf, Waiting)
    case Closed(rest) => Drained([], rest, Dead)
    case Unrepresentable => Drained([], buf, Failed)
    case Frame(payload, rest, isText) =>
      if !isText then Drained([], rest, NotText)
      else
        var later := Drain(rest);
        later.(messages := [payload] + later.messages)
  }

  class Connection {
    var buf: seq<Byte>
    var dead: bool
    var handled: seq<seq<Byte>>  // what the handler was given

    constructor ()
      ensures buf == [] && !dead && handled == []
    {
      buf, dead, handled := [], false, [];
    }

    /** ok says whether a text frame was read; failed stands for the exception of an impossible size. */
    method RecvFrame() returns (ok: bool, failed: bool, payload: seq<Byte>)
      modifies this
      ensures handled == old(handled)
      ensures match Parse(old(buf))
              case Incomplete => !ok && !failed && buf == old(buf) && dead == old(dead)
              case Closed(rest) => !ok && !failed && buf == rest && dead
              case Unrepresentable => !ok && failed && buf == old(buf) && dead == old(dead)
              case Frame(p, rest, isText) =>
                ok == isText && !failed && payload == p && buf == rest && dead == old(dead)
    {
      hide FromBigEndian, Masked;
      payload := [];
      if |buf| < 2 { return false, false, payload; }
      var b0, b1 := buf[0], buf[1];
      var opcode, masked, length := b0 % 16, b1 >= 128, b1 % 128;
      var ext := if length == 126 then 2 else if length == 127 then 8 else 0;
      var hdr := 2 + ext + if masked then 4 else 0;
      if |buf| < 2 + ext { return false, false, payload; }
      if ext > 0 {
        length := ReadNumber(buf[2..2 + ext]);
      }
      assert length == PayloadLength(buf);
      if |buf| < (hdr + length) % WORD { return false, false, payload; }
      if opcode == CLOSE {
        buf := buf[(hdr + length) % WORD..];
        dead := true;
        return false, false, payload;
      }
      if hdr + length >= WORD { return false, true, payload; }
      payload := Unmasked(buf[hdr..hdr + length], if masked then buf[hdr - 4..hdr] else [0, 0, 0, 0]);
      UnmaskedAtZero(buf[hdr..hdr + length]);
      buf := buf[hdr + length..];
      return opcode == TEXT, false, payload;
    }

    /** The while loop of HandleRead, after the bytes of one read were appended. */
    method HandleRead(chunk: seq<Byte>) returns (failed: bool)
      modifies this
      ensures var d := Drain(old(buf) + chunk);
              && handled == old(handled) + d.messages && buf == d.rest
              && failed == d.stop.Failed? && dead == (old(dead) || d.stop.Dead?)
    {
      hide Parse;
      buf := buf + chunk;
      ghost var d := Drain(buf);
      var ok, payload;
      ok, failed, payload := RecvFrame();
      while ok
        invariant !ok ==> handled == old(handled) + d.messages && buf == d.rest
                          && failed == d.stop.Failed? && dead == (old(dead) || d.stop.Dead?)
        invariant ok ==> !failed && dead == old(dead) && Drain(buf).stop == d.stop && Drain(buf).rest == d.rest
                         && handled + [payload] + Drain(buf).messages == old(handled) + d.messages
        decreases if ok then |buf| + 1 else 0
      {
        handled := handled + [payload];
        ghost var here := Drain(buf);
        ok, failed, payload := RecvFrame();
      }
    }
  }

  /** The bytes written to the socket for one text; an empty text writes nothing. */
  method SendText(text: seq<Byte>) returns (written: seq<Byte>)
    requires |text| < WORD
    ensures written == if text == [] then [] else ServerFrame(text)
  {
    if text == [] { return []; }
    var length := |text|;
    written := [FIN_TEXT];
    if length < 126 {
      written := written + [length];
      assert Extension(length) == [];
    } else if length < 65536 {
      written := written + [126, length / 256 % 256, length % 256];
      TwoBytes(length);
    } else {
      written := written + [127];
      var i := 7;
      ghost var shifted: seq<Byte> := [];
      while i >= 0
        invariant -1 <= i <= 7 && shifted == BigEndian(length, 8)[..7 - i]
        invariant written == [FIN_TEXT, 127] + shifted
      {
        ByteAt(length, 8, 7 - i);
        shifted := shifted + [length / Power256(i) % 256];
        written := written + [length / Power256(i) % 256];
        i := i - 1;
      }
      assert shifted == Extension(length);
    }
    written := written + text;
  }

  /** The loop over the payload; without a mask the bytes stay as they are. */
  method Unmasked(data: seq<Byte>, mask: Mask) returns (payload: seq<Byte>)
    ensures payload == Masked(data, mask)
  {
    payload := [];
    for i := 0 to |data|
      invariant payload == Masked(data, mask)[..i]
    {
      payload := payload + [Xor(data[i], mask[i % 4])];
    }
  }

  lemma UnmaskedAtZero(data: seq<Byte>)
    ensures Masked(data, [0, 0, 0, 0]) == data
  {
    forall i | 0 <= i < |data| ensures Masked(data, [0, 0, 0, 0])[i] == data[i] {
      XorLaws(data[i], 0);
    }
  }

  /** The loop that shifts in one byte after another. */
  method ReadNumber(s: seq<Byte>) returns (n: nat)
    ensures n == FromBigEndian(s)
  {
    n := 0;
    for i := 0 to |s|
      invariant n == FromBigEndian(s[..i])
    {
      assert s[..i + 1][..i] == s[..i];
      n := n * 256 + s[i];
    }
    assert s[..|s|] == s;
  }

  // ---- Reads in any portions -------------------------------------------------------------

  /** A connection that reads its bytes in these chunks, from an empty buffer, until it is dropped. */
  function Fed(chunks: seq<seq<Byte>>): Drained {
    if chunks == [] then Drained([], [], Waiting)
    else
      var before := Fed(chunks[..|chunks| - 1]);
      if before.stop.Dead? || before.stop.Failed? then before
      else
        var d := Drain(before.rest + chunks[|chunks| - 1]);
        d.(messages := before.messages + d.messages)
  }

  function Joined(chunks: seq<seq<Byte>>): seq<Byte> {
    if chunks == [] then [] else Joined(chunks[..|chunks| - 1]) + chunks[|chunks| - 1]
  }

  /** Draining, then draining again after more bytes, is draining everything at once. */
  lemma {:induction false} DrainAppend(buf: seq<Byte>, more: seq<Byte>)
    requires Drain(buf).stop.Waiting?
    ensures var first, second := Drain(buf), Drain(Drain(buf).rest + more);
            Drain(buf + more) == second.(messages := first.messages + second.messages)
    decreases |buf|
  {
    hide Parse;
    var p := Parse(buf);
    if p.Frame? {
      ParseIsStable(buf, more);
      DrainAppend(p.rest, more);
      var later := Drain(p.rest).messages;
      var second := Drain(Drain(buf).rest + more).messages;
      assert [p.payload] + (later + second) == ([p.payload] + later) + second;
    }
  }

  /** However much of the stream has arrived, it only lacks bytes: all its complete frames are text frames. */
  ghost predicate OnlyText(stream: seq<Byte>) {
    forall n | 0 <= n <= |stream| :: Drain(stream[..n]).stop.Waiting?
  }

  /** For a stream of text frames it does not matter into which chunks the reads cut it. */
  lemma {:induction false} ChunksDoNotMatter(chunks: seq<seq<Byte>>)
    requires OnlyText(Joined(chunks))
    ensures Fed(chunks) == Drain(Joined(chunks))
  {
    hide Drain;
    var stream := Joined(chunks);
    if chunks == [] {
      NothingDrained();
    } else {
      var before, last := chunks[..|chunks| - 1], chunks[|chunks| - 1];
      var early := Joined(before);
      assert stream[..|early|] == early;
      forall n | 0 <= n <= |early| ensures Drain(early[..n]).stop.Waiting? {
        assert early[..n] == stream[..n];
      }
      ChunksDoNotMatter(before);
      DrainAppend(early, last);
    }
  }

  lemma NothingDrained()
    ensures Drain([]) == Drained([], [], Waiting)
  {
  }

  // ---- What a client sends ---------------------------------------------------------------

  datatype Message = Message(payload: seq<Byte>, mask: Mask)

  predicate Sendable(messages: seq<Message>) {
    forall i :: 0 <= i < |messages| ==> |messages[i].payload| < 0x8000_0000_0000_0000
  }

  function FrameOf(m: Message): seq<Byte> { ClientFrame(m.payload, m.mask) }

  function Stream(messages: seq<Message>): seq<Byte> {
    if messages == [] then [] else FrameOf(messages[0]) + Stream(messages[1..])
  }

  function Payloads(messages: seq<Message>): seq<seq<Byte>> {
    if messages == [] then [] else [messages[0].payload] + Payloads(messages[1..])
  }

  /** How many frames are complete within the first n bytes. */
  function Complete(messages: seq<Message>, n: nat): (k: nat)
    ensures k <= |messages|
    decreases messages
  {
    if messages == [] || n < |FrameOf(messages[0])| then 0
    else 1 + Complete(messages[1..], n - |FrameOf(messages[0])|)
  }

  /** The bytes of the frame that is not complete within the first n bytes. */
  function Unfinished(messages: seq<Message>, n: nat): seq<Byte>
    requires n <= |Stream(messages)|
    decreases messages
  {
    if messages == [] then []
    else if n < |FrameOf(messages[0])| then FrameOf(messages[0])[..n]
    else Unfinished(messages[1..], n - |FrameOf(messages[0])|)
  }

  lemma {:induction false} DrainOfPrefix(messages: seq<Message>, n: nat)
    requires Sendable(messages) && n <= |Stream(messages)|
    ensures Drain(Stream(messages)[..n])
         == Drained(Payloads(messages[..Complete(messages, n)]), Unfinished(messages, n), Waiting)
    decreases messages
  {
    hide Parse, ClientFrame;
    var stream := Stream(messages);
    if messages == [] {
      NothingDrained();
      assert stream[..n] == [];
    } else {
      var m, rest := messages[0], messages[1..];
      var frame := FrameOf(m);
      if n < |frame| {
        PrefixIsIncomplete(m.payload, m.mask, n);
        assert stream[..n] == frame[..n];
      } else {
        assert stream[..n] == frame + Stream(rest)[..n - |frame|];
        ClientFrameReads(m.payload, m.mask, Stream(rest)[..n - |frame|]);
        DrainOfPrefix(rest, n - |frame|);
        var k := Complete(rest, n - |frame|);
        assert messages[..k + 1][1..] == rest[..k];
      }
    }
  }

  lemma Regroup(frame: seq<Byte>, done: seq<Byte>, unfinished: seq<Byte>, rest: seq<Byte>, n: nat)
    requires |frame| <= n <= |frame| + |rest| && done + unfinished == rest[..n - |frame|]
    ensures (frame + done) + unfinished == (frame + rest)[..n]
  {
    assert (frame + done) + unfinished == frame + (done + unfinished);
  }

  /** What is complete and what is unfinished make up the bytes received. */
  lemma {:induction false} PartsOfPrefix(messages: seq<Message>, n: nat)
    requires n <= |Stream(messages)|
    ensures Stream(messages[..Complete(messages, n)]) + Unfinished(messages, n) == Stream(messages)[..n]
    ensures Complete(messages, n) < |messages| ==>
              |Unfinished(messages, n)| < |FrameOf(messages[Complete(messages, n)])|
    decreases messages
  {
    hide FrameOf;
    if messages != [] && n >= |FrameOf(messages[0])| {
      var frame, rest := FrameOf(messages[0]), messages[1..];
      PartsOfPrefix(rest, n - |frame|);
      var k := Complete(rest, n - |frame|);
      assert messages[..k + 1][1..] == rest[..k];
      Regroup(frame, Stream(rest[..k]), Unfinished(rest, n - |frame|), Stream(rest), n);
    }
  }

  /**
   * For any messages and masks and any cutting of what arrived into reads: the handler got exactly the payloads of
   * the complete frames, in order, and the buffer holds exactly the unfinished frame.
   */
  lemma ServerReadsWhatClientSent(messages: seq<Message>, n: nat, chunks: seq<seq<Byte>>)
    requires Sendable(messages) && n <= |Stream(messages)| && Joined(chunks) == Stream(messages)[..n]
    ensures Fed(chunks) == Drained(Payloads(messages[..Complete(messages, n)]), Unfinished(messages, n), Waiting)
  {
    var stream := Joined(chunks);
    forall m | 0 <= m <= |stream| ensures Drain(stream[..m]).stop.Waiting? {
      assert stream[..m] == Stream(messages)[..m];
      DrainOfPrefix(messages, m);
    }
    ChunksDoNotMatter(chunks);
    DrainOfPrefix(messages, n);
  }

  lemma {:induction false} AllComplete(messages: seq<Message>)
    ensures Complete(messages, |Stream(messages)|) == |messages| && Unfinished(messages, |Stream(messages)|) == []
  {
    if messages != [] {
      AllComplete(messages[1..]);
    }
  }

  /** When everything arrived, every payload was handled and nothing is left over. */
  lemma ServerReadsEverything(messages: seq<Message>, chunks: seq<seq<Byte>>)
    requires Sendable(messages) && Joined(chunks) == Stream(messages)
    ensures Fed(chunks) == Drained(Payloads(messages), [], Waiting)
  {
    var n := |Stream(messages)|;
    assert Stream(messages)[..n] == Stream(messages) && messages[..|messages|] == messages;
    AllComplete(messages);
    ServerReadsWhatClientSent(messages, n, chunks);
  }

  /**
   * A frame at the front of the buffer: text is handed over and draining goes on behind it, a close frame ends the
   * connection, and any other one is dropped and ends the draining.
   */
  lemma FrontFrame(first: Byte, payload: seq<Byte>, mask: Option<Mask>, rest: seq<Byte>)
    requires |payload| < 0x8000_0000_0000_0000
    ensures var opcode, later := first % 16, Drain(rest);
            Drain(AnyFrame(first, payload, mask) + rest)
            == if opcode == 1 then Drained([payload] + later.messages, later.rest, later.stop)
               else Drained([], rest, if opcode == 8 then Dead else NotText)
  {
    hide Parse, AnyFrame;
    AnyFrameReads(first, payload, mask, rest);
  }

  // ---- Where the cutting does matter -----------------------------------------------------

  /** A masked ping without payload. */
  const PING: seq<Byte> := [0x89, 0x80, 0, 0, 0, 0]

  /** A text frame right behind a ping is left in the buffer if both arrive in one read, but not if in two. */
  lemma TextBehindPingStalls(m: Message)
    requires |m.payload| < 0x8000_0000_0000_0000 && |PING + FrameOf(m)| <= 4096
    ensures Fed([PING + FrameOf(m)]) == Drained([], FrameOf(m), NotText)
    ensures Fed([PING, FrameOf(m)]) == Drained([m.payload], [], Waiting)
  {
    hide ClientFrame;
    var frame := FrameOf(m);
    PingReads(frame);
    PingReads([]);
    assert PING + [] == PING && frame + [] == frame && [] + frame == frame;
    ClientFrameReads(m.payload, m.mask, []);
    NothingDrained();
    hide Parse;
    assert [PING + frame][..0] == [] && [PING, frame][..1] == [PING] && [PING][..0] == [];
    assert Fed([]) == Drained([], [], Waiting);
    assert Drain(frame) == Drained([m.payload], [], Waiting);
    assert [] + (PING + frame) == PING + frame && [] + PING == PING;
    assert Fed([PING]) == Drained([], [], NotText);
  }

  lemma PingReads(rest: seq<Byte>)
    ensures Parse(PING + rest) == Frame([], rest, false)
  {
    var buf := PING + rest;
    assert HeaderOf(buf) == Header(9, true, 0);
    assert buf[2..2] == [];
    assert buf[6..] == rest;
  }
}
