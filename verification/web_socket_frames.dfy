/** WebSocket frames (sections 5.2 and 5.3 of RFC 6455) as byte strings, and what reading them gives. */
module WebSocketFrames {
  import opened Bytes
  import opened Options

  const FIN_TEXT: Byte := 0x81
  const CLOSE: Byte := 8
  const TEXT: Byte := 1
  const WORD := 0x1_0000_0000_0000_0000

  type Mask = m: seq<Byte> | |m| == 4 witness [0, 0, 0, 0]

  // ---- The length field ------------------------------------------------------------------

  /** The 7-bit part of the length. */
  function ShortLength(n: nat): (b: Byte)
    ensures b < 128
  {
    if n <= 125 then n else if n <= 65535 then 126 else 127
  }

  /** How many bytes follow a 7-bit length. */
  function ExtensionSize(short: Byte): nat { if short == 126 then 2 else if short == 127 then 8 else 0 }

  function Extension(n: nat): seq<Byte> { BigEndian(n, ExtensionSize(ShortLength(n))) }

  function LengthOf(short: Byte, extension: seq<Byte>): nat
    requires |extension| == ExtensionSize(short)
  {
    if extension == [] then short else FromBigEndian(extension)
  }

  lemma PowersOf256()
    ensures Power256(2) == 65536 && Power256(8) == WORD
  {
    assert Power256(4) == 0x1_0000_0000;
  }

  /** The length field of n bytes reads as n. */
  lemma LengthRoundTrip(n: nat)
    requires n < WORD
    ensures LengthOf(ShortLength(n), Extension(n)) == n
  {
    PowersOf256();
    if n > 125 {
      BigEndianRoundTrip(n, ExtensionSize(ShortLength(n)));
    }
  }

  /** No length field that reads as n is shorter than the one written. */
  lemma LengthIsShortest(n: nat, short: Byte, extension: seq<Byte>)
    requires short < 128 && |extension| == ExtensionSize(short) && LengthOf(short, extension) == n
    ensures |Extension(n)| <= |extension|
    ensures n < WORD
  {
    PowersOf256();
    FromBigEndianBound(extension);
  }

  // ---- Masking ---------------------------------------------------------------------------

  function Masked(data: seq<Byte>, mask: Mask): (s: seq<Byte>)
    ensures |s| == |data| && forall i :: 0 <= i < |s| ==> s[i] == Xor(data[i], mask[i % 4])
  {
    seq(|data|, i requires 0 <= i < |data| => Xor(data[i], mask[i % 4]))
  }

  lemma MaskedTwice(data: seq<Byte>, mask: Mask)
    ensures Masked(Masked(data, mask), mask) == data
  {
    forall i | 0 <= i < |data| ensures Masked(Masked(data, mask), mask)[i] == data[i] {
      XorLaws(data[i], mask[i % 4]);
    }
  }

  // ---- Frames written --------------------------------------------------------------------

  function ClientFrame(payload: seq<Byte>, mask: Mask): seq<Byte> {
    [FIN_TEXT, 128 + ShortLength(|payload|)] + Extension(|payload|) + mask + Masked(payload, mask)
  }

  function ServerFrame(text: seq<Byte>): seq<Byte> {
    [FIN_TEXT, ShortLength(|text|)] + Extension(|text|) + text
  }

  // ---- A frame read ----------------------------------------------------------------------

  datatype Header = Header(opcode: Byte, masked: bool, short: Byte)

  function HeaderOf(buf: seq<Byte>): Header
    requires |buf| >= 2
  {
    Header(buf[0] % 16, buf[1] >= 128, buf[1] % 128)
  }

  function HeaderSize(h: Header): nat { 2 + ExtensionSize(h.short) + (if h.masked then 4 else 0) }

  function PayloadLength(buf: seq<Byte>): nat
    requires |buf| >= 2 && |buf| >= 2 + ExtensionSize(HeaderOf(buf).short)
  {
    var short := HeaderOf(buf).short;
    LengthOf(short, buf[2..2 + ExtensionSize(short)])
  }

  /**
   * What the server makes of the front of its buffer. Unrepresentable: the size of the whole frame passes 2^64, so no
   * string can hold the payload.
   */
  datatype Parsed =
    | Incomplete
    | Closed(rest: seq<Byte>)
    | Unrepresentable
    | Frame(payload: seq<Byte>, rest: seq<Byte>, isText: bool)

  function Parse(buf: seq<Byte>): (p: Parsed)
    ensures p.Frame? ==> |p.rest| < |buf|
  {
    if |buf| < 2 || |buf| < 2 + ExtensionSize(HeaderOf(buf).short) then Incomplete
    else
      var h, length := HeaderOf(buf), PayloadLength(buf);
      var size := HeaderSize(h) + length;
      if |buf| < size % WORD then Incomplete
      else if h.opcode == CLOSE then Closed(buf[size % WORD..])
      else if size >= WORD then Unrepresentable
      else Frame(Payload(buf), buf[size..], h.opcode == TEXT)
  }

  function Payload(buf: seq<Byte>): seq<Byte>
    requires |buf| >= 2 && |buf| >= 2 + ExtensionSize(HeaderOf(buf).short)
    requires |buf| >= HeaderSize(HeaderOf(buf)) + PayloadLength(buf)
  {
    var h := HeaderOf(buf);
    var start := HeaderSize(h);
    var data := buf[start..start + PayloadLength(buf)];
    if h.masked then Masked(data, buf[start - 4..start]) else data
  }

  // ---- Reading what was written ----------------------------------------------------------

  /** A client frame at the front of the buffer reads as its payload, whatever follows. */
  lemma ClientFrameReads(payload: seq<Byte>, mask: Mask, rest: seq<Byte>)
    requires |payload| < 0x8000_0000_0000_0000
    ensures Parse(ClientFrame(payload, mask) + rest) == Frame(payload, rest, true)
  {
    var buf := ClientFrame(payload, mask) + rest;
    var short, ext := ShortLength(|payload|), Extension(|payload|);
    assert buf == [FIN_TEXT, 128 + short] + ext + mask + Masked(payload, mask) + rest;
    assert HeaderOf(buf) == Header(TEXT, true, short);
    assert buf[2..2 + |ext|] == ext;
    LengthRoundTrip(|payload|);
    var start := 2 + |ext| + 4;
    assert buf[start - 4..start] == mask;
    assert buf[start..start + |payload|] == Masked(payload, mask);
    assert buf[start + |payload|..] == rest;
    MaskedTwice(payload, mask);
  }

  /** Any proper prefix of a client frame is an incomplete frame. */
  lemma PrefixIsIncomplete(payload: seq<Byte>, mask: Mask, n: nat)
    requires |payload| < 0x8000_0000_0000_0000 && n < |ClientFrame(payload, mask)|
    ensures Parse(ClientFrame(payload, mask)[..n]) == Incomplete
  {
    var frame := ClientFrame(payload, mask);
    var buf := frame[..n];
    var ext := Extension(|payload|);
    if |buf| >= 2 + |ext| {
      assert frame == [FIN_TEXT, 128 + ShortLength(|payload|)] + ext + mask + Masked(payload, mask);
      assert HeaderOf(buf) == Header(TEXT, true, ShortLength(|payload|));
      assert buf[2..2 + |ext|] == frame[2..2 + |ext|] == ext;
      LengthRoundTrip(|payload|);
    }
  }

  /** Bytes that arrive later do not change a frame that was already complete. */
  lemma ParseIsStable(buf: seq<Byte>, more: seq<Byte>)
    requires Parse(buf).Frame?
    ensures Parse(buf + more) == Frame(Parse(buf).payload, Parse(buf).rest + more, Parse(buf).isText)
  {
    var h, all := HeaderOf(buf), buf + more;
    assert HeaderOf(all) == h;
    var e := 2 + ExtensionSize(h.short);
    assert all[2..e] == buf[2..e];
    var start, size := HeaderSize(h), HeaderSize(h) + PayloadLength(buf);
    assert all[start..size] == buf[start..size];
    assert h.masked ==> all[start - 4..start] == buf[start - 4..start];
    assert all[size..] == buf[size..] + more;
  }

  // ---- Frames byte by byte, of any kind ----------------------------------------------------

  /** The length field by ranges: one byte up to 125, two more up to 65535, eight more beyond. */
  lemma LengthFieldBytes(n: nat)
    requires n < WORD
    ensures n <= 125 ==> ShortLength(n) == n && Extension(n) == []
    ensures 125 < n <= 65535 ==>
              ShortLength(n) == 126 && |Extension(n)| == 2 && n == 256 * (Extension(n)[0] as int) + Extension(n)[1]
    ensures 65535 < n ==> ShortLength(n) == 127 && |Extension(n)| == 8 && n == FromBigEndian(Extension(n))
  {
    LengthRoundTrip(n);
    NetworkOrder(Extension(n));
  }

  /** A client writes a final text frame with its mask bit, its mask in clear, and byte i under mask byte i mod 4. */
  lemma ClientFrameBytes(payload: seq<Byte>, mask: Mask, i: nat)
    requires i < |payload| < WORD
    ensures var frame, e := ClientFrame(payload, mask), |Extension(|payload|)|;
            && |frame| == 2 + e + 4 + |payload|
            && frame[0] == 0x81 && frame[1] == 0x80 + ShortLength(|payload|) && frame[2..2 + e] == Extension(|payload|)
            && frame[2 + e..2 + e + 4] == mask && frame[2 + e + 4 + i] == Xor(payload[i], mask[i % 4])
  {
  }

  /** A server writes a final text frame without a mask. */
  lemma ServerFrameBytes(text: seq<Byte>)
    requires |text| < WORD
    ensures var frame, e := ServerFrame(text), |Extension(|text|)|;
            && frame[0] == 0x81 && frame[1] == ShortLength(|text|) && frame[2..2 + e] == Extension(|text|)
            && frame[2 + e..] == text
  {
  }

  /** A frame with any first byte, with or without a mask. */
  function AnyFrame(first: Byte, payload: seq<Byte>, mask: Option<Mask>): seq<Byte> {
    [first, ShortLength(|payload|) + if mask.Some? then 128 else 0] + Extension(|payload|)
    + (if mask.Some? then mask.value else []) + (if mask.Some? then Masked(payload, mask.value) else payload)
  }

  /** The key and the bytes on the wire of a payload with that mask, or without one. */
  function Key(mask: Option<Mask>): seq<Byte> { if mask.Some? then mask.value else [] }

  function OnWire(payload: seq<Byte>, mask: Option<Mask>): (data: seq<Byte>)
    ensures |data| == |payload|
  {
    if mask.Some? then Masked(payload, mask.value) else payload
  }

  /** The parts of five joined strings. */
  lemma FiveParts(a: seq<Byte>, b: seq<Byte>, c: seq<Byte>, d: seq<Byte>, e: seq<Byte>)
    ensures var s, i := a + b + c + d + e, |a| + |b|;
            && s[..|a|] == a && s[|a|..i] == b && s[i..i + |c|] == c && s[i + |c|..i + |c| + |d|] == d
            && s[i + |c| + |d|..] == e && |s| == i + |c| + |d| + |e|
  {
  }

  lemma AnyFrameParts(first: Byte, payload: seq<Byte>, mask: Option<Mask>, rest: seq<Byte>)
    ensures var buf, ext, key := AnyFrame(first, payload, mask) + rest, Extension(|payload|), Key(mask);
            var start := 2 + |ext| + |key|;
            && |buf| == start + |payload| + |rest| && |ext| == ExtensionSize(ShortLength(|payload|))
            && HeaderOf(buf) == Header(first % 16, mask.Some?, ShortLength(|payload|))
            && buf[2..2 + |ext|] == ext && buf[start - |key|..start] == key
            && buf[start..start + |payload|] == OnWire(payload, mask) && buf[start + |payload|..] == rest
  {
    var buf, short, ext := AnyFrame(first, payload, mask) + rest, ShortLength(|payload|), Extension(|payload|);
    var head: seq<Byte> := [first, short + if mask.Some? then 128 else 0];
    assert AnyFrame(first, payload, mask) == head + ext + Key(mask) + OnWire(payload, mask);
    FiveParts(head, ext, Key(mask), OnWire(payload, mask), rest);
    assert buf[..2] == head && buf[0] == buf[..2][0] && buf[1] == buf[..2][1];
    hide BigEndian, Masked, Extension, Key, OnWire, AnyFrame, ShortLength, ExtensionSize;
  }

  /**
   * With a mask or without, and whatever follows: a frame with opcode 8 closes the connection, and any other one reads
   * as its payload, as text exactly for opcode 1. The bits above the opcode do not count.
   */
  lemma AnyFrameReads(first: Byte, payload: seq<Byte>, mask: Option<Mask>, rest: seq<Byte>)
    requires |payload| < 0x8000_0000_0000_0000
    ensures Parse(AnyFrame(first, payload, mask) + rest)
         == if first % 16 == 8 then Closed(rest) else Frame(payload, rest, first % 16 == 1)
  {
    hide FromBigEndian, BigEndian, Masked, AnyFrame, HeaderOf, ShortLength;
    AnyFrameParts(first, payload, mask, rest);
    LengthRoundTrip(|payload|);
    if mask.Some? {
      MaskedTwice(payload, mask.value);
    }
  }

  /**
   * A length field so large that the frame's size passes 2^64: the size wraps, and once that many bytes are there a
   * close frame is taken and any other frame is impossible.
   */
  lemma HugeLengthWraps(buf: seq<Byte>)
    requires |buf| >= 2 && |buf| >= 2 + ExtensionSize(HeaderOf(buf).short)
    requires HeaderSize(HeaderOf(buf)) + PayloadLength(buf) >= 0x1_0000_0000_0000_0000
    ensures var size := HeaderSize(HeaderOf(buf)) + PayloadLength(buf) - 0x1_0000_0000_0000_0000;
            && size < 14
            && Parse(buf) == if |buf| < size then Incomplete
                             else if buf[0] % 16 == 8 then Closed(buf[size..]) else Unrepresentable
  {
    var short := HeaderOf(buf).short;
    PowersOf256();
    FromBigEndianBound(buf[2..2 + ExtensionSize(short)]);
  }

  // ---- The client reads from a stream, byte by byte --------------------------------------

  /** None when the stream ends early or a close frame comes; any other frame is a message. */
  function ClientParse(stream: seq<Byte>): Option<(seq<Byte>, seq<Byte>)> {
    if |stream| < 2 || HeaderOf(stream).opcode == CLOSE then None
    else if |stream| < 2 + ExtensionSize(HeaderOf(stream).short) then None
    else
      var size := HeaderSize(HeaderOf(stream)) + PayloadLength(stream);
      if |stream| < size then None else Some((Payload(stream), stream[size..]))
  }

  /** The text frames a server writes, one after another; an empty text is not sent. */
  function ServerStream(texts: seq<seq<Byte>>): seq<Byte> {
    if texts == [] then [] else (if texts[0] == [] then [] else ServerFrame(texts[0])) + ServerStream(texts[1..])
  }

  function NonEmpty(texts: seq<seq<Byte>>): seq<seq<Byte>> {
    if texts == [] then [] else (if texts[0] == [] then [] else [texts[0]]) + NonEmpty(texts[1..])
  }

  function ClientParseAll(stream: seq<Byte>): seq<seq<Byte>>
    decreases |stream|
  {
    match ClientParse(stream)
    case None => []
    case Some((payload, rest)) => if |rest| < |stream| then [payload] + ClientParseAll(rest) else [payload]
  }

  lemma ServerFrameReads(text: seq<Byte>, rest: seq<Byte>)
    requires |text| < WORD
    ensures ClientParse(ServerFrame(text) + rest) == Some((text, rest))
  {
    var stream := ServerFrame(text) + rest;
    var short, ext := ShortLength(|text|), Extension(|text|);
    assert stream == [FIN_TEXT, short] + ext + text + rest;
    assert HeaderOf(stream) == Header(TEXT, false, short);
    assert stream[2..2 + |ext|] == ext;
    LengthRoundTrip(|text|);
    assert stream[2 + |ext|..2 + |ext| + |text|] == text;
    assert stream[2 + |ext| + |text|..] == rest;
  }

  /** The client takes any frame but a close frame as a message, masked or not. */
  lemma ClientReadsAnyFrame(first: Byte, payload: seq<Byte>, mask: Option<Mask>, rest: seq<Byte>)
    requires |payload| < WORD
    ensures ClientParse(AnyFrame(first, payload, mask) + rest)
         == if first % 16 == 8 then None else Some((payload, rest))
  {
    hide FromBigEndian, BigEndian, Masked, AnyFrame, HeaderOf, ShortLength;
    AnyFrameParts(first, payload, mask, rest);
    LengthRoundTrip(|payload|);
    if mask.Some? {
      MaskedTwice(payload, mask.value);
    }
  }

  /** The client reads exactly the nonempty texts the server sent, in order. */
  lemma {:induction false} ServerStreamReads(texts: seq<seq<Byte>>)
    requires forall i :: 0 <= i < |texts| ==> |texts[i]| < WORD
    ensures ClientParseAll(ServerStream(texts)) == NonEmpty(texts)
  {
    if texts != [] {
      ServerStreamReads(texts[1..]);
      if texts[0] != [] {
        ServerFrameReads(texts[0], ServerStream(texts[1..]));
      } else {
        assert [] + ServerStream(texts[1..]) == ServerStream(texts[1..]);
      }
    }
  }
}
