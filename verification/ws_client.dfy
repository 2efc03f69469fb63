/** The client's side of a WebSocket connection: frames sent with a mask, frames read byte by byte. */
module WsClients {
  import opened Bytes
  import opened Options
  import opened WebSocketFrames

  /** The bytes handed to the socket for one payload; the random mask is a parameter. */
  method SendFrame(payload: seq<Byte>, mask: Mask) returns (frame: seq<Byte>)
    requires |payload| < WORD
    ensures frame == ClientFrame(payload, mask)
  {
    frame := [FIN_TEXT];
    var length := |payload|;
    if length <= 125 {
      frame := frame + [length + 128];
      assert Extension(length) == [];
    } else if length <= 65535 {
      frame := frame + [0xFE, length / 256 % 256, length % 256];
      TwoBytes(length);
    } else {
      frame := frame + [0xFF];
      var i := 7;
      ghost var shifted: seq<Byte> := [];
      while i >= 0
        invariant -1 <= i <= 7 && shifted == BigEndian(length, 8)[..7 - i]
        invariant frame == [FIN_TEXT, 0xFF] + shifted
      {
        ByteAt(length, 8, 7 - i);
        shifted := shifted + [length / Power256(i) % 256];
        frame := frame + [length / Power256(i) % 256];
        i := i - 1;
      }
      assert shifted == Extension(length);
    }
    ghost var header := frame;
    frame := frame + mask;
    for i := 0 to length
      invariant frame == header + mask + Masked(payload, mask)[..i]
    {
      frame := frame + [Xor(payload[i], mask[i % 4])];
    }
    assert Masked(payload, mask)[..length] == Masked(payload, mask);
  }

  /** The socket's incoming bytes; a read takes one byte, or fails when none is left before the timeout. */
  class Socket {
    var incoming: seq<Byte>

    constructor (incoming: seq<Byte>)
      ensures this.incoming == incoming
    {
      this.incoming := incoming;
    }

    method Recv1() returns (ok: bool, b: Byte)
      modifies this
      ensures ok == (old(incoming) != [])
      ensures if ok then [b] + incoming == old(incoming) else incoming == []
    {
      if incoming == [] { return false, 0; }
      b := incoming[0];
      incoming := incoming[1..];
      return true, b;
    }

    method RecvMany(n: nat) returns (ok: bool, s: seq<Byte>)
      modifies this
      ensures ok == (n <= |old(incoming)|)
      ensures ok ==> s == old(incoming)[..n] && incoming == old(incoming)[n..]
    {
      s := [];
      for i := 0 to n
        invariant i <= |old(incoming)| && s == old(incoming)[..i] && incoming == old(incoming)[i..]
      {
        var got, b := Recv1();
        if !got { return false, s; }
        s := s + [b];
      }
      return true, s;
    }

    /** Reads one frame. */
    method RecvFrame() returns (ok: bool, out: seq<Byte>)
      modifies this
      ensures match ClientParse(old(incoming))
              case None => !ok
              case Some((payload, rest)) => ok && out == payload && incoming == rest
    {
      hide FromBigEndian, Masked;
      ghost var stream := incoming;
      out := [];
      var got, head := RecvMany(2);
      if !got { return false, out; }
      var masked, opcode, length := head[1] >= 128, head[0] % 16, head[1] % 128;
      if opcode == CLOSE { return false, out; }
      var ext := ExtensionSize(length);
      if ext > 0 {
        var bytes;
        got, bytes := RecvMany(ext);
        if !got { return false, out; }
        assert bytes == stream[2..2 + ext];
        length := FromBigEndian(bytes);
      }
      assert length == PayloadLength(stream);
      var mask: Mask := [0, 0, 0, 0];
      if masked {
        got, mask := RecvMask();
        if !got { return false, out; }
        assert mask == stream[2 + ext..2 + ext + 4];
      }
      ghost var start := HeaderSize(HeaderOf(stream));
      assert incoming == stream[start..];
      ok, out := RecvPayload(length, masked, mask);
      if ok {
        assert stream[start..][..length] == stream[start..start + length];
        assert stream[start..][length..] == stream[start + length..];
        assert masked ==> mask == stream[start - 4..start];
      }
    }

    /** The loop over the payload. */
    method RecvPayload(length: nat, masked: bool, mask: Mask) returns (ok: bool, out: seq<Byte>)
      modifies this
      ensures ok == (length <= |old(incoming)|)
      ensures ok ==> out == Unmasked(old(incoming)[..length], masked, mask) && incoming == old(incoming)[length..]
    {
      hide Masked, Xor;
      out := [];
      NothingMasked(mask);
      for i := 0 to length
        invariant i <= |old(incoming)| && incoming == old(incoming)[i..]
        invariant out == Unmasked(old(incoming)[..i], masked, mask)
      {
        var got, b := Recv1();
        if !got { return false, out; }
        UnmaskedGrows(old(incoming)[..i], b, masked, mask);
        assert old(incoming)[..i] + [b] == old(incoming)[..i + 1];
        out := out + [if masked then Xor(b, mask[i % 4]) else b];
      }
      return true, out;
    }

    method RecvMask() returns (ok: bool, mask: Mask)
      modifies this
      ensures ok == (4 <= |old(incoming)|)
      ensures ok ==> mask == old(incoming)[..4] && incoming == old(incoming)[4..]
    {
      var s;
      ok, s := RecvMany(4);
      mask := if ok then s else [0, 0, 0, 0];
    }
  }

  function Unmasked(data: seq<Byte>, masked: bool, mask: Mask): seq<Byte> {
    if masked then Masked(data, mask) else data
  }

  lemma NothingMasked(mask: Mask)
    ensures Masked([], mask) == []
  {
  }

  lemma UnmaskedGrows(data: seq<Byte>, b: Byte, masked: bool, mask: Mask)
    ensures Unmasked(data + [b], masked, mask)
         == Unmasked(data, masked, mask) + [if masked then Xor(b, mask[|data| % 4]) else b]
  {
    hide Xor;
    var one := Masked(data, mask) + [Xor(b, mask[|data| % 4])];
    assert Masked(data + [b], mask) == one;
  }
}
