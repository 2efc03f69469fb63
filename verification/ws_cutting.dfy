/** Which streams a server handles in the same way however the reads cut them. */
module WsCuttings {
  import opened Bytes
  import opened WebSocketFrames
  import opened WsServers

  /** Draining that skips frames which are neither text nor close, instead of stopping at them. */
  function Skim(buf: seq<Byte>): Drained
    decreases |buf|
  {
    match Parse(buf)
    case Incomplete => Drained([], buf, Waiting)
    case Closed(rest) => Drained([], rest, Dead)
    case Unrepresentable => Drained([], buf, Failed)
    case Frame(payload, rest, isText) => Later(if isText then [payload] else [], Skim(rest))
  }

  /** What is drained after these messages. */
  function Later(messages: seq<seq<Byte>>, d: Drained): Drained { d.(messages := messages + d.messages) }

  /**
   * A complete text frame behind a complete frame neither text nor close, with no close frame, nor one of an impossible
   * size, before it.
   */
  predicate TextBehindOther(buf: seq<Byte>)
    decreases |buf|
  {
    match Parse(buf)
    case Frame(_, rest, isText) => if isText then TextBehindOther(rest) else Skim(rest).messages != []
    case _ => false
  }

  /** Reads of at most limit bytes that return this stream; a read that returns none ends the connection. */
  predicate Cutting(chunks: seq<seq<Byte>>, stream: seq<Byte>, limit: nat) {
    Joined(chunks) == stream && forall i | 0 <= i < |chunks| :: 0 < |chunks[i]| <= limit
  }

  /** Later bytes do not change how a buffer starts that already holds a close frame or an impossible one. */
  lemma EndIsStable(buf: seq<Byte>, more: seq<Byte>)
    requires Parse(buf).Closed? || Parse(buf).Unrepresentable?
    ensures Parse(buf + more) == if Parse(buf).Closed? then Closed(Parse(buf).rest + more) else Unrepresentable
  {
    var h, all := HeaderOf(buf), buf + more;
    assert HeaderOf(all) == h;
    var e := 2 + ExtensionSize(h.short);
    assert all[2..e] == buf[2..e];
    var size := (HeaderSize(h) + PayloadLength(buf)) % WORD;
    assert all[size..] == buf[size..] + more;
  }

  lemma {:induction false} DrainIsStable(buf: seq<Byte>, more: seq<Byte>)
    requires !Drain(buf).stop.Waiting?
    ensures Drain(buf + more).stop == Drain(buf).stop && Drain(buf + more).messages == Drain(buf).messages
    decreases |buf|
  {
    hide Parse;
    var p := Parse(buf);
    if p.Frame? {
      ParseIsStable(buf, more);
      if p.isText {
        DrainIsStable(p.rest, more);
      }
    } else {
      EndIsStable(buf, more);
    }
  }

  /** What the handler gets at the first read of a buffer, and what is still to come. */
  lemma {:induction false} SkimAfterDrain(buf: seq<Byte>, more: seq<Byte>)
    ensures var d := Drain(buf);
            Skim(buf + more).messages
            == d.messages + if d.stop.Waiting? || d.stop.NotText? then Skim(d.rest + more).messages else []
    decreases |buf|
  {
    hide Parse;
    var p := Parse(buf);
    if p.Frame? {
      ParseIsStable(buf, more);
      if p.isText {
        SkimAfterDrain(p.rest, more);
      }
    } else if !p.Incomplete? {
      EndIsStable(buf, more);
    }
  }

  /** No cutting has the handler get more than skimming gives. */
  lemma {:induction false} FedThenSkim(chunks: seq<seq<Byte>>, more: seq<Byte>)
    ensures var d := Fed(chunks);
            Skim(Joined(chunks) + more).messages
            == d.messages + if d.stop.Dead? || d.stop.Failed? then [] else Skim(d.rest + more).messages
  {
    hide Skim, Drain;
    if chunks == [] {
      assert Joined(chunks) + more == [] + more;
    } else {
      var before, last := chunks[..|chunks| - 1], chunks[|chunks| - 1];
      FedThenSkim(before, last + more);
      assert Joined(before) + (last + more) == Joined(chunks) + more;
      var rest := Fed(before).rest;
      assert rest + (last + more) == (rest + last) + more;
      SkimAfterDrain(rest + last, more);
    }
  }

  /** No cutting has the handler get less than one read of everything gives. */
  lemma {:induction false} DrainedIsFed(chunks: seq<seq<Byte>>)
    ensures Drain(Joined(chunks)).messages <= Fed(chunks).messages
    ensures Drain(Joined(chunks)).stop.Waiting? ==> Fed(chunks) == Drain(Joined(chunks))
  {
    hide Drain;
    if chunks == [] {
      NothingDrained();
    } else {
      var before, last := chunks[..|chunks| - 1], chunks[|chunks| - 1];
      DrainedIsFed(before);
      if Drain(Joined(before)).stop.Waiting? {
        DrainAppend(Joined(before), last);
      } else {
        DrainIsStable(Joined(before), last);
      }
    }
  }

  lemma {:induction false} SkimIsDrainIff(buf: seq<Byte>)
    ensures Drain(buf).messages <= Skim(buf).messages
    ensures Drain(buf).messages == Skim(buf).messages <==> !TextBehindOther(buf)
    decreases |buf|
  {
    hide Parse;
    var p := Parse(buf);
    if p.Frame? && p.isText {
      SkimIsDrainIff(p.rest);
      var a, b := Drain(p.rest).messages, Skim(p.rest).messages;
      assert ([p.payload] + a)[1..] == a && ([p.payload] + b)[1..] == b;
    }
  }

  // ---- One byte at a time ----------------------------------------------------------------

  function Bytewise(stream: seq<Byte>): (chunks: seq<seq<Byte>>)
    ensures |chunks| == |stream|
  {
    seq(|stream|, i requires 0 <= i < |stream| => [stream[i]])
  }

  lemma {:induction false} BytewiseCuts(stream: seq<Byte>, limit: nat)
    requires limit > 0
    ensures Cutting(Bytewise(stream), stream, limit)
  {
    if stream != [] {
      var n := |stream| - 1;
      BytewiseCuts(stream[..n], limit);
      assert Bytewise(stream)[..n] == Bytewise(stream[..n]);
    }
  }

  /** Behind a frame that was incomplete lie only bytes that completed it, and not all of them. */
  lemma RestIsAmongNew(buf: seq<Byte>, more: seq<Byte>)
    requires Parse(buf).Incomplete? && Parse(buf + more).Frame?
    ensures |Parse(buf + more).rest| < |more|
  {
    var all := buf + more;
    if |buf| >= 2 && |buf| >= 2 + ExtensionSize(HeaderOf(buf).short) {
      assert HeaderOf(all) == HeaderOf(buf);
      var e := 2 + ExtensionSize(HeaderOf(buf).short);
      assert all[2..e] == buf[2..e];
    }
  }

  lemma {:induction false} SkimLeavesIncomplete(buf: seq<Byte>)
    requires Skim(buf).stop.Waiting?
    ensures Parse(Skim(buf).rest).Incomplete?
    decreases |buf|
  {
    hide Parse;
    if Parse(buf).Frame? {
      SkimLeavesIncomplete(Parse(buf).rest);
    }
  }

  lemma LaterTwice(a: seq<seq<Byte>>, b: seq<seq<Byte>>, d: Drained)
    ensures Later(a, Later(b, d)) == Later(a + b, d)
  {
    assert a + (b + d.messages) == (a + b) + d.messages;
  }

  /** Skimming, then skimming again after more bytes, is skimming everything at once. */
  ghost predicate SkimsOn(buf: seq<Byte>, more: seq<Byte>) {
    var d, all := Skim(buf), Skim(buf + more);
    if d.stop.Waiting? then all == Later(d.messages, Skim(d.rest + more))
    else all.messages == d.messages && all.stop == d.stop
  }

  lemma FrameSkimsOn(buf: seq<Byte>, more: seq<Byte>)
    requires Parse(buf).Frame? && SkimsOn(Parse(buf).rest, more)
    ensures SkimsOn(buf, more)
  {
    ParseIsStable(buf, more);
    hide Parse;
    var p := Parse(buf);
    var first, after := if p.isText then [p.payload] else [], Skim(p.rest);
    assert Skim(buf) == Later(first, after) && Skim(buf + more) == Later(first, Skim(p.rest + more));
    LaterTwice(first, after.messages, Skim(after.rest + more));
    hide Skim;
  }

  lemma {:induction false} SkimAppend(buf: seq<Byte>, more: seq<Byte>)
    ensures SkimsOn(buf, more)
    decreases |buf|
  {
    hide Parse;
    var p := Parse(buf);
    if p.Frame? {
      SkimAppend(p.rest, more);
      FrameSkimsOn(buf, more);
      hide SkimsOn;
    } else if p.Incomplete? {
      assert Later([], Skim(buf + more)) == Skim(buf + more);
    } else {
      EndIsStable(buf, more);
    }
  }

  /** When a buffer was incomplete before its last byte, draining it stops behind at most one frame. */
  lemma DrainOfOneMoreByte(buf: seq<Byte>, b: Byte)
    requires Parse(buf).Incomplete?
    ensures var d, k := Drain(buf + [b]), Skim(buf + [b]);
            && d.messages == k.messages && d.rest == k.rest && (k.stop.Dead? <==> d.stop.Dead?)
            && (k.stop.Failed? <==> d.stop.Failed?) && !k.stop.NotText?
  {
    var p := Parse(buf + [b]);
    if p.Frame? {
      RestIsAmongNew(buf, [b]);
      assert Parse([]).Incomplete?;
    }
    hide Parse;
  }

  /** Read byte by byte, every text frame before the first close frame reaches the handler. */
  lemma {:induction false} BytewiseIsSkim(stream: seq<Byte>)
    ensures var f, k := Fed(Bytewise(stream)), Skim(stream);
            && f.messages == k.messages && (k.stop.Waiting? <==> !f.stop.Dead? && !f.stop.Failed?)
            && (k.stop.Waiting? ==> f.rest == k.rest)
  {
    hide Parse;
    if stream == [] {
      assert Parse(stream).Incomplete? by { EmptyIsIncomplete(); }
    } else {
      var n := |stream| - 1;
      var early, b := stream[..n], stream[n];
      BytewiseIsSkim(early);
      assert Bytewise(stream)[..n] == Bytewise(early) && stream == early + [b];
      SkimAppend(early, [b]);
      if Skim(early).stop.Waiting? {
        SkimLeavesIncomplete(early);
        DrainOfOneMoreByte(Skim(early).rest, b);
      }
      hide Skim, Drain;
    }
  }

  lemma EmptyIsIncomplete()
    ensures Parse([]).Incomplete?
  {
  }

  // ---- When the cutting does not matter --------------------------------------------------

  /** Whatever the reads of at most limit bytes cut the stream into, the handler gets the same messages. */
  ghost predicate CuttingDoesNotMatter(stream: seq<Byte>, limit: nat) {
    forall a, b | Cutting(a, stream, limit) && Cutting(b, stream, limit) :: Fed(a).messages == Fed(b).messages
  }

  /**
   * The complete frames neither text nor close that have a complete text frame behind them, with no close frame, nor
   * one of an impossible size, before it. Draining stops once at each of them.
   */
  function Hurdles(buf: seq<Byte>): nat
    decreases |buf|
  {
    match Parse(buf)
    case Frame(_, rest, isText) =>
      if Skim(rest).messages == [] then 0 else (if isText then 0 else 1) + Hurdles(rest)
    case _ => 0
  }

  /** From some frame on, itself included, there are more hurdles than full reads fit into the bytes behind it. */
  predicate Crowded(buf: seq<Byte>, limit: nat)
    requires limit > 0
    decreases |buf|
  {
    match Parse(buf)
    case Frame(_, rest, isText) => (!isText && Hurdles(buf) > |rest| / limit) || Crowded(rest, limit)
    case _ => false
  }

  /** The bytes of this many full reads. */
  function Full(count: nat, limit: nat): nat { count * limit }

  /** With these bytes to come, one read more than there are hurdles is certain. */
  predicate Reaches(buf: seq<Byte>, limit: nat, toCome: nat) {
    Skim(buf).messages == [] || Full(Hurdles(buf), limit) < toCome
  }

  lemma QuotientIsAtLeast(a: nat, b: nat, limit: nat)
    requires limit > 0
    ensures a <= b / limit <==> Full(a, limit) <= b
  {
    var q, r := b / limit, b % limit;
    assert b == q * limit + r && 0 <= r < limit;
    if a <= q {
      assert a * limit <= q * limit;
    } else {
      assert a * limit >= (q + 1) * limit;
    }
  }

  lemma {:induction false} HurdlesFitBehindFirst(buf: seq<Byte>, limit: nat)
    requires limit > 0 && !Crowded(buf, limit) && Parse(buf).Frame? && Skim(buf).messages != []
    ensures Full(Hurdles(buf), limit) <= |Parse(buf).rest|
    decreases |buf|
  {
    hide Parse;
    var p := Parse(buf);
    assert Full(0, limit) == 0;
    if Skim(p.rest).messages != [] {
      if p.isText {
        HurdlesFitBehindFirst(p.rest, limit);
      } else {
        QuotientIsAtLeast(Hurdles(buf), |p.rest|, limit);
      }
    }
  }

  lemma IncompleteReaches(buf: seq<Byte>, more: seq<Byte>, limit: nat)
    requires limit > 0 && Parse(buf).Incomplete? && !Crowded(buf + more, limit)
    ensures Reaches(buf + more, limit, |more|)
  {
    hide Parse;
    if Skim(buf + more).messages != [] {
      RestIsAmongNew(buf, more);
      HurdlesFitBehindFirst(buf + more, limit);
    }
  }

  lemma OneReadLess(count: nat, limit: nat, toCome: nat)
    requires count > 0
    ensures Full(count, limit) < toCome + limit ==> Full(count - 1, limit) < toCome
    ensures Full(count, limit) >= toCome + limit ==> Full(count - 1, limit) >= toCome
  {
    assert (count - 1) * limit == count * limit - limit;
  }

  lemma HurdleTaken(buf: seq<Byte>, limit: nat, toCome: nat)
    requires Parse(buf).Frame? && !Parse(buf).isText && Reaches(buf, limit, toCome + limit)
    ensures Reaches(Parse(buf).rest, limit, toCome)
  {
    hide Parse, Full;
    if Skim(Parse(buf).rest).messages != [] {
      OneReadLess(Hurdles(buf), limit, toCome);
    }
  }

  lemma TextTaken(buf: seq<Byte>, limit: nat, toCome: nat)
    requires Parse(buf).Frame? && Parse(buf).isText && Reaches(buf, limit, toCome)
    ensures Reaches(Parse(buf).rest, limit, toCome)
  {
    hide Parse, Full;
  }

  /** A drain takes at most one hurdle. */
  lemma {:induction false} DrainKeepsReaching(buf: seq<Byte>, more: seq<Byte>, limit: nat)
    requires limit > 0 && !Crowded(buf + more, limit) && Reaches(buf + more, limit, |more| + limit)
    ensures var d := Drain(buf);
            d.stop.Waiting? || d.stop.NotText? ==>
              !Crowded(d.rest + more, limit) && Reaches(d.rest + more, limit, |more|)
    decreases |buf|
  {
    hide Parse, Reaches, Hurdles, Skim;
    var p := Parse(buf);
    if p.Incomplete? {
      IncompleteReaches(buf, more, limit);
    } else if p.Frame? {
      ParseIsStable(buf, more);
      if p.isText {
        TextTaken(buf + more, limit, |more| + limit);
        DrainKeepsReaching(p.rest, more, limit);
      } else {
        HurdleTaken(buf + more, limit, |more|);
      }
    }
  }

  lemma {:induction false} FedReaches(chunks: seq<seq<Byte>>, more: seq<Byte>, limit: nat)
    requires limit > 0 && !Crowded(Joined(chunks) + more, limit)
    requires forall i | 0 <= i < |chunks| :: |chunks[i]| <= limit
    ensures var d := Fed(chunks);
            d.stop.Waiting? || d.stop.NotText? ==>
              !Crowded(d.rest + more, limit) && Reaches(d.rest + more, limit, |more|)
  {
    hide Crowded, Drain;
    if chunks == [] {
      EmptyIsIncomplete();
      IncompleteReaches([], more, limit);
    } else {
      var before, last := chunks[..|chunks| - 1], chunks[|chunks| - 1];
      assert Joined(before) + (last + more) == Joined(chunks) + more;
      FedReaches(before, last + more, limit);
      var d := Fed(before);
      assert d.rest + (last + more) == (d.rest + last) + more;
      if d.stop.Waiting? || d.stop.NotText? {
        FewerToCome(d.rest + last + more, limit, |last| + |more|, |more| + limit);
        DrainKeepsReaching(d.rest + last, more, limit);
      }
    }
  }

  lemma FewerToCome(buf: seq<Byte>, limit: nat, few: nat, many: nat)
    requires Reaches(buf, limit, few) && few <= many
    ensures Reaches(buf, limit, many)
  {
  }

  /** A stream that is not crowded is read in full, whatever the cutting. */
  lemma UncrowdedIsSkimmed(chunks: seq<seq<Byte>>, stream: seq<Byte>, limit: nat)
    requires limit > 0 && Cutting(chunks, stream, limit) && !Crowded(stream, limit)
    ensures Fed(chunks).messages == Skim(stream).messages
  {
    hide Crowded, Drain, Skim;
    assert stream + [] == stream;
    FedThenSkim(chunks, []);
    FedReaches(chunks, [], limit);
    var d := Fed(chunks);
    assert d.rest + [] == d.rest;
  }

  // ---- The latest cutting: one short read, then full ones --------------------------------

  function Latest(stream: seq<Byte>, limit: nat): seq<seq<Byte>>
    requires limit > 0
    decreases |stream|
  {
    if |stream| <= limit then [stream]
    else Latest(stream[..|stream| - limit], limit) + [stream[|stream| - limit..]]
  }

  lemma {:induction false} LatestCuts(stream: seq<Byte>, limit: nat)
    requires limit > 0 && stream != []
    ensures Cutting(Latest(stream, limit), stream, limit)
    decreases |stream|
  {
    if |stream| <= limit {
      AtOnce(stream);
    } else {
      var early, last := stream[..|stream| - limit], stream[|stream| - limit..];
      LatestCuts(early, limit);
      var chunks := Latest(early, limit);
      assert (chunks + [last])[..|chunks|] == chunks && early + last == stream;
    }
  }

  /** The bytes fill a whole number of reads. */
  ghost predicate WholeReads(bytes: nat, limit: nat) { exists count: nat :: bytes == Full(count, limit) }

  lemma OneWholeReadMore(bytes: nat, limit: nat)
    requires WholeReads(bytes, limit)
    ensures WholeReads(bytes + limit, limit)
  {
    var count: nat :| bytes == Full(count, limit);
    assert bytes + limit == Full(count + 1, limit);
  }

  /** With just these full reads to come, the hurdles keep a text frame from the handler. */
  predicate Stuck(buf: seq<Byte>, limit: nat, toCome: nat)
    requires limit > 0
  {
    Crowded(buf, limit) || (Skim(buf).messages != [] && Full(Hurdles(buf), limit) >= toCome)
  }

  /** More hurdles than full reads lie behind the first of them: one less still takes all reads to come. */
  lemma StuckBehind(hurdles: nat, rest: nat, toCome: nat, limit: nat)
    requires limit > 0 && WholeReads(toCome, limit) && toCome <= rest && hurdles > rest / limit
    ensures hurdles >= 1 && Full(hurdles - 1, limit) >= toCome
  {
    var q: nat :| toCome == Full(q, limit);
    QuotientIsAtLeast(q, rest, limit);
    FullGrows(q, hurdles - 1, limit);
  }

  lemma FullGrows(few: nat, many: nat, limit: nat)
    requires few <= many
    ensures Full(few, limit) <= Full(many, limit)
  {
  }

  /** The hurdle the server stops at, whose last byte arrived. */
  lemma HurdleStaysStuck(buf: seq<Byte>, limit: nat, toCome: nat)
    requires limit > 0 && Parse(buf).Frame? && !Parse(buf).isText && toCome <= |Parse(buf).rest|
    requires WholeReads(toCome, limit) && Stuck(buf, limit, toCome + limit)
    ensures Stuck(Parse(buf).rest, limit, toCome)
  {
    hide Parse, Full, WholeReads;
    var rest := Parse(buf).rest;
    if !Crowded(rest, limit) {
      if Crowded(buf, limit) {
        StuckBehind(Hurdles(buf), |rest|, toCome, limit);
      } else {
        SomeHurdle(Hurdles(buf), limit, toCome);
        OneReadLess(Hurdles(buf), limit, toCome);
      }
    }
  }

  lemma SomeHurdle(hurdles: nat, limit: nat, toCome: nat)
    requires limit > 0 && Full(hurdles, limit) >= toCome + limit
    ensures hurdles > 0
  {
  }

  lemma TextStaysStuck(buf: seq<Byte>, limit: nat, toCome: nat)
    requires limit > 0 && Parse(buf).Frame? && Parse(buf).isText && Stuck(buf, limit, toCome + limit)
    ensures Stuck(Parse(buf).rest, limit, toCome + limit)
  {
    hide Parse, Full;
    if !Crowded(buf, limit) {
      SomeHurdle(Hurdles(buf), limit, toCome);
    }
  }

  lemma StuckOnFrame(buf: seq<Byte>, limit: nat, toCome: nat)
    requires limit > 0 && Stuck(buf, limit, toCome)
    ensures Parse(buf).Frame?
  {
    hide Parse;
  }

  lemma FewerLeftIsStuck(buf: seq<Byte>, limit: nat, toCome: nat)
    requires limit > 0 && Stuck(buf, limit, toCome + limit)
    ensures Stuck(buf, limit, toCome)
  {
  }

  lemma {:induction false} DrainStaysStuck(buf: seq<Byte>, more: seq<Byte>, limit: nat)
    requires limit > 0 && WholeReads(|more|, limit) && Stuck(buf + more, limit, |more| + limit)
    ensures var d := Drain(buf);
            (d.stop.Waiting? || d.stop.NotText?) && Stuck(d.rest + more, limit, |more|)
    decreases |buf|
  {
    hide Parse, Stuck, WholeReads;
    var p := Parse(buf);
    if p.Incomplete? {
      FewerLeftIsStuck(buf + more, limit, |more|);
    } else if p.Frame? {
      ParseIsStable(buf, more);
      if p.isText {
        TextStaysStuck(buf + more, limit, |more|);
        DrainStaysStuck(p.rest, more, limit);
      } else {
        HurdleStaysStuck(buf + more, limit, |more|);
      }
    } else {
      EndIsStable(buf, more);
      StuckOnFrame(buf + more, limit, |more| + limit);
    }
  }

  lemma LatestFed(stream: seq<Byte>, limit: nat)
    requires 0 < limit < |stream|
    ensures var early, last := stream[..|stream| - limit], stream[|stream| - limit..];
            var d := Fed(Latest(early, limit));
            d.stop.Waiting? || d.stop.NotText? ==>
              && Fed(Latest(stream, limit)).rest == Drain(d.rest + last).rest
              && Fed(Latest(stream, limit)).stop == Drain(d.rest + last).stop
  {
    hide Drain;
    var early, last := stream[..|stream| - limit], stream[|stream| - limit..];
    var chunks := Latest(early, limit);
    assert (chunks + [last])[..|chunks|] == chunks;
    hide Latest;
  }

  lemma {:induction false} LatestIsStuck(stream: seq<Byte>, more: seq<Byte>, limit: nat)
    requires limit > 0 && WholeReads(|more|, limit) && Crowded(stream + more, limit)
    ensures var d := Fed(Latest(stream, limit));
            (d.stop.Waiting? || d.stop.NotText?) && Stuck(d.rest + more, limit, |more|)
    decreases |stream|
  {
    hide Crowded, Drain, WholeReads, Hurdles, Skim, Full;
    if |stream| <= limit {
      AtOnce(stream);
      DrainStaysStuck(stream, more, limit);
    } else {
      var early, last := stream[..|stream| - limit], stream[|stream| - limit..];
      assert early + (last + more) == stream + more;
      OneWholeReadMore(|more|, limit);
      LatestIsStuck(early, last + more, limit);
      var d := Fed(Latest(early, limit));
      assert d.rest + (last + more) == (d.rest + last) + more;
      DrainStaysStuck(d.rest + last, more, limit);
      LatestFed(stream, limit);
    }
  }

  lemma AtOnce(stream: seq<Byte>)
    ensures Fed([stream]) == Drain(stream) && Joined([stream]) == stream
  {
    NothingDrained();
    hide Drain;
    assert [stream][..0] == [] && [] + stream == stream;
    assert [] + Drain(stream).messages == Drain(stream).messages;
  }

  lemma {:induction false} CrowdedHasText(buf: seq<Byte>, limit: nat)
    requires limit > 0 && Crowded(buf, limit)
    ensures Skim(buf).messages != []
    decreases |buf|
  {
    hide Parse;
    var p := Parse(buf);
    if Crowded(p.rest, limit) {
      CrowdedHasText(p.rest, limit);
    }
  }

  /** A crowded stream loses a text frame when it is read as late as possible. */
  lemma LatestLosesText(stream: seq<Byte>, limit: nat)
    requires limit > 0 && Crowded(stream, limit)
    ensures Cutting(Latest(stream, limit), stream, limit)
    ensures Fed(Latest(stream, limit)).messages != Skim(stream).messages
  {
    assert stream != [] by { EmptyIsIncomplete(); }
    hide Skim, Crowded, Drain, Latest;
    LatestCuts(stream, limit);
    assert stream + [] == stream;
    assert Full(0, limit) == 0;
    LatestIsStuck(stream, [], limit);
    FedThenSkim(Latest(stream, limit), []);
    var d := Fed(Latest(stream, limit));
    assert d.rest + [] == d.rest;
    if Crowded(d.rest, limit) {
      CrowdedHasText(d.rest, limit);
    }
  }

  /** Any cutting gives at least what one read gives, and at most every text before the first close frame. */
  lemma EveryCuttingLiesBetween(chunks: seq<seq<Byte>>)
    ensures Drain(Joined(chunks)).messages <= Fed(chunks).messages <= Skim(Joined(chunks)).messages
  {
    DrainedIsFed(chunks);
    FedThenSkim(chunks, []);
    assert Joined(chunks) + [] == Joined(chunks);
  }

  /**
   * For reads of at most limit bytes, whatever the limit: the handler gets the same for every cutting exactly when the
   * stream is not crowded.
   */
  lemma CuttingMattersExactlyWhenCrowded(stream: seq<Byte>, limit: nat)
    requires limit > 0
    ensures CuttingDoesNotMatter(stream, limit) <==> !Crowded(stream, limit)
  {
    hide Crowded;
    BytewiseCuts(stream, limit);
    BytewiseIsSkim(stream);
    if Crowded(stream, limit) {
      LatestLosesText(stream, limit);
    } else {
      forall chunks | Cutting(chunks, stream, limit) ensures Fed(chunks).messages == Skim(stream).messages {
        UncrowdedIsSkimmed(chunks, stream, limit);
      }
    }
  }

  // ---- Streams that fit one read ---------------------------------------------------------

  lemma {:induction false} CrowdedInOneRead(stream: seq<Byte>, limit: nat)
    requires limit > 0 && |stream| <= limit
    ensures Crowded(stream, limit) <==> TextBehindOther(stream)
    decreases |stream|
  {
    hide Parse;
    var p := Parse(stream);
    if p.Frame? {
      CrowdedInOneRead(p.rest, limit);
      assert |p.rest| / limit == 0;
      if Crowded(p.rest, limit) {
        CrowdedHasText(p.rest, limit);
      }
    }
  }

  /** A stream that fits one read is crowded as soon as a complete text frame follows a frame the server stops at. */
  lemma CuttingMattersExactlyBehindOther(stream: seq<Byte>, limit: nat)
    requires 0 < |stream| <= limit
    ensures CuttingDoesNotMatter(stream, limit) <==> !TextBehindOther(stream)
  {
    CuttingMattersExactlyWhenCrowded(stream, limit);
    CrowdedInOneRead(stream, limit);
  }

  /** A text frame right behind a ping can be left in the buffer exactly when it is shorter than a full read. */
  lemma TextBehindPingCanStallIff(m: Message, limit: nat)
    requires |m.payload| < 0x8000_0000_0000_0000 && limit > 0
    ensures CuttingDoesNotMatter(PING + FrameOf(m), limit) <==> |FrameOf(m)| >= limit
  {
    var frame := FrameOf(m);
    CuttingMattersExactlyWhenCrowded(PING + frame, limit);
    PingReads(frame);
    ClientFrameReads(m.payload, m.mask, []);
    assert frame + [] == frame;
    EmptyIsIncomplete();
    hide Parse, ClientFrame;
    assert Skim([]).messages == [] && !Crowded([], limit);
    assert Skim(frame).messages == [m.payload] + [] && Hurdles(frame) == 0 && !Crowded(frame, limit);
    assert Hurdles(PING + frame) == 1;
    QuotientIsAtLeast(1, |frame|, limit);
  }
}
