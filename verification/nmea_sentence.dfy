/** NMEA 0183 sentences: building them, and parsing them with their checksum. */
module NmeaSentences {
  import opened Bytes
  import opened Options

  type Text = seq<Byte>

  const DOLLAR: Byte := 0x24
  const STAR: Byte := 0x2A
  const COMMA: Byte := 0x2C
  const NEWLINE: Byte := 10
  const RETURN: Byte := 13

  lemma FramingCharacters()
    ensures DOLLAR == '$' as int && STAR == '*' as int && COMMA == ',' as int
    ensures NEWLINE == '\n' as int && RETURN == '\r' as int
  {
  }

  datatype Sentence = Sentence(talker: Text, formatter: Text, fields: seq<Text>)

  type Nibble = v: int | 0 <= v < 16

  // ---- Checksums -------------------------------------------------------------------------

  function Checksum(payload: Text): Byte {
    if payload == [] then 0 else Xor(Checksum(payload[..|payload| - 1]), payload[|payload| - 1])
  }

  function HexDigit(v: Nibble): Byte { if v < 10 then 0x30 + v else 0x41 + (v - 10) }

  function HexValue(b: Byte): Option<Nibble> {
    if 0x30 <= b <= 0x39 then Some(b - 0x30)
    else if 0x41 <= b <= 0x46 then Some(b - 0x41 + 10)
    else if 0x61 <= b <= 0x66 then Some(b - 0x61 + 10)
    else None
  }

  function FormatChecksum(c: Byte): Text { [HexDigit(c / 16), HexDigit(c % 16)] }

  function HexByte(text: Text): Option<Byte> {
    if |text| != 2 || HexValue(text[0]).None? || HexValue(text[1]).None? then None
    else Some(HexValue(text[0]).value * 16 + HexValue(text[1]).value)
  }

  const DIGITS := "0123456789ABCDEF"

  /** Two digits, the higher one first, in upper case. */
  lemma ChecksumDigits(c: Byte)
    ensures |FormatChecksum(c)| == 2 && |DIGITS| == 16
    ensures FormatChecksum(c)[0] == DIGITS[c / 16] as int && FormatChecksum(c)[1] == DIGITS[c % 16] as int
    ensures HexByte(FormatChecksum(c)) == Some(c)
  {
    DigitFromTable(c / 16);
    DigitFromTable(c % 16);
  }

  lemma DigitFromTable(v: Nibble)
    ensures |DIGITS| == 16 && HexDigit(v) == DIGITS[v] as int && HexValue(HexDigit(v)) == Some(v)
  {
  }

  /** The checksum of one byte is that byte, and of two texts the exclusive or of theirs. */
  lemma {:induction false} ChecksumOfParts(a: Text, b: Text)
    ensures |a| == 1 ==> Checksum(a) == a[0]
    ensures Checksum(a + b) == Xor(Checksum(a), Checksum(b))
  {
    hide Xor;
    if |a| == 1 {
      assert a[..0] == [];
      XorLaws(0, a[0]);
      XorLaws(a[0], 0);
    }
    if b == [] {
      assert a + b == a;
      XorLaws(Checksum(a), 0);
    } else {
      var before, last := b[..|b| - 1], b[|b| - 1];
      ChecksumOfParts(a, before);
      assert (a + b)[..|a + b| - 1] == a + before && (a + b)[|a + b| - 1] == last;
      XorAssociates(Checksum(a), Checksum(before), last);
    }
  }

  method ComputeChecksum(payload: Text) returns (checksum: Byte)
    ensures checksum == Checksum(payload)
  {
    checksum := 0;
    for i := 0 to |payload|
      invariant checksum == Checksum(payload[..i])
    {
      assert payload[..i + 1][..i] == payload[..i];
      checksum := Xor(checksum, payload[i]);
    }
    assert payload[..|payload|] == payload;
  }

  method ParseHexByte(text: Text) returns (value: Option<Byte>)
    ensures value == HexByte(text)
  {
    if |text| != 2 { return None; }
    var v: int := 0;
    for i := 0 to 2
      invariant i > 0 ==> HexValue(text[0]).Some?
      invariant i > 1 ==> HexValue(text[1]).Some?
      invariant v == if i == 0 then 0 else if i == 1 then HexValue(text[0]).value else HexByte(text).value
    {
      v := v * 16 % 256;
      var c := text[i];
      if 0x30 <= c <= 0x39 {
        v := v + (c - 0x30);
      } else if 0x41 <= c <= 0x46 {
        v := v + (c - 0x41 + 10);
      } else if 0x61 <= c <= 0x66 {
        v := v + (c - 0x61 + 10);
      } else {
        return None;
      }
    }
    return Some(v);
  }

  // ---- Text ------------------------------------------------------------------------------

  function Stripped(line: Text): (s: Text)
    ensures |s| <= |line| && s == line[..|s|]
  {
    if line != [] && (line[|line| - 1] == NEWLINE || line[|line| - 1] == RETURN) then Stripped(line[..|line| - 1])
    else line
  }

  /** The position of the first b from i on. */
  function Find(s: Text, b: Byte, i: nat): (position: Option<nat>)
    ensures position.None? ==> forall j :: i <= j < |s| ==> s[j] != b
    ensures position.Some? ==> i <= position.value < |s| && s[position.value] == b
                               && forall j :: i <= j < position.value ==> s[j] != b
    decreases |s| - i
  {
    if i >= |s| then None else if s[i] == b then Some(i) else Find(s, b, i + 1)
  }

  /** The pieces between commas; always at least one. */
  function Pieces(s: Text): (p: seq<Text>)
    ensures p != []
    decreases |s|
  {
    match Find(s, COMMA, 0)
    case None => [s]
    case Some(i) => [s[..i]] + Pieces(s[i + 1..])
  }

  function Joined(pieces: seq<Text>): Text
    requires pieces != []
  {
    if |pieces| == 1 then pieces[0] else pieces[0] + [COMMA] + Joined(pieces[1..])
  }

  // ---- Sentences -------------------------------------------------------------------------

  function Payload(s: Sentence): Text { Joined([s.talker + s.formatter] + s.fields) }

  function Build(s: Sentence): Text {
    [DOLLAR] + Payload(s) + [STAR] + FormatChecksum(Checksum(Payload(s)))
  }

  function ParsePayload(payload: Text): Option<Sentence> {
    var pieces := Pieces(payload);
    if |pieces[0]| < 5 then None else Some(Sentence(pieces[0][..2], pieces[0][2..], pieces[1..]))
  }

  function Parse(line: Text): Option<Sentence> {
    if |line| < 9 || line[0] != DOLLAR then None
    else
      FirstIsDollar(line);
      var text := Stripped(line);
      match Find(text, STAR, 0)
      case None => None
      case Some(marker) =>
        if marker + 3 != |text| then None
        else
          var payload := text[1..marker];
          if HexByte(text[marker + 1..]) != Some(Checksum(payload)) then None else ParsePayload(payload)
  }

  method BuildSentence(s: Sentence) returns (line: Text)
    ensures line == Build(s)
  {
    var payload := s.talker + s.formatter;
    for i := 0 to |s.fields|
      invariant payload == Joined([s.talker + s.formatter] + s.fields[..i])
    {
      JoinedAppend([s.talker + s.formatter] + s.fields[..i], s.fields[i]);
      assert s.fields[..i + 1] == s.fields[..i] + [s.fields[i]];
      assert [s.talker + s.formatter] + (s.fields[..i] + [s.fields[i]])
          == [s.talker + s.formatter] + s.fields[..i] + [s.fields[i]];
      payload := payload + [COMMA] + s.fields[i];
    }
    assert s.fields[..|s.fields|] == s.fields;
    var checksum := ComputeChecksum(payload);
    line := [DOLLAR] + payload + [STAR] + [HexDigit(checksum / 16), HexDigit(checksum % 16)];
  }

  lemma {:induction false} JoinedAppend(pieces: seq<Text>, piece: Text)
    requires pieces != []
    ensures Joined(pieces + [piece]) == Joined(pieces) + [COMMA] + piece
  {
    if |pieces| > 1 {
      assert (pieces + [piece])[1..] == pieces[1..] + [piece];
      JoinedAppend(pieces[1..], piece);
    } else {
      assert (pieces + [piece])[1..] == [piece];
    }
  }

  method ParseSentence(line: Text) returns (sentence: Option<Sentence>)
    ensures sentence == Parse(line)
  {
    if |line| < 9 || line[0] != DOLLAR { return None; }
    var text := line;
    while text != [] && (text[|text| - 1] == NEWLINE || text[|text| - 1] == RETURN)
      invariant Stripped(text) == Stripped(line)
      decreases |text|
    {
      text := text[..|text| - 1];
    }
    var marker := Find(text, STAR, 0);
    if marker.None? || marker.value + 3 != |text| { return None; }
    assert text == Stripped(line);
    FirstIsDollar(line);
    var payload := text[1..marker.value];
    assert text[marker.value + 1..marker.value + 3] == text[marker.value + 1..];
    var expected := ParseHexByte(text[marker.value + 1..marker.value + 3]);
    var checksum := ComputeChecksum(payload);
    if expected.None? || checksum != expected.value { return None; }
    var firstComma := Find(payload, COMMA, 0);
    var header := if firstComma.None? then payload else payload[..firstComma.value];
    if |header| < 5 { return None; }
    assert firstComma.None? ==> Pieces(payload)[1..] == [];
    if firstComma.None? { return Some(Sentence(header[..2], header[2..], [])); }
    var fields := SplitFields(payload, firstComma.value + 1);
    assert Pieces(payload)[1..] == Pieces(payload[firstComma.value + 1..]);
    return Some(Sentence(header[..2], header[2..], fields));
  }

  lemma PiecesFrom(payload: Text, start: nat)
    requires start <= |payload|
    ensures var end := Find(payload, COMMA, start);
            Pieces(payload[start..]) == if end.None? then [payload[start..]]
                                        else [payload[start..end.value]] + Pieces(payload[end.value + 1..])
  {
    FindLater(payload, COMMA, start);
    var end, rest := Find(payload, COMMA, start), payload[start..];
    if end.Some? {
      assert rest[..end.value - start] == payload[start..end.value];
      assert rest[end.value - start + 1..] == payload[end.value + 1..];
    }
  }

  /** The loop over the fields. */
  method SplitFields(payload: Text, start: nat) returns (fields: seq<Text>)
    requires start <= |payload|
    ensures fields == Pieces(payload[start..])
  {
    hide Pieces, Find;
    fields := [];
    var fieldStart := start;
    while fieldStart <= |payload|
      invariant start <= fieldStart <= |payload|
      invariant fields + Pieces(payload[fieldStart..]) == Pieces(payload[start..])
      decreases |payload| - fieldStart
    {
      PiecesFrom(payload, fieldStart);
      var fieldEnd := Find(payload, COMMA, fieldStart);
      if fieldEnd.None? {
        fields := fields + [payload[fieldStart..]];
        break;
      }
      fields := fields + [payload[fieldStart..fieldEnd.value]];
      fieldStart := fieldEnd.value + 1;
    }
  }

  lemma FindLater(s: Text, b: Byte, start: nat)
    requires start <= |s|
    ensures var here, later := Find(s[start..], b, 0), Find(s, b, start);
            (here.None? <==> later.None?) && (later.Some? ==> here.value == later.value - start)
  {
    var here, later := Find(s[start..], b, 0), Find(s, b, start);
    if here.Some? {
      assert s[start + here.value] == b;
    }
    if later.Some? {
      assert s[start..][later.value - start] == b;
    }
  }

  lemma FirstIsDollar(line: Text)
    requires line != [] && line[0] == DOLLAR
    ensures Stripped(line) != [] && Stripped(line)[0] == DOLLAR
    decreases |line|
  {
    if line[|line| - 1] == NEWLINE || line[|line| - 1] == RETURN {
      FirstIsDollar(line[..|line| - 1]);
    }
  }

  // ---- Building and parsing invert each other --------------------------------------------

  predicate Without(s: Text, b: Byte) { forall i :: 0 <= i < |s| ==> s[i] != b }

  predicate AllWithout(pieces: seq<Text>, b: Byte) { forall i :: 0 <= i < |pieces| ==> Without(pieces[i], b) }

  lemma {:induction false} PiecesOfJoined(pieces: seq<Text>)
    requires pieces != [] && AllWithout(pieces, COMMA)
    ensures Pieces(Joined(pieces)) == pieces
    decreases |pieces|
  {
    var s := Joined(pieces);
    if |pieces| == 1 {
      assert Without(pieces[0], COMMA);
    } else {
      PiecesOfJoined(pieces[1..]);
      var n := |pieces[0]|;
      assert Without(pieces[0], COMMA);
      assert s[n] == COMMA && (forall j :: 0 <= j < n ==> s[j] == pieces[0][j]);
      assert Find(s, COMMA, 0) == Some(n);
      assert s[..n] == pieces[0] && s[n + 1..] == Joined(pieces[1..]);
    }
  }

  lemma {:induction false} JoinedPieces(s: Text)
    ensures Joined(Pieces(s)) == s && AllWithout(Pieces(s), COMMA)
    decreases |s|
  {
    match Find(s, COMMA, 0)
    case None =>
    case Some(i) =>
      JoinedPieces(s[i + 1..]);
      assert s == s[..i] + [COMMA] + s[i + 1..];
      assert Pieces(s)[1..] == Pieces(s[i + 1..]);
  }

  lemma {:induction false} JoinedWithout(pieces: seq<Text>, b: Byte)
    requires pieces != [] && b != COMMA
    ensures Without(Joined(pieces), b) <==> AllWithout(pieces, b)
    decreases |pieces|
  {
    if |pieces| > 1 {
      JoinedWithout(pieces[1..], b);
      var s, n := Joined(pieces), |pieces[0]|;
      assert forall j :: 0 <= j < n ==> s[j] == pieces[0][j];
      assert forall j :: 0 <= j < |Joined(pieces[1..])| ==> s[n + 1 + j] == Joined(pieces[1..])[j];
      assert forall j :: 0 < j < |pieces| ==> pieces[j] == pieces[1..][j - 1];
      assert Without(s, b) ==> Without(pieces[0], b) && Without(Joined(pieces[1..]), b);
    }
  }

  lemma HexByteOfFormat(c: Byte)
    ensures HexByte(FormatChecksum(c)) == Some(c)
    ensures forall i :: 0 <= i < 2 ==> FormatChecksum(c)[i] != STAR && FormatChecksum(c)[i] != NEWLINE
                                       && FormatChecksum(c)[i] != RETURN
  {
  }

  lemma NotStripped(line: Text)
    requires line != [] && line[|line| - 1] != NEWLINE && line[|line| - 1] != RETURN
    ensures Stripped(line) == line
  {
  }

  /** The sentences that survive: two and at least three header characters, no star, no comma outside the joints. */
  predicate WellFormed(s: Sentence) {
    && |s.talker| == 2 && |s.formatter| >= 3
    && AllWithout([s.talker + s.formatter] + s.fields, COMMA) && AllWithout([s.talker + s.formatter] + s.fields, STAR)
  }

  /** A line $payload*hh parses as its payload when the payload has no star and hh is its checksum. */
  lemma ParseOfFramed(payload: Text, hex: Text)
    requires |hex| == 2 && HexByte(hex).Some?
    ensures var line := [DOLLAR] + payload + [STAR] + hex;
            Parse(line) == if Without(payload, STAR) && |payload| >= 5 && HexByte(hex).value == Checksum(payload)
                           then ParsePayload(payload) else None
  {
    var line := [DOLLAR] + payload + [STAR] + hex;
    var n := |payload| + 1;
    assert line[n] == STAR && line[n + 1..] == hex && line[1..n] == payload;
    assert line[|line| - 1] == hex[1];
    NotStripped(line);
    assert forall j :: 0 < j < n ==> line[j] == payload[j - 1];
    PieceIsNotLonger(payload);
    if Without(payload, STAR) {
      assert Find(line, STAR, 0) == Some(n);
    } else {
      var j :| 0 <= j < |payload| && payload[j] == STAR;
      assert line[j + 1] == STAR;
    }
  }

  lemma PieceIsNotLonger(s: Text)
    ensures |Pieces(s)[0]| <= |s|
  {
  }

  /** Building a sentence and parsing the line gives it back exactly when it is well formed. */
  lemma BuildParses(s: Sentence)
    ensures Parse(Build(s)) == Some(s) <==> WellFormed(s)
  {
    var payload, header := Payload(s), s.talker + s.formatter;
    var pieces := [header] + s.fields;
    var c := Checksum(payload);
    HexByteOfFormat(c);
    ParseOfFramed(payload, FormatChecksum(c));
    JoinedWithout(pieces, STAR);
    assert pieces[1..] == s.fields;
    if WellFormed(s) {
      PiecesOfJoined(pieces);
      PieceIsNotLonger(payload);
      assert header[..2] == s.talker && header[2..] == s.formatter;
    }
    if Parse(Build(s)) == Some(s) {
      JoinedPieces(payload);
      var found := Pieces(payload);
      assert found[0] == found[0][..2] + found[0][2..] == header;
      assert found == [found[0]] + found[1..] == pieces;
    }
  }

  // ---- Rebuilding an accepted line -------------------------------------------------------

  function Upper(b: Byte): Byte { if 0x61 <= b <= 0x66 then b - 0x20 else b }

  lemma FormatOfHexByte(text: Text)
    requires HexByte(text).Some?
    ensures FormatChecksum(HexByte(text).value) == [Upper(text[0]), Upper(text[1])]
  {
  }

  /** The parts of a line that parses: the payload between dollar and star, and its checksum in two digits. */
  lemma PartsOfParsed(line: Text) returns (payload: Text, hex: Text)
    requires Parse(line).Some?
    ensures Stripped(line) == [DOLLAR] + payload + [STAR] + hex && |hex| == 2
    ensures HexByte(hex) == Some(Checksum(payload)) && ParsePayload(payload) == Parse(line)
  {
    FirstIsDollar(line);
    var text := Stripped(line);
    var marker := Find(text, STAR, 0).value;
    payload, hex := text[1..marker], text[marker + 1..];
    hide Stripped, HexByte, Checksum, ParsePayload;
  }

  lemma PayloadOfParsed(payload: Text)
    requires ParsePayload(payload).Some?
    ensures Payload(ParsePayload(payload).value) == payload
  {
    JoinedPieces(payload);
    var pieces := Pieces(payload);
    assert pieces[0][..2] + pieces[0][2..] == pieces[0] && [pieces[0]] + pieces[1..] == pieces;
    hide Pieces, Joined;
  }

  /** Rebuilding what a line parses as gives the line without its ending and with an upper-case checksum. */
  lemma RebuiltLine(line: Text)
    requires Parse(line).Some?
    ensures var text := Stripped(line); var n := |text|;
            n >= 3 && Build(Parse(line).value) == text[..n - 2] + [Upper(text[n - 2]), Upper(text[n - 1])]
  {
    var payload, hex := PartsOfParsed(line);
    PayloadOfParsed(payload);
    FormatOfHexByte(hex);
    hide Parse, Stripped, HexByte, Checksum, Payload, ParsePayload, FormatChecksum;
    var text := Stripped(line);
    var n := |text|;
    assert text[..n - 2] == [DOLLAR] + payload + [STAR] && text[n - 2] == hex[0] && text[n - 1] == hex[1];
  }

  predicate Ending(s: Text) { forall i :: 0 <= i < |s| ==> s[i] == NEWLINE || s[i] == RETURN }

  lemma {:induction false} EndingIsStripped(line: Text, ending: Text)
    requires Ending(ending)
    ensures Stripped(line + ending) == Stripped(line)
    decreases |ending|
  {
    if ending == [] {
      assert line + ending == line;
    } else {
      var rest := ending[..|ending| - 1];
      assert (line + ending)[..|line + ending| - 1] == line + rest;
      EndingIsStripped(line, rest);
    }
  }

  /** Any number of line ends, in any order, after a line that is long enough: it parses the same. */
  lemma EndingDoesNotMatter(line: Text, ending: Text)
    requires Ending(ending) && |line| >= 9
    ensures Parse(line + ending) == Parse(line)
  {
    EndingIsStripped(line, ending);
    hide Stripped, Find, HexByte, ParsePayload;
    assert (line + ending)[0] == line[0];
  }

  // ---- One character replaced ------------------------------------------------------------

  lemma {:induction false} ChecksumOfReplaced(s: Text, i: nat, b: Byte)
    requires i < |s| && b != s[i]
    ensures Checksum(s[i := b]) != Checksum(s)
    decreases |s|
  {
    var n := |s| - 1;
    var t := s[i := b];
    if i == n {
      assert t[..n] == s[..n];
      XorCancels(Checksum(s[..n]), s[n], b);
    } else {
      assert t[..n] == s[..n][i := b];
      ChecksumOfReplaced(s[..n], i, b);
      XorCancelsRight(Checksum(s[..n]), Checksum(t[..n]), s[n]);
    }
  }

  lemma XorCancels(c: Byte, a: Byte, b: Byte)
    ensures Xor(c, a) == Xor(c, b) ==> a == b
  {
    XorLaws(a, c);
    XorLaws(b, c);
    XorLaws(c, a);
    XorLaws(c, b);
  }

  lemma XorCancelsRight(a: Byte, b: Byte, c: Byte)
    ensures Xor(a, c) == Xor(b, c) ==> a == b
  {
    XorLaws(a, c);
    XorLaws(b, c);
  }

  lemma PayloadReplaced(payload: Text, hex: Text, i: nat, b: Byte)
    requires i < |payload| && b != payload[i] && HexByte(hex) == Some(Checksum(payload))
    ensures Parse([DOLLAR] + payload[i := b] + [STAR] + hex) == None
  {
    ChecksumOfReplaced(payload, i, b);
    ParseOfFramed(payload[i := b], hex);
  }

  lemma StarReplaced(payload: Text, hex: Text, b: Byte)
    requires Without(payload, STAR) && |hex| == 2 && HexByte(hex).Some? && b != STAR
    ensures Parse([DOLLAR] + payload + [b] + hex) == None
  {
    var line := [DOLLAR] + payload + [b] + hex;
    assert line[|line| - 1] == hex[1];
    NotStripped(line);
    forall j | 0 <= j < |line| ensures line[j] != STAR {
      assert line[j] == if j == 0 then DOLLAR else if j <= |payload| then payload[j - 1]
                        else if j == |payload| + 1 then b else hex[j - |payload| - 2];
    }
  }

  lemma BadHex(payload: Text, hex: Text)
    requires Without(payload, STAR) && |hex| == 2 && HexByte(hex) != Some(Checksum(payload))
    ensures Parse([DOLLAR] + payload + [STAR] + hex) == None
  {
    hide HexByte, ParsePayload;
    var line, n := [DOLLAR] + payload + [STAR] + hex, |payload| + 1;
    FirstIsDollar(line);
    var text := Stripped(line);
    forall j | 0 <= j < n ensures line[j] != STAR {
      assert line[j] == if j == 0 then DOLLAR else payload[j - 1];
    }
    assert line[n] == STAR;
    var marker := Find(text, STAR, 0);
    if marker.Some? && marker.value + 3 == |text| {
      assert text[marker.value] == line[marker.value];
      assert marker.value >= n;
      assert text[n] == STAR;
      assert marker.value == n && text == line;
      assert line[n + 1..] == hex && line[1..n] == payload;
    }
  }

  /**
   * Replacing any one character of a well-formed built line by any other is noticed: the line is refused, or only the
   * letter case of a checksum digit changed and it parses as the very same sentence.
   */
  lemma OneReplacedCharacterIsNoticed(s: Sentence, i: nat, b: Byte)
    requires WellFormed(s) && i < |Build(s)| && b != Build(s)[i]
    ensures var line := Build(s)[i := b];
            Parse(line) == None || (Parse(line) == Some(s) && i >= |Build(s)| - 2 && Upper(b) == Build(s)[i])
  {
    var payload := Payload(s);
    var c := Checksum(payload);
    var hex := FormatChecksum(c);
    var line, n := Build(s)[i := b], |payload|;
    HexByteOfFormat(c);
    JoinedWithout([s.talker + s.formatter] + s.fields, STAR);
    BuildParses(s);
    if i == 0 {
    } else if i <= n {
      assert line == [DOLLAR] + payload[i - 1 := b] + [STAR] + hex;
      PayloadReplaced(payload, hex, i - 1, b);
    } else if i == n + 1 {
      assert line == [DOLLAR] + payload + [b] + hex;
      StarReplaced(payload, hex, b);
    } else {
      var changed := hex[i - n - 2 := b];
      assert line == [DOLLAR] + payload + [STAR] + changed;
      if HexByte(changed) == Some(c) {
        ParseOfFramed(payload, changed);
        ParseOfFramed(payload, hex);
        FormatOfHexByte(changed);
      } else {
        BadHex(payload, changed);
      }
    }
  }
}
