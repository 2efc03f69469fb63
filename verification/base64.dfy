/** Base64 (section 4 of RFC 4648), which server and client each write out with the same loop. */
module Base64 {
  import opened Bytes
  import opened Options

  type Sextet = v: int | 0 <= v < 64

  /** The alphabet, in the order of its table: A to Z, a to z, 0 to 9, plus and slash. */
  function Letter(v: Sextet): char {
    if v < 26 then 'A' + v as char
    else if v < 52 then 'a' + (v - 26) as char
    else if v < 62 then '0' + (v - 52) as char
    else if v == 62 then '+'
    else '/'
  }

  const UPPER := "ABCDEFGHIJKLMNOPQRSTUVWXYZ"
  const LOWER := "abcdefghijklmnopqrstuvwxyz"
  const FIGURES := "0123456789+/"

  /** The letters are those of the standard's table, in its order. */
  lemma LetterFromTable(v: Sextet)
    ensures |UPPER| == |LOWER| == 26 && |FIGURES| == 12
    ensures Letter(v) == (UPPER + LOWER + FIGURES)[v]
  {
    hide Letter;
    if v < 26 {
      UpperFromTable(v);
    } else if v < 52 {
      LowerFromTable(v - 26);
    } else {
      FigureFromTable(v - 52);
    }
  }

  lemma UpperFromTable(v: nat)
    requires v < 26
    ensures |UPPER| == 26 && Letter(v) == UPPER[v]
  {
  }

  lemma LowerFromTable(v: nat)
    requires v < 26
    ensures |LOWER| == 26 && Letter(v + 26) == LOWER[v]
  {
  }

  lemma FigureFromTable(v: nat)
    requires v < 12
    ensures |FIGURES| == 12 && Letter(v + 52) == FIGURES[v]
  {
  }

  /** The 24 bits of a group; missing bytes are zero. */
  function Bits(a: Byte, b: Byte, c: Byte): nat { a * 65536 + b * 256 + c }

  function SextetOf(bits: nat, shift: nat): Sextet
    requires shift > 0
  {
    bits / shift % 64
  }

  /** The four characters of the group at the front of d. */
  function Group(d: seq<Byte>): (s: string)
    requires d != []
    ensures |s| == 4
  {
    var bits := Bits(d[0], if |d| > 1 then d[1] else 0, if |d| > 2 then d[2] else 0);
    [Letter(SextetOf(bits, 262144)), Letter(SextetOf(bits, 4096)),
     if |d| > 1 then Letter(SextetOf(bits, 64)) else '=', if |d| > 2 then Letter(SextetOf(bits, 1)) else '=']
  }

  function Encode(d: seq<Byte>): string
    decreases |d|
  {
    if d == [] then "" else Group(d) + Encode(if |d| <= 3 then [] else d[3..])
  }

  /** What is left of d from i on; nothing when i is past the end. */
  function From(d: seq<Byte>, i: nat): seq<Byte> { if i <= |d| then d[i..] else [] }

  lemma EncodeFrom(d: seq<Byte>, i: nat)
    requires i < |d|
    ensures Encode(From(d, i)) == Group(d[i..]) + Encode(From(d, i + 3))
  {
    hide Group;
    if |d[i..]| > 3 {
      assert d[i..][3..] == d[i + 3..];
    } else {
      assert From(d, i + 3) == [];
    }
  }

  lemma EncodeNothing()
    ensures Encode([]) == ""
  {
  }

  method Base64(d: seq<Byte>) returns (o: string)
    ensures o == Encode(d)
  {
    hide Letter, SextetOf, Encode;
    EncodeNothing();
    assert d[0..] == d;
    var n := |d|;
    o := "";
    var i := 0;
    while i < n
      invariant 0 <= i && o + Encode(From(d, i)) == Encode(d)
      decreases n - i
    {
      ghost var before := o;
      var v: nat := d[i] as int * 65536;
      if i + 1 < n { v := v + d[i + 1] as int * 256; }
      if i + 2 < n { v := v + d[i + 2]; }
      o := o + [Letter(SextetOf(v, 262144))];
      o := o + [Letter(SextetOf(v, 4096))];
      o := o + [if i + 1 < n then Letter(SextetOf(v, 64)) else '='];
      o := o + [if i + 2 < n then Letter(SextetOf(v, 1)) else '='];
      EncodeFrom(d, i);
      assert o == before + Group(d[i..]);
      i := i + 3;
    }
  }

  // ---- A decoder written from the standard alone -----------------------------------------

  function Value(c: char): Option<Sextet> {
    if 'A' <= c <= 'Z' then Some(c as int - 'A' as int)
    else if 'a' <= c <= 'z' then Some(c as int - 'a' as int + 26)
    else if '0' <= c <= '9' then Some(c as int - '0' as int + 52)
    else if c == '+' then Some(62)
    else if c == '/' then Some(63)
    else None
  }

  function GroupValue(s: string): Option<seq<Byte>>
    requires |s| == 4
  {
    var w, x, y, z := Value(s[0]), Value(s[1]), Value(s[2]), Value(s[3]);
    if w.None? || x.None? then None
    else if s[2] == '=' then if s[3] == '=' then Some([w.value * 4 + x.value / 16]) else None
    else if y.None? then None
    else if s[3] == '=' then Some([w.value * 4 + x.value / 16, x.value % 16 * 16 + y.value / 4])
    else if z.None? then None
    else Some([w.value * 4 + x.value / 16, x.value % 16 * 16 + y.value / 4, y.value % 4 * 64 + z.value])
  }

  /** None when s is not Base64: padding is allowed only in the last group. */
  function Decode(s: string): Option<seq<Byte>> {
    if s == "" then Some([])
    else if |s| < 4 then None
    else match GroupValue(s[..4])
      case None => None
      case Some(first) =>
        if |s| == 4 then Some(first)
        else if |first| < 3 then None
        else match Decode(s[4..])
          case None => None
          case Some(rest) => Some(first + rest)
  }

  lemma LetterValue(v: Sextet)
    ensures Value(Letter(v)) == Some(v) && Letter(v) != '='
  {
  }

  lemma Shifted(v: nat, shift: nat, high: nat, low: nat, rest: nat)
    requires shift > 0 && v == shift * (64 * high + low) + rest && low < 64 && rest < shift
    ensures SextetOf(v, shift) == low
  {
    QuotientIs(v, shift, 64 * high + low, rest);
  }

  lemma SextetsOf(a: Byte, b: Byte, c: Byte)
    ensures var v := Bits(a, b, c);
            && SextetOf(v, 262144) == a / 4
            && SextetOf(v, 4096) == a % 4 * 16 + b / 16
            && SextetOf(v, 64) == b % 16 * 4 + c / 64
            && SextetOf(v, 1) == c % 64
  {
    var v := Bits(a, b, c);
    hide SextetOf;
    Shifted(v, 262144, 0, a / 4, a % 4 * 65536 + b * 256 + c);
    Shifted(v, 4096, a / 4, a % 4 * 16 + b / 16, b % 16 * 256 + c);
    Shifted(v, 64, a * 16 + b / 16, b % 16 * 4 + c / 64, c % 64);
    Shifted(v, 1, a * 1024 + b * 4 + c / 64, c % 64, 0);
  }

  lemma Recombined(a: Byte, b: Byte, c: Byte)
    ensures a / 4 * 4 + (a % 4 * 16 + b / 16) / 16 == a
    ensures (a % 4 * 16 + b / 16) % 16 * 16 + (b % 16 * 4 + c / 64) / 4 == b
    ensures (b % 16 * 4 + c / 64) % 4 * 64 + c % 64 == c
  {
  }

  lemma GroupDecodes(d: seq<Byte>)
    requires d != []
    ensures GroupValue(Group(d)) == Some(if |d| <= 3 then d else d[..3])
  {
    hide Value, Letter, SextetOf, Bits;
    var a, b, c := d[0], if |d| > 1 then d[1] else 0, if |d| > 2 then d[2] else 0;
    SextetsOf(a, b, c);
    Recombined(a, b, c);
    LetterValue(a / 4);
    LetterValue(a % 4 * 16 + b / 16);
    LetterValue(b % 16 * 4 + c / 64);
    LetterValue(c % 64);
    NoValue();
    if |d| == 1 {
      assert GroupValue(Group(d)) == Some([a]) && d == [a];
    } else if |d| == 2 {
      assert GroupValue(Group(d)) == Some([a, b]) && d == [a, b];
    } else {
      assert GroupValue(Group(d)) == Some([a, b, c]);
      assert d[..3] == [a, b, c];
      assert |d| == 3 ==> d == [a, b, c];
    }
  }

  lemma NoValue()
    ensures Value('=') == None
  {
  }

  /** The encoding has four characters for every three bytes begun, and decodes to the same bytes. */
  lemma {:induction false} EncodeDecodes(d: seq<Byte>)
    ensures |Encode(d)| == 4 * ((|d| + 2) / 3)
    ensures Decode(Encode(d)) == Some(d)
    decreases |d|
  {
    hide Group, GroupValue;
    if d != [] {
      var rest := if |d| <= 3 then [] else d[3..];
      EncodeDecodes(rest);
      GroupDecodes(d);
      assert Encode(d)[..4] == Group(d) && Encode(d)[4..] == Encode(rest);
      if |d| > 3 {
        assert d[..3] + rest == d;
      }
    }
  }

  /** Only the last one or two characters may be padding, by the number of bytes in the last group. */
  lemma {:induction false} PaddingByLength(d: seq<Byte>, i: nat)
    requires i < |Encode(d)|
    ensures Encode(d)[i] == '=' <==> (i == |Encode(d)| - 1 && |d| % 3 != 0) || (i == |Encode(d)| - 2 && |d| % 3 == 1)
    ensures Encode(d)[i] == '=' || Value(Encode(d)[i]).Some?
    decreases |d|
  {
    hide Group, Value, GroupValue, Decode;
    var rest := if |d| <= 3 then [] else d[3..];
    EncodeDecodes(d);
    EncodeDecodes(rest);
    assert Encode(d) == Group(d) + Encode(rest);
    if i < 4 {
      GroupPadding(d, i);
    } else {
      PaddingByLength(rest, i - 4);
    }
  }

  lemma GroupPadding(d: seq<Byte>, i: nat)
    requires d != [] && i < 4
    ensures Group(d)[i] == '=' <==> (i == 3 && |d| < 3) || (i == 2 && |d| == 1)
    ensures Group(d)[i] == '=' || Value(Group(d)[i]).Some?
  {
    hide Value, Letter, SextetOf, Bits;
    var bits := Bits(d[0], if |d| > 1 then d[1] else 0, if |d| > 2 then d[2] else 0);
    LetterValue(SextetOf(bits, 262144));
    LetterValue(SextetOf(bits, 4096));
    LetterValue(SextetOf(bits, 64));
    LetterValue(SextetOf(bits, 1));
  }
}
