/**
 Base64 with the standard alphabet (section 4 of RFC 4648), and the exact decoding of
 agent/job_files.py: bytes are accepted only when they encode back to the very same text.

 Two layers: bytes and groups of symbols, symbols and characters.
 */
module Base64 {
  import opened Wrappers

  type Byte = x: int | 0 <= x < 256
  type Six = x: int | 0 <= x < 64

  datatype Symbol = Bits(six: Six) | Pad

  // ---------------------------------------------------------------- symbols and characters

  function Glyph(x: Symbol): char {
    match x
    case Pad => '='
    case Bits(n) =>
      if n < 26 then 'A' + n as char
      else if n < 52 then 'a' + (n - 26) as char
      else if n < 62 then '0' + (n - 52) as char
      else if n == 62 then '+' else '/'
  }

  function SymbolOf(c: char): Option<Symbol> {
    if 'A' <= c <= 'Z' then Some(Bits(c as int - 'A' as int))
    else if 'a' <= c <= 'z' then Some(Bits(c as int - 'a' as int + 26))
    else if '0' <= c <= '9' then Some(Bits(c as int - '0' as int + 52))
    else if c == '+' then Some(Bits(62))
    else if c == '/' then Some(Bits(63))
    else if c == '=' then Some(Pad)
    else None
  }

  lemma Glyphs(x: Symbol)
    ensures SymbolOf(Glyph(x)) == Some(x)
  {
  }

  lemma Symbols(c: char)
    ensures SymbolOf(c).Some? ==> Glyph(SymbolOf(c).value) == c
  {
  }

  function Write(xs: seq<Symbol>): string {
    if xs == [] then "" else [Glyph(xs[0])] + Write(xs[1..])
  }

  function Read(s: string): Option<seq<Symbol>> {
    if s == "" then Some([])
    else
      var x, rest := SymbolOf(s[0]), Read(s[1..]);
      if x.Some? && rest.Some? then Some([x.value] + rest.value) else None
  }

  lemma {:induction false} ReadWrite(xs: seq<Symbol>)
    ensures Read(Write(xs)) == Some(xs)
  {
    if xs != [] {
      Glyphs(xs[0]);
      ReadWrite(xs[1..]);
      assert Write(xs)[1..] == Write(xs[1..]);
      assert xs == [xs[0]] + xs[1..];
    }
  }

  lemma {:induction false} WriteRead(s: string)
    ensures Read(s).Some? ==> Write(Read(s).value) == s && |Read(s).value| == |s|
  {
    if s != "" {
      Symbols(s[0]);
      WriteRead(s[1..]);
      if Read(s).Some? {
        assert Read(s).value[1..] == Read(s[1..]).value;
      }
    }
  }

  // ---------------------------------------------------------------- bytes and groups of symbols

  function Pack3(b0: Byte, b1: Byte, b2: Byte): seq<Symbol> {
    [Bits(b0 / 4), Bits(b0 % 4 * 16 + b1 / 16), Bits(b1 % 16 * 4 + b2 / 64), Bits(b2 % 64)]
  }

  function Pack2(b0: Byte, b1: Byte): seq<Symbol> {
    [Bits(b0 / 4), Bits(b0 % 4 * 16 + b1 / 16), Bits(b1 % 16 * 4), Pad]
  }

  function Pack1(b0: Byte): seq<Symbol> {
    [Bits(b0 / 4), Bits(b0 % 4 * 16), Pad, Pad]
  }

  function Pack(data: seq<Byte>): seq<Symbol> {
    if data == [] then []
    else if |data| == 1 then Pack1(data[0])
    else if |data| == 2 then Pack2(data[0], data[1])
    else Pack3(data[0], data[1], data[2]) + Pack(data[3..])
  }

  /** The bytes of one group; the bits below its last byte are dropped. */
  function Group(x0: Symbol, x1: Symbol, x2: Symbol, x3: Symbol): Option<seq<Byte>> {
    match (x0, x1, x2, x3)
    case (Bits(a), Bits(b), Pad, Pad) => Some([a * 4 + b / 16])
    case (Bits(a), Bits(b), Bits(c), Pad) => Some([a * 4 + b / 16, b % 16 * 16 + c / 4])
    case (Bits(a), Bits(b), Bits(c), Bits(d)) => Some([a * 4 + b / 16, b % 16 * 16 + c / 4, c % 4 * 64 + d])
    case _ => None
  }

  /** Whole groups only, padding in the last one only. */
  function Unpack(xs: seq<Symbol>): Option<seq<Byte>> {
    if xs == [] then Some([])
    else if |xs| < 4 then None
    else
      var head, tail := Group(xs[0], xs[1], xs[2], xs[3]), Unpack(xs[4..]);
      if |xs| == 4 then head
      else if head.Some? && |head.value| == 3 && tail.Some? then Some(head.value + tail.value) else None
  }

  function Encode(data: seq<Byte>): string {
    Write(Pack(data))
  }

  /** `b64decode(validate=True)` */
  function Decode(s: string): Option<seq<Byte>> {
    if Read(s).Some? then Unpack(Read(s).value) else None
  }

  function DecodeExact(s: string): Option<seq<Byte>> {
    var d := Decode(s);
    if d.Some? && Encode(d.value) == s then d else None
  }

  // ---------------------------------------------------------------- round trip

  lemma GroupPack3(b0: Byte, b1: Byte, b2: Byte)
    ensures var p := Pack3(b0, b1, b2); Group(p[0], p[1], p[2], p[3]) == Some([b0, b1, b2])
  {
    var x1, x2 := b0 % 4 * 16 + b1 / 16, b1 % 16 * 4 + b2 / 64;
    assert x1 / 16 == b0 % 4 && x1 % 16 == b1 / 16;
    assert x2 / 4 == b1 % 16 && x2 % 4 == b2 / 64;
    assert b0 / 4 * 4 + x1 / 16 == b0;
    assert x1 % 16 * 16 + x2 / 4 == b1;
    assert x2 % 4 * 64 + b2 % 64 == b2;
    assert Pack3(b0, b1, b2) == [Bits(b0 / 4), Bits(x1), Bits(x2), Bits(b2 % 64)];
  }

  lemma Pack3Group(a: Six, b: Six, c: Six, d: Six)
    ensures var g := Group(Bits(a), Bits(b), Bits(c), Bits(d));
      g.Some? && |g.value| == 3 && Pack3(g.value[0], g.value[1], g.value[2]) == [Bits(a), Bits(b), Bits(c), Bits(d)]
  {
    var b0, b1, b2 := a * 4 + b / 16, b % 16 * 16 + c / 4, c % 4 * 64 + d;
    assert b0 / 4 == a && b0 % 4 == b / 16;
    assert b1 / 16 == b % 16 && b1 % 16 == c / 4;
    assert b2 / 64 == c % 4 && b2 % 64 == d;
    assert Group(Bits(a), Bits(b), Bits(c), Bits(d)) == Some([b0, b1, b2]);
  }

  /** Padded groups pack back with the bits they drop set to zero. */
  lemma Pack2Group(a: Six, b: Six, c: Six)
    ensures var g := Group(Bits(a), Bits(b), Bits(c), Pad);
      g.Some? && |g.value| == 2 && Pack(g.value) == [Bits(a), Bits(b), Bits(c / 4 * 4), Pad]
  {
    var b0, b1 := a * 4 + b / 16, b % 16 * 16 + c / 4;
    assert b0 / 4 == a && b0 % 4 == b / 16;
    assert b1 / 16 == b % 16 && b1 % 16 == c / 4;
    assert Group(Bits(a), Bits(b), Bits(c), Pad) == Some([b0, b1]);
    assert Pack([b0, b1]) == Pack2(b0, b1);
    assert b / 16 * 16 + b % 16 == b;
  }

  lemma Pack1Group(a: Six, b: Six)
    ensures var g := Group(Bits(a), Bits(b), Pad, Pad);
      g.Some? && |g.value| == 1 && Pack(g.value) == [Bits(a), Bits(b / 16 * 16), Pad, Pad]
  {
    var b0 := a * 4 + b / 16;
    assert b0 / 4 == a && b0 % 4 == b / 16;
    assert Group(Bits(a), Bits(b), Pad, Pad) == Some([b0]);
    assert Pack([b0]) == Pack1(b0);
  }

  lemma {:induction false} UnpackPack(data: seq<Byte>)
    ensures Unpack(Pack(data)) == Some(data)
  {
    if |data| == 1 {
      assert data == [data[0]];
    } else if |data| == 2 {
      assert data == [data[0], data[1]];
    } else if |data| >= 3 {
      UnpackPack(data[3..]);
      GroupPack3(data[0], data[1], data[2]);
      var p := Pack(data);
      assert p[4..] == Pack(data[3..]);
      assert p[..4] == Pack3(data[0], data[1], data[2]);
      assert p[0] == p[..4][0] && p[1] == p[..4][1] && p[2] == p[..4][2] && p[3] == p[..4][3];
      assert data == [data[0], data[1], data[2]] + data[3..];
      if |p| == 4 {
        assert Unpack(Pack(data[3..])) == Some([]);
        assert data[3..] == [] && data == [data[0], data[1], data[2]];
      }
    }
  }

  lemma RoundTrip(data: seq<Byte>)
    ensures Decode(Encode(data)) == Some(data)
  {
    ReadWrite(Pack(data));
    UnpackPack(data);
  }

  /** Accepted means: exactly the encoding of the returned bytes. */
  lemma {:induction false} ExactIff(s: string, data: seq<Byte>)
    ensures DecodeExact(s) == Some(data) <==> s == Encode(data)
  {
    RoundTrip(data);
  }

  lemma WriteFour(x0: Symbol, x1: Symbol, x2: Symbol, x3: Symbol)
    ensures Write([x0, x1, x2, x3]) == [Glyph(x0), Glyph(x1), Glyph(x2), Glyph(x3)]
  {
    assert Write([x3]) == [Glyph(x3)] + Write([]);
    assert [x2, x3][1..] == [x3] && [x1, x2, x3][1..] == [x2, x3] && [x0, x1, x2, x3][1..] == [x1, x2, x3];
    assert Write([x2, x3]) == [Glyph(x2)] + Write([x3]);
    assert Write([x1, x2, x3]) == [Glyph(x1)] + Write([x2, x3]);
    assert Write([x0, x1, x2, x3]) == [Glyph(x0)] + Write([x1, x2, x3]);
  }

  /** The four characters of a number of 24 bits: its digits to the base 64. */
  function FourDigits(v: nat): seq<char>
    requires v < 0x100_0000
  {
    [Glyph(Bits(v / 262144)), Glyph(Bits(v / 4096 % 64)), Glyph(Bits(v / 64 % 64)), Glyph(Bits(v % 64))]
  }

  lemma DigitsOf(a: Six, b: Six, c: Six, d: Six)
    ensures var v := a * 262144 + b * 4096 + c * 64 + d;
      v < 0x100_0000 && v / 262144 == a && v / 4096 % 64 == b && v / 64 % 64 == c && v % 64 == d
  {
    var v := a * 262144 + b * 4096 + c * 64 + d;
    assert v / 4096 == a * 64 + b;
    assert v / 64 == (a * 64 + b) * 64 + c;
  }

  /** Three bytes are one number, written as its digits to the base 64. */
  lemma EncodeThree(b0: Byte, b1: Byte, b2: Byte)
    ensures Encode([b0, b1, b2]) == FourDigits(b0 * 65536 + b1 * 256 + b2)
  {
    var a, b, c, d := b0 / 4, b0 % 4 * 16 + b1 / 16, b1 % 16 * 4 + b2 / 64, b2 % 64;
    DigitsOf(a, b, c, d);
    assert a * 262144 + b * 4096 + c * 64 + d == b0 * 65536 + b1 * 256 + b2;
    assert Pack([b0, b1, b2]) == Pack3(b0, b1, b2) + Pack([]);
    assert Pack3(b0, b1, b2) + [] == Pack3(b0, b1, b2) == [Bits(a), Bits(b), Bits(c), Bits(d)];
    WriteFour(Bits(a), Bits(b), Bits(c), Bits(d));
  }

  /** A missing byte counts as 0, and a digit it alone would fill is padding. */
  lemma EncodeTwo(b0: Byte, b1: Byte)
    ensures Encode([b0, b1]) == FourDigits(b0 * 65536 + b1 * 256)[..3] + "="
  {
    var a, b, c := b0 / 4, b0 % 4 * 16 + b1 / 16, b1 % 16 * 4;
    DigitsOf(a, b, c, 0);
    assert a * 262144 + b * 4096 + c * 64 == b0 * 65536 + b1 * 256;
    assert Pack([b0, b1]) == [Bits(a), Bits(b), Bits(c), Pad];
    WriteFour(Bits(a), Bits(b), Bits(c), Pad);
  }

  lemma EncodeOne(b0: Byte)
    ensures Encode([b0]) == FourDigits(b0 * 65536)[..2] + "=="
    ensures Encode([]) == ""
  {
    var a, b := b0 / 4, b0 % 4 * 16;
    DigitsOf(a, b, 0, 0);
    assert a * 262144 + b * 4096 == b0 * 65536;
    assert Pack([b0]) == [Bits(a), Bits(b), Pad, Pad];
    WriteFour(Bits(a), Bits(b), Pad, Pad);
  }

  /** Longer data is written group by group. */
  lemma EncodeGroups(data: seq<Byte>)
    requires |data| > 3
    ensures Encode(data) == Encode([data[0], data[1], data[2]]) + Encode(data[3..])
  {
    var p := Pack3(data[0], data[1], data[2]);
    WriteConcat(p, Pack(data[3..]));
    assert Pack([data[0], data[1], data[2]]) == p + Pack([]);
    assert p + [] == p;
  }

  /** Table 1 of RFC 4648: three ranges of consecutive characters and the last two. */
  lemma GlyphsMean(n: Six)
    ensures Glyph(Bits(0)) == 'A' && Glyph(Bits(26)) == 'a' && Glyph(Bits(52)) == '0'
    ensures Glyph(Bits(62)) == '+' && Glyph(Bits(63)) == '/'
    ensures n !in {0, 26, 52, 62, 63} ==> Glyph(Bits(n)) as int == Glyph(Bits(n - 1)) as int + 1
  {
  }

  lemma {:induction false} WriteConcat(xs: seq<Symbol>, ys: seq<Symbol>)
    ensures Write(xs + ys) == Write(xs) + Write(ys)
  {
    if xs == [] {
      assert xs + ys == ys;
    } else {
      assert (xs + ys)[1..] == xs[1..] + ys;
      WriteConcat(xs[1..], ys);
    }
  }

  // ---------------------------------------------------------------- canonical text

  /** Section 3.5 of RFC 4648: whole groups, padding only at the end, pad bits zero. */
  ghost predicate CanonicalSymbols(xs: seq<Symbol>) {
    var n := |xs|;
    && n % 4 == 0
    && (forall i :: 0 <= i < n - 2 ==> xs[i].Bits?)
    && (n > 0 ==>
          match xs[n - 2]
          case Pad => xs[n - 1].Pad? && xs[n - 3].six % 16 == 0
          case Bits(c) => xs[n - 1].Pad? ==> c % 4 == 0)
  }

  ghost predicate Canonical(s: string) {
    Read(s).Some? && CanonicalSymbols(Read(s).value)
  }

  /** A lone group packs back to itself exactly when it is canonical. */
  lemma GroupCanonical(x0: Symbol, x1: Symbol, x2: Symbol, x3: Symbol)
    ensures CanonicalSymbols([x0, x1, x2, x3]) <==>
      Group(x0, x1, x2, x3).Some? && Pack(Group(x0, x1, x2, x3).value) == [x0, x1, x2, x3]
  {
    var xs := [x0, x1, x2, x3];
    var g := Group(x0, x1, x2, x3);
    assert CanonicalSymbols(xs) ==> xs[0].Bits? && xs[1].Bits?;
    match (x0, x1, x2, x3)
    case (Bits(a), Bits(b), Pad, Pad) =>
      Pack1Group(a, b);
      assert xs == Pack(g.value) <==> b == b / 16 * 16 by { assert xs[1] == Bits(b); }
    case (Bits(a), Bits(b), Bits(c), Pad) =>
      Pack2Group(a, b, c);
      assert xs == Pack(g.value) <==> c == c / 4 * 4 by { assert xs[2] == Bits(c); }
    case (Bits(a), Bits(b), Bits(c), Bits(d)) =>
      Pack3Group(a, b, c, d);
      assert Pack(g.value) == Pack3(g.value[0], g.value[1], g.value[2]) + Pack([]);
    case _ =>
  }

  lemma CanonicalSplits(xs: seq<Symbol>)
    requires |xs| > 4
    ensures CanonicalSymbols(xs) <==>
      CanonicalSymbols(xs[4..]) && xs[0].Bits? && xs[1].Bits? && xs[2].Bits? && xs[3].Bits?
  {
    var t := xs[4..];
    assert forall i :: 0 <= i < |t| ==> t[i] == xs[i + 4];
    if CanonicalSymbols(t) && xs[0].Bits? && xs[1].Bits? && xs[2].Bits? && xs[3].Bits? {
      forall i | 0 <= i < |xs| - 2
        ensures xs[i].Bits?
      {
        assert i >= 4 ==> t[i - 4].Bits?;
      }
    }
  }

  lemma {:induction false} PacksBackIff(xs: seq<Symbol>)
    ensures CanonicalSymbols(xs) <==> Unpack(xs).Some? && Pack(Unpack(xs).value) == xs
  {
    if |xs| >= 4 {
      GroupCanonical(xs[0], xs[1], xs[2], xs[3]);
      assert xs == [xs[0], xs[1], xs[2], xs[3]] + xs[4..];
      if |xs| == 4 {
        assert xs == [xs[0], xs[1], xs[2], xs[3]];
      } else {
        PacksBackIff(xs[4..]);
        CanonicalSplits(xs);
        PackSplits(xs);
      }
    }
  }

  lemma {:induction false} PackSplits(xs: seq<Symbol>)
    requires |xs| > 4
    ensures Unpack(xs).Some? && Pack(Unpack(xs).value) == xs <==>
      && xs[0].Bits? && xs[1].Bits? && xs[2].Bits? && xs[3].Bits?
      && Unpack(xs[4..]).Some? && Pack(Unpack(xs[4..]).value) == xs[4..]
  {
    if xs[0].Bits? && xs[1].Bits? && xs[2].Bits? && xs[3].Bits? && Unpack(xs[4..]).Some? {
      Pack3Group(xs[0].six, xs[1].six, xs[2].six, xs[3].six);
      PackTail(xs, Group(xs[0], xs[1], xs[2], xs[3]).value, Unpack(xs[4..]).value);
    }
  }

  lemma PackTail(xs: seq<Symbol>, d: seq<Byte>, e: seq<Byte>)
    requires |xs| > 4 && |d| == 3 && Pack3(d[0], d[1], d[2]) == [xs[0], xs[1], xs[2], xs[3]]
    ensures Pack(d + e) == xs <==> Pack(e) == xs[4..]
  {
    assert (d + e)[3..] == e;
    assert xs == [xs[0], xs[1], xs[2], xs[3]] + xs[4..];
    assert Pack(d + e)[4..] == Pack(e);
  }

  /** `_decode_exact` accepts exactly the canonical texts. */
  lemma {:induction false} ExactAcceptsCanonical(s: string)
    ensures DecodeExact(s).Some? <==> Canonical(s)
  {
    WriteRead(s);
    if Read(s).Some? {
      var xs := Read(s).value;
      PacksBackIff(xs);
      if Unpack(xs).Some? {
        ReadWrite(Pack(Unpack(xs).value));
      }
    }
  }
}
