/** Base64 with padding (section 4 of RFC 4648) as the standard engine encodes and decodes it, and
    base16 (section 8) as the hex crate does: strict about length, alphabet, padding and spare bits. */
module Base64 {
  import opened Basics

  type Byte = x: int | 0 <= x < 256

  function Digit(n: int): char
    requires 0 <= n < 64
  {
    if n < 26 then ('A' as int + n) as char
    else if n < 52 then ('a' as int + (n - 26)) as char
    else if n < 62 then ('0' as int + (n - 52)) as char
    else if n == 62 then '+' else '/'
  }

  function Value(c: char): (v: Option<int>)
    ensures v.Some? ==> 0 <= v.value < 64
  {
    if 'A' <= c <= 'Z' then Some(c as int - 'A' as int)
    else if 'a' <= c <= 'z' then Some(c as int - 'a' as int + 26)
    else if '0' <= c <= '9' then Some(c as int - '0' as int + 52)
    else if c == '+' then Some(62)
    else if c == '/' then Some(63)
    else None
  }

  lemma DigitValue(n: int)
    requires 0 <= n < 64
    ensures Value(Digit(n)) == Some(n) && Digit(n) != '='
  {
  }

  lemma ValueDigit(c: char)
    requires Value(c).Some?
    ensures Digit(Value(c).value) == c && c != '='
  {
  }

  // ---- Three bytes and four digits ----

  function Quad(a: Byte, b: Byte, c: Byte): seq<char> {
    [Digit(a / 4), Digit(a % 4 * 16 + b / 16), Digit(b % 16 * 4 + c / 64), Digit(c % 64)]
  }

  function Triple(p: int, q: int, r: int, s: int): seq<Byte>
    requires 0 <= p < 64 && 0 <= q < 64 && 0 <= r < 64 && 0 <= s < 64
  {
    [p * 4 + q / 16, q % 16 * 16 + r / 4, r % 4 * 64 + s]
  }

  function Encode(b: seq<Byte>): seq<char> {
    if b == [] then []
    else if |b| == 1 then [Digit(b[0] / 4), Digit(b[0] % 4 * 16), '=', '=']
    else if |b| == 2 then [Digit(b[0] / 4), Digit(b[0] % 4 * 16 + b[1] / 16), Digit(b[1] % 16 * 4), '=']
    else Quad(b[0], b[1], b[2]) + Encode(b[3..])
  }

  /** The last four characters, where padding may stand; spare bits must be zero. */
  function DecodeLast(s: seq<char>): Option<seq<Byte>>
    requires |s| == 4
  {
    var p, q, r, t := Value(s[0]), Value(s[1]), Value(s[2]), Value(s[3]);
    if p.None? || q.None? then None
    else if s[2] == '=' then
      if s[3] == '=' && q.value % 16 == 0 then Some([p.value * 4 + q.value / 16]) else None
    else if r.None? then None
    else if s[3] == '=' then
      if r.value % 4 == 0 then Some([p.value * 4 + q.value / 16, q.value % 16 * 16 + r.value / 4]) else None
    else if t.None? then None
    else Some(Triple(p.value, q.value, r.value, t.value))
  }

  function Decode(s: seq<char>): Option<seq<Byte>> {
    if s == [] then Some([])
    else if |s| < 4 then None
    else if |s| == 4 then DecodeLast(s)
    else
      var p, q, r, t := Value(s[0]), Value(s[1]), Value(s[2]), Value(s[3]);
      if p.None? || q.None? || r.None? || t.None? then None
      else
        match Decode(s[4..])
        case None => None
        case Some(rest) => Some(Triple(p.value, q.value, r.value, t.value) + rest)
  }

  lemma QuadTriple(a: Byte, b: Byte, c: Byte)
    ensures var s := Quad(a, b, c);
            && Value(s[0]).Some? && Value(s[1]).Some? && Value(s[2]).Some? && Value(s[3]).Some?
            && Triple(Value(s[0]).value, Value(s[1]).value, Value(s[2]).value, Value(s[3]).value) == [a, b, c]
            && s[2] != '=' && s[3] != '='
  {
    hide Digit, Value;
    Split(a, b, c);
    DigitValue(a / 4);
    DigitValue(a % 4 * 16 + b / 16);
    DigitValue(b % 16 * 4 + c / 64);
    DigitValue(c % 64);
  }

  /** Regrouping 24 bits, and back. */
  lemma Split(a: Byte, b: Byte, c: Byte)
    ensures var p, q, r, t := a / 4, a % 4 * 16 + b / 16, b % 16 * 4 + c / 64, c % 64;
            && 0 <= p < 64 && 0 <= q < 64 && 0 <= r < 64 && 0 <= t < 64
            && p * 4 + q / 16 == a && q % 16 * 16 + r / 4 == b && r % 4 * 64 + t == c
  {
  }

  lemma Regroup(p: int, q: int, r: int, t: int)
    requires 0 <= p < 64 && 0 <= q < 64 && 0 <= r < 64 && 0 <= t < 64
    ensures var a, b, c := p * 4 + q / 16, q % 16 * 16 + r / 4, r % 4 * 64 + t;
            a / 4 == p && a % 4 * 16 + b / 16 == q && b % 16 * 4 + c / 64 == r && c % 64 == t
  {
  }

  lemma TripleQuad(s: seq<char>)
    requires |s| == 4 && Value(s[0]).Some? && Value(s[1]).Some? && Value(s[2]).Some? && Value(s[3]).Some?
    ensures var b := Triple(Value(s[0]).value, Value(s[1]).value, Value(s[2]).value, Value(s[3]).value);
            Quad(b[0], b[1], b[2]) == s
  {
    hide Digit, Value;
    Regroup(Value(s[0]).value, Value(s[1]).value, Value(s[2]).value, Value(s[3]).value);
    ValueDigit(s[0]);
    ValueDigit(s[1]);
    ValueDigit(s[2]);
    ValueDigit(s[3]);
  }

  lemma LastOfThree(a: Byte, b: Byte, c: Byte)
    ensures DecodeLast(Quad(a, b, c)) == Some([a, b, c])
  {
    hide Digit, Value, Triple;
    QuadTriple(a, b, c);
  }

  lemma LastOfOne(a: Byte)
    ensures DecodeLast([Digit(a / 4), Digit(a % 4 * 16), '=', '=']) == Some([a])
  {
    DigitValue(a / 4);
    DigitValue(a % 4 * 16);
  }

  lemma LastOfTwo(a: Byte, b: Byte)
    ensures DecodeLast([Digit(a / 4), Digit(a % 4 * 16 + b / 16), Digit(b % 16 * 4), '=']) == Some([a, b])
  {
    DigitValue(a / 4);
    DigitValue(a % 4 * 16 + b / 16);
    DigitValue(b % 16 * 4);
  }

  /** Decoding gives back what was encoded. */
  lemma {:induction false} DecodeEncode(b: seq<Byte>)
    ensures Decode(Encode(b)) == Some(b)
  {
    hide Digit, Value;
    if |b| == 1 {
      LastOfOne(b[0]);
      assert b == [b[0]];
    } else if |b| == 2 {
      LastOfTwo(b[0], b[1]);
      assert b == [b[0], b[1]];
    } else if |b| >= 3 {
      var quad, tail := Quad(b[0], b[1], b[2]), b[3..];
      assert b == [b[0], b[1], b[2]] + tail;
      if tail == [] {
        LastOfThree(b[0], b[1], b[2]);
        assert Encode(tail) == [] && Encode(b) == quad + [] == quad;
        assert |quad| == 4 && Decode(quad) == DecodeLast(quad);
        assert b == [b[0], b[1], b[2]];
      } else {
        DecodeEncode(tail);
        EncodeNonEmpty(tail);
        DecodeQuadThen(b[0], b[1], b[2], Encode(tail));
      }
    }
  }

  lemma DecodeQuadThen(a: Byte, b: Byte, c: Byte, rest: seq<char>)
    requires rest != [] && Decode(rest).Some?
    ensures Decode(Quad(a, b, c) + rest) == Some([a, b, c] + Decode(rest).value)
  {
    hide Digit, Value;
    QuadTriple(a, b, c);
    hide Triple;
    assert (Quad(a, b, c) + rest)[4..] == rest;
  }

  lemma EncodeNonEmpty(b: seq<Byte>)
    ensures b == [] <==> Encode(b) == []
  {
  }

  lemma LastIsEncoded(s: seq<char>)
    requires |s| == 4 && DecodeLast(s).Some?
    ensures Encode(DecodeLast(s).value) == s && DecodeLast(s).value != []
  {
    hide Digit, Value;
    ValueDigit(s[0]);
    ValueDigit(s[1]);
    var p, q := Value(s[0]).value, Value(s[1]).value;
    if s[2] == '=' {
      Regroup(p, q, 0, 0);
    } else {
      ValueDigit(s[2]);
      Regroup(p, q, Value(s[2]).value, 0);
      if s[3] != '=' {
        hide Quad;
        TripleQuad(s);
        var b := DecodeLast(s).value;
        assert b[3..] == [] && Encode(b) == Quad(b[0], b[1], b[2]) + [];
      }
    }
  }

  /** And only encodings decode: the decoder accepts no second spelling of any byte string. */
  lemma {:induction false} EncodeDecode(s: seq<char>)
    requires Decode(s).Some?
    ensures Encode(Decode(s).value) == s
  {
    hide Digit, Value;
    if |s| == 4 {
      LastIsEncoded(s);
    } else if s != [] {
      var p, q, r, t := Value(s[0]).value, Value(s[1]).value, Value(s[2]).value, Value(s[3]).value;
      var triple, rest := Triple(p, q, r, t), Decode(s[4..]).value;
      EncodeDecode(s[4..]);
      TripleQuad(s[..4]);
      assert (triple + rest)[3..] == rest;
      assert s == s[..4] + s[4..];
    }
  }

  // ---- Hexadecimal ----

  function HexDigit(n: int): char
    requires 0 <= n < 16
  {
    if n < 10 then ('0' as int + n) as char else ('a' as int + (n - 10)) as char
  }

  function HexValue(c: char): (v: Option<int>)
    ensures v.Some? ==> 0 <= v.value < 16
  {
    if '0' <= c <= '9' then Some(c as int - '0' as int)
    else if 'a' <= c <= 'f' then Some(c as int - 'a' as int + 10)
    else if 'A' <= c <= 'F' then Some(c as int - 'A' as int + 10)
    else None
  }

  function HexEncode(b: seq<Byte>): seq<char> {
    if b == [] then [] else [HexDigit(b[0] / 16), HexDigit(b[0] % 16)] + HexEncode(b[1..])
  }

  function HexDecode(s: seq<char>): Option<seq<Byte>> {
    if s == [] then Some([])
    else if |s| == 1 then None
    else
      var hi, lo := HexValue(s[0]), HexValue(s[1]);
      if hi.None? || lo.None? then None
      else match HexDecode(s[2..])
        case None => None
        case Some(rest) => Some([hi.value * 16 + lo.value] + rest)
  }

  predicate AllHex(s: seq<char>) {
    forall c :: c in s ==> HexValue(c).Some?
  }

  lemma {:induction false} HexRoundTrip(b: seq<Byte>)
    ensures HexDecode(HexEncode(b)) == Some(b) && |HexEncode(b)| == 2 * |b| && AllHex(HexEncode(b))
  {
    if b != [] {
      var rest := HexEncode(b[1..]);
      HexRoundTrip(b[1..]);
      assert ([HexDigit(b[0] / 16), HexDigit(b[0] % 16)] + rest)[2..] == rest;
      assert b == [b[0]] + b[1..];
    }
  }

  lemma {:induction false} HexDecodeTotal(s: seq<char>)
    requires AllHex(s) && |s| % 2 == 0
    ensures HexDecode(s).Some? && |HexDecode(s).value| == |s| / 2
  {
    if s != [] {
      assert s[0] in s && s[1] in s;
      HexDecodeTotal(s[2..]);
    }
  }

  // ---- The standard's own tables and examples ----

  /** The alphabets of tables 1 and 5 of RFC 4648, the latter in lower case: where the stretches of letters and
      digits begin and end, and that they run through in order. */
  lemma Alphabets(n: int)
    ensures Digit(0) == 'A' && Digit(25) == 'Z' && Digit(26) == 'a' && Digit(51) == 'z' && Digit(52) == '0'
    ensures Digit(61) == '9' && Digit(62) == '+' && Digit(63) == '/'
    ensures 0 <= n < 61 && n !in {25, 51} ==> Digit(n + 1) as int == Digit(n) as int + 1
    ensures HexDigit(0) == '0' && HexDigit(9) == '9' && HexDigit(10) == 'a' && HexDigit(15) == 'f'
    ensures 0 <= n < 15 && n != 9 ==> HexDigit(n + 1) as int == HexDigit(n) as int + 1
  {
  }

  /** Upper-case hex digits are read like lower-case ones. */
  lemma HexCase(n: int)
    requires 0 <= n < 16
    ensures HexValue("0123456789ABCDEF"[n]) == HexValue("0123456789abcdef"[n]) == Some(n)
  {
  }

  /** The test vectors of section 10 of RFC 4648 for "f" and "fo", in both encodings. */
  lemma ShortTestVectors()
    ensures Encode([0x66]) == "Zg==" && Encode([0x66, 0x6f]) == "Zm8=" && HexEncode([0x66, 0x6f]) == "666f"
  {
    var fo: seq<Byte> := [0x66, 0x6f];
    assert fo[1..] == [0x6f] && fo[1..][1..] == [];
  }

  /** And for "foobar". */
  lemma LongTestVector()
    ensures Encode([0x66, 0x6f, 0x6f, 0x62, 0x61, 0x72]) == "Zm9vYmFy"
  {
    var foobar, bar: seq<Byte> := [0x66, 0x6f, 0x6f, 0x62, 0x61, 0x72], [0x62, 0x61, 0x72];
    assert foobar[3..] == bar && bar[3..] == [];
    QuadOf();
    hide Quad;
    assert Encode(bar) == "YmFy" + [];
    assert Encode(foobar) == "Zm9v" + Encode(bar);
  }

  lemma QuadOf()
    ensures Quad(0x66, 0x6f, 0x6f) == "Zm9v" && Quad(0x62, 0x61, 0x72) == "YmFy"
  {
  }
}
