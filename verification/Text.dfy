/** Python strings as sequences of code points, and their UTF-8 form (section 3 of RFC 3629). */
module Text {
  import opened Options

  /** A Python string may hold lone surrogates, which have no UTF-8 form. */
  type CodePoint = c: int | 0 <= c <= 0x10FFFF

  type Byte = b: int | 0 <= b < 256

  predicate Surrogate(c: CodePoint) {
    0xD800 <= c <= 0xDFFF
  }

  /** A string constant of the program. */
  function Lit(s: string): (r: seq<CodePoint>)
    ensures |r| == |s|
  {
    seq(|s|, i requires 0 <= i < |s| => s[i] as int)
  }

  lemma LitInjective(s: string, t: string)
    requires Lit(s) == Lit(t)
    ensures s == t
  {
    forall i | 0 <= i < |s| ensures s[i] == t[i] {
      assert Lit(s)[i] == Lit(t)[i];
    }
  }

  // ---------- UTF-8 ----------

  function EncodeOne(c: CodePoint): (r: seq<Byte>)
    requires !Surrogate(c)
    ensures 1 <= |r| <= 4
  {
    if c < 0x80 then [c]
    else if c < 0x800 then [0xC0 + c / 0x40, 0x80 + c % 0x40]
    else if c < 0x10000 then [0xE0 + c / 0x1000, 0x80 + c / 0x40 % 0x40, 0x80 + c % 0x40]
    else [0xF0 + c / 0x40000, 0x80 + c / 0x1000 % 0x40, 0x80 + c / 0x40 % 0x40, 0x80 + c % 0x40]
  }

  /** `str.encode()`: an error when a surrogate is found. */
  function Encode(cs: seq<CodePoint>): Option<seq<Byte>> {
    if cs == [] then Some([])
    else if Surrogate(cs[0]) then None
    else match Encode(cs[1..])
      case Some(rest) => Some(EncodeOne(cs[0]) + rest)
      case None => None
  }

  predicate Continuation(b: int) {
    0x80 <= b < 0xC0
  }

  predicate TwoBytes(a: int, b: int) {
    0xC2 <= a < 0xE0 && Continuation(b)
  }

  predicate ThreeBytes(a: int, b: int, c: int) {
    && 0xE0 <= a < 0xF0 && Continuation(b) && Continuation(c)
    && (a == 0xE0 ==> 0xA0 <= b) && (a == 0xED ==> b < 0xA0)
  }

  predicate FourBytes(a: int, b: int, c: int, d: int) {
    && 0xF0 <= a < 0xF5 && Continuation(b) && Continuation(c) && Continuation(d)
    && (a == 0xF0 ==> 0x90 <= b) && (a == 0xF4 ==> b < 0x90)
  }

  function FromTwo(a: int, b: int): int {
    (a - 0xC0) * 0x40 + (b - 0x80)
  }

  function FromThree(a: int, b: int, c: int): int {
    (a - 0xE0) * 0x1000 + (b - 0x80) * 0x40 + (c - 0x80)
  }

  function FromFour(a: int, b: int, c: int, d: int): int {
    (a - 0xF0) * 0x40000 + (b - 0x80) * 0x1000 + (c - 0x80) * 0x40 + (d - 0x80)
  }

  /** The first character of a byte string and the bytes it takes, by the table of RFC 3629. */
  function DecodeOne(bs: seq<Byte>): (r: Option<(CodePoint, nat)>)
    ensures r.Some? ==> 1 <= r.value.1 <= |bs| && r.value.1 <= 4
  {
    if bs == [] then None
    else if bs[0] < 0x80 then Some((bs[0], 1))
    else if |bs| >= 2 && TwoBytes(bs[0], bs[1]) then Some((FromTwo(bs[0], bs[1]), 2))
    else if |bs| >= 3 && ThreeBytes(bs[0], bs[1], bs[2]) then Some((FromThree(bs[0], bs[1], bs[2]), 3))
    else if |bs| >= 4 && FourBytes(bs[0], bs[1], bs[2], bs[3]) then Some((FromFour(bs[0], bs[1], bs[2], bs[3]), 4))
    else None
  }

  /** `bytes.decode("utf-8")`. */
  function Decode(bs: seq<Byte>): Option<seq<CodePoint>> {
    if bs == [] then Some([])
    else match DecodeOne(bs)
      case None => None
      case Some((c, n)) =>
        match Decode(bs[n..])
        case Some(rest) => Some([c] + rest)
        case None => None
  }

  lemma TwoRoundTrip(a: int, b: int)
    requires TwoBytes(a, b)
    ensures 0x80 <= FromTwo(a, b) < 0x800
    ensures 0xC0 + FromTwo(a, b) / 0x40 == a && 0x80 + FromTwo(a, b) % 0x40 == b
  {
  }

  lemma ThreeRoundTrip(a: int, b: int, c: int)
    requires ThreeBytes(a, b, c)
    ensures var x := FromThree(a, b, c);
            && 0x800 <= x < 0x10000 && !(0xD800 <= x <= 0xDFFF)
            && 0xE0 + x / 0x1000 == a && 0x80 + x / 0x40 % 0x40 == b && 0x80 + x % 0x40 == c
  {
    var x := FromThree(a, b, c);
    assert x / 0x40 == (a - 0xE0) * 0x40 + (b - 0x80);
  }

  lemma FourRoundTrip(a: int, b: int, c: int, d: int)
    requires FourBytes(a, b, c, d)
    ensures var x := FromFour(a, b, c, d);
            && 0x10000 <= x <= 0x10FFFF
            && 0xF0 + x / 0x40000 == a && 0x80 + x / 0x1000 % 0x40 == b
            && 0x80 + x / 0x40 % 0x40 == c && 0x80 + x % 0x40 == d
  {
    var x := FromFour(a, b, c, d);
    assert x / 0x40 == (a - 0xF0) * 0x1000 + (b - 0x80) * 0x40 + (c - 0x80);
    assert x / 0x1000 == (a - 0xF0) * 0x40 + (b - 0x80);
  }

  lemma ThreeOf(x: int)
    requires 0x800 <= x < 0x10000 && !(0xD800 <= x <= 0xDFFF)
    ensures var a, b, c := 0xE0 + x / 0x1000, 0x80 + x / 0x40 % 0x40, 0x80 + x % 0x40;
            ThreeBytes(a, b, c) && FromThree(a, b, c) == x && !(a < 0x80) && !TwoBytes(a, b)
  {
  }

  lemma FourOf(x: int)
    requires 0x10000 <= x <= 0x10FFFF
    ensures var a, b, c, d := 0xF0 + x / 0x40000, 0x80 + x / 0x1000 % 0x40, 0x80 + x / 0x40 % 0x40, 0x80 + x % 0x40;
            FourBytes(a, b, c, d) && FromFour(a, b, c, d) == x && !(a < 0x80) && !TwoBytes(a, b) && !ThreeBytes(a, b, c)
  {
  }

  lemma DecodeOneEncoded(c: CodePoint, rest: seq<Byte>)
    requires !Surrogate(c)
    ensures DecodeOne(EncodeOne(c) + rest) == Some((c, |EncodeOne(c)|))
  {
    var bs := EncodeOne(c) + rest;
    assert forall i | 0 <= i < |EncodeOne(c)| :: bs[i] == EncodeOne(c)[i];
    if 0x10000 <= c {
      FourOf(c);
    } else if 0x800 <= c {
      ThreeOf(c);
    }
  }

  lemma EncodeOneDecoded(bs: seq<Byte>)
    requires DecodeOne(bs).Some?
    ensures var (c, n) := DecodeOne(bs).value; !Surrogate(c) && EncodeOne(c) == bs[..n]
  {
    var (c, n) := DecodeOne(bs).value;
    if n == 2 {
      TwoRoundTrip(bs[0], bs[1]);
    } else if n == 3 {
      ThreeRoundTrip(bs[0], bs[1], bs[2]);
    } else if n == 4 {
      FourRoundTrip(bs[0], bs[1], bs[2], bs[3]);
    }
  }

  /** Encoding fails exactly on strings with a surrogate. */
  lemma {:induction false} EncodeFailsOnSurrogates(cs: seq<CodePoint>)
    ensures Encode(cs).Some? <==> forall c | c in cs :: !Surrogate(c)
  {
    if cs != [] {
      EncodeFailsOnSurrogates(cs[1..]);
      assert forall c | c in cs :: c == cs[0] || c in cs[1..];
    }
  }

  lemma {:induction false} DecodeEncoded(cs: seq<CodePoint>)
    requires Encode(cs).Some?
    ensures Decode(Encode(cs).value) == Some(cs)
  {
    if cs != [] {
      var rest := Encode(cs[1..]).value;
      var bs := EncodeOne(cs[0]) + rest;
      DecodeOneEncoded(cs[0], rest);
      assert Encode(cs) == Some(bs) && bs[|EncodeOne(cs[0])|..] == rest;
      assert cs == [cs[0]] + cs[1..];
      DecodeEncoded(cs[1..]);
    }
  }

  lemma {:induction false} EncodeDecoded(bs: seq<Byte>)
    requires Decode(bs).Some?
    ensures Encode(Decode(bs).value) == Some(bs)
    decreases |bs|
  {
    if bs != [] {
      var (c, n) := DecodeOne(bs).value;
      EncodeOneDecoded(bs);
      EncodeDecoded(bs[n..]);
      EncodeMore(c, Decode(bs[n..]).value);
      assert bs == bs[..n] + bs[n..];
    }
  }

  lemma EncodeMore(c: CodePoint, rest: seq<CodePoint>)
    requires !Surrogate(c) && Encode(rest).Some?
    ensures Encode([c] + rest) == Some(EncodeOne(c) + Encode(rest).value)
  {
    assert ([c] + rest)[1..] == rest;
  }
}
