/** Unpadded base64url as the session codec uses it (sections 3.2, 4 and 5 of RFC 4648). */
module Base64Url {
  import opened Options
  import opened Text

  type Sextet = n: int | 0 <= n < 64

  function ToChar(n: Sextet): (c: char)
    ensures c != '='
  {
    if n < 26 then ('A' as int + n) as char
    else if n < 52 then ('a' as int + (n - 26)) as char
    else if n < 62 then ('0' as int + (n - 52)) as char
    else if n == 62 then '-' else '_'
  }

  /** The decoder is given "-_" as alternatives; the standard "+/" stay in its alphabet. */
  function FromChar(c: char): Option<Sextet> {
    if 'A' <= c <= 'Z' then Some(c as int - 'A' as int)
    else if 'a' <= c <= 'z' then Some(c as int - 'a' as int + 26)
    else if '0' <= c <= '9' then Some(c as int - '0' as int + 52)
    else if c == '-' || c == '+' then Some(62)
    else if c == '_' || c == '/' then Some(63)
    else None
  }

  lemma FromToChar(n: Sextet)
    ensures FromChar(ToChar(n)) == Some(n)
  {
  }

  // The sextets of three bytes, and the bytes of four sextets.

  function First(x: Byte): Sextet {
    x / 4
  }

  function Second(x: Byte, y: Byte): Sextet {
    x % 4 * 16 + y / 16
  }

  function Third(y: Byte, z: Byte): Sextet {
    y % 16 * 4 + z / 64
  }

  function Fourth(z: Byte): Sextet {
    z % 64
  }

  // The last sextet of one or two bytes, filled with zero bits.

  function LastOfOne(x: Byte): Sextet {
    x % 4 * 16
  }

  function LastOfTwo(y: Byte): Sextet {
    y % 16 * 4
  }

  function ByteOne(a: Sextet, b: Sextet): Byte {
    a * 4 + b / 16
  }

  function ByteTwo(b: Sextet, c: Sextet): Byte {
    b % 16 * 16 + c / 4
  }

  function ByteThree(c: Sextet, d: Sextet): Byte {
    c % 4 * 64 + d
  }

  lemma Joined4(a: int, b: int)
    requires 0 <= b < 4
    ensures (a * 4 + b) / 4 == a && (a * 4 + b) % 4 == b
  {
  }

  lemma Joined16(a: int, b: int)
    requires 0 <= b < 16
    ensures (a * 16 + b) / 16 == a && (a * 16 + b) % 16 == b
  {
  }

  lemma FirstByteRestored(x: Byte, y: Byte)
    ensures ByteOne(First(x), Second(x, y)) == x && Second(x, y) % 16 == y / 16
  {
    Joined16(x % 4, y / 16);
  }

  lemma SecondByteRestored(b: Sextet, y: Byte, z: Byte)
    requires b % 16 == y / 16
    ensures ByteTwo(b, Third(y, z)) == y && Third(y, z) % 4 == z / 64
  {
    Joined4(y % 16, z / 64);
  }

  lemma ThirdByteRestored(c: Sextet, z: Byte)
    requires c % 4 == z / 64
    ensures ByteThree(c, Fourth(z)) == z
  {
  }

  lemma BytesRestored(x: Byte, y: Byte, z: Byte)
    ensures ByteOne(First(x), Second(x, y)) == x
    ensures ByteTwo(Second(x, y), Third(y, z)) == y
    ensures ByteThree(Third(y, z), Fourth(z)) == z
  {
    FirstByteRestored(x, y);
    SecondByteRestored(Second(x, y), y, z);
    ThirdByteRestored(Third(y, z), z);
  }

  lemma OneByteRestored(x: Byte)
    ensures ByteOne(First(x), LastOfOne(x)) == x
  {
    Joined16(x % 4, 0);
  }

  lemma TwoBytesRestored(b: Sextet, y: Byte)
    requires b % 16 == y / 16
    ensures ByteTwo(b, LastOfTwo(y)) == y
  {
    Joined4(y % 16, 0);
  }

  /** `urlsafe_b64encode`, padding included. */
  function Encode(bs: seq<Byte>): string {
    if bs == [] then ""
    else if |bs| == 1 then [ToChar(First(bs[0])), ToChar(LastOfOne(bs[0])), '=', '=']
    else if |bs| == 2 then [ToChar(First(bs[0])), ToChar(Second(bs[0], bs[1])), ToChar(LastOfTwo(bs[1])), '=']
    else
      [ToChar(First(bs[0])), ToChar(Second(bs[0], bs[1])), ToChar(Third(bs[1], bs[2])), ToChar(Fourth(bs[2]))]
      + Encode(bs[3..])
  }

  /** `rstrip("=")`. */
  function RStrip(s: string): string {
    if s != [] && s[|s| - 1] == '=' then RStrip(s[..|s| - 1]) else s
  }

  /** The padding `decode` puts back: `"=" * (-len(encoded) % 4)`. */
  function Pad(token: string): string {
    token + seq(-|token| % 4, i => '=')
  }

  /** `b64decode` with validation: groups of four, padding in the last one only, spare bits not looked at. */
  function Decode(s: string): Option<seq<Byte>> {
    if s == "" then Some([])
    else if |s| < 4 then None
    else
      match (FromChar(s[0]), FromChar(s[1]))
      case (Some(a), Some(b)) =>
        if s[2] == '=' && s[3] == '=' && |s| == 4 then Some([ByteOne(a, b)])
        else
          (match FromChar(s[2])
           case None => None
           case Some(c) =>
             if s[3] == '=' && |s| == 4 then Some([ByteOne(a, b), ByteTwo(b, c)])
             else
               match (FromChar(s[3]), Decode(s[4..]))
               case (Some(d), Some(rest)) => Some([ByteOne(a, b), ByteTwo(b, c), ByteThree(c, d)] + rest)
               case _ => None)
      case _ => None
  }

  lemma DecodeOneByte(x: Byte)
    ensures Decode(Encode([x])) == Some([x])
  {
    OneByteRestored(x);
    FromToChar(First(x));
    FromToChar(LastOfOne(x));
    var s := Encode([x]);
    assert s == [ToChar(First(x)), ToChar(LastOfOne(x)), '=', '='];
    assert Decode(s) == Some([ByteOne(First(x), LastOfOne(x))]);
  }

  lemma DecodeTwoBytes(x: Byte, y: Byte)
    ensures Decode(Encode([x, y])) == Some([x, y])
  {
    FirstByteRestored(x, y);
    TwoBytesRestored(Second(x, y), y);
    FromToChar(First(x));
    FromToChar(Second(x, y));
    FromToChar(LastOfTwo(y));
    var s := Encode([x, y]);
    assert FromChar(s[0]) == Some(First(x)) && FromChar(s[1]) == Some(Second(x, y));
    assert FromChar(s[2]) == Some(LastOfTwo(y));
  }

  /** One full group of characters in front of a decodable rest. */
  lemma DecodeGroup(a: Sextet, b: Sextet, c: Sextet, d: Sextet, rest: string, bs: seq<Byte>)
    requires Decode(rest) == Some(bs)
    ensures Decode([ToChar(a), ToChar(b), ToChar(c), ToChar(d)] + rest)
         == Some([ByteOne(a, b), ByteTwo(b, c), ByteThree(c, d)] + bs)
  {
    var s := [ToChar(a), ToChar(b), ToChar(c), ToChar(d)] + rest;
    assert s[4..] == rest;
    FromToChar(a);
    FromToChar(b);
    FromToChar(c);
    FromToChar(d);
  }

  lemma {:induction false} DecodeEncoded(bs: seq<Byte>)
    ensures Decode(Encode(bs)) == Some(bs)
    decreases |bs|
  {
    if |bs| == 1 {
      DecodeOneByte(bs[0]);
      assert bs == [bs[0]];
    } else if |bs| == 2 {
      DecodeTwoBytes(bs[0], bs[1]);
      assert bs == [bs[0], bs[1]];
    } else if |bs| >= 3 {
      DecodeThreeMore(bs[0], bs[1], bs[2], bs[3..]);
      assert bs == [bs[0], bs[1], bs[2]] + bs[3..];
    }
  }

  lemma {:induction false} DecodeThreeMore(x: Byte, y: Byte, z: Byte, rest: seq<Byte>)
    ensures Decode(Encode([x, y, z] + rest)) == Some([x, y, z] + rest)
    decreases |rest| + 2
  {
    DecodeEncoded(rest);
    BytesRestored(x, y, z);
    DecodeGroup(First(x), Second(x, y), Third(y, z), Fourth(z), Encode(rest), rest);
    assert ([x, y, z] + rest)[3..] == rest;
  }

  lemma {:induction false} RStripStops(s: string, n: int)
    requires 0 <= n <= |s| && (n == 0 || s[n - 1] != '=') && forall i | n <= i < |s| :: s[i] == '='
    ensures RStrip(s) == s[..n]
    decreases |s|
  {
    if n < |s| {
      RStripStops(s[..|s| - 1], n);
    }
  }

  /** Where the padding of an encoding begins. */
  function Unpadded(n: nat): int {
    n / 3 * 4 + if n % 3 == 0 then 0 else n % 3 + 1
  }

  lemma UnpaddedMore(n: nat)
    requires n >= 3
    ensures Unpadded(n) == Unpadded(n - 3) + 4 && (n + 2) / 3 == (n - 1) / 3 + 1
  {
  }

  lemma {:induction false} EncodedShape(bs: seq<Byte>)
    ensures |Encode(bs)| == (|bs| + 2) / 3 * 4
    ensures 0 <= Unpadded(|bs|) <= |Encode(bs)|
    ensures forall i | 0 <= i < |Encode(bs)| :: Encode(bs)[i] == '=' <==> Unpadded(|bs|) <= i
  {
    if |bs| >= 3 {
      EncodedShape(bs[3..]);
      UnpaddedMore(|bs|);
      forall i | 4 <= i < |Encode(bs)| ensures Encode(bs)[i] == Encode(bs[3..])[i - 4] {
      }
    }
  }

  lemma PaddingArithmetic(n: nat)
    ensures Unpadded(n) % 4 != 1 && Unpadded(n) + -Unpadded(n) % 4 == (n + 2) / 3 * 4
    ensures n > 0 ==> Unpadded(n) > 0
  {
  }

  /** Stripping and padding are inverse on a string whose length and padding fit. */
  lemma StripThenPad(s: string, n: int)
    requires 0 <= n <= |s| && n + -n % 4 == |s|
    requires forall i | 0 <= i < |s| :: s[i] == '=' <==> n <= i
    ensures RStrip(s) == s[..n] && Pad(RStrip(s)) == s
  {
    RStripStops(s, n);
  }

  lemma StripEncoded(bs: seq<Byte>)
    ensures |RStrip(Encode(bs))| == Unpadded(|bs|)
    ensures Pad(RStrip(Encode(bs))) == Encode(bs)
  {
    EncodedShape(bs);
    PaddingArithmetic(|bs|);
    StripThenPad(Encode(bs), Unpadded(|bs|));
  }

  /**
   * The token `encode` keeps never has a length of 1 modulo 4, and the padding formula of `decode`
   * restores exactly what was stripped, so that the bytes come back.
   */
  lemma PaddingIsRestored(bs: seq<Byte>)
    ensures |RStrip(Encode(bs))| % 4 != 1
    ensures Pad(RStrip(Encode(bs))) == Encode(bs)
    ensures Decode(Pad(RStrip(Encode(bs)))) == Some(bs)
    ensures bs != [] ==> RStrip(Encode(bs)) != ""
  {
    StripEncoded(bs);
    PaddingArithmetic(|bs|);
    DecodeEncoded(bs);
  }
}
