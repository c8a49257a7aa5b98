/**
 * JSON text as Python's `json` module prints it (`ensure_ascii=False`, compact separators) and parses
 * it (section 7 of RFC 8259 for strings), over code points.
 */
module JsonText {
  import opened Options
  import opened Text

  type Str = seq<CodePoint>

  /** A number is kept as it is written; what it is worth is the reader's question. */
  datatype Value =
    | Null
    | Bool(b: bool)
    | Number(lexeme: Str)
    | Chars(s: Str)
    | Arr(items: seq<Value>)
    | Obj(members: seq<Entry>)

  datatype Entry = Entry(name: Str, value: Value)

  const QUOTE: CodePoint := 0x22
  const COMMA: CodePoint := 0x2C
  const COLON: CodePoint := 0x3A
  const OPEN_BRACKET: CodePoint := 0x5B
  const BACKSLASH: CodePoint := 0x5C
  const CLOSE_BRACKET: CodePoint := 0x5D
  const OPEN_BRACE: CodePoint := 0x7B
  const CLOSE_BRACE: CodePoint := 0x7D

  // ---------- Dictionaries ----------

  function Get(ms: seq<Entry>, name: Str): Option<Value> {
    if ms == [] then None
    else if ms[0].name == name then Some(ms[0].value)
    else Get(ms[1..], name)
  }

  /** Among equal keys the last value counts, at the first one's place. */
  function Put(ms: seq<Entry>, e: Entry): seq<Entry> {
    if ms == [] then [e]
    else if ms[0].name == e.name then [e] + ms[1..]
    else [ms[0]] + Put(ms[1..], e)
  }

  predicate Unique(ms: seq<Entry>) {
    forall i, j | 0 <= i < j < |ms| :: ms[i].name != ms[j].name
  }

  lemma {:induction false} PutNew(ms: seq<Entry>, e: Entry)
    requires forall i | 0 <= i < |ms| :: ms[i].name != e.name
    ensures Put(ms, e) == ms + [e]
  {
    if ms != [] {
      PutNew(ms[1..], e);
      assert ms == [ms[0]] + ms[1..];
    }
  }

  // ---------- Strings ----------

  predicate Digit(c: CodePoint) {
    0x30 <= c <= 0x39
  }

  function HexDigit(n: int): CodePoint
    requires 0 <= n < 16
  {
    if n < 10 then 0x30 + n else 0x61 + n - 10
  }

  function HexValue(c: CodePoint): (r: Option<int>)
    ensures r.Some? ==> 0 <= r.value < 16
  {
    if Digit(c) then Some(c - 0x30)
    else if 0x61 <= c <= 0x66 then Some(c - 0x61 + 10)
    else if 0x41 <= c <= 0x46 then Some(c - 0x41 + 10)
    else None
  }

  /** The letter of a short escape: `\n` and its like. */
  function ShortEscape(c: CodePoint): Option<CodePoint> {
    if c == QUOTE || c == BACKSLASH then Some(c)
    else if c == 0x0A then Some(0x6E)
    else if c == 0x0D then Some(0x72)
    else if c == 0x09 then Some(0x74)
    else if c == 0x0C then Some(0x66)
    else if c == 0x08 then Some(0x62)
    else None
  }

  function ShortUnescape(c: CodePoint): Option<CodePoint> {
    if c == QUOTE || c == BACKSLASH || c == 0x2F then Some(c)
    else if c == 0x6E then Some(0x0A)
    else if c == 0x72 then Some(0x0D)
    else if c == 0x74 then Some(0x09)
    else if c == 0x66 then Some(0x0C)
    else if c == 0x62 then Some(0x08)
    else None
  }

  function Escape(c: CodePoint): Str {
    if ShortEscape(c).Some? then [BACKSLASH, ShortEscape(c).value]
    else if c < 0x20 then [BACKSLASH, 0x75, 0x30, 0x30, HexDigit(c / 16), HexDigit(c % 16)]
    else [c]
  }

  /** A string after its opening quote, the closing one included. */
  function PrintChars(s: Str): Str {
    if s == [] then [QUOTE] else Escape(s[0]) + PrintChars(s[1..])
  }

  function Hex4(s: Str): (r: Option<CodePoint>)
    requires |s| >= 4
  {
    match (HexValue(s[0]), HexValue(s[1]), HexValue(s[2]), HexValue(s[3]))
    case (Some(a), Some(b), Some(c), Some(d)) => Some(a * 0x1000 + b * 0x100 + c * 0x10 + d)
    case _ => None
  }

  /** A `\u` escape at the head of a string. */
  function UnicodeEscape(s: Str): Option<CodePoint> {
    if |s| >= 6 && s[0] == BACKSLASH && s[1] == 0x75 then Hex4(s[2..]) else None
  }

  function Joined(high: CodePoint, low: CodePoint): CodePoint
    requires 0xD800 <= high < 0xDC00 && 0xDC00 <= low < 0xE000
  {
    0x10000 + (high - 0xD800) * 0x400 + (low - 0xDC00)
  }

  /** One character of a string and the length it is written with; two escapes may be one character. */
  function ScanOne(s: Str): (r: Option<(CodePoint, nat)>)
    ensures r.Some? ==> 1 <= r.value.1 <= |s|
  {
    if s == [] || s[0] < 0x20 || s[0] == QUOTE then None
    else if s[0] != BACKSLASH then Some((s[0], 1))
    else if |s| >= 2 && ShortUnescape(s[1]).Some? then Some((ShortUnescape(s[1]).value, 2))
    else match UnicodeEscape(s)
      case None => None
      case Some(c) =>
        match UnicodeEscape(s[6..])
        case Some(d) =>
          if 0xD800 <= c < 0xDC00 && 0xDC00 <= d < 0xE000 then Some((Joined(c, d), 12)) else Some((c, 6))
        case None => Some((c, 6))
  }

  /** A string after its opening quote, and the text behind it. */
  function ScanChars(s: Str): (r: Option<(Str, Str)>)
    ensures r.Some? ==> |r.value.1| < |s|
    decreases |s|
  {
    if s != [] && s[0] == QUOTE then Some(([], s[1..]))
    else match ScanOne(s)
      case None => None
      case Some((c, n)) =>
        match ScanChars(s[n..])
        case None => None
        case Some((cs, rest)) => Some(([c] + cs, rest))
  }

  lemma ScanEscaped(c: CodePoint, rest: Str)
    ensures ScanOne(Escape(c) + rest) == Some((c, |Escape(c)|))
    ensures (Escape(c) + rest)[0] != QUOTE
  {
    var s := Escape(c) + rest;
    assert forall i | 0 <= i < |Escape(c)| :: s[i] == Escape(c)[i];
    if ShortEscape(c).None? && c < 0x20 {
      assert HexValue(HexDigit(c / 16)) == Some(c / 16) && HexValue(HexDigit(c % 16)) == Some(c % 16);
      assert Hex4(s[2..]) == Some(c);
    }
  }

  lemma {:induction false} ScanPrinted(s: Str, rest: Str)
    ensures ScanChars(PrintChars(s) + rest) == Some((s, rest))
    decreases |s|
  {
    var text := PrintChars(s) + rest;
    if s == [] {
      assert text[1..] == rest;
    } else {
      var tail := PrintChars(s[1..]) + rest;
      assert text == Escape(s[0]) + tail;
      ScanEscaped(s[0], tail);
      assert text[|Escape(s[0])|..] == tail;
      ScanPrinted(s[1..], rest);
      assert s == [s[0]] + s[1..];
    }
  }

  // ---------- Numbers ----------

  function Digits(s: Str): (n: nat)
    ensures n <= |s|
  {
    if s != [] && Digit(s[0]) then 1 + Digits(s[1..]) else 0
  }

  function IntegerLength(s: Str): (n: nat)
    ensures n <= |s|
  {
    if s != [] && s[0] == 0x30 then 1 else Digits(s)
  }

  function FractionLength(s: Str): (n: nat)
    ensures n <= |s|
  {
    if s != [] && s[0] == 0x2E && Digits(s[1..]) > 0 then 1 + Digits(s[1..]) else 0
  }

  function ExponentLength(s: Str): (n: nat)
    ensures n <= |s|
  {
    if s != [] && (s[0] == 0x65 || s[0] == 0x45) then
      var sign := if |s| > 1 && (s[1] == 0x2B || s[1] == 0x2D) then 2 else 1;
      if Digits(s[sign..]) > 0 then sign + Digits(s[sign..]) else 0
    else 0
  }

  function TailLength(s: Str): (n: nat)
    ensures n <= |s|
  {
    FractionLength(s) + ExponentLength(s[FractionLength(s)..])
  }

  function UnsignedLength(s: Str): (n: nat)
    ensures n <= |s|
  {
    if IntegerLength(s) == 0 then 0 else IntegerLength(s) + TailLength(s[IntegerLength(s)..])
  }

  /** The length of the number a text starts with, 0 when there is none. */
  function NumberLength(s: Str): (n: nat)
    ensures n <= |s|
  {
    if s != [] && s[0] == 0x2D then
      if UnsignedLength(s[1..]) == 0 then 0 else 1 + UnsignedLength(s[1..])
    else UnsignedLength(s)
  }

  predicate StartsWith(s: Str, word: string) {
    |word| <= |s| && s[..|word|] == Lit(word)
  }

  /** The words Python adds to the numbers, and the number a text starts with. */
  function Lexeme(s: Str): (n: nat)
    ensures n <= |s|
  {
    if StartsWith(s, "NaN") then 3
    else if StartsWith(s, "Infinity") then 8
    else if StartsWith(s, "-Infinity") then 9
    else NumberLength(s)
  }

  /** What may stand behind a printed value. */
  predicate Stops(rest: Str) {
    rest == [] || rest[0] == COMMA || rest[0] == CLOSE_BRACKET || rest[0] == CLOSE_BRACE
  }

  lemma {:induction false} DigitsStop(s: Str, rest: Str)
    requires Stops(rest)
    ensures Digits(s + rest) == Digits(s)
  {
    if s != [] {
      assert (s + rest)[1..] == s[1..] + rest;
      DigitsStop(s[1..], rest);
    }
  }

  lemma IntegerStops(s: Str, rest: Str)
    requires Stops(rest)
    ensures IntegerLength(s + rest) == IntegerLength(s)
  {
    DigitsStop(s, rest);
  }

  lemma FractionStops(s: Str, rest: Str)
    requires Stops(rest)
    ensures FractionLength(s + rest) == FractionLength(s)
  {
    if s != [] {
      assert (s + rest)[1..] == s[1..] + rest;
      DigitsStop(s[1..], rest);
    }
  }

  lemma ExponentStops(s: Str, rest: Str)
    requires Stops(rest)
    ensures ExponentLength(s + rest) == ExponentLength(s)
  {
    if s != [] {
      assert (s + rest)[1..] == s[1..] + rest;
      DigitsStop(s[1..], rest);
      if |s| > 1 {
        assert (s + rest)[2..] == s[2..] + rest;
        DigitsStop(s[2..], rest);
      }
    }
  }

  lemma TailStops(s: Str, rest: Str)
    requires Stops(rest)
    ensures TailLength(s + rest) == TailLength(s)
  {
    FractionStops(s, rest);
    var b := FractionLength(s);
    assert (s + rest)[b..] == s[b..] + rest;
    ExponentStops(s[b..], rest);
  }

  lemma UnsignedStops(s: Str, rest: Str)
    requires Stops(rest)
    ensures UnsignedLength(s + rest) == UnsignedLength(s)
  {
    IntegerStops(s, rest);
    var a := IntegerLength(s);
    assert (s + rest)[a..] == s[a..] + rest;
    TailStops(s[a..], rest);
  }

  lemma NumberStops(s: Str, rest: Str)
    requires Stops(rest)
    ensures NumberLength(s + rest) == NumberLength(s)
  {
    if s != [] && s[0] == 0x2D {
      assert (s + rest)[0] == 0x2D && (s + rest)[1..] == s[1..] + rest;
      UnsignedStops(s[1..], rest);
    } else {
      assert !(s + rest != [] && (s + rest)[0] == 0x2D);
      UnsignedStops(s, rest);
    }
  }

  /** A word cannot end inside the text behind a value, since that starts with punctuation. */
  lemma WordStops(s: Str, rest: Str, word: string)
    requires Stops(rest)
    requires forall i | 0 <= i < |word| :: !Stops([word[i] as int])
    ensures StartsWith(s + rest, word) == StartsWith(s, word)
  {
    if |word| <= |s| {
      assert (s + rest)[..|word|] == s[..|word|];
    } else if |word| <= |s + rest| {
      assert (s + rest)[..|word|][|s|] == rest[0] && Lit(word)[|s|] == word[|s|] as int;
    }
  }

  lemma WordHead(s: Str, word: string)
    requires word != ""
    ensures StartsWith(s, word) ==> s[0] == word[0] as int
  {
    if StartsWith(s, word) {
      assert s[0] == Lit(word)[0];
    }
  }

  lemma LexemeStops(s: Str, rest: Str)
    requires Stops(rest)
    ensures Lexeme(s + rest) == Lexeme(s)
  {
    WordStops(s, rest, "NaN");
    WordStops(s, rest, "Infinity");
    WordStops(s, rest, "-Infinity");
    NumberStops(s, rest);
  }

  // ---------- Values ----------

  /** Values with distinct keys whose numbers are spelled as numbers. */
  predicate Printable(v: Value) {
    match v
    case Number(x) => x != [] && Lexeme(x) == |x|
    case Arr(items) => forall x | x in items :: Printable(x)
    case Obj(ms) => Unique(ms) && forall m | m in ms :: Printable(m.value)
    case _ => true
  }

  function Print(v: Value): Str {
    match v
    case Null => Lit("null")
    case Bool(b) => if b then Lit("true") else Lit("false")
    case Number(x) => x
    case Chars(s) => [QUOTE] + PrintChars(s)
    case Arr(items) => [OPEN_BRACKET] + PrintItems(items)
    case Obj(ms) => [OPEN_BRACE] + PrintMembers(ms)
  }

  /** The items of an array with the bracket that closes it. */
  function PrintItems(items: seq<Value>): Str {
    if items == [] then [CLOSE_BRACKET]
    else Print(items[0]) + (if |items| == 1 then [CLOSE_BRACKET] else [COMMA] + PrintItems(items[1..]))
  }

  function PrintMembers(ms: seq<Entry>): Str {
    if ms == [] then [CLOSE_BRACE]
    else PrintMember(ms[0]) + (if |ms| == 1 then [CLOSE_BRACE] else [COMMA] + PrintMembers(ms[1..]))
  }

  function PrintMember(m: Entry): Str {
    [QUOTE] + PrintChars(m.name) + [COLON] + Print(m.value)
  }

  predicate Blank(c: CodePoint) {
    c == 0x20 || c == 0x09 || c == 0x0A || c == 0x0D
  }

  function Skip(s: Str): (r: Str)
    ensures |r| <= |s|
  {
    if s != [] && Blank(s[0]) then Skip(s[1..]) else s
  }

  /** A value that starts here, and the text behind it. */
  function ParseValue(s: Str): (r: Option<(Value, Str)>)
    ensures r.Some? ==> |r.value.1| < |s|
    decreases |s|, 0
  {
    if s == [] then None
    else if s[0] == QUOTE then
      match ScanChars(s[1..])
      case None => None
      case Some((cs, rest)) => Some((Chars(cs), rest))
    else if s[0] == OPEN_BRACE then
      var t := Skip(s[1..]);
      if t != [] && t[0] == CLOSE_BRACE then Some((Obj([]), t[1..])) else ParseMembers(t, [])
    else if s[0] == OPEN_BRACKET then
      var t := Skip(s[1..]);
      if t != [] && t[0] == CLOSE_BRACKET then Some((Arr([]), t[1..])) else ParseItems(t, [])
    else if StartsWith(s, "null") then Some((Null, s[4..]))
    else if StartsWith(s, "true") then Some((Bool(true), s[4..]))
    else if StartsWith(s, "false") then Some((Bool(false), s[5..]))
    else if Lexeme(s) > 0 then Some((Number(s[..Lexeme(s)]), s[Lexeme(s)..]))
    else None
  }

  /** The items of an array from here on, behind those already read. */
  function ParseItems(s: Str, done: seq<Value>): (r: Option<(Value, Str)>)
    ensures r.Some? ==> |r.value.1| < |s|
    decreases |s|, 1
  {
    match ParseValue(s)
    case None => None
    case Some((v, rest)) =>
      var t := Skip(rest);
      if t == [] then None
      else if t[0] == CLOSE_BRACKET then Some((Arr(done + [v]), t[1..]))
      else if t[0] == COMMA then ParseItems(Skip(t[1..]), done + [v])
      else None
  }

  function ParseMembers(s: Str, done: seq<Entry>): (r: Option<(Value, Str)>)
    ensures r.Some? ==> |r.value.1| < |s|
    decreases |s|, 1
  {
    match ParseMember(s)
    case None => None
    case Some((m, rest)) =>
      var t := Skip(rest);
      if t == [] then None
      else if t[0] == CLOSE_BRACE then Some((Obj(Put(done, m)), t[1..]))
      else if t[0] == COMMA then ParseMembers(Skip(t[1..]), Put(done, m))
      else None
  }

  function ParseMember(s: Str): (r: Option<(Entry, Str)>)
    ensures r.Some? ==> |r.value.1| < |s|
    decreases |s|, 0
  {
    if s == [] || s[0] != QUOTE then None
    else match ScanChars(s[1..])
      case None => None
      case Some((name, rest)) =>
        var t := Skip(rest);
        if t == [] || t[0] != COLON then None
        else match ParseValue(Skip(t[1..]))
          case None => None
          case Some((v, behind)) => Some((Entry(name, v), behind))
  }

  /** `json.loads`: one value, blanks around it and nothing else. */
  function Parse(s: Str): Option<Value> {
    match ParseValue(Skip(s))
    case None => None
    case Some((v, rest)) => if Skip(rest) == [] then Some(v) else None
  }

  // ---------- Parsing what was printed ----------

  lemma LexemeHead(s: Str)
    requires Lexeme(s) > 0
    ensures s[0] == 0x2D || Digit(s[0]) || s[0] == 0x4E || s[0] == 0x49
  {
    WordHead(s, "NaN");
    WordHead(s, "Infinity");
    WordHead(s, "-Infinity");
  }

  lemma WordParses(word: string, rest: Str)
    ensures StartsWith(Lit(word) + rest, word) && (Lit(word) + rest)[|word|..] == rest
    ensures word != "" ==> (Lit(word) + rest)[0] == word[0] as int
  {
    assert (Lit(word) + rest)[..|word|] == Lit(word);
  }

  lemma ConstantsParse(v: Value, rest: Str)
    requires v.Null? || v.Bool?
    ensures ParseValue(Print(v) + rest) == Some((v, rest))
  {
    WordParses("null", rest);
    WordParses("true", rest);
    WordParses("false", rest);
    var s := Print(v) + rest;
    WordHead(s, "null");
    WordHead(s, "true");
  }

  lemma NumberParses(x: Str, rest: Str)
    requires Printable(Number(x)) && Stops(rest)
    ensures ParseValue(x + rest) == Some((Number(x), rest))
  {
    var s := x + rest;
    LexemeStops(x, rest);
    LexemeHead(s);
    WordHead(s, "null");
    WordHead(s, "true");
    WordHead(s, "false");
    assert s[..|x|] == x && s[|x|..] == rest;
  }

  lemma CharsParse(cs: Str, rest: Str)
    ensures ParseValue([QUOTE] + PrintChars(cs) + rest) == Some((Chars(cs), rest))
  {
    var s := [QUOTE] + PrintChars(cs) + rest;
    assert s[1..] == PrintChars(cs) + rest;
    ScanPrinted(cs, rest);
  }

  /** The first character of a printed value is neither blank nor a closing bracket. */
  lemma PrintHead(v: Value)
    requires Printable(v)
    ensures Print(v) != [] && !Blank(Print(v)[0]) && !Stops(Print(v))
  {
    match v
    case Null => assert Print(v)[0] == 'n' as int;
    case Bool(b) => assert Print(v)[0] == (if b then 't' else 'f') as int;
    case Number(x) => LexemeHead(x);
    case _ =>
  }

  /** Whatever may follow a printed value, the parser finds the value and stops at its end. */
  lemma {:induction false} ParsePrinted(v: Value, rest: Str)
    requires Printable(v) && Stops(rest)
    ensures ParseValue(Print(v) + rest) == Some((v, rest))
    decreases v, 2, 0
  {
    var s := Print(v) + rest;
    match v
    case Null => ConstantsParse(v, rest);
    case Bool(_) => ConstantsParse(v, rest);
    case Number(x) => NumberParses(x, rest);
    case Chars(cs) =>
      assert s == [QUOTE] + PrintChars(cs) + rest;
      CharsParse(cs, rest);
    case Arr(_) => ParsePrintedArray(v, rest);
    case Obj(_) => ParsePrintedObject(v, rest);
  }

  lemma ParsePrintedArray(v: Value, rest: Str)
    requires v.Arr? && Printable(v) && Stops(rest)
    ensures ParseValue(Print(v) + rest) == Some((v, rest))
    decreases v, 1, 0
  {
    var items, t := v.items, PrintItems(v.items) + rest;
    assert Print(v) + rest == [OPEN_BRACKET] + t;
    if items == [] {
      OpenArray(t);
      assert t == [CLOSE_BRACKET] + rest;
    } else {
      assert items[0] in items;
      ItemsSplit(items, rest);
      OpenArray(t);
      assert items[0..] == items && items[..0] == [];
      ParsePrintedItems(v, 0, rest);
    }
  }

  lemma ParsePrintedObject(v: Value, rest: Str)
    requires v.Obj? && Printable(v) && Stops(rest)
    ensures ParseValue(Print(v) + rest) == Some((v, rest))
    decreases v, 1, 0
  {
    var ms, t := v.members, PrintMembers(v.members) + rest;
    assert Print(v) + rest == [OPEN_BRACE] + t;
    if ms == [] {
      OpenObject(t);
      assert t == [CLOSE_BRACE] + rest;
    } else {
      MembersSplit(ms, rest);
      OpenObject(t);
      assert ms[0..] == ms && ms[..0] == [];
      ParsePrintedMembers(v, 0, rest);
    }
  }

  lemma OpenArray(t: Str)
    requires t != [] && !Blank(t[0])
    ensures ParseValue([OPEN_BRACKET] + t) ==
            if t[0] == CLOSE_BRACKET then Some((Arr([]), t[1..])) else ParseItems(t, [])
  {
    assert ([OPEN_BRACKET] + t)[1..] == t;
  }

  lemma OpenObject(t: Str)
    requires t != [] && !Blank(t[0])
    ensures ParseValue([OPEN_BRACE] + t) == if t[0] == CLOSE_BRACE then Some((Obj([]), t[1..])) else ParseMembers(t, [])
  {
    assert ([OPEN_BRACE] + t)[1..] == t;
  }

  /** What stands behind the first item of a printed array. */
  function BehindItem(items: seq<Value>, rest: Str): Str
    requires items != []
  {
    if |items| == 1 then [CLOSE_BRACKET] + rest else [COMMA] + (PrintItems(items[1..]) + rest)
  }

  function BehindMember(ms: seq<Entry>, rest: Str): Str
    requires ms != []
  {
    if |ms| == 1 then [CLOSE_BRACE] + rest else [COMMA] + (PrintMembers(ms[1..]) + rest)
  }

  lemma ItemsSplit(items: seq<Value>, rest: Str)
    requires items != [] && Printable(items[0])
    ensures PrintItems(items) + rest == Print(items[0]) + BehindItem(items, rest)
    ensures !Blank((PrintItems(items) + rest)[0]) && (PrintItems(items) + rest)[0] != CLOSE_BRACKET
  {
    PrintHead(items[0]);
  }

  lemma MembersSplit(ms: seq<Entry>, rest: Str)
    requires ms != []
    ensures PrintMembers(ms) + rest == PrintMember(ms[0]) + BehindMember(ms, rest)
    ensures (PrintMembers(ms) + rest)[0] == QUOTE
  {
    assert PrintMember(ms[0])[0] == QUOTE;
  }

  /** An item with a comma behind it, and the last item. */
  lemma ItemStep(s: Str, done: seq<Value>, x: Value, t: Str)
    ensures ParseValue(s) == Some((x, [COMMA] + t)) && t != [] && !Blank(t[0])
        ==> ParseItems(s, done) == ParseItems(t, done + [x])
    ensures ParseValue(s) == Some((x, [CLOSE_BRACKET] + t)) ==> ParseItems(s, done) == Some((Arr(done + [x]), t))
  {
  }

  lemma {:induction false} ParsePrintedItems(v: Value, k: nat, rest: Str)
    requires v.Arr? && Printable(v) && k < |v.items| && Stops(rest)
    ensures ParseItems(PrintItems(v.items[k..]) + rest, v.items[..k]) == Some((v, rest))
    decreases v, 0, |v.items| - k
  {
    var items := v.items[k..];
    var s := PrintItems(items) + rest;
    var x := v.items[k];
    assert x in v.items && items[0] == x;
    ItemsSplit(items, rest);
    ParsePrinted(x, BehindItem(items, rest));
    assert v.items[..k] + [x] == v.items[..k + 1];
    if k + 1 == |v.items| {
      ItemStep(s, v.items[..k], x, rest);
      assert v.items[..k + 1] == v.items;
    } else {
      assert items[1..] == v.items[k + 1..] && v.items[k + 1] in v.items;
      ItemsSplit(items[1..], rest);
      ItemStep(s, v.items[..k], x, PrintItems(items[1..]) + rest);
      ParsePrintedItems(v, k + 1, rest);
    }
  }

  lemma ColonStep(s: Str, name: Str, t: Str)
    requires s != [] && s[0] == QUOTE && ScanChars(s[1..]) == Some((name, [COLON] + t))
    requires t != [] && !Blank(t[0])
    ensures ParseMember(s) == match ParseValue(t)
                              case None => None
                              case Some((v, behind)) => Some((Entry(name, v), behind))
  {
    assert ([COLON] + t)[1..] == t;
  }

  lemma ParsePrintedMember(v: Value, m: Entry, rest: Str)
    requires m.value < v && Printable(m.value) && Stops(rest)
    ensures ParseMember(PrintMember(m) + rest) == Some((m, rest))
    decreases v, 0, 0
  {
    var t := Print(m.value) + rest;
    MemberSplit(m, rest);
    ScanPrinted(m.name, [COLON] + t);
    PrintHead(m.value);
    assert t[0] == Print(m.value)[0];
    ColonStep(PrintMember(m) + rest, m.name, t);
    ParsePrinted(m.value, rest);
  }

  lemma MemberSplit(m: Entry, rest: Str)
    ensures var s := PrintMember(m) + rest;
            s[0] == QUOTE && s[1..] == PrintChars(m.name) + ([COLON] + (Print(m.value) + rest))
  {
  }

  lemma MemberStep(s: Str, done: seq<Entry>, m: Entry, t: Str)
    ensures ParseMember(s) == Some((m, [COMMA] + t)) && t != [] && !Blank(t[0])
        ==> ParseMembers(s, done) == ParseMembers(t, Put(done, m))
    ensures ParseMember(s) == Some((m, [CLOSE_BRACE] + t)) ==> ParseMembers(s, done) == Some((Obj(Put(done, m)), t))
  {
  }

  lemma PutNext(ms: seq<Entry>, k: nat)
    requires Unique(ms) && k < |ms|
    ensures Put(ms[..k], ms[k]) == ms[..k + 1]
  {
    PutNew(ms[..k], ms[k]);
    assert ms[..k] + [ms[k]] == ms[..k + 1];
  }

  lemma {:induction false} ParsePrintedMembers(v: Value, k: nat, rest: Str)
    requires v.Obj? && Printable(v) && k < |v.members| && Stops(rest)
    ensures ParseMembers(PrintMembers(v.members[k..]) + rest, v.members[..k]) == Some((v, rest))
    decreases v, 0, |v.members| - k
  {
    var ms := v.members[k..];
    var s := PrintMembers(ms) + rest;
    var m := v.members[k];
    assert m in v.members && ms[0] == m;
    MembersSplit(ms, rest);
    ParsePrintedMember(v, m, BehindMember(ms, rest));
    PutNext(v.members, k);
    if k + 1 == |v.members| {
      MemberStep(s, v.members[..k], m, rest);
      assert v.members[..k + 1] == v.members;
    } else {
      assert ms[1..] == v.members[k + 1..];
      MembersSplit(ms[1..], rest);
      MemberStep(s, v.members[..k], m, PrintMembers(ms[1..]) + rest);
      ParsePrintedMembers(v, k + 1, rest);
    }
  }

  /** Every value comes back from its own text. */
  lemma RoundTrip(v: Value)
    requires Printable(v)
    ensures Parse(Print(v)) == Some(v)
  {
    PrintHead(v);
    assert Print(v) + [] == Print(v);
    ParsePrinted(v, []);
  }
}
