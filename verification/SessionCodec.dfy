/** Session descriptors: canonical JSON, UTF-8 encoded, as unpadded base64url behind a prefix. */
module SessionCodec {
  import opened Options
  import opened Text
  import opened JsonText
  import Base64Url

  datatype Descriptor = Descriptor(
    provider: Str,
    providerSessionId: Str,
    identityFingerprint: Str,
    configurationFingerprint: Str,
    profile: Str,
    level: Str,
    contextPolicy: Str,
    securityPolicy: Str,
    nonce: Option<Str>)

  /** The last one is a `UnicodeEncodeError`, the others are messages of one exception class. */
  datatype Failure =
    | UnsupportedPrefix
    | EmptyToken
    | MalformedToken
    | UnsupportedSchema
    | InvalidFields
    | EmptyField
    | NotEncodable

  datatype Result<+T> = Ok(value: T) | Err(failure: Failure)

  const PREFIX: string := "prt1."
  const ONE: Str := Lit("1")

  /** The keys of the payload. */
  datatype Name =
    | ConfigurationFingerprint
    | ContextPolicy
    | DescriptorNonce
    | IdentityFingerprint
    | Level
    | Profile
    | Provider
    | ProviderSessionId
    | SecurityPolicy
    | Version

  function Spelling(n: Name): string {
    match n
    case ConfigurationFingerprint => "configuration_fingerprint"
    case ContextPolicy => "context_policy"
    case DescriptorNonce => "descriptor_nonce"
    case IdentityFingerprint => "identity_fingerprint"
    case Level => "level"
    case Profile => "profile"
    case Provider => "provider"
    case ProviderSessionId => "provider_session_id"
    case SecurityPolicy => "security_policy"
    case Version => "version"
  }

  function Key(n: Name): Str {
    Lit(Spelling(n))
  }

  /** All keys in the order of their spellings. */
  const ORDER: seq<Name> := [
    ConfigurationFingerprint, ContextPolicy, DescriptorNonce, IdentityFingerprint, Level, Profile, Provider,
    ProviderSessionId, SecurityPolicy, Version]

  const REQUIRED_KEYS: set<Str> := set n: Name | n != DescriptorNonce :: Key(n)

  /** A field's text; the nonce may be missing, and the version is no field. */
  function TextOf(d: Descriptor, n: Name): Option<Str> {
    match n
    case ConfigurationFingerprint => Some(d.configurationFingerprint)
    case ContextPolicy => Some(d.contextPolicy)
    case DescriptorNonce => d.nonce
    case IdentityFingerprint => Some(d.identityFingerprint)
    case Level => Some(d.level)
    case Profile => Some(d.profile)
    case Provider => Some(d.provider)
    case ProviderSessionId => Some(d.providerSessionId)
    case SecurityPolicy => Some(d.securityPolicy)
    case Version => None
  }

  function ValueOf(d: Descriptor, n: Name): Option<Value> {
    if n == Version then Some(Number(ONE))
    else match TextOf(d, n)
      case Some(s) => Some(Chars(s))
      case None => None
  }

  function EntriesOf(d: Descriptor, names: seq<Name>): seq<Entry> {
    if names == [] then []
    else match ValueOf(d, names[0])
      case Some(v) => [Entry(Key(names[0]), v)] + EntriesOf(d, names[1..])
      case None => EntriesOf(d, names[1..])
  }

  /** The payload's dict, its keys sorted. */
  function Entries(d: Descriptor): seq<Entry> {
    EntriesOf(d, ORDER)
  }

  predicate NoEmptyField(d: Descriptor) {
    forall n: Name :: TextOf(d, n) != Some([])
  }

  function Encode(d: Descriptor): Result<string> {
    if !NoEmptyField(d) then Err(EmptyField)
    else match Text.Encode(Print(Obj(Entries(d))))
      case None => Err(NotEncodable)
      case Some(payload) => Ok(PREFIX + Base64Url.RStrip(Base64Url.Encode(payload)))
  }

  function Keys(ms: seq<Entry>): set<Str> {
    set m | m in ms :: m.name
  }

  /** `True == 1` in Python; which spellings of a number are worth 1 is a parameter. */
  predicate IsVersionOne(isOne: Str -> bool, v: Option<Value>) {
    v == Some(Bool(true)) || (v.Some? && v.value.Number? && isOne(v.value.lexeme))
  }

  /** A field that has to be a non-empty string. */
  function Field(ms: seq<Entry>, name: Str): Option<Str> {
    match Get(ms, name)
    case Some(Chars(s)) => if s == [] then None else Some(s)
    case _ => None
  }

  /** The object's key set is fixed and free of secret-shaped names, so the source's check for those never fires. */
  function FromPayload(isOne: Str -> bool, v: Value): Result<Descriptor> {
    if !v.Obj? || !(Keys(v.members) == REQUIRED_KEYS || Keys(v.members) == REQUIRED_KEYS + {Key(DescriptorNonce)})
       || !IsVersionOne(isOne, Get(v.members, Key(Version)))
    then Err(UnsupportedSchema)
    else
      var ms := v.members;
      var nonce := Field(ms, Key(DescriptorNonce));
      match (Field(ms, Key(Provider)), Field(ms, Key(ProviderSessionId)), Field(ms, Key(IdentityFingerprint)),
             Field(ms, Key(ConfigurationFingerprint)), Field(ms, Key(Profile)), Field(ms, Key(Level)),
             Field(ms, Key(ContextPolicy)), Field(ms, Key(SecurityPolicy)))
      case (Some(a), Some(b), Some(c), Some(e), Some(f), Some(g), Some(h), Some(i)) =>
        if Get(ms, Key(DescriptorNonce)).Some? && nonce.None? then Err(InvalidFields)
        else Ok(Descriptor(a, b, c, e, f, g, h, i, nonce))
      case _ => Err(InvalidFields)
  }

  /** The value a token stands for. */
  function Payload(token: string): Option<Value> {
    match Base64Url.Decode(Base64Url.Pad(token))
    case None => None
    case Some(raw) =>
      match Text.Decode(raw)
      case None => None
      case Some(text) => Parse(text)
  }

  function Decode(isOne: Str -> bool, descriptor: string): Result<Descriptor> {
    if !(|PREFIX| <= |descriptor| && descriptor[..|PREFIX|] == PREFIX) then Err(UnsupportedPrefix)
    else if descriptor[|PREFIX|..] == "" then Err(EmptyToken)
    else match Payload(descriptor[|PREFIX|..])
      case None => Err(MalformedToken)
      case Some(v) => FromPayload(isOne, v)
  }

  // ---------- The dict ----------

  lemma KeyInjective(n: Name, m: Name)
    ensures Key(n) == Key(m) ==> n == m
  {
    assert Spelling(Profile)[0] == 'p' && Spelling(Version)[0] == 'v';
    if Key(n) == Key(m) {
      LitInjective(Spelling(n), Spelling(m));
    }
  }

  predicate Distinct(names: seq<Name>) {
    forall i, j | 0 <= i < j < |names| :: names[i] != names[j]
  }

  function Place(n: Name): nat {
    match n
    case ConfigurationFingerprint => 0
    case ContextPolicy => 1
    case DescriptorNonce => 2
    case IdentityFingerprint => 3
    case Level => 4
    case Profile => 5
    case Provider => 6
    case ProviderSessionId => 7
    case SecurityPolicy => 8
    case Version => 9
  }

  lemma OrderIsComplete()
    ensures Distinct(ORDER) && forall n: Name :: n in ORDER
  {
    assert forall i | 0 <= i < |ORDER| :: Place(ORDER[i]) == i;
    forall n: Name ensures n in ORDER {
      assert ORDER[Place(n)] == n;
    }
  }

  /** The members of the dict are the names' entries. */
  lemma {:induction false} EntriesAre(d: Descriptor, names: seq<Name>)
    ensures forall m :: m in EntriesOf(d, names) <==>
              exists n :: n in names && ValueOf(d, n).Some? && m == Entry(Key(n), ValueOf(d, n).value)
  {
    if names != [] {
      EntriesAre(d, names[1..]);
      assert forall n :: n in names <==> n == names[0] || n in names[1..];
    }
  }

  lemma {:induction false} GetEntry(d: Descriptor, names: seq<Name>, n: Name)
    requires Distinct(names)
    ensures Get(EntriesOf(d, names), Key(n)) == if n in names then ValueOf(d, n) else None
  {
    if names != [] {
      GetEntry(d, names[1..], n);
      KeyInjective(names[0], n);
      assert n in names <==> n == names[0] || n in names[1..];
    }
  }

  lemma {:induction false} KeysAreUnique(d: Descriptor, names: seq<Name>)
    requires Distinct(names)
    ensures Unique(EntriesOf(d, names))
  {
    if names != [] {
      var rest := EntriesOf(d, names[1..]);
      KeysAreUnique(d, names[1..]);
      EntriesAre(d, names[1..]);
      forall k | 0 <= k < |rest| ensures rest[k].name != Key(names[0]) {
        assert rest[k] in rest;
        var n :| n in names[1..] && rest[k].name == Key(n);
        KeyInjective(n, names[0]);
      }
    }
  }

  /** The entries of the dict, one for each name that has a value. */
  lemma DictEntries(d: Descriptor)
    ensures forall m ::
              m in Entries(d) <==> exists n: Name :: ValueOf(d, n).Some? && m == Entry(Key(n), ValueOf(d, n).value)
    ensures Unique(Entries(d))
  {
    OrderIsComplete();
    EntriesAre(d, ORDER);
    KeysAreUnique(d, ORDER);
  }

  lemma DictGet(d: Descriptor, n: Name)
    ensures Get(Entries(d), Key(n)) == ValueOf(d, n)
  {
    OrderIsComplete();
    GetEntry(d, ORDER, n);
  }

  lemma KeyOfEntry(d: Descriptor, key: Str)
    ensures key in Keys(Entries(d)) <==> exists n: Name :: ValueOf(d, n).Some? && key == Key(n)
  {
    DictEntries(d);
    if key in Keys(Entries(d)) {
      var m :| m in Entries(d) && m.name == key;
    }
    if n: Name :| ValueOf(d, n).Some? && key == Key(n) {
      assert Entry(Key(n), ValueOf(d, n).value) in Entries(d);
    }
  }

  lemma KeysOfEntries(d: Descriptor)
    ensures Keys(Entries(d)) == if d.nonce.Some? then REQUIRED_KEYS + {Key(DescriptorNonce)} else REQUIRED_KEYS
  {
    assert forall n: Name :: ValueOf(d, n).Some? <==> n != DescriptorNonce || d.nonce.Some?;
    forall key
      ensures key in Keys(Entries(d)) <==> key in REQUIRED_KEYS || (d.nonce.Some? && key == Key(DescriptorNonce))
    {
      KeyOfEntry(d, key);
    }
  }

  /** A field of the dict is found under its key. */
  lemma FieldAt(d: Descriptor, n: Name)
    requires NoEmptyField(d) && n != Version
    ensures Field(Entries(d), Key(n)) == TextOf(d, n)
  {
    DictGet(d, n);
    assert TextOf(d, n) != Some([]);
  }

  lemma PayloadRestored(isOne: Str -> bool, d: Descriptor)
    requires NoEmptyField(d) && isOne(ONE)
    ensures FromPayload(isOne, Obj(Entries(d))) == Ok(d)
  {
    KeysOfEntries(d);
    DictGet(d, Version);
    DictGet(d, DescriptorNonce);
    FieldAt(d, ConfigurationFingerprint);
    FieldAt(d, ContextPolicy);
    FieldAt(d, DescriptorNonce);
    FieldAt(d, IdentityFingerprint);
    FieldAt(d, Level);
    FieldAt(d, Profile);
    FieldAt(d, Provider);
    FieldAt(d, ProviderSessionId);
    FieldAt(d, SecurityPolicy);
  }

  // ---------- What can be encoded ----------

  /** A text that UTF-8 can hold. */
  predicate Clean(s: Str) {
    s == [] || (!Surrogate(s[0]) && Clean(s[1..]))
  }

  lemma {:induction false} CleanMeans(s: Str)
    ensures Clean(s) <==> forall c | c in s :: !Surrogate(c)
  {
    if s != [] {
      CleanMeans(s[1..]);
      assert forall c | c in s :: c == s[0] || c in s[1..];
    }
  }

  lemma {:induction false} CleanConcat(a: Str, b: Str)
    ensures Clean(a + b) <==> Clean(a) && Clean(b)
  {
    if a == [] {
      assert a + b == b;
    } else {
      assert (a + b)[1..] == a[1..] + b;
      CleanConcat(a[1..], b);
    }
  }

  lemma CleanLit(s: string)
    ensures Clean(Lit(s))
  {
    forall c | c in Lit(s) ensures !Surrogate(c) {
      var k :| 0 <= k < |s| && Lit(s)[k] == c;
      assert c == s[k] as int;
    }
    CleanMeans(Lit(s));
  }

  lemma {:induction false} CleanChars(s: Str)
    ensures Clean(PrintChars(s)) <==> Clean(s)
  {
    if s != [] {
      CleanConcat(Escape(s[0]), PrintChars(s[1..]));
      CleanChars(s[1..]);
      assert s == [s[0]] + s[1..];
      CleanConcat([s[0]], s[1..]);
      assert Clean(Escape(s[0])) <==> Clean([s[0]]) by {
        CleanMeans(Escape(s[0]));
        CleanMeans([s[0]]);
        assert s[0] in [s[0]];
      }
    }
  }

  lemma CleanMember(m: Entry)
    requires Clean(m.name)
    ensures Clean(PrintMember(m)) <==> Clean(Print(m.value))
  {
    CleanChars(m.name);
    var a, b, c := [QUOTE], PrintChars(m.name), [COLON];
    assert Clean(a) && Clean(c);
    CleanConcat(a + b + c, Print(m.value));
    CleanConcat(a + b, c);
    CleanConcat(a, b);
  }

  lemma {:induction false} CleanMembers(ms: seq<Entry>)
    ensures Clean(PrintMembers(ms)) <==> forall m | m in ms :: Clean(PrintMember(m))
  {
    assert Clean([CLOSE_BRACE]) && Clean([COMMA]);
    if ms != [] {
      var tail := if |ms| == 1 then [CLOSE_BRACE] else [COMMA] + PrintMembers(ms[1..]);
      assert PrintMembers(ms) == PrintMember(ms[0]) + tail;
      CleanConcat(PrintMember(ms[0]), tail);
      CleanConcat([COMMA], PrintMembers(ms[1..]));
      CleanMembers(ms[1..]);
      assert forall m :: m in ms <==> m == ms[0] || m in ms[1..];
    }
  }

  predicate CleanDescriptor(d: Descriptor) {
    forall n: Name | TextOf(d, n).Some? :: Clean(TextOf(d, n).value)
  }

  lemma CleanObject(ms: seq<Entry>)
    ensures Clean(Print(Obj(ms))) <==> forall m | m in ms :: Clean(PrintMember(m))
  {
    CleanMembers(ms);
    assert Clean([OPEN_BRACE]);
    CleanConcat([OPEN_BRACE], PrintMembers(ms));
  }

  lemma CleanEntry(d: Descriptor, n: Name)
    requires ValueOf(d, n).Some?
    ensures Clean(PrintMember(Entry(Key(n), ValueOf(d, n).value))) <==> (n == Version || Clean(TextOf(d, n).value))
  {
    CleanLit(Spelling(n));
    CleanMember(Entry(Key(n), ValueOf(d, n).value));
    if n == Version {
      CleanLit("1");
    } else {
      assert Clean([QUOTE]);
      CleanConcat([QUOTE], PrintChars(TextOf(d, n).value));
      CleanChars(TextOf(d, n).value);
    }
  }

  lemma CleanPayload(d: Descriptor)
    ensures Clean(Print(Obj(Entries(d)))) <==> CleanDescriptor(d)
  {
    var ms := Entries(d);
    CleanObject(ms);
    DictEntries(d);
    forall n: Name | ValueOf(d, n).Some?
      ensures Entry(Key(n), ValueOf(d, n).value) in ms
      ensures Clean(PrintMember(Entry(Key(n), ValueOf(d, n).value))) <==> (n == Version || Clean(TextOf(d, n).value))
    {
      CleanEntry(d, n);
    }
  }

  // ---------- The codec ----------

  /** `encode` answers exactly when no field is empty and none holds a surrogate. */
  lemma EncodesExactly(d: Descriptor)
    ensures Encode(d).Ok? <==> NoEmptyField(d) && CleanDescriptor(d)
  {
    CleanPayload(d);
    CleanMeans(Print(Obj(Entries(d))));
    EncodeFailsOnSurrogates(Print(Obj(Entries(d))));
  }

  /** Every descriptor comes back from its token. */
  lemma RoundTrip(isOne: Str -> bool, d: Descriptor)
    requires isOne(ONE) && Encode(d).Ok?
    ensures Decode(isOne, Encode(d).value) == Ok(d)
  {
    var v := Obj(Entries(d));
    var bytes := Text.Encode(Print(v)).value;
    var token := Base64Url.RStrip(Base64Url.Encode(bytes));
    Base64Url.PaddingIsRestored(bytes);
    Text.DecodeEncoded(Print(v));
    PrintableEntries(d);
    JsonText.RoundTrip(v);
    assert Payload(token) == Some(v);
    assert bytes != [] by {
      assert Text.Decode([]) == Some([]) && Print(v) != [];
    }
    assert Encode(d).value[|PREFIX|..] == token;
    PayloadRestored(isOne, d);
  }

  lemma PrintableEntries(d: Descriptor)
    ensures Printable(Obj(Entries(d)))
  {
    DictEntries(d);
    OneIsPrintable();
  }

  lemma OneIsPrintable()
    ensures Printable(Number(ONE))
  {
    assert ONE[0] == '1' as int;
    WordHead(ONE, "NaN");
    WordHead(ONE, "Infinity");
    WordHead(ONE, "-Infinity");
    assert ONE[0..] == ONE && ONE[1..] == [];
    assert Digits(ONE) == 1;
  }

  /** Distinct descriptors have distinct tokens. */
  lemma EncodeIsInjective(d: Descriptor, e: Descriptor)
    requires Encode(d).Ok? && Encode(d) == Encode(e)
    ensures d == e
  {
    var isOne: Str -> bool := s => s == ONE;
    RoundTrip(isOne, d);
    RoundTrip(isOne, e);
  }

  /** Text order by code points, as `sort_keys` has it. */
  predicate Precedes(a: Str, b: Str) {
    if a == [] || b == [] then a == [] && b != []
    else a[0] < b[0] || (a[0] == b[0] && Precedes(a[1..], b[1..]))
  }

  lemma {:induction false} PrecedesIsTransitive(a: Str, b: Str, c: Str)
    requires Precedes(a, b) && Precedes(b, c)
    ensures Precedes(a, c)
  {
    if a != [] && a[0] == b[0] == c[0] {
      PrecedesIsTransitive(a[1..], b[1..], c[1..]);
    }
  }

  lemma {:induction false} FirstDifference(a: Str, b: Str, k: nat)
    requires k <= |a| && k < |b| && a[..k] == b[..k] && (k < |a| ==> a[k] < b[k])
    ensures Precedes(a, b)
    decreases k
  {
    if k > 0 {
      assert a[..k][0] == b[..k][0];
      assert a[1..][..k - 1] == a[..k][1..] && b[1..][..k - 1] == b[..k][1..];
      FirstDifference(a[1..], b[1..], k - 1);
    }
  }

  lemma SpellingsDiffer(a: string, b: string, k: nat)
    requires k <= |a| && k < |b| && a[..k] == b[..k] && (k < |a| ==> a[k] < b[k])
    ensures Precedes(Lit(a), Lit(b))
  {
    assert Lit(a)[..k] == Lit(a[..k]) && Lit(b)[..k] == Lit(b[..k]);
    FirstDifference(Lit(a), Lit(b), k);
  }

  lemma Neighbours(i: nat)
    requires i < |ORDER| - 1
    ensures Precedes(Key(ORDER[i]), Key(ORDER[i + 1]))
  {
    var k := if i == 0 || i == 5 then 3 else if i == 6 then 8 else 0;
    assert "configuration_fingerprint"[..3] == "con" == "context_policy"[..3];
    assert "profile"[..3] == "pro" == "provider"[..3];
    assert "provider_session_id"[..8] == "provider" == "provider"[..8];
    SpellingsDiffer(Spelling(ORDER[i]), Spelling(ORDER[i + 1]), k);
  }

  lemma {:induction false} OrderAscends(i: nat, j: nat)
    requires i < j < |ORDER|
    ensures Precedes(Key(ORDER[i]), Key(ORDER[j]))
    decreases j
  {
    Neighbours(j - 1);
    if i < j - 1 {
      OrderAscends(i, j - 1);
      PrecedesIsTransitive(Key(ORDER[i]), Key(ORDER[j - 1]), Key(ORDER[j]));
    }
  }

  predicate Sorted(ms: seq<Entry>) {
    forall i, j | 0 <= i < j < |ms| :: Precedes(ms[i].name, ms[j].name)
  }

  predicate InKeyOrder(names: seq<Name>) {
    forall i, j | 0 <= i < j < |names| :: Precedes(Key(names[i]), Key(names[j]))
  }

  lemma {:induction false} EntriesFollow(d: Descriptor, names: seq<Name>, first: Str)
    requires forall i | 0 <= i < |names| :: Precedes(first, Key(names[i]))
    ensures forall i | 0 <= i < |EntriesOf(d, names)| :: Precedes(first, EntriesOf(d, names)[i].name)
  {
    if names != [] {
      EntriesFollow(d, names[1..], first);
    }
  }

  lemma {:induction false} EntriesAreSorted(d: Descriptor, names: seq<Name>)
    requires InKeyOrder(names)
    ensures Sorted(EntriesOf(d, names))
  {
    if names != [] {
      EntriesAreSorted(d, names[1..]);
      EntriesFollow(d, names[1..], Key(names[0]));
    }
  }

  /** The payload's keys come in strictly ascending order, with and without a nonce. */
  lemma KeysAreSorted(d: Descriptor)
    ensures Sorted(Entries(d))
  {
    forall i, j | 0 <= i < j < |ORDER| ensures Precedes(Key(ORDER[i]), Key(ORDER[j])) {
      OrderAscends(i, j);
    }
    EntriesAreSorted(d, ORDER);
  }

  lemma AcceptedFields(isOne: Str -> bool, v: Value)
    requires FromPayload(isOne, v).Ok?
    ensures NoEmptyField(FromPayload(isOne, v).value)
  {
  }

  /**
   * What `decode` accepts has no empty field, so encoding it again fails only on a surrogate, and the
   * token it then gets stands for the same descriptor, whatever the spelling of the first one.
   */
  lemma AcceptedCanBeEncoded(isOne: Str -> bool, s: string)
    requires isOne(ONE)
    ensures Decode(isOne, s).Ok? ==>
              var d := Decode(isOne, s).value;
              && NoEmptyField(d)
              && (Encode(d).Ok? <==> CleanDescriptor(d))
              && (Encode(d).Ok? ==> Decode(isOne, Encode(d).value) == Ok(d))
  {
    if Decode(isOne, s).Ok? {
      var d := Decode(isOne, s).value;
      AcceptedFields(isOne, Payload(s[|PREFIX|..]).value);
      EncodesExactly(d);
      if Encode(d).Ok? {
        RoundTrip(isOne, d);
      }
    }
  }
}
