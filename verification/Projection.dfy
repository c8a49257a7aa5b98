/**
 * What observers are shown of an event's payload and metadata. Case folding, the regular expression that
 * scrubs credentials out of text and the digest of a session descriptor are parameters.
 */
module Projection {
  import opened Options

  /**
   * A pydantic model comes with its dump, unless dumping it raises; `Opaque` is anything else. A class
   * name can be any text: that of a parametrised model spells out its arguments.
   */
  datatype Value =
    | Null
    | Bool(b: bool)
    | Int(n: int)
    | Float(x: real)
    | Str(s: string)
    | Items(items: seq<Value>)
    | Map(entries: seq<Entry>)
    | Model(name: string, dump: seq<Entry>)
    | Undumpable(name: string)
    | Opaque(name: string)

  datatype Entry = Entry(name: string, value: Value)

  datatype Mode = MetadataOnly | Redacted | Full

  datatype Oracle = Oracle(fold: string -> string, scrub: string -> string, digest: string -> string)

  // ---------- Keys ----------

  function Underscored(s: string): string {
    seq(|s|, i requires 0 <= i < |s| => if s[i] == '-' then '_' else s[i])
  }

  function Normal(p: Oracle, key: string): string {
    Underscored(p.fold(key))
  }

  /** `split("_")`; `part` is what was read of the current part. */
  function Parts(s: string, part: string): set<string> {
    if s == "" then {part}
    else if s[0] == '_' then {part} + Parts(s[1..], "")
    else Parts(s[1..], part + [s[0]])
  }

  const SECRET_WORDS: set<string> := {
    "api_key", "apikey", "authorization", "credential", "password", "private_key", "secret", "token"}

  const SECRET_PARTS: set<string> := {"token", "secret", "password", "credential", "authorization", "apikey"}

  predicate IsSecret(p: Oracle, key: string) {
    Normal(p, key) in SECRET_WORDS || Parts(Normal(p, key), "") * SECRET_PARTS != {}
  }

  const SENSITIVE: set<string> := {
    "text", "prompt", "response", "output", "schema", "tool_arguments", "tool_args", "tool_result", "raw",
    "provider_payload", "exception", "cause"}

  const ALWAYS_EXCLUDED: set<string> := {
    "provider_payload", "provider_headers", "headers", "descriptor", "session_descriptor", "raw", "exception",
    "cause", "thread_id", "provider_thread_id", "provider_thread"}

  predicate IsExcluded(p: Oracle, key: string) {
    Normal(p, key) in ALWAYS_EXCLUDED
  }

  predicate IsSensitive(p: Oracle, key: string) {
    Normal(p, key) in SENSITIVE
  }

  predicate EndsWith(s: string, tail: string) {
    |tail| <= |s| && s[|s| - |tail|..] == tail
  }

  predicate IsSession(p: Oracle, key: string) {
    Normal(p, key) == "session_id" || EndsWith(Normal(p, key), "_session_id")
  }

  const REDACTION: Value := Str("[REDACTED]")

  const MARKER: string := "proteo.session:"

  predicate IsCorrelated(s: string) {
    |MARKER| <= |s| && s[..|MARKER|] == MARKER
  }

  function Correlate(p: Oracle, descriptor: string): Value {
    if descriptor == "" then Null else Str(MARKER + p.digest(descriptor))
  }

  /** A string under a session key. */
  function SessionValue(p: Oracle, s: string): Value {
    if IsCorrelated(s) then Str(s) else Correlate(p, s)
  }

  function TypeMark(name: string): Value {
    Str("<" + name + ">")
  }

  // ---------- The projection of a payload ----------

  function Project(p: Oracle, mode: Mode, v: Value, hint: Option<string>): Value
    decreases v
  {
    if hint.Some? && IsSecret(p, hint.value) then REDACTION
    else if hint.Some? && IsSession(p, hint.value) && v.Str? then SessionValue(p, v.s)
    else
      match v
      case Undumpable(name) => TypeMark(name)
      case Model(_, es) => Map(ProjectEntries(p, mode, es))
      case Map(es) => Map(ProjectEntries(p, mode, es))
      case Items(xs) => Items(ProjectItems(p, mode, xs))
      case Str(s) => if mode.Redacted? then REDACTION else Str(p.scrub(s))
      case Null => Null
      case Bool(_) => if mode.Redacted? then TypeMark("bool") else v
      case Int(_) => if mode.Redacted? then TypeMark("int") else v
      case Float(_) => if mode.Redacted? then TypeMark("float") else v
      case Opaque(name) => TypeMark(name)
  }

  function ProjectItems(p: Oracle, mode: Mode, xs: seq<Value>): (r: seq<Value>)
    decreases xs
  {
    if xs == [] then [] else [Project(p, mode, xs[0], None)] + ProjectItems(p, mode, xs[1..])
  }

  function ProjectEntries(p: Oracle, mode: Mode, es: seq<Entry>): seq<Entry>
    decreases es
  {
    if es == [] then []
    else if IsExcluded(p, es[0].name) || (mode.MetadataOnly? && IsSensitive(p, es[0].name)) then
      ProjectEntries(p, mode, es[1..])
    else
      [Entry(es[0].name, Project(p, mode, es[0].value, Some(es[0].name)))] + ProjectEntries(p, mode, es[1..])
  }

  // ---------- The projection of metadata ----------

  function ProjectMetadata(p: Oracle, mode: Mode, es: seq<Entry>): seq<Entry> {
    match mode
    case Full => ProjectEntries(p, Full, es)
    case Redacted => RedactEntries(p, es)
    case MetadataOnly => OperationalEntries(p, es)
  }

  /** Sensitive, excluded and secret entries are left out altogether. */
  function OperationalEntries(p: Oracle, es: seq<Entry>): seq<Entry> {
    if es == [] then []
    else if IsSensitive(p, es[0].name) || IsExcluded(p, es[0].name) || IsSecret(p, es[0].name) then
      OperationalEntries(p, es[1..])
    else
      [Entry(es[0].name, Project(p, MetadataOnly, es[0].value, Some(es[0].name)))] + OperationalEntries(p, es[1..])
  }

  function RedactEntries(p: Oracle, es: seq<Entry>): seq<Entry>
    decreases es
  {
    if es == [] then []
    else if IsExcluded(p, es[0].name) then RedactEntries(p, es[1..])
    else [Entry(es[0].name, Redact(p, es[0].value, Some(es[0].name)))] + RedactEntries(p, es[1..])
  }

  function RedactItems(p: Oracle, xs: seq<Value>): seq<Value>
    decreases xs
  {
    if xs == [] then [] else [Redact(p, xs[0], None)] + RedactItems(p, xs[1..])
  }

  /** Operational values stay readable, sensitive ones are projected like a payload. */
  function Redact(p: Oracle, v: Value, hint: Option<string>): Value
    decreases v
  {
    if hint.Some? && IsSecret(p, hint.value) then REDACTION
    else if hint.Some? && IsSensitive(p, hint.value) then Project(p, Redacted, v, hint)
    else if hint.Some? && IsSession(p, hint.value) && v.Str? then SessionValue(p, v.s)
    else
      match v
      case Map(es) => Map(RedactEntries(p, es))
      case Items(xs) => Items(RedactItems(p, xs))
      case Str(s) => Str(p.scrub(s))
      case Model(name, _) => TypeMark(name)
      case Undumpable(name) => TypeMark(name)
      case Opaque(name) => TypeMark(name)
      case _ => v
  }

  // ---------- Nothing hidden leaks ----------

  /**
   * Two values that differ only under secret-shaped keys and in always-excluded entries. When `loose`, texts
   * and numbers may differ too, as long as their type is the same; texts under session keys may not.
   */
  predicate Alike(p: Oracle, loose: bool, v: Value, w: Value)
    decreases v
  {
    match (v, w)
    case (Items(xs), Items(ys)) => AlikeItems(p, loose, xs, ys)
    case (Map(es), Map(fs)) => AlikeEntries(p, loose, es, fs)
    case (Model(m, es), Model(n, fs)) => m == n && AlikeEntries(p, loose, es, fs)
    case (Str(_), Str(_)) => loose || v == w
    case (Bool(_), Bool(_)) => loose || v == w
    case (Int(_), Int(_)) => loose || v == w
    case (Float(_), Float(_)) => loose || v == w
    case _ => v == w
  }

  predicate AlikeItems(p: Oracle, loose: bool, xs: seq<Value>, ys: seq<Value>)
    decreases xs
  {
    if xs == [] || ys == [] then xs == ys
    else Alike(p, loose, xs[0], ys[0]) && AlikeItems(p, loose, xs[1..], ys[1..])
  }

  predicate AlikeEntries(p: Oracle, loose: bool, es: seq<Entry>, fs: seq<Entry>)
    decreases es, |fs|
  {
    if es != [] && IsExcluded(p, es[0].name) then AlikeEntries(p, loose, es[1..], fs)
    else if fs != [] && IsExcluded(p, fs[0].name) then AlikeEntries(p, loose, es, fs[1..])
    else if es == [] || fs == [] then es == fs
    else
      && es[0].name == fs[0].name
      && (IsSecret(p, es[0].name) ||
          (Alike(p, loose, es[0].value, fs[0].value) && AlikeSession(p, Some(es[0].name), es[0].value, fs[0].value)))
      && AlikeEntries(p, loose, es[1..], fs[1..])
  }

  predicate AlikeSession(p: Oracle, hint: Option<string>, v: Value, w: Value) {
    hint.Some? && IsSession(p, hint.value) && v.Str? ==> v == w
  }

  lemma {:induction false} ProjectHides(p: Oracle, mode: Mode, loose: bool, v: Value, w: Value, hint: Option<string>)
    requires Alike(p, loose, v, w) && (loose ==> mode.Redacted?) && AlikeSession(p, hint, v, w)
    ensures Project(p, mode, v, hint) == Project(p, mode, w, hint)
    decreases v
  {
    match (v, w)
    case (Items(xs), Items(ys)) => ProjectItemsHides(p, mode, loose, xs, ys);
    case (Map(es), Map(fs)) => ProjectEntriesHides(p, mode, loose, es, fs);
    case (Model(_, es), Model(_, fs)) => ProjectEntriesHides(p, mode, loose, es, fs);
    case _ =>
  }

  lemma {:induction false} ProjectItemsHides(p: Oracle, mode: Mode, loose: bool, xs: seq<Value>, ys: seq<Value>)
    requires AlikeItems(p, loose, xs, ys) && (loose ==> mode.Redacted?)
    ensures ProjectItems(p, mode, xs) == ProjectItems(p, mode, ys)
    decreases xs
  {
    if xs != [] && ys != [] {
      ProjectHides(p, mode, loose, xs[0], ys[0], None);
      ProjectItemsHides(p, mode, loose, xs[1..], ys[1..]);
    }
  }

  lemma {:induction false} ProjectEntriesHides(p: Oracle, mode: Mode, loose: bool, es: seq<Entry>, fs: seq<Entry>)
    requires AlikeEntries(p, loose, es, fs) && (loose ==> mode.Redacted?)
    ensures ProjectEntries(p, mode, es) == ProjectEntries(p, mode, fs)
    decreases es, |fs|
  {
    if es != [] && IsExcluded(p, es[0].name) {
      ProjectEntriesHides(p, mode, loose, es[1..], fs);
    } else if fs != [] && IsExcluded(p, fs[0].name) {
      ProjectEntriesHides(p, mode, loose, es, fs[1..]);
    } else if es != [] && fs != [] {
      if !IsSecret(p, es[0].name) {
        ProjectHides(p, mode, loose, es[0].value, fs[0].value, Some(es[0].name));
      }
      ProjectEntriesHides(p, mode, loose, es[1..], fs[1..]);
    }
  }

  /** A redacted payload shows its shape, its keys and its correlated sessions, but no text and no number. */
  lemma RedactionLeavesTheShape(p: Oracle, v: Value, w: Value)
    requires Alike(p, true, v, w)
    ensures Project(p, Redacted, v, None) == Project(p, Redacted, w, None)
  {
    ProjectHides(p, Redacted, true, v, w, None);
  }

  lemma {:induction false} RedactHides(p: Oracle, v: Value, w: Value, hint: Option<string>)
    requires Alike(p, false, v, w) && AlikeSession(p, hint, v, w)
    ensures Redact(p, v, hint) == Redact(p, w, hint)
    decreases v
  {
    ProjectHides(p, Redacted, false, v, w, hint);
    match (v, w)
    case (Items(xs), Items(ys)) => RedactItemsHides(p, xs, ys);
    case (Map(es), Map(fs)) => RedactEntriesHides(p, es, fs);
    case _ =>
  }

  lemma {:induction false} RedactItemsHides(p: Oracle, xs: seq<Value>, ys: seq<Value>)
    requires AlikeItems(p, false, xs, ys)
    ensures RedactItems(p, xs) == RedactItems(p, ys)
    decreases xs
  {
    if xs != [] && ys != [] {
      RedactHides(p, xs[0], ys[0], None);
      RedactItemsHides(p, xs[1..], ys[1..]);
    }
  }

  lemma {:induction false} RedactEntriesHides(p: Oracle, es: seq<Entry>, fs: seq<Entry>)
    requires AlikeEntries(p, false, es, fs)
    ensures RedactEntries(p, es) == RedactEntries(p, fs)
    decreases es, |fs|
  {
    if es != [] && IsExcluded(p, es[0].name) {
      RedactEntriesHides(p, es[1..], fs);
    } else if fs != [] && IsExcluded(p, fs[0].name) {
      RedactEntriesHides(p, es, fs[1..]);
    } else if es != [] && fs != [] {
      if !IsSecret(p, es[0].name) {
        RedactHides(p, es[0].value, fs[0].value, Some(es[0].name));
      }
      RedactEntriesHides(p, es[1..], fs[1..]);
    }
  }

  lemma {:induction false} OperationalHides(p: Oracle, es: seq<Entry>, fs: seq<Entry>)
    requires AlikeEntries(p, false, es, fs)
    ensures OperationalEntries(p, es) == OperationalEntries(p, fs)
    decreases es, |fs|
  {
    if es != [] && IsExcluded(p, es[0].name) {
      OperationalHides(p, es[1..], fs);
    } else if fs != [] && IsExcluded(p, fs[0].name) {
      OperationalHides(p, es, fs[1..]);
    } else if es != [] && fs != [] {
      if !IsSecret(p, es[0].name) {
        ProjectHides(p, MetadataOnly, false, es[0].value, fs[0].value, Some(es[0].name));
      }
      OperationalHides(p, es[1..], fs[1..]);
    }
  }

  /** In no mode can an observer tell two events apart by what is secret or excluded. */
  lemma NothingHiddenLeaks(p: Oracle, mode: Mode, payload: Value, payload': Value, meta: seq<Entry>, meta': seq<Entry>)
    requires Alike(p, false, payload, payload') && AlikeEntries(p, false, meta, meta')
    ensures Project(p, mode, payload, None) == Project(p, mode, payload', None)
    ensures ProjectMetadata(p, mode, meta) == ProjectMetadata(p, mode, meta')
  {
    ProjectHides(p, mode, false, payload, payload', None);
    ProjectEntriesHides(p, mode, false, meta, meta');
    RedactEntriesHides(p, meta, meta');
    OperationalHides(p, meta, meta');
  }

  // ---------- What metadata shows ----------

  /** No sensitive and no excluded key at any depth. */
  predicate Operational(p: Oracle, v: Value)
    decreases v
  {
    match v
    case Items(xs) => OperationalItems(p, xs)
    case Map(es) => AllOperational(p, es)
    case Model(_, _) => false
    case _ => true
  }

  predicate OperationalItems(p: Oracle, xs: seq<Value>)
    decreases xs
  {
    xs != [] ==> Operational(p, xs[0]) && OperationalItems(p, xs[1..])
  }

  predicate AllOperational(p: Oracle, es: seq<Entry>)
    decreases es
  {
    es != [] ==>
      && !IsSensitive(p, es[0].name) && !IsExcluded(p, es[0].name)
      && Operational(p, es[0].value) && AllOperational(p, es[1..])
  }

  lemma {:induction false} ProjectedIsOperational(p: Oracle, v: Value, hint: Option<string>)
    ensures Operational(p, Project(p, MetadataOnly, v, hint))
    decreases v
  {
    match v
    case Items(xs) => ItemsAreOperational(p, xs);
    case Map(es) => EntriesAreOperational(p, es);
    case Model(_, es) => EntriesAreOperational(p, es);
    case _ =>
  }

  lemma {:induction false} ItemsAreOperational(p: Oracle, xs: seq<Value>)
    ensures OperationalItems(p, ProjectItems(p, MetadataOnly, xs))
    decreases xs
  {
    if xs != [] {
      ProjectedIsOperational(p, xs[0], None);
      ItemsAreOperational(p, xs[1..]);
      assert ProjectItems(p, MetadataOnly, xs)[1..] == ProjectItems(p, MetadataOnly, xs[1..]);
    }
  }

  lemma {:induction false} EntriesAreOperational(p: Oracle, es: seq<Entry>)
    ensures AllOperational(p, ProjectEntries(p, MetadataOnly, es))
    decreases es
  {
    if es != [] {
      EntriesAreOperational(p, es[1..]);
      if !IsExcluded(p, es[0].name) && !IsSensitive(p, es[0].name) {
        ProjectedIsOperational(p, es[0].value, Some(es[0].name));
        assert ProjectEntries(p, MetadataOnly, es)[1..] == ProjectEntries(p, MetadataOnly, es[1..]);
      }
    }
  }

  /** Metadata in that mode has no sensitive key, no excluded key and, at the top, no secret-shaped key. */
  lemma {:induction false} MetadataIsOperational(p: Oracle, es: seq<Entry>)
    ensures AllOperational(p, ProjectMetadata(p, MetadataOnly, es))
    ensures forall e | e in ProjectMetadata(p, MetadataOnly, es) :: !IsSecret(p, e.name)
    decreases |es|
  {
    if es != [] {
      MetadataIsOperational(p, es[1..]);
      ProjectedIsOperational(p, es[0].value, Some(es[0].name));
      var out, rest := OperationalEntries(p, es), OperationalEntries(p, es[1..]);
      assert out == rest || (out[1..] == rest && out == [out[0]] + rest);
    }
  }

  // ---------- Projecting twice ----------

  /** What the regular expression does: a second pass changes nothing. */
  ghost predicate ScrubSettles(p: Oracle) {
    forall s :: p.scrub(p.scrub(s)) == p.scrub(s)
  }

  /** A type mark stays where it does not read as a descriptor, unless it looks like a credential. */
  predicate MarkStays(p: Oracle, name: string, hint: Option<string>) {
    (hint.None? || !IsSession(p, hint.value)) && p.scrub("<" + name + ">") == "<" + name + ">"
  }

  /** Every visible value that is turned into a type mark is one whose mark stays. */
  predicate Settled(p: Oracle, v: Value, hint: Option<string>)
    decreases v
  {
    (hint.Some? && IsSecret(p, hint.value))
    || match v
       case Undumpable(name) => MarkStays(p, name, hint)
       case Opaque(name) => MarkStays(p, name, hint)
       case Model(_, es) => SettledEntries(p, es)
       case Map(es) => SettledEntries(p, es)
       case Items(xs) => SettledItems(p, xs)
       case _ => true
  }

  predicate SettledItems(p: Oracle, xs: seq<Value>)
    decreases xs
  {
    xs != [] ==> Settled(p, xs[0], None) && SettledItems(p, xs[1..])
  }

  predicate SettledEntries(p: Oracle, es: seq<Entry>)
    decreases es
  {
    es != [] ==>
      && (IsExcluded(p, es[0].name) || Settled(p, es[0].value, Some(es[0].name)))
      && SettledEntries(p, es[1..])
  }

  lemma MarkIsNotCorrelated(p: Oracle, name: string)
    ensures SessionValue(p, "<" + name + ">") != TypeMark(name)
  {
    var s := "<" + name + ">";
    CorrelatedHead(s);
    assert s[0] == '<';
    assert (MARKER + p.digest(s))[0] == 'p';
  }

  lemma CorrelatedHead(s: string)
    ensures IsCorrelated(s) ==> s[0] == 'p'
  {
    if IsCorrelated(s) {
      assert s[..|MARKER|][0] == s[0];
    }
  }

  lemma CorrelatedStays(p: Oracle, s: string)
    ensures SessionValue(p, s).Str? ==> SessionValue(p, SessionValue(p, s).s) == SessionValue(p, s)
  {
    if s != "" && !IsCorrelated(s) {
      assert (MARKER + p.digest(s))[..|MARKER|] == MARKER;
    }
  }

  /** A mark is stable unless it is read as a descriptor or as a credential. */
  lemma MarkTwice(p: Oracle, name: string, hint: Option<string>)
    requires ScrubSettles(p) && !(hint.Some? && IsSecret(p, hint.value))
    ensures Project(p, Full, TypeMark(name), hint) == TypeMark(name) <==> MarkStays(p, name, hint)
  {
    MarkIsNotCorrelated(p, name);
  }

  lemma StringTwice(p: Oracle, s: string, hint: Option<string>)
    requires ScrubSettles(p) && !(hint.Some? && IsSecret(p, hint.value))
    ensures Project(p, Full, Project(p, Full, Str(s), hint), hint) == Project(p, Full, Str(s), hint)
  {
    CorrelatedStays(p, s);
  }

  /**
   * A second full projection changes nothing if and only if no visible opaque value, and no model that
   * cannot be dumped, sits under a session key or has a class name the scrubbing changes.
   */
  lemma {:induction false} FullTwice(p: Oracle, v: Value, hint: Option<string>)
    requires ScrubSettles(p)
    ensures Project(p, Full, Project(p, Full, v, hint), hint) == Project(p, Full, v, hint) <==> Settled(p, v, hint)
    decreases v
  {
    if !(hint.Some? && IsSecret(p, hint.value)) {
      match v
      case Str(s) => StringTwice(p, s, hint);
      case Opaque(name) => MarkTwice(p, name, hint);
      case Undumpable(name) => MarkTwice(p, name, hint);
      case Model(_, es) => FullTwiceEntries(p, es);
      case Map(es) => FullTwiceEntries(p, es);
      case Items(xs) => FullTwiceItems(p, xs);
      case _ =>
    }
  }

  lemma {:induction false} FullTwiceItems(p: Oracle, xs: seq<Value>)
    requires ScrubSettles(p)
    ensures ProjectItems(p, Full, ProjectItems(p, Full, xs)) == ProjectItems(p, Full, xs) <==> SettledItems(p, xs)
    decreases xs
  {
    if xs != [] {
      FullTwice(p, xs[0], None);
      FullTwiceItems(p, xs[1..]);
      var head, tail := Project(p, Full, xs[0], None), ProjectItems(p, Full, xs[1..]);
      assert ([head] + tail)[1..] == tail;
    }
  }

  lemma {:induction false} FullTwiceEntries(p: Oracle, es: seq<Entry>)
    requires ScrubSettles(p)
    ensures ProjectEntries(p, Full, ProjectEntries(p, Full, es)) == ProjectEntries(p, Full, es)
            <==> SettledEntries(p, es)
    decreases es
  {
    if es != [] {
      FullTwiceEntries(p, es[1..]);
      if !IsExcluded(p, es[0].name) {
        FullTwice(p, es[0].value, Some(es[0].name));
        var head := Entry(es[0].name, Project(p, Full, es[0].value, Some(es[0].name)));
        var tail := ProjectEntries(p, Full, es[1..]);
        assert ([head] + tail)[1..] == tail;
      }
    }
  }

  /** An object under a session key: its type mark is taken for a descriptor the second time. */
  lemma AnObjectUnderASessionKey(p: Oracle, key: string, name: string)
    requires ScrubSettles(p) && IsSession(p, key) && !IsSecret(p, key) && !IsExcluded(p, key)
    ensures var once := Project(p, Full, Map([Entry(key, Opaque(name))]), None);
            && once == Map([Entry(key, Str("<" + name + ">"))])
            && Project(p, Full, once, None) != once
  {
    var es := [Entry(key, Opaque(name))];
    assert es[1..] == [];
    FullTwice(p, Map(es), None);
    assert !Settled(p, es[0].value, Some(key));
    assert Project(p, Full, es[0].value, Some(key)) == TypeMark(name);
    assert ProjectEntries(p, Full, []) == [];
  }
}
