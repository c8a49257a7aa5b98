/**
 * The meaning of the schemas the normaliser handles, after JSON Schema Draft 2020-12 (Core sections
 * 10.2.1.1, 10.2.1.2, 10.3.1.2, 10.3.2.1 and 10.3.2.3, Validation sections 6.1.1, 6.1.2 and 6.5.3),
 * and the proof that normalisation only narrows it.
 */
module SchemaMeaning {
  import opened Options
  import opened Json
  import opened SchemaNormalizer

  /** How the validator judges an assertion on scalars that is not modelled here, `minimum` say. */
  type Host = (string, Json, Json) -> bool

  predicate HasType(name: string, v: Json) {
    match name
    case "null" => v.Null?
    case "boolean" => v.Bool?
    case "number" => v.Num?
    case "integer" => v.Num? && v.n.Floor as real == v.n
    case "string" => v.Str?
    case "array" => v.Arr?
    case "object" => v.Obj?
    case _ => false
  }

  predicate TypeHolds(t: Json, v: Json) {
    match t
    case Str(name) => HasType(name, v)
    case Arr(names) => exists x | x in names :: x.Str? && HasType(x.s, v)
    case _ => false
  }

  function Declared(ms: seq<Member>): seq<Member> {
    match Lookup(ms, "properties")
    case Some(Obj(props)) => props
    case _ => []
  }

  const ANNOTATIONS := {"default", "title", "description", "examples", "$schema", "$id", "$comment", "$defs",
                        "definitions", "deprecated", "readOnly", "writeOnly"}

  /** The value gives every declared property and no other; one named "default" does not count as declared. */
  predicate Explicit(ms: seq<Member>, values: seq<Member>) {
    && (forall w | w in values :: w.name != "default" && Has(Declared(ms), w.name))
    && (forall p | p in Declared(ms) && p.name != "default" :: Has(values, p.name))
  }

  /**
   * The standard's meaning of a schema and, when `strict` is set, its strict reading: every object node
   * is closed and takes all its declared properties as required.
   */
  predicate Valid(host: Host, strict: bool, s: Json, v: Json)
    decreases s, 0
  {
    match s
    case Bool(b) => b
    case Obj(ms) =>
      && (forall m | m in ms :: Keyword(host, strict, ms, m, v))
      && (strict && IsObjectNode(ms) && v.Obj? ==> Explicit(ms, v.members))
    case _ => false
  }

  predicate Keyword(host: Host, strict: bool, ms: seq<Member>, m: Member, v: Json)
    decreases m.value, 1
  {
    if m.name in ANNOTATIONS then true
    else if m.name == "properties" then
      v.Obj? && m.value.Obj? ==>
        forall p | p in m.value.members ::
          Has(v.members, p.name) ==> Valid(host, strict, p.value, Lookup(v.members, p.name).value)
    else if m.name == "required" then
      v.Obj? && m.value.Arr? ==> forall x | x in m.value.items :: x.Str? ==> Has(v.members, x.s)
    else if m.name == "additionalProperties" then
      v.Obj? ==> forall w | w in v.members :: !Has(Declared(ms), w.name) ==> Valid(host, strict, m.value, w.value)
    else if m.name == "items" then
      v.Arr? ==> forall x | x in v.items :: Valid(host, strict, m.value, x)
    else if m.name == "anyOf" then
      m.value.Arr? ==> exists s | s in m.value.items :: Valid(host, strict, s, v)
    else if m.name == "allOf" then
      m.value.Arr? ==> forall s | s in m.value.items :: Valid(host, strict, s, v)
    else if m.name == "type" then TypeHolds(m.value, v)
    else if m.name == "enum" then m.value.Arr? && v in m.value.items
    else host(m.name, m.value, v)
  }

  // ---------- The fragment ----------

  predicate Scalar(j: Json) {
    !j.Arr? && !j.Obj?
  }

  /** A value normalisation does not look into. */
  predicate Flat(j: Json) {
    Scalar(j) || (j.Arr? && forall x | x in j.items :: Scalar(x))
  }

  /** Keywords whose meaning is not positive, or depends on other keywords or other places. */
  const EXCLUDED := {"not", "oneOf", "if", "then", "else", "$ref", "$dynamicRef", "prefixItems", "contains",
                     "minContains", "maxContains", "patternProperties", "propertyNames", "dependentSchemas",
                     "dependentRequired", "unevaluatedProperties", "unevaluatedItems"}

  /** Any schema of these keywords, in which no node declares a property named "properties". */
  predicate InFragment(s: Json)
    decreases s, 0
  {
    match s
    case Bool(_) => true
    case Obj(ms) => Unique(ms) && forall m | m in ms :: KeywordInFragment(m)
    case _ => false
  }

  predicate KeywordInFragment(m: Member)
    decreases m.value, 1
  {
    if m.name in ANNOTATIONS then true
    else if m.name in EXCLUDED then false
    else if m.name == "properties" then
      && m.value.Obj? && Unique(m.value.members)
      && forall p | p in m.value.members :: p.name != "properties" && InFragment(p.value)
    else if m.name == "additionalProperties" || m.name == "items" then InFragment(m.value)
    else if m.name == "anyOf" || m.name == "allOf" then m.value.Arr? && forall s | s in m.value.items :: InFragment(s)
    else if m.name == "required" then m.value.Arr? && forall x | x in m.value.items :: x.Str?
    else Flat(m.value)
  }

  lemma FlatIsFixed(j: Json)
    requires Flat(j)
    ensures Visit(j) == j
  {
    if j.Arr? {
      assert VisitItems(j.items) == j.items;
    }
  }

  /** The declared properties are visited one by one: their map is no object node itself. */
  lemma PropertiesAreVisited(m: Member)
    requires m.name == "properties" && KeywordInFragment(m)
    ensures Visit(m.value) == Obj(VisitMembers(m.value.members))
  {
    var props := m.value.members;
    VisitedLookup(props, "type");
    VisitedLookup(props, "properties");
    if Has(props, "properties") {
      LookupFinds(props, "properties");
    }
    if Has(props, "type") {
      LookupFinds(props, "type");
    }
  }

  // ---------- Normalisation is the strict reading ----------

  /** The keywords of a valid node hold under the name they are looked up by. */
  lemma KeywordOf(host: Host, ms: seq<Member>, n: string, v: Json)
    requires Valid(host, false, Obj(ms), v) && Has(ms, n)
    ensures Keyword(host, false, ms, Member(n, Lookup(ms, n).value), v)
  {
    LookupFinds(ms, n);
  }

  lemma SameNode(ms: seq<Member>)
    ensures IsObjectNode(VisitMembers(ms)) <==> IsObjectNode(ms)
    ensures TypedObject(VisitMembers(ms)) <==> TypedObject(ms)
  {
    VisitedLookup(ms, "type");
    VisitedLookup(ms, "properties");
  }

  /** What the normalised node holds under the name of an original keyword. */
  lemma OutLookup(ms: seq<Member>, m: Member)
    requires Unique(ms) && m in ms && m.name != "default"
    ensures var visited := VisitMembers(ms);
            Lookup(CloseNode(visited), m.name) ==
            if !IsObjectNode(ms) then Some(Visit(m.value))
            else if m.name == "additionalProperties" then Some(Bool(false))
            else if m.name == "required" && NewRequired(visited).Some? then NewRequired(visited)
            else Some(Visit(m.value))
  {
    SameNode(ms);
    LookupIs(ms, m);
    VisitedLookup(ms, m.name);
    CloseNodeLookup(VisitMembers(ms), m.name);
  }

  /** The properties a normalised node declares are the original ones, those named "default" left out. */
  lemma OutDeclares(ms: seq<Member>, n: string)
    requires InFragment(Obj(ms))
    ensures Declared(CloseNode(VisitMembers(ms))) == VisitMembers(Declared(ms))
    ensures Declared(VisitMembers(ms)) == VisitMembers(Declared(ms))
    ensures Has(VisitMembers(Declared(ms)), n) <==> n != "default" && Has(Declared(ms), n)
  {
    CloseNodeLookup(VisitMembers(ms), "properties");
    VisitedLookup(ms, "properties");
    if Has(ms, "properties") {
      LookupFinds(ms, "properties");
      var m := Member("properties", Lookup(ms, "properties").value);
      assert KeywordInFragment(m);
      PropertiesAreVisited(m);
    }
    VisitedLookup(Declared(ms), n);
  }

  lemma NamesHave(ms: seq<Member>, n: string)
    ensures n in Names(ms) <==> Has(ms, n)
  {
    if n in Names(ms) {
      var i :| 0 <= i < |ms| && Names(ms)[i] == n;
      LookupMisses(ms, ms[i]);
    }
    if Has(ms, n) {
      LookupFinds(ms, n);
      var i :| 0 <= i < |ms| && ms[i] == Member(n, Lookup(ms, n).value);
      assert Names(ms)[i] == n;
    }
  }

  // From the normalised schema to the strict reading.

  lemma NormalisedIsClosed(host: Host, ms: seq<Member>, v: Json, w: Member)
    requires InFragment(Obj(ms)) && IsObjectNode(ms) && v.Obj? && Valid(host, false, Visit(Obj(ms)), v)
    requires w in v.members
    ensures w.name != "default" && Has(Declared(ms), w.name)
  {
    SameNode(ms);
    CloseNodeLookup(VisitMembers(ms), "additionalProperties");
    KeywordOf(host, CloseNode(VisitMembers(ms)), "additionalProperties", v);
    OutDeclares(ms, w.name);
  }

  /** A closed node lists every declared name. */
  lemma NamesAreRequired(ms: seq<Member>, n: string)
    requires IsObjectNode(ms) && n in Names(Declared(ms))
    ensures RequiresName(CloseNode(ms), n)
  {
    NewRequiredCompletes(ms);
    CloseNodeLookup(ms, "required");
  }

  predicate RequiresName(ms: seq<Member>, n: string) {
    var required := Lookup(ms, "required");
    required.Some? && required.value.Arr? && Str(n) in required.value.items
  }

  lemma RequiredNameIsGiven(host: Host, ms: seq<Member>, n: string, v: Json)
    requires Valid(host, false, Obj(ms), v) && v.Obj? && RequiresName(ms, n)
    ensures Has(v.members, n)
  {
    KeywordOf(host, ms, "required", v);
  }

  lemma NormalisedRequiresAll(host: Host, ms: seq<Member>, v: Json, p: Member)
    requires InFragment(Obj(ms)) && IsObjectNode(ms) && v.Obj? && Valid(host, false, Visit(Obj(ms)), v)
    requires p in Declared(ms) && p.name != "default"
    ensures Has(v.members, p.name)
  {
    var visited := VisitMembers(ms);
    SameNode(ms);
    LookupMisses(Declared(ms), p);
    OutDeclares(ms, p.name);
    NamesHave(Declared(visited), p.name);
    NamesAreRequired(visited, p.name);
    RequiredNameIsGiven(host, CloseNode(visited), p.name, v);
  }

  lemma {:induction false} NormalisedIsStrict(host: Host, s: Json, v: Json)
    requires InFragment(s) && Valid(host, false, Visit(s), v)
    ensures Valid(host, true, s, v)
    decreases s, 0
  {
    if s.Obj? {
      var ms := s.members;
      if IsObjectNode(ms) && v.Obj? {
        forall w | w in v.members ensures w.name != "default" && Has(Declared(ms), w.name) {
          NormalisedIsClosed(host, ms, v, w);
        }
        forall p | p in Declared(ms) && p.name != "default" ensures Has(v.members, p.name) {
          NormalisedRequiresAll(host, ms, v, p);
        }
      }
      forall m | m in ms ensures Keyword(host, true, ms, m, v) {
        assert KeywordInFragment(m);
        if m.name !in ANNOTATIONS {
          OutLookup(ms, m);
          KeywordOf(host, CloseNode(VisitMembers(ms)), m.name, v);
          KeywordToStrict(host, ms, m, v);
        }
      }
    }
  }

  lemma {:induction false} KeywordToStrict(host: Host, ms: seq<Member>, m: Member, v: Json)
    requires InFragment(Obj(ms)) && m in ms && KeywordInFragment(m) && m.name !in ANNOTATIONS
    requires IsObjectNode(ms) && v.Obj? ==> Explicit(ms, v.members)
    requires var out := CloseNode(VisitMembers(ms));
             Has(out, m.name) && Keyword(host, false, out, Member(m.name, Lookup(out, m.name).value), v)
    ensures Keyword(host, true, ms, m, v)
    decreases m.value, 1
  {
    var visited := VisitMembers(ms);
    OutLookup(ms, m);
    LookupIs(ms, m);
    if m.name == "properties" {
      PropertiesAreVisited(m);
      if v.Obj? {
        forall p | p in m.value.members && Has(v.members, p.name)
          ensures Valid(host, true, p.value, Lookup(v.members, p.name).value)
        {
          LookupFinds(v.members, p.name);
          LookupIs(m.value.members, p);
          VisitedLookup(m.value.members, p.name);
          LookupFinds(VisitMembers(m.value.members), p.name);
          NormalisedIsStrict(host, p.value, Lookup(v.members, p.name).value);
        }
      }
    } else if m.name == "required" {
      FlatIsFixed(m.value);
      VisitedLookup(ms, "required");
      SameNode(ms);
      if IsObjectNode(ms) && NewRequired(visited).Some? {
        NewRequiredCompletes(visited);
      }
    } else if m.name == "additionalProperties" {
      if v.Obj? && !IsObjectNode(ms) {
        forall w | w in v.members && !Has(Declared(ms), w.name) ensures Valid(host, true, m.value, w.value) {
          OutDeclares(ms, w.name);
          NormalisedIsStrict(host, m.value, w.value);
        }
      }
    } else if m.name == "items" {
      if v.Arr? {
        forall x | x in v.items ensures Valid(host, true, m.value, x) {
          NormalisedIsStrict(host, m.value, x);
        }
      }
    } else if m.name == "anyOf" {
      var t :| t in VisitItems(m.value.items) && Valid(host, false, t, v);
      var i :| 0 <= i < |m.value.items| && VisitItems(m.value.items)[i] == t;
      assert m.value.items[i] in m.value.items;
      NormalisedIsStrict(host, m.value.items[i], v);
    } else if m.name == "allOf" {
      forall t | t in m.value.items ensures Valid(host, true, t, v) {
        var i :| 0 <= i < |m.value.items| && m.value.items[i] == t;
        assert VisitItems(m.value.items)[i] in VisitItems(m.value.items);
        NormalisedIsStrict(host, t, v);
      }
    } else {
      FlatIsFixed(m.value);
    }
  }

  // From the strict reading to the normalised schema.

  lemma {:induction false} StrictIsNormalised(host: Host, s: Json, v: Json)
    requires InFragment(s) && Valid(host, true, s, v)
    ensures Valid(host, false, Visit(s), v)
    decreases s, 0
  {
    if s.Obj? {
      var ms := s.members;
      var visited := VisitMembers(ms);
      SameNode(ms);
      forall m | m in CloseNode(visited) ensures Keyword(host, false, CloseNode(visited), m, v) {
        CloseNodeMembers(visited, m);
        if m in visited {
          var o := VisitedOrigin(ms, m);
          assert KeywordInFragment(o);
          KeywordFromStrict(host, ms, o, v);
        } else {
          ClosingKeyword(host, ms, m, v);
        }
      }
    }
  }

  /** The two keywords a node is closed with hold of an explicit value. */
  lemma ClosingKeyword(host: Host, ms: seq<Member>, m: Member, v: Json)
    requires InFragment(Obj(ms)) && Valid(host, true, Obj(ms), v) && IsObjectNode(ms)
    requires var visited := VisitMembers(ms);
             || m == Member("additionalProperties", Bool(false))
             || (NewRequired(visited).Some? && m == Member("required", NewRequired(visited).value))
    ensures Keyword(host, false, CloseNode(VisitMembers(ms)), m, v)
  {
    if v.Obj? {
      if m.name == "additionalProperties" {
        forall w | w in v.members ensures Has(Declared(CloseNode(VisitMembers(ms))), w.name) {
          OutDeclares(ms, w.name);
        }
      } else {
        forall x | x in m.value.items && x.Str? ensures Has(v.members, x.s) {
          RequiredIsGiven(host, ms, x, v);
        }
      }
    }
  }

  /** A list of required names is not looked into. */
  lemma RequiredIsVisited(ms: seq<Member>)
    requires InFragment(Obj(ms))
    ensures Lookup(VisitMembers(ms), "required") == Lookup(ms, "required")
    ensures Has(ms, "required") ==> Lookup(ms, "required").value.Arr?
  {
    VisitedLookup(ms, "required");
    if Has(ms, "required") {
      LookupFinds(ms, "required");
      assert KeywordInFragment(Member("required", Lookup(ms, "required").value));
      FlatIsFixed(Lookup(ms, "required").value);
    }
  }

  lemma RequiredIsGiven(host: Host, ms: seq<Member>, x: Json, v: Json)
    requires InFragment(Obj(ms)) && Valid(host, true, Obj(ms), v) && IsObjectNode(ms) && v.Obj? && x.Str?
    requires var required := NewRequired(VisitMembers(ms));
             required.Some? && required.value.Arr? && x in required.value.items
    ensures Has(v.members, x.s)
  {
    RequiredIsVisited(ms);
    if Has(ms, "required") && x in Lookup(ms, "required").value.items {
      ListedIsGiven(host, ms, x, v);
    } else {
      NewEntryIsDeclared(VisitMembers(ms), x);
      DeclaredIsGiven(host, ms, x.s, v);
    }
  }

  lemma ListedIsGiven(host: Host, ms: seq<Member>, x: Json, v: Json)
    requires Valid(host, true, Obj(ms), v) && v.Obj? && x.Str?
    requires Has(ms, "required") && Lookup(ms, "required").value.Arr? && x in Lookup(ms, "required").value.items
    ensures Has(v.members, x.s)
  {
    LookupFinds(ms, "required");
    assert Keyword(host, true, ms, Member("required", Lookup(ms, "required").value), v);
  }

  lemma DeclaredIsGiven(host: Host, ms: seq<Member>, n: string, v: Json)
    requires InFragment(Obj(ms)) && Valid(host, true, Obj(ms), v) && IsObjectNode(ms) && v.Obj?
    requires n in Names(Declared(VisitMembers(ms)))
    ensures Has(v.members, n)
  {
    OutDeclares(ms, n);
    NamesHave(Declared(VisitMembers(ms)), n);
    LookupFinds(Declared(ms), n);
  }

  lemma NewEntryIsDeclared(ms: seq<Member>, x: Json)
    requires NewRequired(ms).Some? && NewRequired(ms).value.Arr? && x in NewRequired(ms).value.items
    requires Has(ms, "required") ==> Lookup(ms, "required").value.Arr? && x !in Lookup(ms, "required").value.items
    ensures x.Str? && x.s in Names(Declared(ms))
  {
    if Has(ms, "required") {
      MissingCompletes(Names(Declared(ms)), Lookup(ms, "required").value.items);
    }
  }

  lemma {:induction false} KeywordFromStrict(host: Host, ms: seq<Member>, o: Member, v: Json)
    requires InFragment(Obj(ms)) && o in ms && KeywordInFragment(o)
    requires IsObjectNode(ms) && v.Obj? ==> Explicit(ms, v.members)
    requires Keyword(host, true, ms, o, v)
    ensures Keyword(host, false, CloseNode(VisitMembers(ms)), Member(o.name, Visit(o.value)), v)
    decreases o.value, 1
  {
    var out := CloseNode(VisitMembers(ms));
    if o.name in ANNOTATIONS {
    } else if o.name == "properties" {
      PropertiesAreVisited(o);
      if v.Obj? {
        var props := o.value.members;
        forall q | q in VisitMembers(props) && Has(v.members, q.name)
          ensures Valid(host, false, q.value, Lookup(v.members, q.name).value)
        {
          var p := VisitedOrigin(props, q);
          StrictIsNormalised(host, p.value, Lookup(v.members, q.name).value);
        }
      }
    } else if o.name == "required" {
      FlatIsFixed(o.value);
    } else if o.name == "additionalProperties" {
      if v.Obj? {
        forall w | w in v.members && !Has(Declared(out), w.name) ensures Valid(host, false, Visit(o.value), w.value) {
          OutDeclares(ms, w.name);
          assert Has(Declared(ms), w.name) ==> IsObjectNode(ms) && w.name != "default";
          StrictIsNormalised(host, o.value, w.value);
        }
      }
    } else if o.name == "items" {
      if v.Arr? {
        forall x | x in v.items ensures Valid(host, false, Visit(o.value), x) {
          StrictIsNormalised(host, o.value, x);
        }
      }
    } else if o.name == "anyOf" {
      var t :| t in o.value.items && Valid(host, true, t, v);
      var i :| 0 <= i < |o.value.items| && o.value.items[i] == t;
      StrictIsNormalised(host, t, v);
      assert VisitItems(o.value.items)[i] in VisitItems(o.value.items);
    } else if o.name == "allOf" {
      forall t | t in VisitItems(o.value.items) ensures Valid(host, false, t, v) {
        var i :| 0 <= i < |o.value.items| && VisitItems(o.value.items)[i] == t;
        assert o.value.items[i] in o.value.items;
        StrictIsNormalised(host, o.value.items[i], v);
      }
    } else {
      FlatIsFixed(o.value);
    }
  }

  // The strict reading is narrower than the standard's.

  lemma {:induction false} StrictNarrows(host: Host, s: Json, v: Json)
    requires Valid(host, true, s, v)
    ensures Valid(host, false, s, v)
    decreases s, 0
  {
    if s.Obj? {
      forall m | m in s.members ensures Keyword(host, false, s.members, m, v) {
        KeywordNarrows(host, s.members, m, v);
      }
    }
  }

  lemma {:induction false} KeywordNarrows(host: Host, ms: seq<Member>, m: Member, v: Json)
    requires Keyword(host, true, ms, m, v)
    ensures Keyword(host, false, ms, m, v)
    decreases m.value, 1
  {
    if m.value.Obj? {
      forall p, x | p in m.value.members && Valid(host, true, p.value, x) ensures Valid(host, false, p.value, x) {
        StrictNarrows(host, p.value, x);
      }
    }
    if m.value.Arr? {
      forall s | s in m.value.items && Valid(host, true, s, v) ensures Valid(host, false, s, v) {
        StrictNarrows(host, s, v);
      }
    }
    forall x | Valid(host, true, m.value, x) ensures Valid(host, false, m.value, x) {
      StrictNarrows(host, m.value, x);
    }
  }

  /**
   * A value is valid under the normalised schema exactly when it is valid under the strict reading of
   * the original, and every such value is valid under the original as it stands.
   */
  lemma NormalisedMeaning(host: Host, s: Json, v: Json)
    requires InFragment(s)
    ensures Valid(host, false, Visit(s), v) <==> Valid(host, true, s, v)
    ensures Valid(host, false, Visit(s), v) ==> Valid(host, false, s, v)
  {
    if Valid(host, false, Visit(s), v) {
      NormalisedIsStrict(host, s, v);
    }
    if Valid(host, true, s, v) {
      StrictIsNormalised(host, s, v);
      StrictNarrows(host, s, v);
    }
  }

  // ---------- A property named "properties" ----------

  /** Such a map is taken for an object node and closed, with an entry the outer node then requires. */
  lemma TheMapIsClosed(ms: seq<Member>, props: seq<Member>)
    requires Unique(ms) && Member("properties", Obj(props)) in ms && Has(props, "properties")
    ensures var out, inner := CloseNode(VisitMembers(ms)), CloseNode(VisitMembers(props));
            && Lookup(out, "properties") == Some(Obj(inner)) && RequiresName(out, "additionalProperties")
            && Member("additionalProperties", Bool(false)) in inner
  {
    var visited, name := VisitMembers(ms), "additionalProperties";
    var inner := CloseNode(VisitMembers(props));
    LookupIs(ms, Member("properties", Obj(props)));
    VisitedLookup(ms, "properties");
    VisitedLookup(props, "properties");
    CloseNodeLookup(VisitMembers(props), name);
    LookupFinds(inner, name);
    NamesHave(inner, name);
    NamesAreRequired(visited, name);
    CloseNodeLookup(visited, "properties");
  }

  lemma RequiredButRefused(host: Host, ms: seq<Member>, props: seq<Member>, n: string, v: Json)
    requires v.Obj? && RequiresName(ms, n) && Lookup(ms, "properties") == Some(Obj(props))
    requires Member(n, Bool(false)) in props
    ensures !Valid(host, false, Obj(ms), v)
  {
    if Valid(host, false, Obj(ms), v) {
      RequiredNameIsGiven(host, ms, n, v);
      KeywordOf(host, ms, "properties", v);
      assert false;
    }
  }

  /**
   * A node that declares a property named "properties" accepts no object once it is normalised: the entry
   * its map of properties is closed with is a required property, and `false`.
   */
  lemma PropertiesShutOutObjects(host: Host, ms: seq<Member>, props: seq<Member>, v: Json)
    requires Unique(ms) && Member("properties", Obj(props)) in ms && Has(props, "properties") && v.Obj?
    ensures !Valid(host, false, Visit(Obj(ms)), v)
  {
    TheMapIsClosed(ms, props);
    RequiredButRefused(host, CloseNode(VisitMembers(ms)), CloseNode(VisitMembers(props)), "additionalProperties", v);
  }

  /** A schema that declares just that property, and a value it accepts under both readings. */
  lemma APropertyNamedProperties(host: Host)
    ensures var ms := [Member("properties", Obj([Member("properties", Bool(true))]))];
            var v := Obj([Member("properties", Null)]);
            && Valid(host, false, Obj(ms), v) && Valid(host, true, Obj(ms), v)
            && !Valid(host, false, Visit(Obj(ms)), v)
  {
    var props, values := [Member("properties", Bool(true))], [Member("properties", Null)];
    var m := Member("properties", Obj(props));
    var ms, v := [m], Obj(values);
    assert Lookup(ms, "properties") == Some(Obj(props));
    assert Declared(ms) == props;
    assert values[0] in values && props[0] in props && m in ms;
    assert Has(props, "properties") && Has(values, "properties");
    assert Explicit(ms, values);
    assert forall strict :: Keyword(host, strict, ms, m, v);
    PropertiesShutOutObjects(host, ms, props, v);
    StrictNarrows(host, Obj(ms), v);
  }
}
