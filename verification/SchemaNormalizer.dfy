/**
 * Normalisation of JSON Schemas to the strict subset of structured outputs. `Visit` is the recursion on
 * raw JSON; it is proved to narrow the meaning of a schema, to produce strict schemas, and to change
 * exactly the schemas that are not strict yet.
 */
module SchemaNormalizer {
  import opened Options
  import opened Json

  // ---------- The transformation ----------

  predicate TypedObject(ms: seq<Member>) {
    Lookup(ms, "type") == Some(Str("object"))
  }

  /** An object node is one typed "object" or holding "properties". */
  predicate IsObjectNode(ms: seq<Member>) {
    TypedObject(ms) || Has(ms, "properties")
  }

  /** The declared property names that a list of required entries lacks, in order. */
  function Missing(names: seq<string>, entries: seq<Json>): seq<Json> {
    if names == [] then []
    else if Str(names[0]) in entries then Missing(names[1..], entries)
    else [Str(names[0])] + Missing(names[1..], entries + [Str(names[0])])
  }

  function AsStrings(names: seq<string>): seq<Json> {
    seq(|names|, i requires 0 <= i < |names| => Str(names[i]))
  }

  function CloseProperties(ms: seq<Member>): seq<Member> {
    if Lookup(ms, "additionalProperties") == Some(Bool(false)) then ms
    else Put(ms, "additionalProperties", Bool(false))
  }

  /** The `required` list an object node is given, if it is given one. */
  function NewRequired(ms: seq<Member>): Option<Json> {
    match Lookup(ms, "properties")
    case Some(Obj(props)) =>
      (match Lookup(ms, "required")
       case Some(Arr(entries)) => Some(Arr(entries + Missing(Names(props), entries)))
       case _ => Some(Arr(AsStrings(Names(props)))))
    case _ => if TypedObject(ms) && !Has(ms, "required") then Some(Arr([])) else None
  }

  /** What happens to a node once its members have been visited. */
  function CloseNode(ms: seq<Member>): seq<Member> {
    if !IsObjectNode(ms) then ms
    else
      var closed := CloseProperties(ms);
      match NewRequired(closed)
      case Some(required) => Put(closed, "required", required)
      case None => closed
  }

  function Visit(j: Json): Json
    decreases j, 1
  {
    match j
    case Arr(items) => Arr(VisitItems(items))
    case Obj(ms) => Obj(CloseNode(VisitMembers(ms)))
    case _ => j
  }

  function VisitItems(items: seq<Json>): (r: seq<Json>)
    ensures |r| == |items|
    ensures forall i | 0 <= i < |items| :: r[i] == Visit(items[i])
    decreases items, 0
  {
    if items == [] then [] else [Visit(items[0])] + VisitItems(items[1..])
  }

  /** Members are visited in order, those named "default" left out. */
  function VisitMembers(ms: seq<Member>): seq<Member>
    decreases ms, 0
  {
    if ms == [] then []
    else (if ms[0].name == "default" then [] else [Member(ms[0].name, Visit(ms[0].value))]) + VisitMembers(ms[1..])
  }

  lemma {:induction false} VisitedLookup(ms: seq<Member>, n: string)
    ensures Lookup(VisitMembers(ms), n) ==
            if n == "default" then None
            else match Lookup(ms, n) case Some(v) => Some(Visit(v)) case None => None
  {
    if ms != [] {
      VisitedLookup(ms[1..], n);
      var rest := VisitMembers(ms[1..]);
      if ms[0].name != "default" {
        assert VisitMembers(ms)[1..] == rest;
      } else {
        assert VisitMembers(ms) == rest;
      }
    }
  }

  /** Every visited member comes from one of the original. */
  lemma {:induction false} VisitedOrigin(ms: seq<Member>, m: Member) returns (o: Member)
    requires m in VisitMembers(ms)
    ensures o in ms && o.name != "default" && m == Member(o.name, Visit(o.value))
  {
    if ms[0].name != "default" && m == Member(ms[0].name, Visit(ms[0].value)) {
      o := ms[0];
    } else {
      o := VisitedOrigin(ms[1..], m);
      assert o in ms;
    }
  }

  lemma {:induction false} MissingCompletes(names: seq<string>, entries: seq<Json>)
    ensures forall n | n in names :: Str(n) in entries || Str(n) in Missing(names, entries)
    ensures forall x | x in Missing(names, entries) :: x.Str? && x.s in names
  {
    if names != [] {
      var first := Str(names[0]);
      MissingCompletes(names[1..], if first in entries then entries else entries + [first]);
      forall n | n in names ensures Str(n) in entries || Str(n) in Missing(names, entries) {
        assert n == names[0] || n in names[1..];
      }
    }
  }

  lemma {:induction false} NothingMissing(names: seq<string>, entries: seq<Json>)
    requires forall n | n in names :: Str(n) in entries
    ensures Missing(names, entries) == []
  {
    if names != [] {
      assert names[0] in names;
      NothingMissing(names[1..], entries);
    }
  }

  // ---------- What the result looks like ----------

  /** A node is strict: no default, and an object node is closed and requires all it declares. */
  predicate StrictNode(ms: seq<Member>) {
    && !Has(ms, "default")
    && (IsObjectNode(ms) ==>
          && Lookup(ms, "additionalProperties") == Some(Bool(false))
          && match Lookup(ms, "properties")
             case Some(Obj(props)) =>
               && Lookup(ms, "required").Some? && Lookup(ms, "required").value.Arr?
               && forall n | n in Names(props) :: Str(n) in Lookup(ms, "required").value.items
             case _ => TypedObject(ms) ==> Has(ms, "required"))
  }

  predicate Strict(j: Json) {
    match j
    case Arr(items) => forall x | x in items :: Strict(x)
    case Obj(ms) => StrictNode(ms) && forall m | m in ms :: Strict(m.value)
    case _ => true
  }

  lemma CloseNodeLookup(ms: seq<Member>, n: string)
    ensures Lookup(CloseNode(ms), n) ==
            if !IsObjectNode(ms) then Lookup(ms, n)
            else if n == "additionalProperties" then Some(Bool(false))
            else if n == "required" && NewRequired(ms).Some? then NewRequired(ms)
            else Lookup(ms, n)
  {
    var closed := CloseProperties(ms);
    PutLooksUp(ms, "additionalProperties", Bool(false), n);
    PutLooksUp(ms, "additionalProperties", Bool(false), "properties");
    PutLooksUp(ms, "additionalProperties", Bool(false), "required");
    PutLooksUp(ms, "additionalProperties", Bool(false), "type");
    assert NewRequired(closed) == NewRequired(ms);
    if NewRequired(ms).Some? {
      PutLooksUp(closed, "required", NewRequired(ms).value, n);
    }
  }

  /** The new `required` list keeps the old entries and holds every declared name. */
  lemma NewRequiredCompletes(ms: seq<Member>)
    requires NewRequired(ms).Some?
    ensures var r := NewRequired(ms).value;
            && r.Arr?
            && (Has(ms, "required") && Lookup(ms, "required").value.Arr? ==>
                  forall x | x in Lookup(ms, "required").value.items :: x in r.items)
            && (Has(ms, "properties") && Lookup(ms, "properties").value.Obj? ==>
                  forall n | n in Names(Lookup(ms, "properties").value.members) :: Str(n) in r.items)
  {
    match Lookup(ms, "properties")
    case Some(Obj(props)) =>
      var names := Names(props);
      match Lookup(ms, "required") {
        case Some(Arr(entries)) => MissingCompletes(names, entries);
        case _ =>
          forall n | n in names ensures Str(n) in AsStrings(names) {
            var i :| 0 <= i < |names| && names[i] == n;
            assert AsStrings(names)[i] == Str(n);
          }
      }
    case _ =>
  }

  lemma CloseNodeIsStrict(ms: seq<Member>)
    requires !Has(ms, "default")
    ensures StrictNode(CloseNode(ms))
  {
    CloseNodeLookup(ms, "default");
    CloseNodeLookup(ms, "type");
    CloseNodeLookup(ms, "properties");
    CloseNodeLookup(ms, "additionalProperties");
    CloseNodeLookup(ms, "required");
    if NewRequired(ms).Some? {
      NewRequiredCompletes(ms);
    }
  }

  /** A closed node holds the old members and at most the two the closing puts there. */
  lemma CloseNodeMembers(ms: seq<Member>, m: Member)
    requires m in CloseNode(ms)
    ensures || m in ms
            || (IsObjectNode(ms) && m == Member("additionalProperties", Bool(false)))
            || (IsObjectNode(ms) && NewRequired(ms).Some? && m == Member("required", NewRequired(ms).value))
  {
    if IsObjectNode(ms) {
      var closed := CloseProperties(ms);
      PutLooksUp(ms, "additionalProperties", Bool(false), "properties");
      PutLooksUp(ms, "additionalProperties", Bool(false), "required");
      PutLooksUp(ms, "additionalProperties", Bool(false), "type");
      if NewRequired(closed).Some? {
        PutMembers(closed, "required", NewRequired(closed).value, m);
      }
      if m in closed && m !in ms {
        PutMembers(ms, "additionalProperties", Bool(false), m);
      }
    }
  }

  /** Every normalised schema is strict, whatever JSON it came from. */
  lemma {:induction false} VisitIsStrict(j: Json)
    ensures Strict(Visit(j))
    decreases j
  {
    match j
    case Arr(items) =>
      forall x | x in VisitItems(items) ensures Strict(x) {
        var i :| 0 <= i < |items| && VisitItems(items)[i] == x;
        VisitIsStrict(items[i]);
      }
    case Obj(ms) =>
      var visited := VisitMembers(ms);
      VisitedLookup(ms, "default");
      CloseNodeIsStrict(visited);
      forall m | m in visited ensures Strict(m.value) {
        var o := VisitedOrigin(ms, m);
        VisitIsStrict(o.value);
      }
      forall m | m in CloseNode(visited) ensures Strict(m.value) {
        CloseNodeMembers(visited, m);
        if NewRequired(visited).Some? {
          NewRequiredIsStrict(visited);
        }
      }
    case _ =>
  }

  lemma NewRequiredIsStrict(ms: seq<Member>)
    requires NewRequired(ms).Some? && forall m | m in ms :: Strict(m.value)
    ensures Strict(NewRequired(ms).value)
  {
    match Lookup(ms, "properties")
    case Some(Obj(props)) =>
      if Has(ms, "required") && Lookup(ms, "required").value.Arr? {
        LookupFinds(ms, "required");
        MissingCompletes(Names(props), Lookup(ms, "required").value.items);
      }
    case _ =>
  }

  lemma {:induction false} VisitedMembersFixed(ms: seq<Member>)
    requires forall m | m in ms :: m.name != "default" && Visit(m.value) == m.value
    ensures VisitMembers(ms) == ms
  {
    if ms != [] {
      assert ms[0] in ms;
      VisitedMembersFixed(ms[1..]);
    }
  }

  lemma StrictNodeIsClosed(ms: seq<Member>)
    requires StrictNode(ms)
    ensures CloseNode(ms) == ms
  {
    if IsObjectNode(ms) && NewRequired(ms).Some? {
      match Lookup(ms, "properties")
      case Some(Obj(props)) =>
        var entries := Lookup(ms, "required").value.items;
        NothingMissing(Names(props), entries);
        assert entries + [] == entries;
        PutSame(ms, "required", Arr(entries));
      case _ =>
    }
  }

  lemma {:induction false} StrictIsFixed(j: Json)
    requires Strict(j)
    ensures Visit(j) == j
    decreases j
  {
    match j
    case Arr(items) =>
      forall i | 0 <= i < |items| ensures VisitItems(items)[i] == items[i] {
        StrictIsFixed(items[i]);
      }
      assert VisitItems(items) == items;
    case Obj(ms) =>
      forall m | m in ms ensures m.name != "default" && Visit(m.value) == m.value {
        LookupMisses(ms, m);
        StrictIsFixed(m.value);
      }
      VisitedMembersFixed(ms);
      StrictNodeIsClosed(ms);
    case _ =>
  }

  /** Normalisation changes exactly what is not strict, and it is idempotent. */
  lemma ChangesExactlyTheNonStrict(j: Json)
    ensures Visit(j) == j <==> Strict(j)
    ensures Visit(Visit(j)) == Visit(j)
  {
    VisitIsStrict(j);
    StrictIsFixed(Visit(j));
    if Strict(j) {
      StrictIsFixed(j);
    }
  }

  // ---------- The code ----------

  lemma {:induction false} VisitMembersPush(ms: seq<Member>, m: Member)
    ensures VisitMembers(ms + [m]) ==
            VisitMembers(ms) + if m.name == "default" then [] else [Member(m.name, Visit(m.value))]
  {
    if ms == [] {
      assert VisitMembers([m]) ==
             (if m.name == "default" then [] else [Member(m.name, Visit(m.value))]) + VisitMembers([m][1..]);
      assert ms + [m] == [m];
    } else {
      assert (ms + [m])[1..] == ms[1..] + [m];
      VisitMembersPush(ms[1..], m);
    }
  }

  lemma {:induction false} PutAppends(ms: seq<Member>, name: string, value: Json)
    requires !Has(ms, name)
    ensures Put(ms, name, value) == ms + [Member(name, value)]
  {
    if ms != [] {
      PutAppends(ms[1..], name, value);
    }
  }

  /** The names missing from a `required` list, appended one by one while `seen` grows. */
  method ExtendRequired(names: seq<string>, entries: seq<Json>) returns (req: seq<Json>)
    ensures req == entries + Missing(names, entries)
  {
    req := entries;
    var seen := set x | x in entries;
    for i := 0 to |names|
      invariant forall x :: x in seen <==> x in req
      invariant req + Missing(names[i..], req) == entries + Missing(names, entries)
    {
      var k := Str(names[i]);
      assert names[i..][0] == names[i] && names[i..][1..] == names[i + 1..];
      if k !in seen {
        assert req + Missing(names[i..], req) == (req + [k]) + Missing(names[i + 1..], req + [k]);
        req := req + [k];
        seen := seen + {k};
      }
    }
  }

  /** `_normalize_sdk_schema`: fill a dict member by member, then close it if it is an object node. */
  method Normalize(schema: Json) returns (r: Json)
    requires WellFormed(schema)
    ensures r == Visit(schema)
    decreases schema
  {
    match schema {
      case Obj(ms) =>
        var normalized: seq<Member> := [];
        for i := 0 to |ms|
          invariant normalized == VisitMembers(ms[..i])
        {
          assert ms[..i + 1] == ms[..i] + [ms[i]];
          VisitMembersPush(ms[..i], ms[i]);
          if ms[i].name != "default" {
            var visited := Normalize(ms[i].value);
            VisitedLookup(ms[..i], ms[i].name);
            if Has(ms[..i], ms[i].name) {
              LookupFinds(ms[..i], ms[i].name);
            }
            PutAppends(normalized, ms[i].name, visited);
            normalized := Put(normalized, ms[i].name, visited);
          }
        }
        assert ms[..|ms|] == ms;
        if TypedObject(normalized) || Has(normalized, "properties") {
          if Lookup(normalized, "additionalProperties") != Some(Bool(false)) {
            normalized := Put(normalized, "additionalProperties", Bool(false));
          }
          match Lookup(normalized, "properties") {
            case Some(Obj(props)) =>
              var existing := Lookup(normalized, "required");
              if existing.Some? && existing.value.Arr? {
                var req := ExtendRequired(Names(props), existing.value.items);
                normalized := Put(normalized, "required", Arr(req));
              } else {
                normalized := Put(normalized, "required", Arr(AsStrings(Names(props))));
              }
            case _ =>
              if TypedObject(normalized) && !Has(normalized, "required") {
                normalized := Put(normalized, "required", Arr([]));
              }
          }
        }
        r := Obj(normalized);
      case Arr(items) =>
        var visited: seq<Json> := [];
        for i := 0 to |items|
          invariant |visited| == i && forall k | 0 <= k < i :: visited[k] == Visit(items[k])
        {
          var item := Normalize(items[i]);
          visited := visited + [item];
        }
        assert visited == VisitItems(items);
        r := Arr(visited);
      case _ =>
        r := schema;
    }
  }
}
