/** JSON values as Python holds them after parsing: objects are lists of members in insertion order. */
module Json {
  import opened Options

  datatype Json =
    | Null
    | Bool(b: bool)
    | Num(n: real)
    | Str(s: string)
    | Arr(items: seq<Json>)
    | Obj(members: seq<Member>)

  datatype Member = Member(name: string, value: Json)

  function Lookup(ms: seq<Member>, name: string): Option<Json> {
    if ms == [] then None
    else if ms[0].name == name then Some(ms[0].value)
    else Lookup(ms[1..], name)
  }

  predicate Has(ms: seq<Member>, name: string) {
    Lookup(ms, name).Some?
  }

  /** Assignment to a key of a dict: in place when the key is there, at the end otherwise. */
  function Put(ms: seq<Member>, name: string, value: Json): seq<Member> {
    if ms == [] then [Member(name, value)]
    else if ms[0].name == name then [Member(name, value)] + ms[1..]
    else [ms[0]] + Put(ms[1..], name, value)
  }

  function Names(ms: seq<Member>): seq<string> {
    seq(|ms|, i requires 0 <= i < |ms| => ms[i].name)
  }

  predicate Unique(ms: seq<Member>) {
    forall i, j | 0 <= i < j < |ms| :: ms[i].name != ms[j].name
  }

  /** The keys of a dict are distinct, at every depth. */
  predicate WellFormed(j: Json) {
    match j
    case Arr(items) => forall x | x in items :: WellFormed(x)
    case Obj(ms) => Unique(ms) && forall m | m in ms :: WellFormed(m.value)
    case _ => true
  }

  lemma {:induction false} LookupFinds(ms: seq<Member>, name: string)
    requires Has(ms, name)
    ensures Member(name, Lookup(ms, name).value) in ms
  {
    if ms[0].name != name {
      LookupFinds(ms[1..], name);
    }
  }

  lemma {:induction false} LookupMisses(ms: seq<Member>, m: Member)
    requires m in ms
    ensures Has(ms, m.name)
  {
    if ms[0] != m {
      assert m in ms[1..];
      LookupMisses(ms[1..], m);
    }
  }

  lemma LookupIs(ms: seq<Member>, m: Member)
    requires Unique(ms) && m in ms
    ensures Lookup(ms, m.name) == Some(m.value)
  {
    LookupMisses(ms, m);
    LookupFinds(ms, m.name);
    var i :| 0 <= i < |ms| && ms[i] == m;
    var k :| 0 <= k < |ms| && ms[k] == Member(m.name, Lookup(ms, m.name).value);
  }

  lemma {:induction false} PutLooksUp(ms: seq<Member>, name: string, value: Json, n: string)
    ensures Lookup(Put(ms, name, value), n) == if n == name then Some(value) else Lookup(ms, n)
  {
    if ms != [] && ms[0].name != name {
      PutLooksUp(ms[1..], name, value, n);
    }
  }

  lemma {:induction false} PutMembers(ms: seq<Member>, name: string, value: Json, m: Member)
    requires m in Put(ms, name, value)
    ensures m in ms || m == Member(name, value)
  {
    if ms != [] && ms[0].name != name && m != ms[0] {
      PutMembers(ms[1..], name, value, m);
    }
  }

  /** Assigning what is already there changes nothing. */
  lemma {:induction false} PutSame(ms: seq<Member>, name: string, value: Json)
    requires Lookup(ms, name) == Some(value)
    ensures Put(ms, name, value) == ms
  {
    if ms[0].name != name {
      PutSame(ms[1..], name, value);
    }
  }
}
