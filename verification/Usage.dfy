/**
 * The usage of a structured invocation, added up over its attempts. Numbers are exact: the rounding of
 * durations is not modelled.
 */
module Usage {
  import opened Options
  import L = StructuredLoop

  datatype Counter = InputTokens | CachedInputTokens | OutputTokens | ReasoningTokens | TotalTokens | Duration

  /** `reported` has the counters that are not None. */
  datatype Usage = Usage(reported: map<Counter, real>, turns: nat, toolCalls: nat, retries: nat)

  predicate AllReport(us: seq<Usage>, c: Counter) {
    forall u | u in us :: c in u.reported
  }

  function Sum(us: seq<Usage>, c: Counter): real
    requires AllReport(us, c)
  {
    if us == [] then 0.0
    else
      assert us[0] in us;
      us[0].reported[c] + Sum(us[1..], c)
  }

  function Turns(us: seq<Usage>): nat {
    if us == [] then 0 else us[0].turns + Turns(us[1..])
  }

  function ToolCalls(us: seq<Usage>): nat {
    if us == [] then 0 else us[0].toolCalls + ToolCalls(us[1..])
  }

  function Retries(us: seq<Usage>): nat {
    if us == [] then 0 else us[0].retries + Retries(us[1..])
  }

  /** A counter is summed up when there are attempts and every one of them reports it. */
  function Totals(us: seq<Usage>): map<Counter, real> {
    map c: Counter | us != [] && AllReport(us, c) :: Sum(us, c)
  }

  function Aggregate(us: seq<Usage>): Usage {
    Usage(Totals(us), Turns(us), ToolCalls(us), Retries(us) + if us == [] then 0 else |us| - 1)
  }

  lemma {:induction false} SumOfConcat(a: seq<Usage>, b: seq<Usage>)
    ensures Turns(a + b) == Turns(a) + Turns(b)
    ensures ToolCalls(a + b) == ToolCalls(a) + ToolCalls(b)
    ensures Retries(a + b) == Retries(a) + Retries(b)
    ensures forall c :: AllReport(a + b, c) <==> AllReport(a, c) && AllReport(b, c)
    ensures forall c :: AllReport(a + b, c) ==> Sum(a + b, c) == Sum(a, c) + Sum(b, c)
  {
    forall c ensures AllReport(a + b, c) <==> AllReport(a, c) && AllReport(b, c) {
      assert forall u | u in a :: u in a + b;
      assert forall u | u in b :: u in a + b;
    }
    if a == [] {
      assert a + b == b;
    } else {
      assert (a + b)[1..] == a[1..] + b;
      SumOfConcat(a[1..], b);
    }
  }

  function Flatten(groups: seq<seq<Usage>>): seq<Usage> {
    if groups == [] then [] else groups[0] + Flatten(groups[1..])
  }

  function Each(groups: seq<seq<Usage>>): (us: seq<Usage>)
    ensures |us| == |groups|
  {
    if groups == [] then [] else [Aggregate(groups[0])] + Each(groups[1..])
  }

  function Empties(groups: seq<seq<Usage>>): nat {
    if groups == [] then 0 else (if groups[0] == [] then 1 else 0) + Empties(groups[1..])
  }

  /** What adding up the groups' aggregates comes to. */
  lemma {:induction false} EachSums(groups: seq<seq<Usage>>)
    ensures Turns(Each(groups)) == Turns(Flatten(groups))
    ensures ToolCalls(Each(groups)) == ToolCalls(Flatten(groups))
    ensures Retries(Each(groups)) + |groups| == Retries(Flatten(groups)) + |Flatten(groups)| + Empties(groups)
    ensures Empties(groups) == 0 ==>
              forall c :: AllReport(Each(groups), c) <==> AllReport(Flatten(groups), c)
    ensures Empties(groups) == 0 ==>
              forall c :: AllReport(Each(groups), c) && AllReport(Flatten(groups), c) ==>
                Sum(Each(groups), c) == Sum(Flatten(groups), c)
  {
    if groups != [] {
      EachSums(groups[1..]);
      var head := Aggregate(groups[0]);
      SumOfConcat(groups[0], Flatten(groups[1..]));
      SumOfConcat([head], Each(groups[1..]));
      SumOfOne(head);
    }
  }

  lemma SumOfOne(u: Usage)
    ensures Turns([u]) == u.turns && ToolCalls([u]) == u.toolCalls && Retries([u]) == u.retries
    ensures forall c :: AllReport([u], c) <==> c in u.reported
    ensures forall c :: AllReport([u], c) ==> Sum([u], c) == u.reported[c]
  {
    assert [u][1..] == [];
    assert u in [u];
  }

  lemma {:induction false} NothingInEmptyGroups(groups: seq<seq<Usage>>)
    ensures Empties(groups) <= |groups|
    ensures Empties(groups) == |groups| ==> Flatten(groups) == []
    ensures Empties(groups) == 0 && groups != [] ==> Flatten(groups) != []
    ensures Empties(groups) == 0 <==> forall g | g in groups :: g != []
  {
    if groups != [] {
      NothingInEmptyGroups(groups[1..]);
      assert forall g | g in groups :: g == groups[0] || g in groups[1..];
      assert groups[0] in groups && forall g | g in groups[1..] :: g in groups;
    }
  }

  /**
   * Aggregates can be aggregated again: the result is that of all attempts together exactly when no group
   * is empty, or there is nothing but one empty group.
   */
  lemma AggregateComposes(groups: seq<seq<Usage>>)
    ensures Aggregate(Each(groups)) == Aggregate(Flatten(groups))
            <==> (forall g | g in groups :: g != []) || groups == [[]]
  {
    var us, all := Each(groups), Flatten(groups);
    EachSums(groups);
    NothingInEmptyGroups(groups);
    if Empties(groups) == 0 {
      assert Totals(us) == Totals(all);
    } else if groups == [[]] {
      assert groups[1..] == [] && us == [Aggregate([])] && all == [];
      SumOfOne(Aggregate([]));
      assert Totals(us) == map[] == Totals(all);
    } else if all == [] {
      assert |groups| == 1 ==> groups == [[]];
    }
  }

  // ---------- The usage of a result ----------

  /** The attempts' usages in the order of the attempts. */
  function UsagesOf(usage: nat -> Usage, k: nat): (us: seq<Usage>)
    ensures |us| == k
  {
    if k == 0 then [] else UsagesOf(usage, k - 1) + [usage(k)]
  }

  lemma {:induction false} PlainUsages(usage: nat -> Usage, k: nat)
    requires forall i: nat :: usage(i).turns == 1 && usage(i).retries == 0
    ensures Turns(UsagesOf(usage, k)) == k && Retries(UsagesOf(usage, k)) == 0
  {
    if k > 0 {
      PlainUsages(usage, k - 1);
      SumOfConcat(UsagesOf(usage, k - 1), [usage(k)]);
      SumOfOne(usage(k));
    }
  }

  /**
   * The usage in a structured result counts every attempt as a turn, and as its retries exactly the
   * RETRY_SCHEDULED events of the stream that brought it.
   */
  lemma RetriesAreTheRetryEvents(env: L.Env, usage: nat -> Usage)
    requires L.Logical(env).outcome.Returned?
    requires forall i: nat :: usage(i).turns == 1 && usage(i).retries == 0
    ensures var total := Aggregate(UsagesOf(usage, L.Last(env, 1)));
            && total.retries == L.Count(L.Logical(env).events, L.RetryScheduled)
            && total.turns == total.retries + 1
  {
    PlainUsages(usage, L.Last(env, 1));
    L.LogicalEnd(env);
    L.LogicalCounts(env);
  }
}
