/**
 * Deduplication of tool requests: the owner/waiter protocol over the executor's `_calls` futures.
 * One action is one stretch of code between two awaits. The first part of the module gives the
 * protocol as a transition function on states, the second proves what holds in every run, the third
 * is the executor itself, whose methods are proved to take exactly those transitions.
 */
module ToolCalls {
  import opened Options
  import opened ToolTypes

  /** How a call of `execute` ends; `Broken` is the exception of a failed error conversion. */
  datatype Outcome = Returned(result: ToolResult) | Raised(error: ToolError) | Broken | Cancelled

  datatype Status = Pending | Settled(outcome: Outcome)

  /** A future remembers the caller that created it. */
  datatype Future = Future(key: Key, creator: nat, status: Status)

  datatype Phase = Owning | Waiting | Left(outcome: Outcome)

  /** One call of `execute`; `dropped` marks a waiter that was itself cancelled. */
  datatype Caller = Caller(key: Key, future: nat, owner: bool, dropped: bool, phase: Phase)

  datatype FailurePolicy = ReturnError | Raise

  datatype State = State(
    calls: map<Key, nat>,
    futures: seq<Future>,
    callers: seq<Caller>,
    ended: set<string>)

  datatype Action =
    | Arrive(key: Key)
    | Finish(caller: nat, pipeline: Pipeline)
    | Wake(caller: nat)
    | CancelWaiter(caller: nat)
    | EndInvocation(invocation: string)

  const EMPTY := State(map[], [], [], {})

  // ---------- The transitions ----------

  predicate Enabled(s: State, a: Action) {
    match a
    case Arrive(key) => key in s.calls ==> s.calls[key] < |s.futures|
    case Finish(c, _) => c < |s.callers| && s.callers[c].phase.Owning? && s.callers[c].future < |s.futures|
    case Wake(c) =>
      && c < |s.callers| && s.callers[c].phase.Waiting? && s.callers[c].future < |s.futures|
      && s.futures[s.callers[c].future].status.Settled?
    case CancelWaiter(c) => c < |s.callers| && s.callers[c].phase.Waiting?
    case EndInvocation(_) => true
  }

  /** What the owner's handler makes of its pipeline's end. */
  function OwnerOutcome(policy: FailurePolicy, p: Pipeline): Outcome {
    match p
    case Completed(r) => Returned(r)
    case Interrupted => Cancelled
    case Failed(e) =>
      if policy.Raise? then Raised(e)
      else match ErrorResult(e)
        case Some(r) => Returned(r)
        case None => Broken
  }

  /** Futures resolve once, and a broken conversion resolves nothing. */
  function Settle(f: Future, o: Outcome): Future {
    if f.status.Pending? && !o.Broken? then f.(status := Settled(o)) else f
  }

  predicate Drops(s: State, invocation: string, f: nat) {
    && f < |s.futures|
    && s.futures[f].key.invocation == invocation
    && s.futures[f].key in s.calls && s.calls[s.futures[f].key] == f
  }

  function Next(policy: FailurePolicy, s: State, a: Action): State
    requires Enabled(s, a)
  {
    match a
    case Arrive(key) =>
      if key in s.calls then
        var f := s.futures[s.calls[key]];
        var phase := if f.status.Settled? then Left(f.status.outcome) else Waiting;
        s.(callers := s.callers + [Caller(key, s.calls[key], false, false, phase)])
      else
        s.(calls := s.calls[key := |s.futures|],
           futures := s.futures + [Future(key, |s.callers|, Pending)],
           callers := s.callers + [Caller(key, |s.futures|, true, false, Owning)])
    case Finish(c, p) =>
      var caller := s.callers[c];
      var o := OwnerOutcome(policy, p);
      State(
        if p.Interrupted? then s.calls - {caller.key} else s.calls,
        s.futures[caller.future := Settle(s.futures[caller.future], o)],
        s.callers[c := caller.(phase := Left(o))],
        s.ended)
    case Wake(c) =>
      s.(callers := s.callers[c := s.callers[c].(phase := Left(s.futures[s.callers[c].future].status.outcome))])
    case CancelWaiter(c) =>
      s.(callers := s.callers[c := s.callers[c].(dropped := true, phase := Left(Cancelled))])
    case EndInvocation(inv) =>
      State(
        map k | k in s.calls && k.invocation != inv :: s.calls[k],
        seq(|s.futures|, i requires 0 <= i < |s.futures| =>
          if Drops(s, inv, i) then Settle(s.futures[i], Cancelled) else s.futures[i]),
        s.callers,
        s.ended + {inv})
  }

  /** An action that is not enabled does not happen. */
  function Step(policy: FailurePolicy, s: State, a: Action): State {
    if Enabled(s, a) then Next(policy, s, a) else s
  }

  function Run(policy: FailurePolicy, s: State, acts: seq<Action>): State
    decreases |acts|
  {
    if acts == [] then s else Run(policy, Step(policy, s, acts[0]), acts[1..])
  }

  /** Invocation ids are not used again after `end_invocation`. */
  predicate NoReuse(policy: FailurePolicy, s: State, acts: seq<Action>)
    decreases |acts|
  {
    acts != [] ==>
      && (acts[0].Arrive? ==> acts[0].key.invocation !in s.ended)
      && NoReuse(policy, Step(policy, s, acts[0]), acts[1..])
  }

  // ---------- What every run keeps ----------

  predicate Open(s: State, key: Key) {
    key.invocation !in s.ended
  }

  /** The caller owns a key whose invocation has not ended and has not been cancelled out of it. */
  predicate Holds(s: State, c: nat) {
    && c < |s.callers| && s.callers[c].owner && Open(s, s.callers[c].key)
    && s.callers[c].phase != Left(Cancelled)
  }

  predicate CallerOk(s: State, c: nat)
    requires c < |s.callers|
  {
    var caller := s.callers[c];
    && caller.future < |s.futures|
    && s.futures[caller.future].key == caller.key
    && (caller.dropped ==> caller.phase == Left(Cancelled))
    && if caller.owner then
         && s.futures[caller.future].creator == c
         && !caller.dropped && !caller.phase.Waiting?
         && (Holds(s, c) ==> caller.key in s.calls && s.calls[caller.key] == caller.future)
       else
         && !caller.phase.Owning?
         && (caller.phase.Left? && !caller.dropped ==>
               s.futures[caller.future].status == Settled(caller.phase.outcome))
  }

  /** The future agrees with the caller that created it until the invocation ends. */
  predicate FutureOk(s: State, f: nat)
    requires f < |s.futures|
  {
    var future := s.futures[f];
    && future.creator < |s.callers|
    && var creator := s.callers[future.creator];
    && creator.owner && creator.future == f
    && future.status != Settled(Broken)
    && (Open(s, future.key) ==>
          match creator.phase
          case Owning => future.status.Pending?
          case Waiting => false
          case Left(o) => if o.Broken? then future.status.Pending? else future.status == Settled(o))
  }

  predicate EntryOk(s: State, k: Key)
    requires k in s.calls
  {
    && Open(s, k)
    && s.calls[k] < |s.futures|
    && s.futures[s.calls[k]].key == k
    && Holds(s, s.futures[s.calls[k]].creator)
  }

  ghost predicate Inv(s: State) {
    && (forall c: nat | c < |s.callers| :: CallerOk(s, c))
    && (forall f: nat | f < |s.futures| :: FutureOk(s, f))
    && (forall k | k in s.calls :: EntryOk(s, k))
    && OneLiveOwner(s)
  }

  /** Ended or not, no key ever has two live owners. */
  predicate OneLiveOwner(s: State) {
    forall c, d | 0 <= c < |s.callers| && 0 <= d < |s.callers| ::
      s.callers[c].phase.Owning? && s.callers[d].phase.Owning? && s.callers[c].key == s.callers[d].key ==> c == d
  }

  /** At most one caller holds a key. */
  lemma HoldersAgree(s: State, c: nat, d: nat)
    requires Inv(s) && Holds(s, c) && Holds(s, d) && s.callers[c].key == s.callers[d].key
    ensures c == d
  {
    assert CallerOk(s, c) && CallerOk(s, d);
  }

  lemma ArriveKeepsInv(policy: FailurePolicy, s: State, key: Key)
    requires Inv(s) && Enabled(s, Arrive(key)) && Open(s, key)
    ensures Inv(Next(policy, s, Arrive(key)))
  {
    var t := Next(policy, s, Arrive(key));
    if key in s.calls {
      assert EntryOk(s, key);
      assert FutureOk(s, s.calls[key]);
    }
    forall c: nat | c < |t.callers| ensures CallerOk(t, c) {
      if c < |s.callers| {
        assert CallerOk(s, c);
      }
    }
    forall f: nat | f < |t.futures| ensures FutureOk(t, f) {
      if f < |s.futures| {
        assert FutureOk(s, f);
      }
    }
    forall k | k in t.calls ensures EntryOk(t, k) {
      if k in s.calls {
        assert EntryOk(s, k);
      }
    }
    forall c: nat | key !in s.calls && c < |s.callers| && s.callers[c].key == key ensures !s.callers[c].phase.Owning? {
      assert CallerOk(s, c);
    }
  }

  lemma FinishKeepsInv(policy: FailurePolicy, s: State, c: nat, p: Pipeline)
    requires Inv(s) && Enabled(s, Finish(c, p))
    ensures Inv(Next(policy, s, Finish(c, p)))
  {
    var t := Next(policy, s, Finish(c, p));
    assert CallerOk(s, c) && FutureOk(s, s.callers[c].future);
    forall d: nat | d < |t.callers| ensures CallerOk(t, d) {
      assert CallerOk(s, d);
      if d != c && Holds(s, d) && s.callers[d].key == s.callers[c].key {
        HoldersAgree(s, c, d);
      }
    }
    forall f: nat | f < |t.futures| ensures FutureOk(t, f) {
      assert FutureOk(s, f);
      assert CallerOk(s, s.futures[f].creator);
    }
    forall k | k in t.calls ensures EntryOk(t, k) {
      assert EntryOk(s, k);
      assert FutureOk(s, s.calls[k]);
    }
  }

  lemma EndKeepsInv(policy: FailurePolicy, s: State, invocation: string)
    requires Inv(s)
    ensures Inv(Next(policy, s, EndInvocation(invocation)))
  {
    var t := Next(policy, s, EndInvocation(invocation));
    forall c: nat | c < |t.callers| ensures CallerOk(t, c) {
      assert CallerOk(s, c);
    }
    forall f: nat | f < |t.futures| ensures FutureOk(t, f) {
      assert FutureOk(s, f);
    }
    forall k | k in t.calls ensures EntryOk(t, k) {
      assert EntryOk(s, k) && FutureOk(s, s.calls[k]);
      assert CallerOk(s, s.futures[s.calls[k]].creator);
    }
  }

  /** A waiter that leaves changes its own record and nothing the invariant reads about others. */
  lemma LeaveKeepsInv(policy: FailurePolicy, s: State, a: Action)
    requires Inv(s) && Enabled(s, a) && (a.Wake? || a.CancelWaiter?)
    ensures Inv(Next(policy, s, a))
  {
    var t := Next(policy, s, a);
    forall c: nat | c < |t.callers| ensures CallerOk(t, c) {
      assert CallerOk(s, c);
    }
    forall f: nat | f < |t.futures| ensures FutureOk(t, f) {
      assert FutureOk(s, f);
      assert CallerOk(s, s.futures[f].creator);
    }
    forall k | k in t.calls ensures EntryOk(t, k) {
      assert EntryOk(s, k);
      assert CallerOk(s, s.futures[s.calls[k]].creator);
    }
  }

  lemma StepKeepsInv(policy: FailurePolicy, s: State, a: Action)
    requires Inv(s)
    requires a.Arrive? ==> a.key.invocation !in s.ended
    ensures Inv(Step(policy, s, a))
  {
    if Enabled(s, a) {
      match a
      case Arrive(key) => ArriveKeepsInv(policy, s, key);
      case Finish(c, p) => FinishKeepsInv(policy, s, c, p);
      case EndInvocation(invocation) => EndKeepsInv(policy, s, invocation);
      case _ => LeaveKeepsInv(policy, s, a);
    }
  }

  lemma {:induction false} RunKeepsInv(policy: FailurePolicy, s: State, acts: seq<Action>)
    requires Inv(s) && NoReuse(policy, s, acts)
    ensures Inv(Run(policy, s, acts))
    decreases |acts|
  {
    if acts != [] {
      StepKeepsInv(policy, s, acts[0]);
      RunKeepsInv(policy, Step(policy, s, acts[0]), acts[1..]);
    }
  }

  // ---------- What the invariant says about a run ----------

  ghost predicate Reachable(policy: FailurePolicy, s: State) {
    exists acts :: NoReuse(policy, EMPTY, acts) && s == Run(policy, EMPTY, acts)
  }

  lemma ReachableInv(policy: FailurePolicy, s: State)
    requires Reachable(policy, s)
    ensures Inv(s)
  {
    var acts :| NoReuse(policy, EMPTY, acts) && s == Run(policy, EMPTY, acts);
    RunKeepsInv(policy, EMPTY, acts);
  }

  predicate LiveOwner(s: State, key: Key, c: nat) {
    c < |s.callers| && s.callers[c].key == key && s.callers[c].phase.Owning?
  }

  predicate BrokenOwner(s: State, key: Key, c: nat) {
    c < |s.callers| && s.callers[c].key == key && s.callers[c].phase == Left(Broken)
  }

  predicate HasPendingEntry(s: State, key: Key) {
    key in s.calls && s.calls[key] < |s.futures| && s.futures[s.calls[key]].status.Pending?
  }

  /**
   * A key of an invocation that has not ended has a pending entry exactly when it has a live owner or
   * its owner's error conversion failed, and there are never two of these callers. Even after the end
   * of its invocation a key never has two live owners.
   */
  lemma PendingExactlyWhenOwned(policy: FailurePolicy, s: State, key: Key)
    requires Reachable(policy, s)
    ensures Open(s, key) ==>
              (HasPendingEntry(s, key) <==> exists c: nat :: LiveOwner(s, key, c) || BrokenOwner(s, key, c))
    ensures Open(s, key) ==>
              forall c: nat, d: nat ::
                (LiveOwner(s, key, c) || BrokenOwner(s, key, c)) && (LiveOwner(s, key, d) || BrokenOwner(s, key, d))
                ==> c == d
    ensures forall c: nat, d: nat :: LiveOwner(s, key, c) && LiveOwner(s, key, d) ==> c == d
  {
    ReachableInv(policy, s);
    forall c: nat, d: nat | Open(s, key) && (LiveOwner(s, key, c) || BrokenOwner(s, key, c))
                            && (LiveOwner(s, key, d) || BrokenOwner(s, key, d))
      ensures c == d && HasPendingEntry(s, key)
    {
      assert CallerOk(s, c) && CallerOk(s, d);
      assert FutureOk(s, s.callers[c].future) && FutureOk(s, s.callers[d].future);
      HoldersAgree(s, c, d);
    }
    if Open(s, key) && HasPendingEntry(s, key) {
      var f := s.calls[key];
      assert EntryOk(s, key) && FutureOk(s, f);
      var c := s.futures[f].creator;
      assert CallerOk(s, c);
      assert LiveOwner(s, key, c) || BrokenOwner(s, key, c);
    }
  }

  /**
   * A waiter that was not itself cancelled and has left has exactly the outcome its owner has,
   * as long as the invocation has not ended.
   */
  lemma WaiterGetsOwnersOutcome(policy: FailurePolicy, s: State, w: nat)
    requires Reachable(policy, s)
    requires w < |s.callers| && !s.callers[w].owner && !s.callers[w].dropped && s.callers[w].phase.Left?
    requires Open(s, s.callers[w].key)
    ensures exists c: nat ::
              && c < |s.callers| && s.callers[c].owner && s.callers[c].future == s.callers[w].future
              && s.callers[c].key == s.callers[w].key && s.callers[c].phase == s.callers[w].phase
  {
    ReachableInv(policy, s);
    var f := s.callers[w].future;
    assert CallerOk(s, w) && FutureOk(s, f);
    var c := s.futures[f].creator;
    assert CallerOk(s, c);
    assert s.callers[c].owner && s.callers[c].phase == s.callers[w].phase;
  }

  /** A waiter never waits for nothing: it can wake, or its owner is live, or its owner broke. */
  lemma WaiterIsServed(policy: FailurePolicy, s: State, w: nat)
    requires Reachable(policy, s) && w < |s.callers| && s.callers[w].phase.Waiting? && Open(s, s.callers[w].key)
    ensures Enabled(s, Wake(w)) <==>
            !exists c: nat :: c < |s.callers| && s.callers[c].future == s.callers[w].future
                              && (LiveOwner(s, s.callers[w].key, c) || BrokenOwner(s, s.callers[w].key, c))
  {
    ReachableInv(policy, s);
    var f := s.callers[w].future;
    assert CallerOk(s, w) && FutureOk(s, f);
    var c := s.futures[f].creator;
    assert CallerOk(s, c);
    if !Enabled(s, Wake(w)) {
      assert LiveOwner(s, s.callers[w].key, c) || BrokenOwner(s, s.callers[w].key, c);
    }
    forall d: nat | d < |s.callers| && s.callers[d].future == f
                    && (s.callers[d].phase.Owning? || s.callers[d].phase == Left(Broken))
      ensures d == c
    {
      assert CallerOk(s, d);
    }
  }

  /**
   * Of all the callers that ever owned a key of an invocation that has not ended, every one but the
   * last was cancelled: a tool call runs to an answer at most once.
   */
  lemma AnsweredAtMostOnce(policy: FailurePolicy, s: State, c: nat, d: nat)
    requires Reachable(policy, s) && c < |s.callers| && d < |s.callers| && c != d
    requires s.callers[c].owner && s.callers[d].owner && s.callers[c].key == s.callers[d].key
    requires Open(s, s.callers[c].key)
    ensures s.callers[c].phase == Left(Cancelled) || s.callers[d].phase == Left(Cancelled)
  {
    ReachableInv(policy, s);
    if Holds(s, c) && Holds(s, d) {
      HoldersAgree(s, c, d);
    }
  }

  // ---------- Cancelling a waiter is invisible to everybody else ----------

  predicate ActsOn(a: Action, w: nat) {
    match a
    case Finish(c, _) => c == w
    case Wake(c) => c == w
    case CancelWaiter(c) => c == w
    case _ => false
  }

  predicate SameButFor(s: State, t: State, w: nat) {
    && w < |s.callers| && s.calls == t.calls && s.futures == t.futures && s.ended == t.ended
    && |t.callers| == |s.callers| && t.callers == s.callers[w := t.callers[w]]
    && s.callers[w].key == t.callers[w].key && s.callers[w].future == t.callers[w].future
  }

  lemma StepSameButFor(policy: FailurePolicy, s: State, t: State, w: nat, a: Action)
    requires SameButFor(s, t, w) && !ActsOn(a, w)
    ensures SameButFor(Step(policy, s, a), Step(policy, t, a), w)
  {
    assert forall c: nat | c < |s.callers| && c != w :: t.callers[c] == s.callers[c];
    assert Enabled(s, a) <==> Enabled(t, a);
    if Enabled(s, a) {
      var s', t' := Next(policy, s, a), Next(policy, t, a);
      assert forall c: nat | c < |s'.callers| && c != w :: t'.callers[c] == s'.callers[c];
      assert t'.callers == s'.callers[w := t'.callers[w]];
      if a.EndInvocation? {
        assert s'.futures == t'.futures;
      }
    }
  }

  /** Whatever the others do next, they end in the same state whether or not the waiter was cancelled. */
  lemma {:induction false} CancelWaiterIsInvisible(policy: FailurePolicy, s: State, w: nat, acts: seq<Action>)
    requires Enabled(s, CancelWaiter(w))
    requires forall a | a in acts :: !ActsOn(a, w)
    ensures SameButFor(Run(policy, s, acts), Run(policy, Next(policy, s, CancelWaiter(w)), acts), w)
  {
    RunSameButFor(policy, s, Next(policy, s, CancelWaiter(w)), w, acts);
  }

  lemma {:induction false} RunSameButFor(policy: FailurePolicy, s: State, t: State, w: nat, acts: seq<Action>)
    requires SameButFor(s, t, w) && forall a | a in acts :: !ActsOn(a, w)
    ensures SameButFor(Run(policy, s, acts), Run(policy, t, acts), w)
    decreases |acts|
  {
    if acts != [] {
      assert acts[0] in acts;
      StepSameButFor(policy, s, t, w, acts[0]);
      RunSameButFor(policy, Step(policy, s, acts[0]), Step(policy, t, acts[0]), w, acts[1..]);
    }
  }

  // ---------- Where a future is left pending ----------

  /** A caller that has left keeps its record. */
  lemma {:induction false} LeftIsLeft(policy: FailurePolicy, s: State, c: nat, acts: seq<Action>)
    requires c < |s.callers| && s.callers[c].phase.Left?
    ensures c < |Run(policy, s, acts).callers| && Run(policy, s, acts).callers[c] == s.callers[c]
    decreases |acts|
  {
    if acts != [] {
      LeftIsLeft(policy, Step(policy, s, acts[0]), c, acts[1..]);
    }
  }

  lemma {:induction false} OpenUntilTheEnd(policy: FailurePolicy, s: State, key: Key, acts: seq<Action>)
    requires Open(s, key) && EndInvocation(key.invocation) !in acts
    ensures Open(Run(policy, s, acts), key)
    decreases |acts|
  {
    if acts != [] {
      assert acts[0] in acts;
      OpenUntilTheEnd(policy, Step(policy, s, acts[0]), key, acts[1..]);
    }
  }

  /**
   * Until its invocation ends, and whatever happens meanwhile, an owner that has left leaves its
   * future pending exactly when errors are returned and this one cannot be converted.
   */
  lemma OwnerBreaksExactlyWhenUnconvertible(policy: FailurePolicy, s: State, c: nat, p: Pipeline, acts: seq<Action>)
    requires Reachable(policy, s) && Enabled(s, Finish(c, p)) && Open(s, s.callers[c].key)
    requires NoReuse(policy, Next(policy, s, Finish(c, p)), acts)
    requires EndInvocation(s.callers[c].key.invocation) !in acts
    ensures var t := Run(policy, Next(policy, s, Finish(c, p)), acts);
            && s.callers[c].future < |t.futures|
            && (t.futures[s.callers[c].future].status.Pending?
                <==> policy.ReturnError? && p.Failed? && !Convertible(p.error))
  {
    ReachableInv(policy, s);
    var next := Next(policy, s, Finish(c, p));
    FinishKeepsInv(policy, s, c, p);
    RunKeepsInv(policy, next, acts);
    LeftIsLeft(policy, next, c, acts);
    OpenUntilTheEnd(policy, next, s.callers[c].key, acts);
    var t := Run(policy, next, acts);
    assert CallerOk(s, c) && CallerOk(t, c);
    assert FutureOk(t, t.callers[c].future);
  }

  /** The end of the invocation cancels what a broken owner left behind. */
  lemma EndCancelsTheBroken(policy: FailurePolicy, s: State, key: Key, c: nat)
    requires Inv(s) && BrokenOwner(s, key, c) && s.callers[c].owner && Open(s, key)
    ensures var t := Next(policy, s, EndInvocation(key.invocation));
            && key !in t.calls && s.callers[c].future < |t.futures|
            && t.futures[s.callers[c].future].status == Settled(Cancelled)
  {
    assert CallerOk(s, c) && FutureOk(s, s.callers[c].future);
  }

  /** A second request behind a broken owner waits and cannot go on. */
  lemma BrokenOwnerStrandsAWaiter(key: Key, error: ToolError)
    requires !Convertible(error)
    ensures var t := Run(ReturnError, EMPTY, [Arrive(key), Finish(0, Failed(error)), Arrive(key)]);
            BrokenOwner(t, key, 0) && |t.callers| == 2 && t.callers[1].phase.Waiting? && !Enabled(t, Wake(1))
  {
    var s1 := Step(ReturnError, EMPTY, Arrive(key));
    var s2 := Step(ReturnError, s1, Finish(0, Failed(error)));
    var s3 := Step(ReturnError, s2, Arrive(key));
    assert Run(ReturnError, s3, []) == s3;
    assert Run(ReturnError, s2, [Arrive(key)]) == s3;
    assert Run(ReturnError, s1, [Finish(0, Failed(error)), Arrive(key)]) == s3;
  }

  // ---------- The assumption on ids is needed ----------

  /**
   * The one step that can give a key a second live owner is an arrival that finds no entry while an
   * old owner still lives, and that takes an invocation id used again after its end.
   */
  lemma SecondOwnerExactly(policy: FailurePolicy, s: State, a: Action)
    requires OneLiveOwner(s)
    ensures !OneLiveOwner(Step(policy, s, a))
            <==> a.Arrive? && a.key !in s.calls && exists c: nat :: LiveOwner(s, a.key, c)
    ensures Inv(s) && !OneLiveOwner(Step(policy, s, a)) ==> a.Arrive? && !Open(s, a.key)
  {
    var t := Step(policy, s, a);
    if a.Arrive? && a.key !in s.calls {
      forall c: nat | LiveOwner(s, a.key, c) ensures !OneLiveOwner(t) && (Inv(s) ==> !Open(s, a.key)) {
        assert LiveOwner(t, a.key, c) && LiveOwner(t, a.key, |s.callers|);
        if Inv(s) {
          assert CallerOk(s, c);
        }
      }
      if !OneLiveOwner(t) {
        var c: nat, d: nat :| c < |t.callers| && d < |t.callers| && c != d && t.callers[c].phase.Owning?
                              && t.callers[d].phase.Owning? && t.callers[c].key == t.callers[d].key;
        assert LiveOwner(s, a.key, if c < |s.callers| then c else d);
      }
    }
  }

  /**
   * With an invocation id used again after its end, a cancelled old owner removes the entry of the new
   * one and a third caller becomes a second live owner of the same key.
   */
  lemma ReuseGivesTwoOwners(policy: FailurePolicy, key: Key)
    ensures var acts := [Arrive(key), EndInvocation(key.invocation), Arrive(key), Finish(0, Interrupted), Arrive(key)];
            && !NoReuse(policy, EMPTY, acts)
            && LiveOwner(Run(policy, EMPTY, acts), key, 1) && LiveOwner(Run(policy, EMPTY, acts), key, 2)
  {
    var s1 := Step(policy, EMPTY, Arrive(key));
    var s2 := Step(policy, s1, EndInvocation(key.invocation));
    var s3 := Step(policy, s2, Arrive(key));
    var s4 := Step(policy, s3, Finish(0, Interrupted));
    var s5 := Step(policy, s4, Arrive(key));
    assert Run(policy, s5, []) == s5;
    assert Run(policy, s4, [Arrive(key)]) == s5;
    assert Run(policy, s3, [Finish(0, Interrupted), Arrive(key)]) == s5;
    assert Run(policy, s2, [Arrive(key), Finish(0, Interrupted), Arrive(key)]) == s5;
    assert Run(policy, s1, [EndInvocation(key.invocation), Arrive(key), Finish(0, Interrupted), Arrive(key)]) == s5;
    assert !NoReuse(policy, s2, [Arrive(key), Finish(0, Interrupted), Arrive(key)]);
    assert !NoReuse(policy, s1, [EndInvocation(key.invocation), Arrive(key), Finish(0, Interrupted), Arrive(key)]);
  }

  // ---------- The executor ----------

  /** The entries left when the keys not in `todo` have been visited. */
  function Kept(s: State, invocation: string, todo: set<Key>): map<Key, nat> {
    map k | k in s.calls && (k in todo || k.invocation != invocation) :: s.calls[k]
  }

  /** The futures when the keys in `done` have been visited. */
  function Dropped(s: State, invocation: string, done: set<Key>): seq<Future> {
    seq(|s.futures|, i requires 0 <= i < |s.futures| =>
      if Drops(s, invocation, i) && s.futures[i].key in done then Settle(s.futures[i], Cancelled) else s.futures[i])
  }

  lemma KeepOne(s: State, invocation: string, todo: set<Key>, key: Key)
    requires key in s.calls && key in todo
    ensures key in Kept(s, invocation, todo) && Kept(s, invocation, todo)[key] == s.calls[key]
    ensures Kept(s, invocation, todo - {key}) ==
            if key.invocation == invocation then Kept(s, invocation, todo) - {key} else Kept(s, invocation, todo)
  {
  }

  lemma DropOne(s: State, invocation: string, done: set<Key>, key: Key)
    requires key in s.calls && EntryOk(s, key) && key !in done
    ensures Dropped(s, invocation, done)[s.calls[key]] == s.futures[s.calls[key]]
    ensures Dropped(s, invocation, done + {key}) ==
            if key.invocation == invocation
            then Dropped(s, invocation, done)[s.calls[key] := Settle(s.futures[s.calls[key]], Cancelled)]
            else Dropped(s, invocation, done)
  {
  }

  /**
   * The executor with its tables. `callers` stands for the suspended coroutines; each
   * method is the code one coroutine runs between two awaits.
   */
  class ToolExecutor {
    const policy: FailurePolicy
    var calls: map<Key, nat>
    var futures: seq<Future>
    var callers: seq<Caller>
    ghost var ended: set<string>

    ghost function View(): State
      reads this
    {
      State(calls, futures, callers, ended)
    }

    ghost predicate Valid()
      reads this
    {
      Inv(View())
    }

    constructor (policy: FailurePolicy)
      ensures View() == EMPTY && Valid() && this.policy == policy
    {
      this.policy := policy;
      calls, futures, callers, ended := map[], [], [], {};
    }

    /** `execute` up to its first await: become the owner of a new future or a waiter on the old one. */
    method Arrive(key: Key) returns (owner: bool, future: nat)
      requires Valid() && key.invocation !in ended
      modifies this
      ensures Valid()
      ensures old(Enabled(View(), Action.Arrive(key)))
      ensures View() == Next(policy, old(View()), Action.Arrive(key))
      ensures key in calls && future == calls[key] && owner == (key !in old(calls))
    {
      ghost var t := Next(policy, View(), Action.Arrive(key));
      assert key in calls ==> EntryOk(View(), key);
      ArriveKeepsInv(policy, View(), key);
      owner := key !in calls;
      if owner {
        future := |futures|;
        futures := futures + [Future(key, |callers|, Pending)];
        calls := calls[key := future];
        callers := callers + [Caller(key, future, true, false, Owning)];
      } else {
        future := calls[key];
        var status := futures[future].status;
        var phase := if status.Settled? then Left(status.outcome) else Waiting;
        callers := callers + [Caller(key, future, false, false, phase)];
      }
      assert calls == t.calls && futures == t.futures && callers == t.callers;
    }

    /** The owner's code after its pipeline has ended, in each of the handler's branches. */
    method FinishOwner(caller: nat, key: Key, future: nat, pipeline: Pipeline) returns (outcome: Outcome)
      requires Valid() && Enabled(View(), Finish(caller, pipeline))
      requires callers[caller].key == key && callers[caller].future == future
      modifies this
      ensures Valid()
      ensures View() == Next(policy, old(View()), Finish(caller, pipeline))
      ensures callers[caller].phase == Left(outcome)
    {
      ghost var t := Next(policy, View(), Finish(caller, pipeline));
      FinishKeepsInv(policy, View(), caller, pipeline);
      var pending := futures[future].status.Pending?;
      match pipeline {
        case Interrupted =>
          outcome := Cancelled;
          if pending {
            futures := futures[future := futures[future].(status := Settled(Cancelled))];
          }
          calls := calls - {key};
        case Completed(result) =>
          outcome := Returned(result);
          if pending {
            futures := futures[future := futures[future].(status := Settled(outcome))];
          }
        case Failed(error) =>
          if policy == Raise {
            outcome := Raised(error);
            if pending {
              futures := futures[future := futures[future].(status := Settled(outcome))];
            }
          } else {
            var result := ErrorResult(error);
            if result.Some? {
              outcome := Returned(result.value);
              if pending {
                futures := futures[future := futures[future].(status := Settled(outcome))];
              }
            } else {
              outcome := Broken;
            }
          }
      }
      callers := callers[caller := callers[caller].(phase := Left(outcome))];
      assert calls == t.calls && futures == t.futures && callers == t.callers;
    }

    /** A waiter resumes once the future it shields is resolved. */
    method WakeWaiter(caller: nat, future: nat) returns (outcome: Outcome)
      requires Valid() && Enabled(View(), Wake(caller)) && callers[caller].future == future
      modifies this
      ensures Valid()
      ensures View() == Next(policy, old(View()), Wake(caller))
      ensures callers[caller].phase == Left(outcome) && calls == old(calls) && futures == old(futures)
    {
      LeaveKeepsInv(policy, View(), Wake(caller));
      outcome := futures[future].status.outcome;
      callers := callers[caller := callers[caller].(phase := Left(outcome))];
    }

    /** Cancelling a waiter cancels the shield around the future and nothing else. */
    method CancelWaiter(caller: nat)
      requires Valid() && Enabled(View(), Action.CancelWaiter(caller))
      modifies this
      ensures Valid()
      ensures View() == Next(policy, old(View()), Action.CancelWaiter(caller))
      ensures calls == old(calls) && futures == old(futures)
    {
      LeaveKeepsInv(policy, View(), Action.CancelWaiter(caller));
      callers := callers[caller := callers[caller].(dropped := true, phase := Left(Cancelled))];
    }

    /** The loop of `end_invocation` over a copy of the keys, popping and cancelling. */
    method ReleaseCalls(invocation: string)
      requires forall k | k in calls :: EntryOk(View(), k)
      modifies `calls, `futures
      ensures calls == Kept(old(View()), invocation, {})
      ensures futures == Dropped(old(View()), invocation, old(calls).Keys)
    {
      ghost var s := View();
      var todo := calls.Keys;
      assert futures == Dropped(s, invocation, {});
      while todo != {}
        invariant todo <= s.calls.Keys
        invariant calls == Kept(s, invocation, todo)
        invariant futures == Dropped(s, invocation, s.calls.Keys - todo)
        decreases todo
      {
        var key :| key in todo;
        ghost var done := s.calls.Keys - todo;
        DropOne(s, invocation, done, key);
        KeepOne(s, invocation, todo, key);
        todo := todo - {key};
        assert s.calls.Keys - todo == done + {key};
        if key.invocation == invocation {
          var future := calls[key];
          calls := calls - {key};
          futures := futures[future := Settle(futures[future], Cancelled)];
        }
      }
      assert s.calls.Keys - todo == s.calls.Keys;
    }

    method EndInvocation(invocation: string)
      requires Valid()
      modifies this
      ensures Valid()
      ensures View() == Next(policy, old(View()), Action.EndInvocation(invocation))
    {
      EndKeepsInv(policy, View(), invocation);
      ghost var t := Next(policy, View(), Action.EndInvocation(invocation));
      ReleaseCalls(invocation);
      ended := ended + {invocation};
      assert calls == t.calls && futures == t.futures;
    }
  }
}
