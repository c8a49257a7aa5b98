/**
 * Fan-out of events to observers, serialised per invocation by locks that live in a dict until the
 * invocation's terminal event. One action is one stretch of code between two awaits. First the transition
 * function, then what holds in every run, then the bus, whose methods take exactly those transitions.
 */
module EventBus {
  import opened Options

  /** `key` is what the bus derives from the invocation id or, without one, from the runtime. */
  datatype Event = Event(key: string, invocation: Option<string>, id: string, terminal: bool)

  /** `Fanning(o)`: the enabled observer number `o` has been called and has not returned. */
  datatype Phase = Queued | Fanning(observer: nat) | Returned

  /** One call of `emit` and the lock object it took from the dict. */
  datatype Emission = Emission(event: Event, lock: nat, phase: Phase)

  /** An `asyncio.Lock`: whoever waits is served in order, and nobody overtakes. */
  datatype Lock = Lock(key: string, holder: Option<nat>, queue: seq<nat>)

  datatype Call = Call(observer: nat, key: string, id: string)

  datatype State = State(
    locks: map<string, nat>,
    heap: seq<Lock>,
    emits: seq<Emission>,
    seen: set<(string, string)>,
    calls: seq<Call>,
    diagnosed: seq<(nat, Option<string>)>)

  /** A called observer is done when it returns, raises or runs into the timeout. */
  datatype Action = Start(event: Event) | Grant(lock: nat) | Done(emit: nat, failed: bool)

  const EMPTY := State(map[], [], [], {}, [], [])

  // ---------- The transitions; `n` is the number of enabled observers ----------

  predicate Enabled(s: State, a: Action) {
    match a
    case Start(e) => e.key in s.locks ==> s.locks[e.key] < |s.heap|
    case Grant(l) =>
      && l < |s.heap| && s.heap[l].holder.None? && s.heap[l].queue != []
      && s.heap[l].queue[0] < |s.emits| && s.emits[s.heap[l].queue[0]].lock == l
    case Done(i, _) => i < |s.emits| && s.emits[i].phase.Fanning? && s.emits[i].lock < |s.heap|
  }

  /** `setdefault`: the key's lock, made when there is none. */
  function WithLock(s: State, key: string): State {
    if key in s.locks then s
    else s.(locks := s.locks[key := |s.heap|], heap := s.heap + [Lock(key, None, [])])
  }

  /** The end of `emit`: a terminal event drops the dict's lock, then the lock itself is released. */
  function Leave(s: State, i: nat): State
    requires i < |s.emits| && s.emits[i].lock < |s.heap|
  {
    var e := s.emits[i];
    s.(locks := if e.event.terminal then s.locks - {e.event.key} else s.locks,
       heap := s.heap[e.lock := s.heap[e.lock].(holder := None)],
       emits := s.emits[i := e.(phase := Returned)])
  }

  function CallObserver(s: State, i: nat, o: nat): State
    requires i < |s.emits|
  {
    var e := s.emits[i];
    s.(emits := s.emits[i := e.(phase := Fanning(o))], calls := s.calls + [Call(o, e.event.key, e.event.id)])
  }

  /** The lock is acquired: an event that was seen before returns, a new one goes to the observers. */
  function Enter(n: nat, s: State, i: nat): State
    requires i < |s.emits| && s.emits[i].lock < |s.heap|
  {
    var e := s.emits[i].event;
    if (e.key, e.id) in s.seen then Leave(s, i)
    else
      var l := s.emits[i].lock;
      var t := s.(seen := s.seen + {(e.key, e.id)}, heap := s.heap[l := s.heap[l].(holder := Some(i))]);
      if n == 0 then Leave(t, i) else CallObserver(t, i, 0)
  }

  /** One diagnostic for each observer and invocation, however often the observer fails. */
  function Diagnose(s: State, o: nat, invocation: Option<string>): State {
    if (o, invocation) in s.diagnosed then s else s.(diagnosed := s.diagnosed + [(o, invocation)])
  }

  function Next(n: nat, s: State, a: Action): State
    requires Enabled(s, a)
  {
    match a
    case Start(e) =>
      var t := WithLock(s, e.key);
      var l := t.locks[e.key];
      var i := |t.emits|;
      var u := t.(emits := t.emits + [Emission(e, l, Queued)]);
      if t.heap[l].holder.None? && t.heap[l].queue == [] then Enter(n, u, i)
      else u.(heap := u.heap[l := u.heap[l].(queue := u.heap[l].queue + [i])])
    case Grant(l) =>
      var i := s.heap[l].queue[0];
      var t := s.(heap := s.heap[l := s.heap[l].(queue := s.heap[l].queue[1..])]);
      Enter(n, t, i)
    case Done(i, failed) =>
      var o := s.emits[i].phase.observer;
      var t := if failed then Diagnose(s, o, s.emits[i].event.invocation) else s;
      if o + 1 < n then CallObserver(t, i, o + 1) else Leave(t, i)
  }

  /** An action that is not enabled does not happen. */
  function Step(n: nat, s: State, a: Action): State {
    if Enabled(s, a) then Next(n, s, a) else s
  }

  function Run(n: nat, s: State, acts: seq<Action>): State
    decreases |acts|
  {
    if acts == [] then s else Run(n, Step(n, s, acts[0]), acts[1..])
  }

  predicate Pending(s: State, i: int, key: string) {
    0 <= i < |s.emits| && s.emits[i].event.key == key && !s.emits[i].phase.Returned?
  }

  /** An emit starts while the dict still has its invocation's lock, or when no earlier one is on its way. */
  predicate Timely(s: State, a: Action) {
    a.Start? ==> a.event.key in s.locks || forall i | 0 <= i < |s.emits| :: !Pending(s, i, a.event.key)
  }

  predicate AllTimely(n: nat, s: State, acts: seq<Action>)
    decreases |acts|
  {
    acts != [] ==> Timely(s, acts[0]) && AllTimely(n, Step(n, s, acts[0]), acts[1..])
  }

  // ---------- What observers see ----------

  /** The ids of an invocation's emits that have had the lock, in the order the emits were started. */
  function Served(emits: seq<Emission>, key: string): seq<string> {
    if emits == [] then []
    else
      var last := emits[|emits| - 1];
      Served(emits[..|emits| - 1], key)
      + (if last.event.key == key && !last.phase.Queued? then [last.event.id] else [])
  }

  /** Each element once, where it occurs first. */
  function Firsts(ids: seq<string>): seq<string> {
    if ids == [] then []
    else
      var front, last := ids[..|ids| - 1], ids[|ids| - 1];
      Firsts(front) + (if last in front then [] else [last])
  }

  /** The event ids one observer was called with for one invocation. */
  function Seen(calls: seq<Call>, o: nat, key: string): seq<string> {
    if calls == [] then []
    else
      var last := calls[|calls| - 1];
      Seen(calls[..|calls| - 1], o, key) + (if last.observer == o && last.key == key then [last.id] else [])
  }

  lemma {:induction false} FirstsAreDistinct(ids: seq<string>)
    ensures forall x :: x in Firsts(ids) <==> x in ids
    ensures forall i, j | 0 <= i < j < |Firsts(ids)| :: Firsts(ids)[i] != Firsts(ids)[j]
  {
    if ids != [] {
      var front, last := ids[..|ids| - 1], ids[|ids| - 1];
      FirstsAreDistinct(front);
      assert forall x :: x in ids <==> x in front || x == last;
    }
  }

  lemma FirstsOfOneMore(ids: seq<string>, x: string)
    ensures Firsts(ids + [x]) == Firsts(ids) + (if x in ids then [] else [x])
  {
    assert (ids + [x])[..|ids|] == ids;
  }

  lemma SeenOneMore(calls: seq<Call>, c: Call, o: nat, key: string)
    ensures Seen(calls + [c], o, key) == Seen(calls, o, key) + (if c.observer == o && c.key == key then [c.id] else [])
  {
    assert (calls + [c])[..|calls|] == calls;
  }

  lemma ServedOneMore(emits: seq<Emission>, e: Emission, key: string)
    ensures Served(emits + [e], key)
         == Served(emits, key) + (if e.event.key == key && !e.phase.Queued? then [e.event.id] else [])
  {
    assert (emits + [e])[..|emits|] == emits;
  }

  /** Only whether an emit is queued matters. */
  lemma {:induction false} ServedSame(a: seq<Emission>, b: seq<Emission>, key: string)
    requires |a| == |b|
    requires forall i | 0 <= i < |a| && a[i].event.key == key ::
               a[i].event == b[i].event && (a[i].phase.Queued? <==> b[i].phase.Queued?)
    requires forall i | 0 <= i < |a| && b[i].event.key == key :: a[i].event.key == key
    ensures Served(a, key) == Served(b, key)
  {
    if a != [] {
      ServedSame(a[..|a| - 1], b[..|b| - 1], key);
    }
  }

  /** The first of the queued emits gets the lock. */
  lemma {:induction false} ServedNext(emits: seq<Emission>, i: nat, phase: Phase)
    requires i < |emits| && emits[i].phase.Queued? && !phase.Queued?
    requires forall j | i < j < |emits| && emits[j].event.key == emits[i].event.key :: emits[j].phase.Queued?
    ensures var key := emits[i].event.key;
            Served(emits[i := emits[i].(phase := phase)], key) == Served(emits, key) + [emits[i].event.id]
    decreases |emits|
  {
    var m := |emits| - 1;
    var after := emits[i := emits[i].(phase := phase)];
    if i == m {
      assert after[..m] == emits[..m];
    } else {
      ServedNext(emits[..m], i, phase);
      assert after[..m] == emits[..m][i := emits[i].(phase := phase)];
      assert after[m] == emits[m];
    }
  }

  // ---------- The invariant ----------

  predicate LockOk(s: State, l: nat)
    requires l < |s.heap|
  {
    var k := s.heap[l];
    && (k.holder.Some? ==> k.holder.value < |s.emits| && s.emits[k.holder.value].lock == l
                           && s.emits[k.holder.value].phase.Fanning?)
    && (forall p, q | 0 <= p < q < |k.queue| :: k.queue[p] < k.queue[q])
    && (forall i | i in k.queue :: i < |s.emits| && s.emits[i].lock == l && s.emits[i].phase.Queued?)
  }

  predicate EmitOk(n: nat, s: State, i: nat)
    requires i < |s.emits|
  {
    var e := s.emits[i];
    && e.lock < |s.heap|
    && s.heap[e.lock].key == e.event.key
    && (e.phase.Fanning? ==> e.phase.observer < n && s.heap[e.lock].holder == Some(i))
    && (e.phase.Queued? ==> i in s.heap[e.lock].queue)
  }

  /** What holds in every run, late starts or not. */
  predicate Local(n: nat, s: State) {
    && (forall l | 0 <= l < |s.heap| :: LockOk(s, l))
    && (forall i | 0 <= i < |s.emits| :: EmitOk(n, s, i))
    && (forall k | k in s.locks :: s.locks[k] < |s.heap| && s.heap[s.locks[k]].key == k)
  }

  /** All emits of an invocation that are on their way use one lock, the dict's if it has one. */
  predicate OneLock(s: State) {
    && (forall i, j | 0 <= i < |s.emits| && 0 <= j < |s.emits| && s.emits[i].event.key == s.emits[j].event.key
                      && !s.emits[i].phase.Returned? && !s.emits[j].phase.Returned? ::
          s.emits[i].lock == s.emits[j].lock)
    && (forall i | 0 <= i < |s.emits| && !s.emits[i].phase.Returned? && s.emits[i].event.key in s.locks ::
          s.emits[i].lock == s.locks[s.emits[i].event.key])
  }

  /** Nobody is served before an earlier emit of the invocation. */
  predicate InOrder(s: State) {
    forall i, j | 0 <= i < j < |s.emits| && s.emits[i].event.key == s.emits[j].event.key ::
      s.emits[i].phase.Queued? ==> s.emits[j].phase.Queued?
  }

  predicate Shape(n: nat, s: State) {
    Local(n, s) && OneLock(s) && InOrder(s)
  }

  predicate IsFanning(s: State, i: int, key: string) {
    0 <= i < |s.emits| && s.emits[i].phase.Fanning? && s.emits[i].event.key == key
  }

  /** The event of the fan-out under way has not reached the observers behind the current one. */
  ghost predicate Lags(s: State, key: string, o: nat) {
    exists i :: IsFanning(s, i, key) && s.emits[i].phase.observer < o
  }

  ghost predicate LogOk(n: nat, s: State, key: string) {
    var ids := Firsts(Served(s.emits, key));
    && (forall id :: (key, id) in s.seen <==> id in Served(s.emits, key))
    && (forall i | IsFanning(s, i, key) :: ids != [] && ids[|ids| - 1] == s.emits[i].event.id)
    && (forall o: nat | o < n :: if Lags(s, key, o) then ids != [] && Seen(s.calls, o, key) == ids[..|ids| - 1]
                                 else Seen(s.calls, o, key) == ids)
  }

  ghost predicate Inv(n: nat, s: State) {
    Shape(n, s) && forall key :: LogOk(n, s, key)
  }

  lemma WithLockKeepsLocal(n: nat, s: State, key: string)
    requires Local(n, s)
    ensures Local(n, WithLock(s, key)) && key in WithLock(s, key).locks
  {
    var t := WithLock(s, key);
    forall l | 0 <= l < |t.heap| ensures LockOk(t, l) {
      assert l < |s.heap| ==> LockOk(s, l);
    }
    forall i | 0 <= i < |t.emits| ensures EmitOk(n, t, i) {
      assert EmitOk(n, s, i);
    }
  }

  lemma WithLockKeepsInv(n: nat, s: State, e: Event)
    requires Inv(n, s) && Timely(s, Start(e))
    ensures Inv(n, WithLock(s, e.key)) && e.key in WithLock(s, e.key).locks
  {
    var t := WithLock(s, e.key);
    WithLockKeepsLocal(n, s, e.key);
    assert forall i | 0 <= i < |s.emits| && s.emits[i].event.key == e.key && e.key !in s.locks :: !Pending(s, i, e.key);
    forall k ensures LogOk(n, t, k) {
      assert LogOk(n, s, k);
      SameLog(n, s, t, k);
    }
  }

  lemma SameLags(s: State, t: State, key: string)
    requires |s.emits| <= |t.emits|
    requires forall i :: IsFanning(t, i, key) <==> IsFanning(s, i, key)
    requires forall i | IsFanning(s, i, key) :: t.emits[i] == s.emits[i]
    ensures forall o: nat :: Lags(t, key, o) <==> Lags(s, key, o)
  {
  }

  /** The log of an invocation does not depend on anything else. */
  lemma SameLog(n: nat, s: State, t: State, key: string)
    requires LogOk(n, s, key)
    requires |s.emits| <= |t.emits| && Served(t.emits, key) == Served(s.emits, key)
    requires forall i :: IsFanning(t, i, key) <==> IsFanning(s, i, key)
    requires forall i | IsFanning(s, i, key) :: t.emits[i] == s.emits[i]
    requires forall id :: (key, id) in t.seen <==> (key, id) in s.seen
    requires forall o :: Seen(t.calls, o, key) == Seen(s.calls, o, key)
    ensures LogOk(n, t, key)
  {
    SameLags(s, t, key);
  }

  /** A caller joins the queue of its invocation's lock. */
  function Join(s: State, e: Event): State
    requires e.key in s.locks && s.locks[e.key] < |s.heap|
  {
    var l := s.locks[e.key];
    s.(emits := s.emits + [Emission(e, l, Queued)],
       heap := s.heap[l := s.heap[l].(queue := s.heap[l].queue + [|s.emits|])])
  }

  lemma JoinKeepsLock(s: State, e: Event, l: nat)
    requires e.key in s.locks && s.locks[e.key] < |s.heap| && l < |s.heap| && LockOk(s, l)
    ensures LockOk(Join(s, e), l)
  {
    var queue := s.heap[l].queue;
    assert forall p | 0 <= p < |queue| :: queue[p] in queue;
  }

  lemma JoinKeepsLocal(n: nat, s: State, e: Event)
    requires Local(n, s) && e.key in s.locks
    ensures Local(n, Join(s, e))
  {
    var t := Join(s, e);
    forall l | 0 <= l < |t.heap| ensures LockOk(t, l) {
      JoinKeepsLock(s, e, l);
    }
    forall i | 0 <= i < |t.emits| ensures EmitOk(n, t, i) {
      assert i < |s.emits| ==> EmitOk(n, s, i);
    }
  }

  lemma JoinKeepsLog(n: nat, s: State, e: Event, key: string)
    requires e.key in s.locks && s.locks[e.key] < |s.heap| && LogOk(n, s, key)
    ensures LogOk(n, Join(s, e), key)
  {
    var t := Join(s, e);
    ServedOneMore(s.emits, t.emits[|s.emits|], key);
    assert forall i :: IsFanning(t, i, key) <==> IsFanning(s, i, key);
    SameLog(n, s, t, key);
  }

  lemma JoinKeepsInv(n: nat, s: State, e: Event)
    requires Inv(n, s) && e.key in s.locks
    ensures Inv(n, Join(s, e))
  {
    JoinKeepsLocal(n, s, e);
    forall k ensures LogOk(n, Join(s, e), k) {
      JoinKeepsLog(n, s, e, k);
    }
  }

  /** The head of a free lock's queue waits for that lock, and only once. */
  lemma HeadWaits(n: nat, s: State, l: nat)
    requires Local(n, s) && l < |s.heap| && s.heap[l].queue != []
    ensures var i := s.heap[l].queue[0];
            && i < |s.emits| && s.emits[i].lock == l && s.emits[i].phase.Queued?
            && s.emits[i].event.key == s.heap[l].key && i !in s.heap[l].queue[1..]
  {
    var i := s.heap[l].queue[0];
    assert LockOk(s, l) && i in s.heap[l].queue;
    assert EmitOk(n, s, i);
  }

  /** It is the first emit of its invocation that is queued, and none is being fanned out. */
  lemma HeadIsFirst(n: nat, s: State, l: nat)
    requires Shape(n, s) && Enabled(s, Grant(l))
    ensures var i := s.heap[l].queue[0];
            forall j | 0 <= j < |s.emits| && s.emits[j].event.key == s.heap[l].key ::
              !s.emits[j].phase.Fanning? && (s.emits[j].phase.Queued? <==> i <= j)
  {
    var i := s.heap[l].queue[0];
    HeadWaits(n, s, l);
    assert LockOk(s, l);
    forall j | 0 <= j < |s.emits| && s.emits[j].event.key == s.heap[l].key
      ensures !s.emits[j].phase.Fanning? && (s.emits[j].phase.Queued? <==> i <= j)
    {
      assert EmitOk(n, s, j);
      assert !s.emits[j].phase.Returned? ==> s.emits[j].lock == l;
      assert s.emits[j].phase.Queued? ==> j in s.heap[l].queue;
    }
  }

  /** The head of a queue was served, and goes on to an observer or returns. */
  predicate ServedHead(n: nat, s: State, t: State, l: nat, phase: Phase)
    requires Enabled(s, Grant(l))
  {
    var i := s.heap[l].queue[0];
    && (phase == Returned || (phase == Fanning(0) && n > 0))
    && t.emits == s.emits[i := s.emits[i].(phase := phase)]
    && t.heap == s.heap[l := Lock(s.heap[l].key, if phase.Fanning? then Some(i) else None, s.heap[l].queue[1..])]
    && Dropped(s, t, s.emits[i].event, phase.Returned?)
  }

  lemma ServeKeepsLocal(n: nat, s: State, t: State, l: nat, phase: Phase)
    requires Local(n, s) && Enabled(s, Grant(l)) && ServedHead(n, s, t, l, phase)
    ensures Local(n, t)
  {
    var i := s.heap[l].queue[0];
    HeadWaits(n, s, l);
    assert LockOk(s, l);
    forall m | 0 <= m < |t.heap| ensures LockOk(t, m) {
      assert LockOk(s, m);
      assert forall j | j in s.heap[l].queue[1..] :: j != i && j in s.heap[l].queue;
    }
    forall j | 0 <= j < |t.emits| ensures EmitOk(n, t, j) {
      assert EmitOk(n, s, j);
      assert s.heap[l].queue == [i] + s.heap[l].queue[1..];
    }
  }

  lemma ServeKeepsShape(n: nat, s: State, t: State, l: nat, phase: Phase)
    requires Shape(n, s) && Enabled(s, Grant(l)) && ServedHead(n, s, t, l, phase)
    ensures Shape(n, t)
  {
    HeadWaits(n, s, l);
    HeadIsFirst(n, s, l);
    ServeKeepsLocal(n, s, t, l, phase);
  }

  /** The dict of locks when an emit does or does not leave. */
  predicate Dropped(s: State, t: State, e: Event, leaves: bool) {
    t.locks == if e.terminal && leaves then s.locks - {e.key} else s.locks
  }

  /** Other invocations do not notice. */
  lemma OtherLogs(n: nat, s: State, t: State, i: nat, phase: Phase, key: string)
    requires LogOk(n, s, key) && i < |s.emits| && s.emits[i].event.key != key
    requires t.emits == s.emits[i := s.emits[i].(phase := phase)]
    requires forall id :: (key, id) in t.seen <==> (key, id) in s.seen
    requires forall o :: Seen(t.calls, o, key) == Seen(s.calls, o, key)
    ensures LogOk(n, t, key)
  {
    ServedSame(s.emits, t.emits, key);
    SameLog(n, s, t, key);
  }

  lemma GrantKeepsInv(n: nat, s: State, l: nat)
    requires Inv(n, s) && Enabled(s, Grant(l))
    ensures Inv(n, Next(n, s, Grant(l)))
  {
    var t := Next(n, s, Grant(l));
    var i := s.heap[l].queue[0];
    var e := s.emits[i].event;
    HeadWaits(n, s, l);
    HeadIsFirst(n, s, l);
    var isNew := (e.key, e.id) !in s.seen;
    var phase := if isNew && n > 0 then Fanning(0) else Returned;
    ServeKeepsShape(n, s, t, l, phase);
    ServedNext(s.emits, i, phase);
    FirstsOfOneMore(Served(s.emits, e.key), e.id);
    assert LogOk(n, s, e.key);
    if phase.Fanning? {
      forall o, k ensures Seen(t.calls, o, k) == Seen(s.calls, o, k) + (if o == 0 && k == e.key then [e.id] else []) {
        SeenOneMore(s.calls, Call(0, e.key, e.id), o, k);
      }
    }
    forall k ensures LogOk(n, t, k) {
      if k == e.key {
        ServedLog(n, s, t, i, phase);
      } else {
        assert LogOk(n, s, k);
        OtherLogs(n, s, t, i, phase, k);
      }
    }
  }

  lemma ServedLog(n: nat, s: State, t: State, i: nat, phase: Phase)
    requires i < |s.emits| && LogOk(n, s, s.emits[i].event.key)
    requires phase == Returned || (phase == Fanning(0) && n > 0)
    requires t.emits == s.emits[i := s.emits[i].(phase := phase)]
    requires forall j :: !IsFanning(s, j, s.emits[i].event.key)
    requires var e := s.emits[i].event;
             && Served(t.emits, e.key) == Served(s.emits, e.key) + [e.id]
             && (phase.Fanning? <==> (e.key, e.id) !in s.seen && n > 0)
             && t.seen == s.seen + {(e.key, e.id)}
             && (forall o :: Seen(t.calls, o, e.key)
                   == Seen(s.calls, o, e.key) + (if o == 0 && phase.Fanning? then [e.id] else []))
    ensures LogOk(n, t, s.emits[i].event.key)
  {
    var e := s.emits[i].event;
    var before, after := Firsts(Served(s.emits, e.key)), Firsts(Served(t.emits, e.key));
    FirstsOfOneMore(Served(s.emits, e.key), e.id);
    assert IsFanning(t, i, e.key) <==> phase.Fanning?;
    assert forall j | IsFanning(t, j, e.key) && j != i :: IsFanning(s, j, e.key);
    forall o: nat | o < n
      ensures if Lags(t, e.key, o) then after != [] && Seen(t.calls, o, e.key) == after[..|after| - 1]
              else Seen(t.calls, o, e.key) == after
    {
      assert !Lags(s, e.key, o);
      assert Seen(s.calls, o, e.key) == before;
      if phase.Fanning? {
        assert after == before + [e.id];
        assert Lags(t, e.key, o) <==> o > 0;
      }
    }
  }

  // ---------- An observer is done ----------

  lemma FanningIsAlone(n: nat, s: State, i: nat)
    requires Shape(n, s) && i < |s.emits| && s.emits[i].phase.Fanning?
    ensures forall j | IsFanning(s, j, s.emits[i].event.key) :: j == i
  {
    assert EmitOk(n, s, i);
    forall j | IsFanning(s, j, s.emits[i].event.key) ensures j == i {
      assert EmitOk(n, s, j);
    }
  }

  /** An observer is done, and its emit goes on to the next one or returns. */
  predicate Moved(n: nat, s: State, t: State, i: nat, phase: Phase)
    requires i < |s.emits| && s.emits[i].lock < |s.heap|
  {
    var l := s.emits[i].lock;
    && (phase == Returned || (phase.Fanning? && phase.observer < n))
    && t.emits == s.emits[i := s.emits[i].(phase := phase)]
    && t.heap == (if phase.Returned? then s.heap[l := s.heap[l].(holder := None)] else s.heap)
    && Dropped(s, t, s.emits[i].event, phase.Returned?)
  }

  lemma MoveKeepsLocal(n: nat, s: State, t: State, i: nat, phase: Phase)
    requires Local(n, s) && Enabled(s, Done(i, false)) && Moved(n, s, t, i, phase)
    ensures Local(n, t)
  {
    assert EmitOk(n, s, i);
    forall m | 0 <= m < |t.heap| ensures LockOk(t, m) {
      assert LockOk(s, m);
    }
    forall j | 0 <= j < |t.emits| ensures EmitOk(n, t, j) {
      assert EmitOk(n, s, j);
    }
  }

  lemma MoveKeepsShape(n: nat, s: State, t: State, i: nat, phase: Phase)
    requires Shape(n, s) && Enabled(s, Done(i, false)) && Moved(n, s, t, i, phase)
    ensures Shape(n, t)
  {
    MoveKeepsLocal(n, s, t, i, phase);
  }

  lemma MovedLog(n: nat, s: State, t: State, i: nat, phase: Phase)
    requires i < |s.emits| && LogOk(n, s, s.emits[i].event.key)
    requires s.emits[i].phase.Fanning? && forall j | IsFanning(s, j, s.emits[i].event.key) :: j == i
    requires s.emits[i].phase.observer < n
    requires var o := s.emits[i].phase.observer;
             if o + 1 < n then phase == Fanning(o + 1) else phase == Returned
    requires t.emits == s.emits[i := s.emits[i].(phase := phase)] && t.seen == s.seen
    requires var e := s.emits[i].event;
             forall o :: Seen(t.calls, o, e.key)
               == Seen(s.calls, o, e.key) + (if phase == Fanning(o) then [e.id] else [])
    ensures LogOk(n, t, s.emits[i].event.key)
  {
    var e := s.emits[i].event;
    ServedSame(s.emits, t.emits, e.key);
    var ids := Firsts(Served(s.emits, e.key));
    assert IsFanning(s, i, e.key);
    assert IsFanning(t, i, e.key) <==> phase.Fanning?;
    assert forall j | IsFanning(t, j, e.key) :: j == i by {
      forall j | IsFanning(t, j, e.key) ensures j == i {
        assert j != i ==> IsFanning(s, j, e.key);
      }
    }
    assert ids == ids[..|ids| - 1] + [e.id];
    forall o: nat | o < n
      ensures if Lags(t, e.key, o) then Seen(t.calls, o, e.key) == ids[..|ids| - 1] else Seen(t.calls, o, e.key) == ids
    {
      assert Lags(s, e.key, o) <==> s.emits[i].phase.observer < o;
      assert Lags(t, e.key, o) <==> phase.Fanning? && phase.observer < o;
    }
  }

  function PhaseAfter(n: nat, s: State, i: nat): Phase
    requires i < |s.emits| && s.emits[i].phase.Fanning?
  {
    var o := s.emits[i].phase.observer;
    if o + 1 < n then Fanning(o + 1) else Returned
  }

  lemma DoneMoves(n: nat, s: State, i: nat, failed: bool)
    requires Local(n, s) && Enabled(s, Done(i, failed))
    ensures var t, e, phase := Next(n, s, Done(i, failed)), s.emits[i].event, PhaseAfter(n, s, i);
            && Moved(n, s, t, i, phase) && t.seen == s.seen
            && (forall o, k :: Seen(t.calls, o, k)
                  == Seen(s.calls, o, k) + (if phase == Fanning(o) && k == e.key then [e.id] else []))
  {
    var t, e, phase := Next(n, s, Done(i, failed)), s.emits[i].event, PhaseAfter(n, s, i);
    assert EmitOk(n, s, i);
    if phase.Fanning? {
      forall o, k ensures Seen(t.calls, o, k)
          == Seen(s.calls, o, k) + (if phase == Fanning(o) && k == e.key then [e.id] else [])
      {
        SeenOneMore(s.calls, Call(phase.observer, e.key, e.id), o, k);
      }
    }
  }

  lemma DoneKeepsInv(n: nat, s: State, i: nat, failed: bool)
    requires Inv(n, s) && Enabled(s, Done(i, failed))
    ensures Inv(n, Next(n, s, Done(i, failed)))
  {
    var t, phase := Next(n, s, Done(i, failed)), PhaseAfter(n, s, i);
    DoneMoves(n, s, i, failed);
    MoveKeepsShape(n, s, t, i, phase);
    forall k ensures LogOk(n, t, k) {
      DoneKeepsLog(n, s, t, i, k);
    }
  }

  lemma DoneKeepsLog(n: nat, s: State, t: State, i: nat, key: string)
    requires Shape(n, s) && LogOk(n, s, key) && Enabled(s, Done(i, false)) && t.seen == s.seen
    requires Moved(n, s, t, i, PhaseAfter(n, s, i))
    requires forall o, k :: Seen(t.calls, o, k) == Seen(s.calls, o, k)
               + (if PhaseAfter(n, s, i) == Fanning(o) && k == s.emits[i].event.key then [s.emits[i].event.id] else [])
    ensures LogOk(n, t, key)
  {
    if key == s.emits[i].event.key {
      assert EmitOk(n, s, i);
      FanningIsAlone(n, s, i);
      MovedLog(n, s, t, i, PhaseAfter(n, s, i));
    } else {
      OtherLogs(n, s, t, i, PhaseAfter(n, s, i), key);
    }
  }

  // ---------- All steps, all runs ----------

  /** A caller that finds the lock free does what one does that joins an empty queue and is served at once. */
  lemma UncontendedStart(n: nat, s: State, e: Event)
    requires e.key in s.locks && s.locks[e.key] < |s.heap|
    requires s.heap[s.locks[e.key]].holder.None? && s.heap[s.locks[e.key]].queue == []
    ensures Enabled(Join(s, e), Grant(s.locks[e.key]))
    ensures Next(n, s, Start(e)) == Next(n, Join(s, e), Grant(s.locks[e.key]))
  {
    var l := s.locks[e.key];
    var t := Join(s, e);
    assert t.heap[l].queue == [|s.emits|];
    var popped := t.heap[l := t.heap[l].(queue := t.heap[l].queue[1..])];
    assert popped[l] == s.heap[l];
    assert popped == s.heap;
  }

  lemma GrantKeepsLocal(n: nat, s: State, l: nat)
    requires Local(n, s) && Enabled(s, Grant(l))
    ensures Local(n, Next(n, s, Grant(l)))
  {
    var e := s.emits[s.heap[l].queue[0]].event;
    var phase := if (e.key, e.id) !in s.seen && n > 0 then Fanning(0) else Returned;
    HeadWaits(n, s, l);
    ServeKeepsLocal(n, s, Next(n, s, Grant(l)), l, phase);
  }

  /** No start needs to be timely for the local part of the invariant. */
  lemma StepKeepsLocal(n: nat, s: State, a: Action)
    requires Local(n, s)
    ensures Local(n, Step(n, s, a))
  {
    if Enabled(s, a) {
      match a
      case Start(e) =>
        var t := WithLock(s, e.key);
        var l := t.locks[e.key];
        WithLockKeepsLocal(n, s, e.key);
        JoinKeepsLocal(n, t, e);
        assert Next(n, s, Start(e)) == Next(n, t, Start(e));
        if t.heap[l].holder.None? && t.heap[l].queue == [] {
          UncontendedStart(n, t, e);
          GrantKeepsLocal(n, Join(t, e), l);
        }
      case Grant(l) => GrantKeepsLocal(n, s, l);
      case Done(i, failed) =>
        assert EmitOk(n, s, i);
        var o := s.emits[i].phase.observer;
        MoveKeepsLocal(n, s, Next(n, s, a), i, if o + 1 < n then Fanning(o + 1) else Returned);
    }
  }

  lemma {:induction false} RunKeepsLocal(n: nat, s: State, acts: seq<Action>)
    requires Local(n, s)
    ensures Local(n, Run(n, s, acts))
    decreases |acts|
  {
    if acts != [] {
      StepKeepsLocal(n, s, acts[0]);
      RunKeepsLocal(n, Step(n, s, acts[0]), acts[1..]);
    }
  }

  lemma StartKeepsInv(n: nat, s: State, e: Event)
    requires Inv(n, s) && Timely(s, Start(e))
    ensures Inv(n, Step(n, s, Start(e)))
  {
    var t := WithLock(s, e.key);
    WithLockKeepsInv(n, s, e);
    JoinKeepsInv(n, t, e);
    var l := t.locks[e.key];
    assert Next(n, s, Start(e)) == Next(n, t, Start(e));
    if t.heap[l].holder.None? && t.heap[l].queue == [] {
      UncontendedStart(n, t, e);
      GrantKeepsInv(n, Join(t, e), l);
    } else {
      assert Next(n, t, Start(e)) == Join(t, e);
    }
  }

  lemma StepKeepsInv(n: nat, s: State, a: Action)
    requires Inv(n, s) && Timely(s, a)
    ensures Inv(n, Step(n, s, a))
  {
    if Enabled(s, a) {
      match a
      case Start(e) => StartKeepsInv(n, s, e);
      case Grant(l) => GrantKeepsInv(n, s, l);
      case Done(i, failed) => DoneKeepsInv(n, s, i, failed);
    }
  }

  lemma {:induction false} RunKeepsInv(n: nat, s: State, acts: seq<Action>)
    requires Inv(n, s) && AllTimely(n, s, acts)
    ensures Inv(n, Run(n, s, acts))
    decreases |acts|
  {
    if acts != [] {
      StepKeepsInv(n, s, acts[0]);
      RunKeepsInv(n, Step(n, s, acts[0]), acts[1..]);
    }
  }

  lemma EmptyInv(n: nat)
    ensures Inv(n, EMPTY)
  {
  }

  // ---------- The theorems ----------

  /** In no run without late starts do two fan-outs of one invocation overlap. */
  lemma FanOutsNeverOverlap(n: nat, acts: seq<Action>, i: nat, j: nat)
    requires AllTimely(n, EMPTY, acts)
    requires var s := Run(n, EMPTY, acts);
             && i < |s.emits| && j < |s.emits| && s.emits[i].event.key == s.emits[j].event.key
             && s.emits[i].phase.Fanning? && s.emits[j].phase.Fanning?
    ensures i == j
  {
    EmptyInv(n);
    RunKeepsInv(n, EMPTY, acts);
    FanningIsAlone(n, Run(n, EMPTY, acts), i);
    assert IsFanning(Run(n, EMPTY, acts), j, Run(n, EMPTY, acts).emits[i].event.key);
  }

  /** The ids an invocation's emits were started with, in order. */
  function Started(emits: seq<Emission>, key: string): seq<string> {
    if emits == [] then []
    else
      var last := emits[|emits| - 1];
      Started(emits[..|emits| - 1], key) + (if last.event.key == key then [last.event.id] else [])
  }

  predicate Quiet(s: State) {
    forall i | 0 <= i < |s.emits| :: s.emits[i].phase.Returned?
  }

  lemma {:induction false} AllServed(emits: seq<Emission>, key: string)
    requires forall i | 0 <= i < |emits| :: emits[i].phase.Returned?
    ensures Served(emits, key) == Started(emits, key)
  {
    if emits != [] {
      AllServed(emits[..|emits| - 1], key);
    }
  }

  /**
   * Once every emit has returned, every observer has been called with each distinct event id of the
   * invocation exactly once, and in the order in which the ids were first emitted, whichever calls failed.
   */
  lemma EveryObserverSeesTheSame(n: nat, acts: seq<Action>, o: nat, key: string)
    requires AllTimely(n, EMPTY, acts) && Quiet(Run(n, EMPTY, acts)) && o < n
    ensures var s := Run(n, EMPTY, acts);
            && Seen(s.calls, o, key) == Firsts(Started(s.emits, key))
            && (forall id :: id in Seen(s.calls, o, key) <==> id in Started(s.emits, key))
            && (forall p, q | 0 <= p < q < |Seen(s.calls, o, key)| ::
                  Seen(s.calls, o, key)[p] != Seen(s.calls, o, key)[q])
  {
    var s := Run(n, EMPTY, acts);
    EmptyInv(n);
    RunKeepsInv(n, EMPTY, acts);
    assert LogOk(n, s, key);
    AllServed(s.emits, key);
    assert !Lags(s, key, o);
    FirstsAreDistinct(Started(s.emits, key));
  }

  /** Nobody is stuck: while an emit has not returned, a lock can be granted or an observer is at work. */
  lemma NeverStuck(n: nat, acts: seq<Action>)
    requires !Quiet(Run(n, EMPTY, acts))
    ensures exists a: Action :: !a.Start? && Enabled(Run(n, EMPTY, acts), a)
  {
    var s := Run(n, EMPTY, acts);
    RunKeepsLocal(n, EMPTY, acts);
    var i :| 0 <= i < |s.emits| && !s.emits[i].phase.Returned?;
    assert EmitOk(n, s, i);
    if s.emits[i].phase.Fanning? {
      assert Enabled(s, Done(i, false));
    } else {
      var l := s.emits[i].lock;
      assert LockOk(s, l);
      if s.heap[l].holder.Some? {
        assert EmitOk(n, s, s.heap[l].holder.value);
        assert Enabled(s, Done(s.heap[l].holder.value, false));
      } else {
        HeadWaits(n, s, l);
        assert Enabled(s, Grant(l));
      }
    }
  }

  function Effort(n: nat, phase: Phase): nat {
    match phase
    case Queued => n + 1
    case Fanning(o) => if o < n then n - o else 0
    case Returned => 0
  }

  /** The steps still owed to the emits that have not returned. */
  function Work(n: nat, emits: seq<Emission>): nat {
    if emits == [] then 0 else Effort(n, emits[0].phase) + Work(n, emits[1..])
  }

  lemma {:induction false} WorkOfOne(n: nat, emits: seq<Emission>, i: nat, e: Emission)
    requires i < |emits|
    ensures Work(n, emits[i := e]) == Work(n, emits) - Effort(n, emits[i].phase) + Effort(n, e.phase)
  {
    if i > 0 {
      assert emits[i := e][1..] == emits[1..][i - 1 := e];
      WorkOfOne(n, emits[1..], i - 1, e);
    } else {
      assert emits[0 := e][1..] == emits[1..];
    }
  }

  /** Every grant and every observer's end makes progress, so without new starts the bus comes to rest. */
  lemma WorkShrinks(n: nat, s: State, a: Action)
    requires Local(n, s) && Enabled(s, a) && !a.Start?
    ensures Work(n, Next(n, s, a).emits) < Work(n, s.emits)
  {
    match a
    case Grant(l) =>
      HeadWaits(n, s, l);
      var i := s.heap[l].queue[0];
      WorkOfOne(n, s.emits, i, Next(n, s, a).emits[i]);
    case Done(i, failed) =>
      assert EmitOk(n, s, i);
      WorkOfOne(n, s.emits, i, Next(n, s, a).emits[i]);
  }

  /** The bound on what can still happen when no emit is started any more. */
  lemma {:induction false} ComesToRest(n: nat, s: State, acts: seq<Action>)
    requires Local(n, s) && forall k | 0 <= k < |acts| :: !acts[k].Start?
    requires forall k | 0 <= k < |acts| :: Enabled(Run(n, s, acts[..k]), acts[k])
    ensures |acts| <= Work(n, s.emits)
    decreases |acts|
  {
    if acts != [] {
      assert acts[..0] == [];
      assert Enabled(s, acts[0]);
      var t := Step(n, s, acts[0]);
      StepKeepsLocal(n, s, acts[0]);
      WorkShrinks(n, s, acts[0]);
      forall k | 0 <= k < |acts| - 1 ensures Enabled(Run(n, t, acts[1..][..k]), acts[1..][k]) {
        assert acts[..k + 1][1..] == acts[1..][..k];
        assert Enabled(Run(n, s, acts[..k + 1]), acts[k + 1]);
      }
      ComesToRest(n, t, acts[1..]);
    }
  }

  /** The observer that fails in a step, with the invocation it fails in. */
  function Failure(s: State, a: Action): set<(nat, Option<string>)> {
    if Enabled(s, a) && a.Done? && a.failed then {(s.emits[a.emit].phase.observer, s.emits[a.emit].event.invocation)}
    else {}
  }

  function Failures(n: nat, s: State, acts: seq<Action>): set<(nat, Option<string>)>
    decreases |acts|
  {
    if acts == [] then {} else Failure(s, acts[0]) + Failures(n, Step(n, s, acts[0]), acts[1..])
  }

  predicate NoneTwice(d: seq<(nat, Option<string>)>) {
    forall i, j | 0 <= i < j < |d| :: d[i] != d[j]
  }

  lemma StepDiagnoses(n: nat, s: State, a: Action)
    requires NoneTwice(s.diagnosed)
    ensures var d := Step(n, s, a).diagnosed;
            NoneTwice(d) && forall x :: x in d <==> x in s.diagnosed || x in Failure(s, a)
  {
  }

  /** Exactly the failures are diagnosed, and each observer once per invocation, however often it fails. */
  lemma {:induction false} DiagnosedOnce(n: nat, s: State, acts: seq<Action>)
    requires NoneTwice(s.diagnosed)
    ensures var d := Run(n, s, acts).diagnosed;
            NoneTwice(d) && forall x :: x in d <==> x in s.diagnosed || x in Failures(n, s, acts)
    decreases |acts|
  {
    if acts != [] {
      var t := Step(n, s, acts[0]);
      StepDiagnoses(n, s, acts[0]);
      DiagnosedOnce(n, t, acts[1..]);
      assert Failures(n, s, acts) == Failure(s, acts[0]) + Failures(n, t, acts[1..]);
    }
  }

  // ---------- Late starts ----------

  ghost predicate Overlap(s: State, key: string) {
    exists i, j :: i != j && IsFanning(s, i, key) && IsFanning(s, j, key)
  }

  predicate NoStarts(acts: seq<Action>) {
    forall k | 0 <= k < |acts| :: !acts[k].Start?
  }

  /** An emit on its way that will be fanned out, the new event's id being taken. */
  predicate Contends(s: State, e: Event, i: int) {
    && Pending(s, i, e.key)
    && (s.emits[i].phase.Queued? ==> s.emits[i].event.id != e.id && (e.key, s.emits[i].event.id) !in s.seen)
  }

  /** The lock a start of this invocation finds, or makes, is free and nobody waits for it. */
  predicate FreeLock(s: State, key: string) {
    key in s.locks ==>
      s.locks[key] < |s.heap| && s.heap[s.locks[key]].holder.None? && s.heap[s.locks[key]].queue == []
  }

  /** The invocation's emits that are on their way use one lock. */
  ghost predicate Shared(s: State, key: string) {
    forall i, j | Pending(s, i, key) && Pending(s, j, key) :: s.emits[i].lock == s.emits[j].lock
  }

  /** A new event that finds its lock free is fanned out at once, on a lock no other emit uses. */
  lemma FreeStart(n: nat, s: State, e: Event)
    requires Local(n, s) && n > 0 && FreeLock(s, e.key) && (e.key, e.id) !in s.seen
    ensures var t, m := Step(n, s, Start(e)), |s.emits|;
            && |t.emits| == m + 1 && t.emits[..m] == s.emits && IsFanning(t, m, e.key)
            && t.seen == s.seen + {(e.key, e.id)}
            && forall i | Pending(s, i, e.key) ::
                 && s.emits[i].lock < |s.heap| && s.emits[i].lock != t.emits[m].lock
                 && s.emits[i].lock < |t.heap| && t.heap[s.emits[i].lock] == s.heap[s.emits[i].lock]
  {
    forall i | Pending(s, i, e.key)
      ensures s.emits[i].lock < |s.heap| && (e.key in s.locks ==> s.emits[i].lock != s.locks[e.key])
    {
      assert EmitOk(n, s, i);
    }
  }

  /** One that was emitted before returns at once, and nobody else notices. */
  lemma RepeatedStart(n: nat, s: State, e: Event)
    requires Local(n, s) && FreeLock(s, e.key) && (e.key, e.id) in s.seen
    ensures var t, m := Step(n, s, Start(e)), |s.emits|;
            && |t.emits| == m + 1 && t.emits[..m] == s.emits && t.emits[m].phase.Returned? && t.seen == s.seen
            && (!e.terminal ==> e.key in t.locks && FreeLock(t, e.key))
  {
  }

  /** Grants lead to a queued emit that is new, and so to a second fan-out beside the one of `m`. */
  lemma {:induction false} GrantsReach(n: nat, s: State, l: nat, i: nat, m: nat)
    requires Local(n, s) && n > 0 && l < |s.heap| && s.heap[l].holder.None? && i in s.heap[l].queue
    requires i < |s.emits| && (s.heap[l].key, s.emits[i].event.id) !in s.seen
    requires IsFanning(s, m, s.heap[l].key) && s.emits[m].lock != l
    ensures exists acts :: NoStarts(acts) && Overlap(Run(n, s, acts), s.heap[l].key)
    decreases |s.heap[l].queue|
  {
    var key := s.heap[l].key;
    var a := Grant(l);
    var h := s.heap[l].queue[0];
    HeadWaits(n, s, l);
    var t := Step(n, s, a);
    StepKeepsLocal(n, s, a);
    if (key, s.emits[h].event.id) in s.seen {
      assert s.heap[l].queue == [h] + s.heap[l].queue[1..];
      GrantsReach(n, t, l, i, m);
      var acts :| NoStarts(acts) && Overlap(Run(n, t, acts), key);
      RunUnfolds(n, s, [a] + acts);
      assert ([a] + acts)[1..] == acts;
    } else {
      assert IsFanning(t, h, key) && IsFanning(t, m, key);
      RunUnfolds(n, s, [a]);
      assert Overlap(Run(n, s, [a]), key);
    }
  }

  /** All other emits of the invocation have returned, or wait to find their event seen. */
  predicate Harmless(s: State, key: string, m: nat) {
    forall j | 0 <= j < |s.emits| && j != m && Pending(s, j, key) ::
      s.emits[j].phase.Queued? && (key, s.emits[j].event.id) in s.seen
  }

  lemma StepStaysHarmless(n: nat, s: State, a: Action, key: string, m: nat)
    requires Local(n, s) && !a.Start? && Harmless(s, key, m)
    ensures Harmless(Step(n, s, a), key, m)
  {
    if Enabled(s, a) && a.Grant? {
      HeadWaits(n, s, a.lock);
    }
  }

  lemma {:induction false} RunStaysHarmless(n: nat, s: State, acts: seq<Action>, key: string, m: nat)
    requires Local(n, s) && NoStarts(acts) && Harmless(s, key, m)
    ensures !Overlap(Run(n, s, acts), key)
    decreases |acts|
  {
    if acts != [] {
      StepStaysHarmless(n, s, acts[0], key, m);
      StepKeepsLocal(n, s, acts[0]);
      RunStaysHarmless(n, Step(n, s, acts[0]), acts[1..], key, m);
    }
  }

  /** Where the emits on their way share a lock, there is no overlap without a further start. */
  lemma {:induction false} SharedLocksNeverOverlap(n: nat, s: State, acts: seq<Action>, key: string)
    requires Local(n, s) && NoStarts(acts) && Shared(s, key)
    ensures !Overlap(Run(n, s, acts), key)
    decreases |acts|
  {
    if acts != [] {
      StepKeepsLocal(n, s, acts[0]);
      StepStaysShared(n, s, acts[0], key);
      SharedLocksNeverOverlap(n, Step(n, s, acts[0]), acts[1..], key);
    } else {
      forall i, j | IsFanning(s, i, key) && IsFanning(s, j, key) ensures i == j {
        assert EmitOk(n, s, i) && EmitOk(n, s, j);
        assert Pending(s, i, key) && Pending(s, j, key);
      }
    }
  }

  lemma StepStaysShared(n: nat, s: State, a: Action, key: string)
    requires Local(n, s) && !a.Start? && Shared(s, key)
    ensures Shared(Step(n, s, a), key)
  {
    var t := Step(n, s, a);
    if Enabled(s, a) && a.Grant? {
      HeadWaits(n, s, a.lock);
    }
    forall i | Pending(t, i, key) ensures Pending(s, i, key) && t.emits[i].lock == s.emits[i].lock {
    }
  }

  lemma NobodyObserves(s: State, acts: seq<Action>, key: string)
    requires Local(0, s)
    ensures !Overlap(Run(0, s, acts), key)
  {
    RunKeepsLocal(0, s, acts);
    var t := Run(0, s, acts);
    forall i | 0 <= i < |t.emits| ensures !t.emits[i].phase.Fanning? {
      assert EmitOk(0, t, i);
    }
  }

  /**
   * A start that finds its lock free leads to an overlap, without any further start, exactly when its event
   * is new and one of the emits on their way is being fanned out or will be.
   */
  lemma FreeStartsOverlapExactly(n: nat, s: State, e: Event)
    requires Local(n, s) && FreeLock(s, e.key) && Shared(s, e.key)
    ensures n > 0 && (e.key, e.id) !in s.seen && (exists i :: Contends(s, e, i))
            <==> exists acts :: NoStarts(acts) && Overlap(Run(n, Step(n, s, Start(e)), acts), e.key)
  {
    var t, m := Step(n, s, Start(e)), |s.emits|;
    StepKeepsLocal(n, s, Start(e));
    if n == 0 {
      forall acts ensures !Overlap(Run(n, t, acts), e.key) {
        NobodyObserves(t, acts, e.key);
      }
    } else if (e.key, e.id) in s.seen {
      RepeatedStart(n, s, e);
      RepeatStaysShared(n, s, e);
      forall acts | NoStarts(acts) ensures !Overlap(Run(n, t, acts), e.key) {
        SharedLocksNeverOverlap(n, t, acts, e.key);
      }
    } else if i :| Contends(s, e, i) {
      ContendingStartsOverlap(n, s, e, i);
    } else {
      UncontendedIsHarmless(n, s, e);
      forall acts | NoStarts(acts) ensures !Overlap(Run(n, t, acts), e.key) {
        RunStaysHarmless(n, t, acts, e.key, m);
      }
    }
  }

  lemma RepeatStaysShared(n: nat, s: State, e: Event)
    requires Local(n, s) && FreeLock(s, e.key) && (e.key, e.id) in s.seen && Shared(s, e.key)
    ensures Shared(Step(n, s, Start(e)), e.key)
  {
    var t := Step(n, s, Start(e));
    RepeatedStart(n, s, e);
    forall i | Pending(t, i, e.key) ensures Pending(s, i, e.key) && t.emits[i] == s.emits[i] {
      assert i < |s.emits| ==> t.emits[..|s.emits|][i] == t.emits[i];
    }
  }

  lemma UncontendedIsHarmless(n: nat, s: State, e: Event)
    requires Local(n, s) && n > 0 && FreeLock(s, e.key) && (e.key, e.id) !in s.seen
    requires forall i :: !Contends(s, e, i)
    ensures Harmless(Step(n, s, Start(e)), e.key, |s.emits|)
  {
    var t, m := Step(n, s, Start(e)), |s.emits|;
    FreeStart(n, s, e);
    forall j | 0 <= j < |t.emits| && j != m && Pending(t, j, e.key)
      ensures t.emits[j].phase.Queued? && (e.key, t.emits[j].event.id) in t.seen
    {
      assert t.emits[..m][j] == t.emits[j];
      assert Pending(s, j, e.key) && !Contends(s, e, j);
    }
  }

  lemma ContendingStartsOverlap(n: nat, s: State, e: Event, i: int)
    requires Local(n, s) && n > 0 && FreeLock(s, e.key) && (e.key, e.id) !in s.seen && Contends(s, e, i)
    ensures exists acts :: NoStarts(acts) && Overlap(Run(n, Step(n, s, Start(e)), acts), e.key)
  {
    var t, m := Step(n, s, Start(e)), |s.emits|;
    FreeStart(n, s, e);
    StepKeepsLocal(n, s, Start(e));
    assert EmitOk(n, s, i) && Pending(s, i, e.key);
    assert forall k | 0 <= k < m :: t.emits[k] == t.emits[..m][k];
    var l := s.emits[i].lock;
    assert LockOk(s, l);
    var f := if s.emits[i].phase.Fanning? then Some(i) else s.heap[l].holder;
    if f.Some? {
      assert EmitOk(n, s, f.value);
      assert IsFanning(t, f.value, e.key);
      assert Overlap(Run(n, t, []), e.key);
    } else {
      GrantsReach(n, t, l, i, m);
    }
  }

  /**
   * A late start leads to an overlap, without any further start, exactly when somebody observes, its event
   * is new, and one of the emits on their way is being fanned out or will be.
   */
  lemma LateStartsOverlapExactly(n: nat, s: State, e: Event)
    requires Inv(n, s) && !Timely(s, Start(e))
    ensures n > 0 && (e.key, e.id) !in s.seen && (exists i :: Contends(s, e, i))
            <==> exists acts :: NoStarts(acts) && Overlap(Run(n, Step(n, s, Start(e)), acts), e.key)
  {
    FreeStartsOverlapExactly(n, s, e);
  }

  /**
   * A late start of an event emitted before does no harm itself. Unless it is terminal it leaves a new lock
   * in the dict, so that a later start counts as timely and still overlaps, exactly when a late one would.
   */
  lemma LateRepeatsLeaveALock(n: nat, s: State, e: Event, later: Event)
    requires Inv(n, s) && !Timely(s, Start(e)) && (e.key, e.id) in s.seen && !e.terminal && later.key == e.key
    ensures var t := Step(n, s, Start(e));
            && Timely(t, Start(later))
            && (n > 0 && (later.key, later.id) !in s.seen && (exists i :: Contends(s, later, i))
                <==> exists acts :: NoStarts(acts) && Overlap(Run(n, Step(n, t, Start(later)), acts), later.key))
  {
    var t, m := Step(n, s, Start(e)), |s.emits|;
    RepeatedStart(n, s, e);
    RepeatStaysShared(n, s, e);
    StepKeepsLocal(n, s, Start(e));
    FreeStartsOverlapExactly(n, t, later);
    assert forall i | 0 <= i < m :: t.emits[i] == t.emits[..m][i];
    assert forall i :: Contends(t, later, i) <==> Contends(s, later, i);
  }

  function First(key: string): Event {
    Event(key, None, "a", true)
  }

  function Second(key: string): Event {
    Event(key, None, "b", false)
  }

  function Last(key: string): Event {
    Event(key, None, "d", true)
  }

  function Late(key: string): Event {
    Event(key, None, "c", false)
  }

  lemma AfterOneTerminal(key: string)
    ensures var s := Step(1, EMPTY, Start(First(key)));
            var t := Step(1, s, Done(0, false));
            && t.locks == map[] && t.heap == [Lock(key, None, [])] && t.seen == {(key, "a")}
            && t.emits == [Emission(First(key), 0, Returned)]
  {
    var s := Step(1, EMPTY, Start(First(key)));
    assert s.locks == map[key := 0] && s.heap == [Lock(key, Some(0), [])];
    assert s.emits == [Emission(First(key), 0, Fanning(0))];
  }

  /**
   * An interrupted turn emits two terminal events of one invocation, the second one behind the first. That
   * start is timely: the dict has no lock any more, but nothing is on its way.
   */
  lemma TwoTerminalsAreTimely(key: string)
    ensures AllTimely(1, EMPTY, [Start(First(key)), Done(0, false), Start(Last(key)), Done(1, false)])
    ensures Quiet(Run(1, EMPTY, [Start(First(key)), Done(0, false), Start(Last(key)), Done(1, false)]))
  {
    var acts := [Start(First(key)), Done(0, false), Start(Last(key)), Done(1, false)];
    var s := Step(1, EMPTY, acts[0]);
    var t := Step(1, s, acts[1]);
    AfterOneTerminal(key);
    var u := Step(1, t, acts[2]);
    assert u.emits == [Emission(First(key), 0, Returned), Emission(Last(key), 1, Fanning(0))] && |u.heap| == 2;
    TimelyUnfolds(1, EMPTY, acts);
    TimelyUnfolds(1, s, acts[1..]);
    TimelyUnfolds(1, t, acts[2..]);
    TimelyUnfolds(1, u, acts[3..]);
    RunUnfolds(1, EMPTY, acts);
    RunUnfolds(1, s, acts[1..]);
    RunUnfolds(1, t, acts[2..]);
    RunUnfolds(1, u, acts[3..]);
  }

  lemma TimelyUnfolds(n: nat, s: State, acts: seq<Action>)
    requires acts != []
    ensures AllTimely(n, s, acts) <==> Timely(s, acts[0]) && AllTimely(n, Step(n, s, acts[0]), acts[1..])
  {
  }

  /** A terminal event is fanned out while another emit waits for the lock. */
  lemma TerminalPasses(key: string)
    ensures var s := Step(1, Step(1, Step(1, EMPTY, Start(First(key))), Start(Second(key))), Done(0, false));
            && s.locks == map[] && s.heap == [Lock(key, None, [1])] && s.seen == {(key, "a")}
            && s.emits == [Emission(First(key), 0, Returned), Emission(Second(key), 0, Queued)]
  {
    var a, b := First(key), Second(key);
    var s := Step(1, EMPTY, Start(a));
    assert s.locks == map[key := 0] && s.heap == [Lock(key, Some(0), [])];
    assert s.emits == [Emission(a, 0, Fanning(0))] && s.seen == {(key, "a")};
    var t := Step(1, s, Start(b));
    assert [] + [1] == [1];
    assert t.locks == map[key := 0] && t.heap == [Lock(key, Some(0), [1])];
    assert t.emits == [Emission(a, 0, Fanning(0)), Emission(b, 0, Queued)];
  }

  /**
   * A late start does harm: a waiter behind the terminal event still uses the old lock, a newcomer gets
   * another one, and both fan out at the same time.
   */
  lemma LateStartsOverlap(key: string)
    ensures exists acts: seq<Action> ::
      var s := Run(1, EMPTY, acts);
      && |s.emits| == 3 && s.emits[1].event.key == key && s.emits[2].event.key == key
      && s.emits[1].phase.Fanning? && s.emits[2].phase.Fanning?
  {
    var a, b, c := First(key), Second(key), Late(key);
    var s3 := Step(1, Step(1, Step(1, EMPTY, Start(a)), Start(b)), Done(0, false));
    TerminalPasses(key);
    var s4 := Step(1, s3, Grant(0));
    assert [1][1..] == [];
    assert s4.locks == map[] && s4.heap == [Lock(key, Some(1), [])];
    assert s4.seen == {(key, "a"), (key, "b")};
    assert s4.emits == [Emission(a, 0, Returned), Emission(b, 0, Fanning(0))];
    var s5 := Step(1, s4, Start(c));
    assert s5.emits == [Emission(a, 0, Returned), Emission(b, 0, Fanning(0)), Emission(c, 1, Fanning(0))];
    RunOfFive(1, EMPTY, Start(a), Start(b), Done(0, false), Grant(0), Start(c));
    assert Run(1, EMPTY, [Start(a), Start(b), Done(0, false), Grant(0), Start(c)]) == s5;
  }

  lemma RunOfFive(n: nat, s: State, a: Action, b: Action, c: Action, d: Action, e: Action)
    ensures Run(n, s, [a, b, c, d, e]) == Step(n, Step(n, Step(n, Step(n, Step(n, s, a), b), c), d), e)
  {
    var acts := [a, b, c, d, e];
    var t := Step(n, Step(n, s, a), b);
    RunUnfolds(n, s, acts);
    RunUnfolds(n, Step(n, s, a), acts[1..]);
    RunUnfolds(n, t, acts[2..]);
    RunUnfolds(n, Step(n, t, c), acts[3..]);
    RunUnfolds(n, Step(n, Step(n, t, c), d), acts[4..]);
  }

  lemma RunUnfolds(n: nat, s: State, acts: seq<Action>)
    requires acts != []
    ensures Run(n, s, acts) == Run(n, Step(n, s, acts[0]), acts[1..])
  {
  }

  // ---------- The bus ----------

  class RuntimeEventBus {
    /** The number of enabled observers. */
    const observers: nat
    var locks: map<string, nat>
    var heap: seq<Lock>
    var emits: seq<Emission>
    var seen: set<(string, string)>
    var calls: seq<Call>
    var diagnosed: seq<(nat, Option<string>)>
    /** Whether every emit so far started in time. */
    ghost var timely: bool

    function View(): State
      reads this
    {
      State(locks, heap, emits, seen, calls, diagnosed)
    }

    ghost predicate Valid()
      reads this
    {
      Local(observers, View()) && (timely ==> Inv(observers, View()))
    }

    constructor (observers: nat)
      ensures Valid() && timely && View() == EMPTY && this.observers == observers
    {
      this.observers := observers;
      locks, heap, emits, seen, calls, diagnosed, timely := map[], [], [], {}, [], [], true;
    }

    /** Two fan-outs of one invocation do not overlap as long as every emit started in time. */
    lemma NoOverlap(i: nat, j: nat)
      requires Valid() && timely && i < |emits| && j < |emits| && emits[i].event.key == emits[j].event.key
      requires emits[i].phase.Fanning? && emits[j].phase.Fanning?
      ensures i == j
    {
      FanningIsAlone(observers, View(), i);
      assert IsFanning(View(), j, emits[i].event.key);
    }

    /** At rest every observer has seen each event of an invocation once, in the order of first emission. */
    lemma ObserversAgree(o: nat, key: string)
      requires Valid() && timely && Quiet(View()) && o < observers
      ensures Seen(calls, o, key) == Firsts(Started(emits, key))
    {
      assert LogOk(observers, View(), key);
      AllServed(emits, key);
      assert !Lags(View(), key, o);
    }

    /** The `finally` clause and the end of `async with`: the lock is free, and a terminal event forgets it. */
    method Release(i: nat)
      requires i < |emits| && emits[i].lock < |heap|
      modifies this
      ensures View() == Leave(old(View()), i) && timely == old(timely)
      ensures emits[i].phase.Returned? && heap[emits[i].lock].holder.None?
      ensures emits[i].event.terminal ==> emits[i].event.key !in locks
      ensures forall k | k != emits[i].event.key :: k in locks <==> k in old(locks)
      ensures forall l | 0 <= l < |heap| :: heap[l].queue == old(heap)[l].queue
    {
      var e := emits[i];
      if e.event.terminal {
        locks := locks - {e.event.key};
      }
      heap := heap[e.lock := heap[e.lock].(holder := None)];
      emits := emits[i := e.(phase := Returned)];
    }

    method Dispatch(i: nat, o: nat)
      requires i < |emits|
      modifies this
      ensures View() == CallObserver(old(View()), i, o) && timely == old(timely)
      ensures calls == old(calls) + [Call(o, emits[i].event.key, emits[i].event.id)]
    {
      var e := emits[i];
      emits := emits[i := e.(phase := Fanning(o))];
      calls := calls + [Call(o, e.event.key, e.event.id)];
    }

    /** Behind the lock: an event is marked as seen, and called out to the first observer if it is new. */
    method Acquired(i: nat)
      requires i < |emits| && emits[i].lock < |heap|
      modifies this
      ensures View() == Enter(observers, old(View()), i) && timely == old(timely)
      ensures var e := emits[i].event;
              var goes := (e.key, e.id) !in old(seen) && observers > 0;
              && (e.key, e.id) in seen
              && emits[i].phase == (if goes then Fanning(0) else Returned)
              && calls == old(calls) + (if goes then [Call(0, e.key, e.id)] else [])
    {
      var e := emits[i];
      if (e.event.key, e.event.id) in seen {
        Release(i);
        return;
      }
      seen := seen + {(e.event.key, e.event.id)};
      heap := heap[e.lock := heap[e.lock].(holder := Some(i))];
      if observers == 0 {
        Release(i);
      } else {
        Dispatch(i, 0);
      }
    }

    /**
     * `emit` up to its first await: it waits only behind an earlier emit on the same lock, and it is fanned
     * out alone as long as all have started in time.
     */
    method Emit(e: Event) returns (i: nat)
      requires Valid()
      modifies this
      ensures Valid() && View() == Next(observers, old(View()), Start(e))
      ensures timely == (old(timely) && Timely(old(View()), Start(e)))
      ensures i == |old(emits)| && |emits| == i + 1 && emits[i].event == e
      ensures emits[i].phase.Queued? ==>
                exists j :: 0 <= j < i && emits[j].lock == emits[i].lock && Pending(View(), j, e.key)
      ensures emits[i].phase.Returned? ==> (e.key, e.id) in old(seen) || observers == 0
      ensures timely && emits[i].phase.Fanning? ==> forall j | IsFanning(View(), j, e.key) :: j == i
    {
      ghost var before := View();
      StepKeepsLocal(observers, before, Start(e));
      StartedEmit(observers, before, e);
      if timely && Timely(before, Start(e)) {
        StepKeepsInv(observers, before, Start(e));
        StartedAlone(observers, before, e);
      }
      i := TakeLock(e);
      timely := timely && Timely(before, Start(e));
    }

    /** `setdefault` and the attempt to acquire the lock. */
    method TakeLock(e: Event) returns (i: nat)
      requires Enabled(View(), Start(e))
      modifies this
      ensures View() == Next(observers, old(View()), Start(e)) && i == |old(emits)| && timely == old(timely)
    {
      if e.key !in locks {
        locks := locks[e.key := |heap|];
        heap := heap + [Lock(e.key, None, [])];
      }
      var l := locks[e.key];
      i := |emits|;
      emits := emits + [Emission(e, l, Queued)];
      if heap[l].holder.None? && heap[l].queue == [] {
        Acquired(i);
      } else {
        heap := heap[l := heap[l].(queue := heap[l].queue + [i])];
      }
    }

    /** The first waiter of a free lock leaves the queue and goes on. */
    method Wake(l: nat)
      requires Valid() && Enabled(View(), Grant(l))
      modifies this
      ensures Valid() && View() == Next(observers, old(View()), Grant(l)) && timely == old(timely)
      ensures var i := old(heap)[l].queue[0];
              && heap[l].queue == old(heap)[l].queue[1..]
              && old(emits)[i].phase.Queued? && !emits[i].phase.Queued?
              && (emits[i].phase.Fanning? <==> (emits[i].event.key, emits[i].event.id) !in old(seen) && observers > 0)
              && (timely ==>
                    forall j | 0 <= j < i && emits[j].event.key == emits[i].event.key :: emits[j].phase.Returned?)
    {
      ghost var before := View();
      HeadWaits(observers, before, l);
      StepKeepsLocal(observers, before, Grant(l));
      if timely {
        HeadIsFirst(observers, before, l);
        StepKeepsInv(observers, before, Grant(l));
      }
      var i := heap[l].queue[0];
      heap := heap[l := heap[l].(queue := heap[l].queue[1..])];
      Acquired(i);
    }

    method RecordFailure(o: nat, invocation: Option<string>)
      modifies this
      ensures View() == Diagnose(old(View()), o, invocation) && timely == old(timely)
      ensures (o, invocation) in diagnosed
    {
      if (o, invocation) !in diagnosed {
        diagnosed := diagnosed + [(o, invocation)];
      }
    }

    /** An observer's call is over: the next one is called with the same event, or `emit` returns. */
    method ObserverDone(i: nat, failed: bool)
      requires Valid() && Enabled(View(), Done(i, failed))
      modifies this
      ensures Valid() && View() == Next(observers, old(View()), Done(i, failed)) && timely == old(timely)
      ensures failed ==> (old(emits)[i].phase.observer, emits[i].event.invocation) in diagnosed
      ensures var e, o := emits[i].event, old(emits)[i].phase.observer;
              calls == old(calls) + (if o + 1 < observers then [Call(o + 1, e.key, e.id)] else [])
      ensures emits[i].phase.Returned? <==> old(emits)[i].phase.observer + 1 == observers
    {
      ghost var before := View();
      assert EmitOk(observers, before, i);
      StepKeepsLocal(observers, before, Done(i, failed));
      if timely {
        StepKeepsInv(observers, before, Done(i, failed));
      }
      var o := emits[i].phase.observer;
      if failed {
        RecordFailure(o, emits[i].event.invocation);
      }
      if o + 1 < observers {
        Dispatch(i, o + 1);
      } else {
        Release(i);
      }
    }
  }

  /** What becomes of an emit that starts. */
  lemma StartedEmit(n: nat, s: State, e: Event)
    requires Local(n, s)
    ensures var t, i := Next(n, s, Start(e)), |s.emits|;
            && |t.emits| == i + 1 && t.emits[i].event == e
            && (t.emits[i].phase.Queued? ==>
                  exists j :: 0 <= j < i && t.emits[j].lock == t.emits[i].lock && Pending(t, j, e.key))
            && (t.emits[i].phase.Returned? ==> (e.key, e.id) in s.seen || n == 0)
  {
    var t, i := Next(n, s, Start(e)), |s.emits|;
    if t.emits[i].phase.Queued? {
      QueuedBehind(n, s, e);
      var j :| 0 <= j < |s.emits| && s.emits[j].lock == s.locks[e.key] && Pending(s, j, e.key);
      assert Pending(t, j, e.key);
    }
  }

  lemma StartedAlone(n: nat, s: State, e: Event)
    requires Inv(n, s) && Timely(s, Start(e))
    ensures var t, i := Next(n, s, Start(e)), |s.emits|;
            && i < |t.emits|
            && (t.emits[i].phase.Fanning? ==> forall j | IsFanning(t, j, e.key) :: j == i)
  {
    var t, i := Next(n, s, Start(e)), |s.emits|;
    StepKeepsInv(n, s, Start(e));
    StartedEmit(n, s, e);
    if t.emits[i].phase.Fanning? {
      FanningIsAlone(n, t, i);
    }
  }

  /** Who has to wait finds an earlier emit on its lock. */
  lemma QueuedBehind(n: nat, s: State, e: Event)
    requires Local(n, s) && e.key in s.locks
    requires var k := s.heap[s.locks[e.key]]; k.holder.Some? || k.queue != []
    ensures exists j :: 0 <= j < |s.emits| && s.emits[j].lock == s.locks[e.key] && Pending(s, j, e.key)
  {
    var l := s.locks[e.key];
    assert LockOk(s, l);
    if s.heap[l].holder.Some? {
      assert EmitOk(n, s, s.heap[l].holder.value);
      assert Pending(s, s.heap[l].holder.value, e.key);
    } else {
      HeadWaits(n, s, l);
      assert Pending(s, s.heap[l].queue[0], e.key);
    }
  }
}
