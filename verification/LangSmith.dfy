/**
 * The LangSmith observer: events open and finish runs in a map that keeps insertion order. What the
 * client answers is an input. First the map's behaviour as functions, then what holds after every event
 * sequence, then the observer, whose methods are proved to do what the functions say.
 */
module LangSmith {
  import opened Options

  /** The second half of a run's key: "runtime", "turn", or a prefix and a name. */
  datatype Slot = Runtime | Turn | Retry(attempt: string) | Validation(attempt: string) | Tool(name: string)

  datatype Key = Key(invocation: string, slot: Slot)

  /**
   * A run that is open. `serial` is its place among all runs the client created, `parent` the serial of
   * the observer's own run it was linked to. `truthy` and `id` are what Python finds in the object that
   * stands for the run.
   */
  datatype Open = Open(key: Key, serial: nat, parent: Option<nat>, truthy: bool, id: Option<string>)

  /** `ids` has the ids of all runs created so far, `updates` the serials of the `update_run` calls made. */
  datatype State = State(open: seq<Open>, ids: seq<Option<string>>, updates: seq<nat>)

  datatype Kind =
    | InvocationStarted | TurnStarted
    | RetryScheduled | ToolRetryScheduled | ValidationFailed
    | ToolRequested | ToolStarted | ApprovalRequested | ApprovalResolved
    | ToolCompleted | ToolDenied | ToolFailed
    | TurnCompleted | TurnFailed | TurnInterrupted
    | InvocationCompleted | InvocationFailed | Cancelled | Interrupted
    | OtherKind

  /** `attempt` and `tool` are the names the observer takes from the metadata. */
  datatype Event = Event(kind: Kind, invocationId: string, eventId: string, attempt: string, tool: string)

  /** What `create_run` comes to; an object without an id is linked to and updated without one. */
  datatype Creation = Raises | ReturnsNothing | Returns(truthy: bool, id: Option<string>)

  /** The client during one event: what a creation comes to, and which update raises. */
  datatype Client = Client(creation: Creation, failAt: Option<nat>)

  /** A state, and whether the event was handled to its end. */
  datatype Handled = Handled(state: State, ok: bool)

  const EMPTY := State([], [], [])

  // ---------- Handling an event ----------

  function Invocation(e: Event): string {
    if e.invocationId != "" then e.invocationId else e.eventId
  }

  predicate Has(open: seq<Open>, key: Key) {
    exists o | o in open :: o.key == key
  }

  function Find(open: seq<Open>, key: Key): (r: Option<Open>)
    ensures r.Some? <==> Has(open, key)
    ensures r.Some? ==> r.value in open && r.value.key == key
  {
    if open == [] then None
    else if open[0].key == key then Some(open[0])
    else
      assert forall o | o in open :: o == open[0] || o in open[1..];
      Find(open[1..], key)
  }

  function Remove(open: seq<Open>, key: Key): seq<Open> {
    if open == [] then []
    else if open[0].key == key then open[1..]
    else [open[0]] + Remove(open[1..], key)
  }

  function Keep(open: seq<Open>, p: Key -> bool): seq<Key> {
    if open == [] then []
    else (if p(open[0].key) then [open[0].key] else []) + Keep(open[1..], p)
  }

  function SlotName(slot: Slot): string {
    match slot
    case Runtime => "runtime"
    case Turn => "turn"
    case Retry(attempt) => "retry:" + attempt
    case Validation(attempt) => "validation:" + attempt
    case Tool(name) => "tool:" + name
  }

  /** The object kept for a run: the client's, or the slot's name, which then serves as its id. */
  function Kept(slot: Slot, creation: Creation): (bool, Option<string>)
    requires !creation.Raises?
  {
    if creation.Returns? then (creation.truthy, creation.id) else (true, Some(SlotName(slot)))
  }

  /** `_create_run`: a key that is open already is left alone. */
  function Create(s: State, key: Key, parent: Option<Open>, creation: Creation): Handled {
    if Has(s.open, key) then Handled(s, true)
    else if creation.Raises? then Handled(s, false)
    else
      var (truthy, id) := Kept(key.slot, creation);
      var link := if parent.Some? && parent.value.id.Some? then Some(parent.value.serial) else None;
      Handled(State(s.open + [Open(key, |s.ids|, link, truthy, id)], s.ids + [id], s.updates), true)
  }

  /** A run that leaves the map for the client to update. */
  function Popped(s: State, key: Key): State
    requires Has(s.open, key)
  {
    s.(open := Remove(s.open, key), updates := s.updates + [Find(s.open, key).value.serial])
  }

  /** `_finish_keys`: a run leaves the map before the client is told, and an exception ends the loop. */
  function Finish(s: State, keys: seq<Key>, failAt: Option<nat>): Handled
    decreases |keys|
  {
    if keys == [] then Handled(s, true)
    else if !Has(s.open, keys[0]) then Finish(s, keys[1..], failAt)
    else if failAt == Some(0) then Handled(Popped(s, keys[0]), false)
    else Finish(Popped(s, keys[0]), keys[1..], if failAt.Some? then Some(failAt.value - 1) else None)
  }

  /** The parent of what happens inside a turn: the turn's run, or else the invocation's. */
  function Enclosing(s: State, invocation: string): Option<Open> {
    var turn := Find(s.open, Key(invocation, Turn));
    if turn.Some? && turn.value.truthy then turn else Find(s.open, Key(invocation, Runtime))
  }

  /** A run that is created and finished by the same event. */
  function Mark(s: State, key: Key, c: Client): Handled {
    var h := Create(s, key, Enclosing(s, key.invocation), c.creation);
    if h.ok then Finish(h.state, [key], c.failAt) else h
  }

  predicate EndsTurn(k: Kind) {
    k.TurnCompleted? || k.TurnFailed? || k.TurnInterrupted?
  }

  predicate EndsInvocation(k: Kind) {
    k.InvocationCompleted? || k.InvocationFailed? || k.Cancelled? || k.Interrupted?
  }

  predicate Ends(e: Event, key: Key) {
    key.invocation == Invocation(e) && (EndsTurn(e.kind) ==> key.slot != Runtime)
  }

  /** The keys `_finish_matching` selects, in insertion order. */
  function Ended(s: State, e: Event): seq<Key> {
    Keep(s.open, key => Ends(e, key))
  }

  predicate IsTool(key: Key, invocation: string) {
    key.invocation == invocation && key.slot.Tool?
  }

  function ToolTest(e: Event): Key -> bool {
    k => IsTool(k, Invocation(e))
  }

  /** The run a tool's end belongs to: its own, or the tool run opened last. */
  function ToolRun(s: State, e: Event): Key {
    var key := Key(Invocation(e), Tool(e.tool));
    var tools := Keep(s.open, ToolTest(e));
    if Has(s.open, key) || tools == [] then key else tools[|tools| - 1]
  }

  predicate OpensTool(k: Kind) {
    k.ToolRequested? || k.ToolStarted? || k.ApprovalRequested? || k.ApprovalResolved?
  }

  predicate EndsTool(k: Kind) {
    k.ToolCompleted? || k.ToolDenied? || k.ToolFailed?
  }

  function Handle(s: State, e: Event, c: Client): Handled {
    var i := Invocation(e);
    if e.kind.InvocationStarted? then Create(s, Key(i, Runtime), None, c.creation)
    else if e.kind.TurnStarted? then Create(s, Key(i, Turn), Find(s.open, Key(i, Runtime)), c.creation)
    else if e.kind.RetryScheduled? || e.kind.ToolRetryScheduled? then Mark(s, Key(i, Retry(e.attempt)), c)
    else if e.kind.ValidationFailed? then Mark(s, Key(i, Validation(e.attempt)), c)
    else if OpensTool(e.kind) then Create(s, Key(i, Tool(e.tool)), Enclosing(s, i), c.creation)
    else if EndsTool(e.kind) then Finish(s, [ToolRun(s, e)], c.failAt)
    else if EndsTurn(e.kind) || EndsInvocation(e.kind) then Finish(s, Ended(s, e), c.failAt)
    else Handled(s, true)
  }

  /** An exception ends the handling of its event, not the observer. */
  function Run(s: State, events: seq<(Event, Client)>): State
    decreases |events|
  {
    if events == [] then s else Run(Handle(s, events[0].0, events[0].1).state, events[1..])
  }

  // ---------- Conservation ----------

  predicate Numbered(open: seq<Open>) {
    && (forall i, j | 0 <= i < j < |open| :: open[i].serial < open[j].serial)
    && (forall i, j | 0 <= i < j < |open| :: open[i].key != open[j].key)
  }

  predicate OpenSerial(open: seq<Open>, n: nat) {
    exists o | o in open :: o.serial == n
  }

  /** Every run the client created is either open or was updated, never both and never updated twice. */
  predicate Conserved(s: State) {
    && Numbered(s.open)
    && (forall i, j | 0 <= i < j < |s.updates| :: s.updates[i] != s.updates[j])
    && (forall n | n in s.updates :: n < |s.ids|)
    && (forall o | o in s.open :: o.serial < |s.ids| && s.ids[o.serial] == o.id)
    && (forall n: nat | n < |s.ids| :: OpenSerial(s.open, n) <==> n !in s.updates)
  }

  lemma {:induction false} RemoveMembers(open: seq<Open>, key: Key)
    requires Numbered(open)
    ensures forall o :: o in Remove(open, key) <==> o in open && o.key != key
  {
    if open != [] {
      assert open == [open[0]] + open[1..];
      RemoveMembers(open[1..], key);
    }
  }

  lemma NumberedInFront(o: Open, rest: seq<Open>)
    requires Numbered(rest) && forall p | p in rest :: o.serial < p.serial && o.key != p.key
    ensures Numbered([o] + rest)
  {
  }

  lemma NumberedTail(open: seq<Open>)
    requires Numbered(open) && open != []
    ensures Numbered(open[1..]) && forall p | p in open[1..] :: open[0].serial < p.serial && open[0].key != p.key
  {
  }

  lemma {:induction false} RemoveKeepsOrder(open: seq<Open>, key: Key)
    requires Numbered(open)
    ensures Numbered(Remove(open, key))
  {
    if open != [] {
      NumberedTail(open);
      if open[0].key != key {
        RemoveKeepsOrder(open[1..], key);
        RemoveMembers(open[1..], key);
        NumberedInFront(open[0], Remove(open[1..], key));
      }
    }
  }

  lemma FindIs(open: seq<Open>, o: Open)
    requires Numbered(open) && o in open
    ensures Find(open, o.key) == Some(o)
  {
  }

  lemma CreateConserves(s: State, key: Key, parent: Option<Open>, creation: Creation)
    requires Conserved(s)
    ensures Conserved(Create(s, key, parent, creation).state)
  {
    var t := Create(s, key, parent, creation).state;
    if t != s {
      var n := t.open[|s.open|];
      assert n in t.open;
      assert forall o | o in s.open :: o in t.open;
      assert forall i | 0 <= i < |s.open| :: s.open[i] in s.open;
      forall k: nat | k < |t.ids| ensures OpenSerial(t.open, k) <==> k !in t.updates {
        if k < |s.ids| {
          assert OpenSerial(t.open, k) <==> OpenSerial(s.open, k);
        }
      }
    }
  }

  lemma PopConserves(s: State, key: Key)
    requires Conserved(s) && Has(s.open, key)
    ensures Conserved(Popped(s, key))
  {
    var o := Find(s.open, key).value;
    var t := Popped(s, key);
    RemoveMembers(s.open, key);
    RemoveKeepsOrder(s.open, key);
    assert OpenSerial(s.open, o.serial);
    forall k: nat | k < |t.ids| ensures OpenSerial(t.open, k) <==> k !in t.updates {
      if k != o.serial {
        assert OpenSerial(s.open, k) <==> OpenSerial(t.open, k);
      }
    }
  }

  lemma {:induction false} FinishConserves(s: State, keys: seq<Key>, failAt: Option<nat>)
    requires Conserved(s)
    ensures Conserved(Finish(s, keys, failAt).state)
    decreases |keys|
  {
    if keys != [] {
      if Has(s.open, keys[0]) {
        PopConserves(s, keys[0]);
        if failAt != Some(0) {
          FinishConserves(Popped(s, keys[0]), keys[1..], if failAt.Some? then Some(failAt.value - 1) else None);
        }
      } else {
        FinishConserves(s, keys[1..], failAt);
      }
    }
  }

  lemma MarkConserves(s: State, key: Key, c: Client)
    requires Conserved(s)
    ensures Conserved(Mark(s, key, c).state)
  {
    CreateConserves(s, key, Enclosing(s, key.invocation), c.creation);
    FinishConserves(Create(s, key, Enclosing(s, key.invocation), c.creation).state, [key], c.failAt);
  }

  lemma HandleConserves(s: State, e: Event, c: Client)
    requires Conserved(s)
    ensures Conserved(Handle(s, e, c).state)
  {
    var i := Invocation(e);
    if e.kind.InvocationStarted? {
      CreateConserves(s, Key(i, Runtime), None, c.creation);
    } else if e.kind.TurnStarted? {
      CreateConserves(s, Key(i, Turn), Find(s.open, Key(i, Runtime)), c.creation);
    } else if e.kind.RetryScheduled? || e.kind.ToolRetryScheduled? {
      MarkConserves(s, Key(i, Retry(e.attempt)), c);
    } else if e.kind.ValidationFailed? {
      MarkConserves(s, Key(i, Validation(e.attempt)), c);
    } else if OpensTool(e.kind) {
      CreateConserves(s, Key(i, Tool(e.tool)), Enclosing(s, i), c.creation);
    } else if EndsTool(e.kind) {
      FinishConserves(s, [ToolRun(s, e)], c.failAt);
    } else {
      FinishConserves(s, Ended(s, e), c.failAt);
    }
  }

  /**
   * Over every event sequence, whatever the client does: no run is updated twice, and none is lost, each
   * one the client created being open or updated.
   */
  lemma {:induction false} RunConserves(s: State, events: seq<(Event, Client)>)
    requires Conserved(s)
    ensures Conserved(Run(s, events))
    decreases |events|
  {
    if events != [] {
      HandleConserves(s, events[0].0, events[0].1);
      RunConserves(Handle(s, events[0].0, events[0].1).state, events[1..]);
    }
  }

  // ---------- What finishing leaves open ----------

  lemma {:induction false} KeepMembers(open: seq<Open>, p: Key -> bool)
    requires Numbered(open)
    ensures forall k :: k in Keep(open, p) <==> p(k) && Has(open, k)
    ensures forall i, j | 0 <= i < j < |Keep(open, p)| :: Keep(open, p)[i] != Keep(open, p)[j]
  {
    if open != [] {
      KeepMembers(open[1..], p);
      assert open == [open[0]] + open[1..];
      forall k ensures Has(open, k) <==> k == open[0].key || Has(open[1..], k) {
      }
      assert !Has(open[1..], open[0].key);
    }
  }

  /** How many of the keys are reached before the exception. */
  function Reached(keys: seq<Key>, failAt: Option<nat>): (n: nat)
    ensures n <= |keys|
  {
    if failAt.Some? && failAt.value < |keys| then failAt.value + 1 else |keys|
  }

  /** The open runs once those of the given keys are gone. */
  ghost predicate Left(before: seq<Open>, after: seq<Open>, gone: seq<Key>) {
    forall o :: o in after <==> o in before && o.key !in gone
  }

  lemma LeftFurther(a: seq<Open>, b: seq<Open>, c: seq<Open>, key: Key, gone: seq<Key>)
    requires Left(a, b, [key]) && Left(b, c, gone)
    ensures Left(a, c, [key] + gone)
  {
  }

  lemma RemoveLeaves(open: seq<Open>, key: Key)
    requires Numbered(open)
    ensures Left(open, Remove(open, key), [key]) && Numbered(Remove(open, key))
  {
    RemoveMembers(open, key);
    RemoveKeepsOrder(open, key);
  }

  predicate Distinct(keys: seq<Key>) {
    forall i, j | 0 <= i < j < |keys| :: keys[i] != keys[j]
  }

  lemma StillOpen(s: State, keys: seq<Key>)
    requires Numbered(s.open) && keys != [] && Distinct(keys) && forall k | k in keys :: Has(s.open, k)
    ensures forall k | k in keys[1..] :: Has(Remove(s.open, keys[0]), k)
  {
    RemoveMembers(s.open, keys[0]);
    forall k | k in keys[1..] ensures Has(Remove(s.open, keys[0]), k) {
      var i :| 1 <= i < |keys| && keys[i] == k;
      assert k in keys;
      assert Find(s.open, k).value in Remove(s.open, keys[0]);
    }
  }

  lemma {:induction false} FinishLeaves(s: State, keys: seq<Key>, failAt: Option<nat>)
    requires Numbered(s.open) && Distinct(keys) && forall k | k in keys :: Has(s.open, k)
    ensures Left(s.open, Finish(s, keys, failAt).state.open, keys[..Reached(keys, failAt)])
    ensures Finish(s, keys, failAt).ok <==> failAt.None? || failAt.value >= |keys|
    decreases |keys|
  {
    if keys != [] {
      assert keys[0] in keys;
      var t := Popped(s, keys[0]);
      var n := Reached(keys, failAt);
      RemoveLeaves(s.open, keys[0]);
      assert keys[..n] == [keys[0]] + keys[1..n];
      if failAt != Some(0) {
        var f := if failAt.Some? then Some(failAt.value - 1) else None;
        StillOpen(s, keys);
        FinishLeaves(t, keys[1..], f);
        assert keys[1..][..n - 1] == keys[1..n];
        LeftFurther(s.open, t.open, Finish(t, keys[1..], f).state.open, keys[0], keys[1..n]);
      }
    }
  }

  lemma EndedKeys(s: State, e: Event)
    requires Numbered(s.open)
    ensures Distinct(Ended(s, e))
    ensures forall k :: k in Ended(s, e) <==> Ends(e, k) && Has(s.open, k)
  {
    KeepMembers(s.open, key => Ends(e, key));
  }

  /** The keys an end is done with. */
  function Gone(s: State, e: Event, c: Client): seq<Key> {
    Ended(s, e)[..Reached(Ended(s, e), c.failAt)]
  }

  lemma HandleEnd(s: State, e: Event, c: Client)
    requires EndsTurn(e.kind) || EndsInvocation(e.kind)
    ensures Handle(s, e, c) == Finish(s, Ended(s, e), c.failAt)
  {
  }

  lemma EndLeaves(s: State, e: Event, c: Client)
    requires Numbered(s.open) && (EndsTurn(e.kind) || EndsInvocation(e.kind))
    ensures Left(s.open, Handle(s, e, c).state.open, Gone(s, e, c))
  {
    EndedKeys(s, e);
    FinishLeaves(s, Ended(s, e), c.failAt);
    HandleEnd(s, e, c);
  }

  /**
   * After a terminal event exactly the runs behind the update that raised stay open; so none of the
   * invocation's runs does, if and only if no update but the last one raised. Other invocations keep all
   * of theirs.
   */
  lemma AfterTheEnd(s: State, e: Event, c: Client)
    requires Numbered(s.open) && EndsInvocation(e.kind)
    ensures var t := Handle(s, e, c).state;
            var keys := Ended(s, e);
            && Left(s.open, t.open, Gone(s, e, c))
            && ((forall o | o in t.open :: o.key.invocation != Invocation(e))
                <==> c.failAt.None? || c.failAt.value + 1 >= |keys|)
            && (forall o | o in s.open && o.key.invocation != Invocation(e) :: o in t.open)
  {
    EndedKeys(s, e);
    EndLeaves(s, e, c);
    LeftOf(s, Handle(s, e, c).state, e, Ended(s, e), Reached(Ended(s, e), c.failAt));
  }

  /** Which invocations have runs left when the first `n` of an end's keys are gone. */
  lemma LeftOf(s: State, t: State, e: Event, keys: seq<Key>, n: nat)
    requires EndsInvocation(e.kind) && Distinct(keys) && n <= |keys|
    requires forall k :: k in keys <==> Ends(e, k) && Has(s.open, k)
    requires Left(s.open, t.open, keys[..n])
    ensures (forall o | o in t.open :: o.key.invocation != Invocation(e)) <==> n == |keys|
    ensures forall o | o in s.open && o.key.invocation != Invocation(e) :: o in t.open
  {
    forall o | o in s.open && o.key.invocation != Invocation(e) ensures o in t.open {
      assert o.key !in keys;
    }
    if n < |keys| {
      assert keys[n] in keys && keys[n] !in keys[..n];
      assert Find(s.open, keys[n]).value in t.open;
    } else {
      assert keys[..n] == keys;
      forall o | o in t.open ensures o.key.invocation != Invocation(e) {
        assert Has(s.open, o.key);
      }
    }
  }

  /** The last of the open runs that pass a test. */
  predicate Latest(open: seq<Open>, p: Key -> bool, o: Open) {
    o in open && p(o.key) && forall q | q in open && p(q.key) :: q.serial <= o.serial
  }

  lemma LatestBehind(open: seq<Open>, p: Key -> bool, o: Open)
    requires Numbered(open) && open != [] && Latest(open[1..], p, o)
    ensures Latest(open, p, o)
  {
    NumberedTail(open);
    assert forall q | q in open :: q == open[0] || q in open[1..];
  }

  lemma LatestAlone(open: seq<Open>, p: Key -> bool)
    requires Numbered(open) && open != [] && p(open[0].key) && Keep(open[1..], p) == []
    ensures Latest(open, p, open[0])
  {
    KeepMembers(open[1..], p);
    forall q | q in open[1..] ensures !p(q.key) {
      assert Has(open[1..], q.key);
    }
    assert forall q | q in open :: q == open[0] || q in open[1..];
  }

  lemma {:induction false} KeepEndsWithLatest(open: seq<Open>, p: Key -> bool)
    requires Numbered(open) && Keep(open, p) != []
    ensures exists o :: Latest(open, p, o) && o.key == Keep(open, p)[|Keep(open, p)| - 1]
  {
    NumberedTail(open);
    if Keep(open[1..], p) != [] {
      KeepEndsWithLatest(open[1..], p);
      var o :| Latest(open[1..], p, o) && o.key == Keep(open[1..], p)[|Keep(open[1..], p)| - 1];
      LatestBehind(open, p, o);
    } else {
      LatestAlone(open, p);
    }
  }

  /** A tool's end finishes its own run or, when that is not open, the invocation's tool run opened last. */
  lemma ToolEndsFinishTheLatest(s: State, e: Event)
    requires Conserved(s) && !Has(s.open, Key(Invocation(e), Tool(e.tool)))
    requires exists o :: o in s.open && IsTool(o.key, Invocation(e))
    ensures exists o :: Latest(s.open, ToolTest(e), o) && o.key == ToolRun(s, e)
  {
    var o :| o in s.open && IsTool(o.key, Invocation(e));
    assert o.key in Keep(s.open, ToolTest(e)) by {
      KeepMembers(s.open, ToolTest(e));
      assert Has(s.open, o.key);
    }
    KeepEndsWithLatest(s.open, ToolTest(e));
  }

  // ---------- Nesting ----------

  predicate ParentIn(open: seq<Open>, o: Open) {
    o.parent.Some? ==> OpenSerial(open, o.parent.value)
  }

  /** Who may be whose parent: a turn below its invocation, the rest below one of the two. */
  predicate Nests(child: Open, parent: Open) {
    && child.key.invocation == parent.key.invocation
    && (parent.key.slot == Runtime || (parent.key.slot == Turn && child.key.slot != Turn))
    && child.key.slot != Runtime
  }

  /** An open run linked to one of the observer's runs has that run still open, and above it. */
  predicate Nested(s: State) {
    && (forall o | o in s.open :: ParentIn(s.open, o))
    && (forall o, p | o in s.open && p in s.open && o.parent == Some(p.serial) :: Nests(o, p))
  }

  predicate Upper(slot: Slot) {
    slot.Runtime? || slot.Turn?
  }

  lemma CreateNests(s: State, key: Key, parent: Option<Open>, creation: Creation)
    requires Conserved(s) && Nested(s)
    requires parent.Some? ==> parent.value in s.open && Nests(Open(key, 0, None, true, None), parent.value)
    ensures Nested(Create(s, key, parent, creation).state)
  {
    var t := Create(s, key, parent, creation).state;
    if t != s {
      var n := t.open[|s.open|];
      assert forall o | o in s.open :: o in t.open;
      assert forall o | o in t.open :: o in s.open || o == n;
      forall o | o in t.open ensures ParentIn(t.open, o) {
        if o in s.open {
          assert ParentIn(s.open, o);
        }
      }
      forall o, p | o in t.open && p in t.open && o.parent == Some(p.serial) ensures Nests(o, p) {
        if o in s.open {
          assert ParentIn(s.open, o);
        } else {
          SerialsAreUnique(s, parent.value, p);
        }
      }
    }
  }

  lemma SerialsAreUnique(s: State, o: Open, p: Open)
    requires Numbered(s.open) && o in s.open
    ensures p in s.open && o.serial == p.serial ==> o == p
  {
  }

  /** Removing runs keeps the nesting exactly when no run that stays loses its parent. */
  lemma RemovalNests(s: State, t: State, gone: seq<Key>)
    requires Numbered(s.open) && Nested(s) && Left(s.open, t.open, gone)
    ensures Nested(t) <==>
      forall o, p | o in s.open && p in s.open && o.parent == Some(p.serial) :: p.key in gone ==> o.key in gone
  {
    if Nested(t) {
      forall o, p | o in s.open && p in s.open && o.parent == Some(p.serial) && o.key !in gone ensures p.key !in gone {
        assert ParentIn(t.open, o);
        var q :| q in t.open && q.serial == p.serial;
        SerialsAreUnique(s, p, q);
      }
    } else if forall o, p | o in s.open && p in s.open && o.parent == Some(p.serial) ::
                p.key in gone ==> o.key in gone {
      forall o | o in t.open ensures ParentIn(t.open, o) {
        assert ParentIn(s.open, o);
      }
      assert false;
    }
  }

  lemma FinishOne(s: State, key: Key, failAt: Option<nat>)
    ensures Finish(s, [key], failAt).state == if Has(s.open, key) then Popped(s, key) else s
  {
    var rest := [key][1..];
    assert rest == [];
  }

  /** Runs below the upper two are nobody's parents. */
  lemma LowerRunsNest(s: State, key: Key, failAt: Option<nat>)
    requires Numbered(s.open) && Nested(s) && !Upper(key.slot)
    ensures Nested(Finish(s, [key], failAt).state)
  {
    FinishOne(s, key, failAt);
    if Has(s.open, key) {
      PopNests(s, key);
    }
  }

  lemma PopNests(s: State, key: Key)
    requires Numbered(s.open) && Nested(s) && !Upper(key.slot) && Has(s.open, key)
    ensures Nested(Popped(s, key))
  {
    RemoveLeaves(s.open, key);
    forall o, p | o in s.open && p in s.open && o.parent == Some(p.serial) ensures p.key != key {
      assert Nests(o, p);
    }
    RemovalNests(s, Popped(s, key), [key]);
  }

  lemma MarkNests(s: State, key: Key, c: Client)
    requires Conserved(s) && Nested(s) && !Upper(key.slot)
    ensures Nested(Mark(s, key, c).state)
  {
    var h := Create(s, key, Enclosing(s, key.invocation), c.creation);
    CreateConserves(s, key, Enclosing(s, key.invocation), c.creation);
    CreateNests(s, key, Enclosing(s, key.invocation), c.creation);
    LowerRunsNest(h.state, key, c.failAt);
  }

  lemma ToolRunIsLower(s: State, e: Event)
    requires Numbered(s.open)
    ensures !Upper(ToolRun(s, e).slot)
  {
    var tools := Keep(s.open, ToolTest(e));
    KeepMembers(s.open, ToolTest(e));
    if tools != [] {
      assert tools[|tools| - 1] in tools;
    }
  }

  /** When no update raises, the runs an end selects take their children with them. */
  lemma EndNests(s: State, e: Event)
    requires Numbered(s.open) && Nested(s) && (EndsTurn(e.kind) || EndsInvocation(e.kind))
    ensures Nested(Finish(s, Ended(s, e), None).state)
  {
    var keys := Ended(s, e);
    EndedKeys(s, e);
    FinishLeaves(s, keys, None);
    assert keys[..|keys|] == keys;
    forall o, p | o in s.open && p in s.open && o.parent == Some(p.serial) && p.key in keys ensures o.key in keys {
      assert Nests(o, p);
      assert Has(s.open, o.key);
    }
    RemovalNests(s, Finish(s, keys, None).state, keys);
  }

  /**
   * Every event keeps the nesting, whatever the client does, unless it ends a turn or an invocation and
   * an update in the middle raises.
   */
  lemma HandleNests(s: State, e: Event, c: Client)
    requires Conserved(s) && Nested(s)
    requires EndsTurn(e.kind) || EndsInvocation(e.kind) ==> c.failAt.None?
    ensures Nested(Handle(s, e, c).state)
  {
    var i := Invocation(e);
    if e.kind.InvocationStarted? {
      CreateNests(s, Key(i, Runtime), None, c.creation);
    } else if e.kind.TurnStarted? {
      CreateNests(s, Key(i, Turn), Find(s.open, Key(i, Runtime)), c.creation);
    } else if e.kind.RetryScheduled? || e.kind.ToolRetryScheduled? {
      MarkNests(s, Key(i, Retry(e.attempt)), c);
    } else if e.kind.ValidationFailed? {
      MarkNests(s, Key(i, Validation(e.attempt)), c);
    } else if OpensTool(e.kind) {
      CreateNests(s, Key(i, Tool(e.tool)), Enclosing(s, i), c.creation);
    } else if EndsTool(e.kind) {
      ToolRunIsLower(s, e);
      LowerRunsNest(s, ToolRun(s, e), c.failAt);
    } else if EndsTurn(e.kind) || EndsInvocation(e.kind) {
      EndNests(s, e);
    }
  }

  /** The run of a key hangs below its invocation's run or its turn, and that one is gone. */
  predicate Orphaned(s: State, gone: seq<Key>, key: Key) {
    var o := Find(s.open, key);
    o.Some? && exists slot | slot in [Runtime, Turn] ::
      var parent := Find(s.open, Key(key.invocation, slot));
      parent.Some? && o.value.parent == Some(parent.value.serial) && parent.value.key in gone
  }

  /**
   * An end keeps the nesting exactly when none of the runs behind the failing update, in the order in which
   * they were opened, hangs below an invocation or a turn that is at or before it.
   */
  lemma EndNestsExactly(s: State, e: Event, c: Client)
    requires Conserved(s) && Nested(s) && (EndsTurn(e.kind) || EndsInvocation(e.kind))
    ensures var keys := Ended(s, e);
            Nested(Handle(s, e, c).state) <==>
            forall k | Reached(keys, c.failAt) <= k < |keys| :: !Orphaned(s, Gone(s, e, c), keys[k])
  {
    var keys, gone := Ended(s, e), Gone(s, e, c);
    EndedKeys(s, e);
    EndLeaves(s, e, c);
    RemovalNests(s, Handle(s, e, c).state, gone);
    forall o, p | o in s.open && p in s.open && o.parent == Some(p.serial) && p.key in gone && o.key !in gone
      ensures exists k :: Reached(keys, c.failAt) <= k < |keys| && Orphaned(s, gone, keys[k])
    {
      OrphanIsBehind(s, e, c, o, p);
    }
    forall k | Reached(keys, c.failAt) <= k < |keys| && Orphaned(s, gone, keys[k])
      ensures keys[k] !in gone
      ensures exists o, p ::
                o in s.open && p in s.open && o.parent == Some(p.serial) && p.key in gone && o.key == keys[k]
    {
      var slot :| slot in [Runtime, Turn]
        && Find(s.open, Key(keys[k].invocation, slot)).Some?
        && Find(s.open, keys[k]).value.parent == Some(Find(s.open, Key(keys[k].invocation, slot)).value.serial)
        && Find(s.open, Key(keys[k].invocation, slot)).value.key in gone;
      assert Find(s.open, keys[k]).value.key == keys[k];
    }
  }

  lemma OrphanIsBehind(s: State, e: Event, c: Client, o: Open, p: Open)
    requires Conserved(s) && Nested(s) && (EndsTurn(e.kind) || EndsInvocation(e.kind))
    requires o in s.open && p in s.open && o.parent == Some(p.serial)
    requires p.key in Gone(s, e, c) && o.key !in Gone(s, e, c)
    ensures var keys := Ended(s, e);
            exists k :: Reached(keys, c.failAt) <= k < |keys| && Orphaned(s, Gone(s, e, c), keys[k])
  {
    var keys, n := Ended(s, e), Reached(Ended(s, e), c.failAt);
    EndedKeys(s, e);
    assert Nests(o, p) && p.key in keys;
    assert Has(s.open, o.key);
    var k :| 0 <= k < |keys| && keys[k] == o.key;
    assert forall m | 0 <= m < n :: keys[m] == keys[..n][m];
    FindIs(s.open, o);
    FindIs(s.open, p);
    assert p.key == Key(o.key.invocation, p.key.slot) && p.key.slot in [Runtime, Turn];
  }

  /** Over every event sequence in which the ends' updates do not raise, open runs keep their parents. */
  lemma {:induction false} RunNests(s: State, events: seq<(Event, Client)>)
    requires Conserved(s) && Nested(s)
    requires forall k | 0 <= k < |events| ::
      EndsTurn(events[k].0.kind) || EndsInvocation(events[k].0.kind) ==> events[k].1.failAt.None?
    ensures Nested(Run(s, events))
    decreases |events|
  {
    if events != [] {
      HandleConserves(s, events[0].0, events[0].1);
      HandleNests(s, events[0].0, events[0].1);
      RunNests(Handle(s, events[0].0, events[0].1).state, events[1..]);
    }
  }

  /** An end whose first update raises, in a state with a turn below its invocation. */
  lemma FirstUpdateFails(s: State, e: Event)
    requires Numbered(s.open) && |s.open| == 2 && EndsInvocation(e.kind)
    requires s.open[0].key.invocation == Invocation(e) && s.open[1].parent == Some(s.open[0].serial)
    ensures !Nested(Handle(s, e, Client(Raises, Some(0))).state)
  {
    var t := Handle(s, e, Client(Raises, Some(0))).state;
    HandleEnd(s, e, Client(Raises, Some(0)));
    assert Ended(s, e)[0] == s.open[0].key;
    assert t.open == [s.open[1]];
    assert s.open[1] in t.open && !ParentIn(t.open, s.open[1]);
  }

  const INVOCATION := Open(Key("i", Runtime), 0, None, true, Some("a"))

  lemma OneInvocation()
    ensures var t := Handle(EMPTY, Event(InvocationStarted, "i", "", "", ""),
                            Client(Returns(true, Some("a")), None)).state;
            t.open == [INVOCATION] && |t.ids| == 1
  {
  }

  lemma ItsTurn(s: State)
    requires s.open == [INVOCATION] && |s.ids| == 1
    ensures Handle(s, Event(TurnStarted, "i", "", "", ""), Client(Returns(true, Some("b")), None)).state.open
         == [INVOCATION, Open(Key("i", Turn), 1, Some(0), true, Some("b"))]
  {
    assert Find(s.open, Key("i", Runtime)) == Some(INVOCATION);
  }

  /** The proviso is needed: one failing update leaves a turn open whose invocation is closed. */
  lemma AFailureLeavesAnOrphan()
    ensures exists events: seq<(Event, Client)> :: !Nested(Run(EMPTY, events))
  {
    var first, second := Client(Returns(true, Some("a")), None), Client(Returns(true, Some("b")), None);
    var a := (Event(InvocationStarted, "i", "", "", ""), first);
    var b := (Event(TurnStarted, "i", "", "", ""), second);
    var c := (Event(Cancelled, "i", "", "", ""), Client(Raises, Some(0)));
    var s := Handle(EMPTY, a.0, a.1).state;
    OneInvocation();
    ItsTurn(s);
    FirstUpdateFails(Handle(s, b.0, b.1).state, c.0);
    RunThree(EMPTY, a, b, c);
    assert !Nested(Run(EMPTY, [a, b, c]));
  }

  lemma RunThree(s: State, a: (Event, Client), b: (Event, Client), c: (Event, Client))
    ensures Run(s, [a, b, c])
         == Handle(Handle(Handle(s, a.0, a.1).state, b.0, b.1).state, c.0, c.1).state
  {
    assert [a, b, c][1..] == [b, c] && [b, c][1..] == [c] && [c][1..] == [];
    var t := Handle(s, a.0, a.1).state;
    var u := Handle(t, b.0, b.1).state;
    assert Run(u, [c]) == Handle(u, c.0, c.1).state;
    assert Run(t, [b, c]) == Run(u, [c]);
  }

  // ---------- Identity for the client ----------

  /** No two runs were created with the same id. */
  predicate DistinctIds(s: State) {
    forall i, j | 0 <= i < j < |s.ids| :: s.ids[i].Some? ==> s.ids[i] != s.ids[j]
  }

  function IdOf(s: State, n: nat): Option<string> {
    if n < |s.ids| then s.ids[n] else None
  }

  /** No id was updated twice. */
  predicate UpdatedOnce(s: State) {
    forall i, j | 0 <= i < j < |s.updates| ::
      IdOf(s, s.updates[i]).Some? ==> IdOf(s, s.updates[i]) != IdOf(s, s.updates[j])
  }

  /** No open run is linked to an id that was updated. */
  predicate LinksLive(s: State) {
    forall o, k | o in s.open && o.parent.Some? && 0 <= k < |s.updates| ::
      IdOf(s, o.parent.value).Some? ==> IdOf(s, s.updates[k]) != IdOf(s, o.parent.value)
  }

  lemma DistinctIdsAreEnough(s: State)
    requires Conserved(s) && DistinctIds(s)
    ensures UpdatedOnce(s)
    ensures Nested(s) ==> LinksLive(s)
  {
    assert forall k | 0 <= k < |s.updates| :: s.updates[k] in s.updates;
    if Nested(s) {
      forall o, k | o in s.open && o.parent.Some? && 0 <= k < |s.updates|
        ensures IdOf(s, o.parent.value).Some? ==> IdOf(s, s.updates[k]) != IdOf(s, o.parent.value)
      {
        assert ParentIn(s.open, o);
        assert o.parent.value !in s.updates;
      }
    }
  }

  /** Events during which the client creates nothing and updates without raising. */
  predicate OnlyEnds(events: seq<(Event, Client)>) {
    forall k | 0 <= k < |events| :: events[k].1 == Client(Raises, None)
  }

  lemma {:induction false} FinishGrows(s: State, keys: seq<Key>, failAt: Option<nat>)
    ensures s.updates <= Finish(s, keys, failAt).state.updates && Finish(s, keys, failAt).state.ids == s.ids
    decreases |keys|
  {
    if keys != [] && Has(s.open, keys[0]) && failAt != Some(0) {
      FinishGrows(Popped(s, keys[0]), keys[1..], if failAt.Some? then Some(failAt.value - 1) else None);
    } else if keys != [] && !Has(s.open, keys[0]) {
      FinishGrows(s, keys[1..], failAt);
    }
  }

  lemma HandleGrows(s: State, e: Event, c: Client)
    ensures s.updates <= Handle(s, e, c).state.updates && s.ids <= Handle(s, e, c).state.ids
    ensures c.creation.Raises? ==> Handle(s, e, c).state.ids == s.ids
  {
    var i := Invocation(e);
    if e.kind.RetryScheduled? || e.kind.ToolRetryScheduled? {
      MarkGrows(s, Key(i, Retry(e.attempt)), c);
    } else if e.kind.ValidationFailed? {
      MarkGrows(s, Key(i, Validation(e.attempt)), c);
    } else if EndsTool(e.kind) {
      FinishGrows(s, [ToolRun(s, e)], c.failAt);
    } else if EndsTurn(e.kind) || EndsInvocation(e.kind) {
      FinishGrows(s, Ended(s, e), c.failAt);
      HandleEnd(s, e, c);
    }
  }

  lemma MarkGrows(s: State, key: Key, c: Client)
    ensures s.updates <= Mark(s, key, c).state.updates && s.ids <= Mark(s, key, c).state.ids
    ensures c.creation.Raises? ==> Mark(s, key, c).state.ids == s.ids
  {
    FinishGrows(Create(s, key, Enclosing(s, key.invocation), c.creation).state, [key], c.failAt);
  }

  lemma {:induction false} RunGrows(s: State, events: seq<(Event, Client)>)
    ensures s.updates <= Run(s, events).updates && s.ids <= Run(s, events).ids
    ensures OnlyEnds(events) ==> Run(s, events).ids == s.ids
    decreases |events|
  {
    if events != [] {
      HandleGrows(s, events[0].0, events[0].1);
      RunGrows(Handle(s, events[0].0, events[0].1).state, events[1..]);
    }
  }

  /** No open run with this serial is of the given invocation. */
  predicate Elsewhere(s: State, n: nat, invocation: string) {
    forall o | o in s.open && o.serial == n :: o.key.invocation != invocation
  }

  /** Every run can be brought to its update by ending its invocation, which leaves other invocations alone. */
  lemma CanBeUpdated(s: State, n: nat) returns (events: seq<(Event, Client)>)
    requires Conserved(s) && n < |s.ids|
    ensures OnlyEnds(events) && n in Run(s, events).updates
    ensures forall q | q in s.open && Elsewhere(s, n, q.key.invocation) :: q in Run(s, events).open
  {
    if n in s.updates {
      events := [];
    } else {
      assert OpenSerial(s.open, n);
      var o :| o in s.open && o.serial == n;
      var end := Event(InvocationCompleted, o.key.invocation, o.key.invocation, "", "");
      events := [(end, Client(Raises, None))];
      var t := Handle(s, end, Client(Raises, None)).state;
      AfterTheEnd(s, end, Client(Raises, None));
      HandleConserves(s, end, Client(Raises, None));
      HandleGrows(s, end, Client(Raises, None));
      assert events[1..] == [] && Run(s, events) == t;
      forall q | q in t.open ensures q.serial != n {
        assert q in s.open;
      }
      assert !OpenSerial(t.open, n);
    }
  }

  lemma {:induction false} RunConcat(s: State, a: seq<(Event, Client)>, b: seq<(Event, Client)>)
    ensures Run(s, a + b) == Run(Run(s, a), b)
    decreases |a|
  {
    if a == [] {
      assert a + b == b;
    } else {
      assert (a + b)[1..] == a[1..] + b;
      RunConcat(Handle(s, a[0].0, a[0].1).state, a[1..], b);
    }
  }

  /**
   * The client sees every id updated at most once, however the open runs are brought to their end, if and
   * only if it handed out distinct ids.
   */
  lemma IdsUpdatedOnceExactly(s: State)
    requires Conserved(s)
    ensures DistinctIds(s) <==>
            forall events | OnlyEnds(events) :: Conserved(Run(s, events)) && UpdatedOnce(Run(s, events))
  {
    if DistinctIds(s) {
      forall events | OnlyEnds(events) ensures Conserved(Run(s, events)) && UpdatedOnce(Run(s, events)) {
        RunConserves(s, events);
        RunGrows(s, events);
        DistinctIdsAreEnough(Run(s, events));
      }
    } else {
      var i, j :| 0 <= i < j < |s.ids| && s.ids[i].Some? && s.ids[i] == s.ids[j];
      SharedIdsAreUpdatedTwice(s, i, j);
    }
  }

  lemma SharedIdsAreUpdatedTwice(s: State, i: nat, j: nat)
    requires Conserved(s) && i < j < |s.ids| && s.ids[i].Some? && s.ids[i] == s.ids[j]
    ensures exists events :: OnlyEnds(events) && Conserved(Run(s, events)) && !UpdatedOnce(Run(s, events))
  {
    var a := CanBeUpdated(s, i);
    RunConserves(s, a);
    RunGrows(s, a);
    var b := CanBeUpdated(Run(s, a), j);
    RunGrows(Run(s, a), b);
    RunConcat(s, a, b);
    RunConserves(s, a + b);
    var t := Run(s, a + b);
    var x :| 0 <= x < |t.updates| && t.updates[x] == i;
    var y :| 0 <= y < |t.updates| && t.updates[y] == j;
    assert OnlyEnds(a + b);
    assert !UpdatedOnce(t);
  }

  // ---------- Nesting for the client ----------

  /** The run with this serial was updated, or can be updated while `o` stays open. */
  predicate Apart(s: State, o: Open, n: nat) {
    || n in s.updates
    || exists q | q in s.open ::
         q.serial == n && q != o && (q.key.invocation != o.key.invocation || !Upper(q.key.slot))
  }

  /** `o` is linked to `p`, whose id is also that of the run with serial `n`. */
  predicate Twin(s: State, o: Open, p: Open, n: nat) {
    && o in s.open && p in s.open && o.parent == Some(p.serial)
    && n < |s.ids| && n != p.serial && p.id.Some? && s.ids[n] == p.id
  }

  /** Only ends of their own kind take an invocation's or a turn's run, and these take what is below. */
  predicate Follows(s: State, t: State) {
    && (forall o | o in t.open :: o in s.open)
    && (forall o, q | o in t.open && q in s.open && q.key.invocation == o.key.invocation
                      && (q.key.slot.Runtime? || (q.key.slot.Turn? && !o.key.slot.Runtime?)) :: q in t.open)
  }

  lemma OneLeavesFollows(s: State, key: Key)
    requires Numbered(s.open) && !Upper(key.slot)
    ensures Follows(s, Finish(s, [key], None).state)
  {
    FinishOne(s, key, None);
    RemoveMembers(s.open, key);
  }

  lemma EndFollows(s: State, e: Event)
    requires Numbered(s.open) && (EndsTurn(e.kind) || EndsInvocation(e.kind))
    ensures Follows(s, Handle(s, e, Client(Raises, None)).state)
  {
    var c := Client(Raises, None);
    EndLeaves(s, e, c);
    EndedKeys(s, e);
    assert Gone(s, e, c) == Ended(s, e);
    forall o | o in s.open ensures o.key in Gone(s, e, c) <==> Ends(e, o.key) {
      assert Has(s.open, o.key);
    }
  }

  lemma HandleFollows(s: State, e: Event)
    requires Conserved(s)
    ensures Follows(s, Handle(s, e, Client(Raises, None)).state)
  {
    var i := Invocation(e);
    if e.kind.RetryScheduled? || e.kind.ToolRetryScheduled? {
      OneLeavesFollows(s, Key(i, Retry(e.attempt)));
    } else if e.kind.ValidationFailed? {
      OneLeavesFollows(s, Key(i, Validation(e.attempt)));
    } else if EndsTool(e.kind) {
      ToolRunIsLower(s, e);
      OneLeavesFollows(s, ToolRun(s, e));
    } else if EndsTurn(e.kind) || EndsInvocation(e.kind) {
      EndFollows(s, e);
    } else {
      assert Handle(s, e, Client(Raises, None)).state == s;
    }
  }

  lemma {:induction false} RunFollows(s: State, events: seq<(Event, Client)>)
    requires Conserved(s) && OnlyEnds(events)
    ensures Follows(s, Run(s, events))
    decreases |events|
  {
    if events != [] {
      var t := Handle(s, events[0].0, events[0].1).state;
      HandleFollows(s, events[0].0);
      HandleConserves(s, events[0].0, events[0].1);
      RunFollows(t, events[1..]);
    }
  }

  /** A run below the upper two can be finished alone. */
  lemma CanBeFinished(s: State, q: Open) returns (events: seq<(Event, Client)>)
    requires Numbered(s.open) && q in s.open && !Upper(q.key.slot)
    ensures OnlyEnds(events) && Run(s, events) == Popped(s, q.key)
  {
    var i := q.key.invocation;
    var e := match q.key.slot
      case Retry(attempt) => Event(RetryScheduled, i, i, attempt, "")
      case Validation(attempt) => Event(ValidationFailed, i, i, attempt, "")
      case Tool(name) => Event(ToolCompleted, i, i, "", name)
      case _ => Event(OtherKind, i, i, "", "");
    events := [(e, Client(Raises, None))];
    FinishOne(s, q.key, None);
    assert events[1..] == [];
    assert Run(s, events) == Handle(s, e, Client(Raises, None)).state;
  }

  /** A run elsewhere is brought to its end by the end of its invocation. */
  lemma ApartCanBeUpdated(s: State, o: Open, p: Open, n: nat) returns (events: seq<(Event, Client)>)
    requires Conserved(s) && Nested(s) && Twin(s, o, p, n) && Apart(s, o, n)
    ensures OnlyEnds(events) && n in Run(s, events).updates && o in Run(s, events).open
  {
    if q :| q in s.open && q.serial == n && q.key.invocation == o.key.invocation {
      assert q.serial !in s.updates;
      assert exists r | r in s.open ::
          r.serial == n && r != o && (r.key.invocation != o.key.invocation || !Upper(r.key.slot));
      var r :| r in s.open && r.serial == n && r != o && (r.key.invocation != o.key.invocation || !Upper(r.key.slot));
      SerialsAreUnique(s, q, r);
      events := CanBeFinished(s, q);
      FindIs(s.open, q);
      RemoveMembers(s.open, q.key);
    } else {
      events := CanBeUpdated(s, n);
    }
  }

  /** A link whose target's id another run shares can go stale, without any further creation. */
  lemma SharedLinksGoStale(s: State, o: Open, p: Open, n: nat)
    requires Conserved(s) && Nested(s) && Twin(s, o, p, n) && Apart(s, o, n)
    ensures exists events :: OnlyEnds(events) && !LinksLive(Run(s, events))
  {
    var events := ApartCanBeUpdated(s, o, p, n);
    var t := Run(s, events);
    RunGrows(s, events);
    var k :| 0 <= k < |t.updates| && t.updates[k] == n;
    assert o in t.open && IdOf(t, t.updates[k]) == IdOf(t, o.parent.value);
    assert !LinksLive(t);
  }

  lemma UnsharedLinksStayLive(s: State, events: seq<(Event, Client)>)
    requires Conserved(s) && Nested(s) && OnlyEnds(events)
    requires forall o, p, n: nat | Twin(s, o, p, n) :: !Apart(s, o, n)
    ensures LinksLive(Run(s, events))
  {
    var t := Run(s, events);
    RunConserves(s, events);
    RunNests(s, events);
    RunGrows(s, events);
    RunFollows(s, events);
    forall o, k | o in t.open && o.parent.Some? && 0 <= k < |t.updates| && IdOf(t, o.parent.value).Some?
      ensures IdOf(t, t.updates[k]) != IdOf(t, o.parent.value)
    {
      assert ParentIn(t.open, o);
      var p :| p in t.open && p.serial == o.parent.value;
      LinkStaysLive(s, t, o, p, t.updates[k]);
    }
  }

  /** What is updated while a run below the invocation's own is open was apart from it. */
  lemma UpdatedWasApart(s: State, t: State, o: Open, n: nat)
    requires Conserved(s) && Conserved(t) && Follows(s, t) && t.ids == s.ids
    requires n in t.updates && o in t.open && !o.key.slot.Runtime?
    ensures Apart(s, o, n)
  {
    if n !in s.updates {
      assert OpenSerial(s.open, n) && !OpenSerial(t.open, n);
      var q :| q in s.open && q.serial == n;
      assert q !in t.open && q != o;
    }
  }

  lemma LinkStaysLive(s: State, t: State, o: Open, p: Open, n: nat)
    requires Conserved(s) && Nested(s) && Conserved(t) && Follows(s, t) && t.ids == s.ids && n in t.updates
    requires o in t.open && p in t.open && o.parent == Some(p.serial) && p.id.Some?
    requires Twin(s, o, p, n) ==> !Apart(s, o, n)
    ensures s.ids[n] != p.id
  {
    assert OpenSerial(t.open, p.serial) && Nests(o, p);
    UpdatedWasApart(s, t, o, n);
  }

  /**
   * However the open runs are ended, no open run is linked to an updated id, if and only if no run that was
   * updated or can be updated before a linked run shares the id of that run's parent. Only an invocation's
   * or a turn's own run cannot, nor can the linked run itself.
   */
  lemma LinksStayLiveExactly(s: State)
    requires Conserved(s) && Nested(s)
    ensures (forall events | OnlyEnds(events) :: LinksLive(Run(s, events)))
            <==> forall o, p, n: nat | Twin(s, o, p, n) :: !Apart(s, o, n)
  {
    if o, p, n: nat :| Twin(s, o, p, n) && Apart(s, o, n) {
      SharedLinksGoStale(s, o, p, n);
    } else {
      forall events | OnlyEnds(events) ensures LinksLive(Run(s, events)) {
        UnsharedLinksStayLive(s, events);
      }
    }
  }

  // ---------- Clients that mix up runs ----------

  /** A client that returns nothing has its runs named by their slots, in every invocation the same. */
  const SILENT := Client(ReturnsNothing, None)

  /** A client that returns the same object every time. */
  const CONSTANT := Client(Returns(true, Some("run")), None)

  function Plain(kind: Kind, invocation: string, c: Client): (Event, Client) {
    (Event(kind, invocation, "", "", ""), c)
  }

  function SilentEvents(): seq<(Event, Client)> {
    [Plain(InvocationStarted, "i", SILENT), Plain(InvocationStarted, "j", SILENT), Plain(TurnStarted, "j", SILENT)]
  }

  function ConstantEvents(): seq<(Event, Client)> {
    [Plain(InvocationStarted, "i", CONSTANT), Plain(TurnStarted, "i", CONSTANT), Plain(ToolStarted, "i", CONSTANT)]
  }

  lemma TwoSilentInvocations()
    ensures var open := Run(EMPTY, SilentEvents()).open;
            && |open| == 3 && open[0].key.invocation == "i" && open[1].key.invocation == open[2].key.invocation == "j"
            && open[0].id == open[1].id == Some("runtime") && open[2].parent == Some(open[1].serial)
  {
    var a, b, c := SilentEvents()[0], SilentEvents()[1], SilentEvents()[2];
    var s := Handle(EMPTY, a.0, a.1).state;
    assert s.open == [Open(Key("i", Runtime), 0, None, true, Some("runtime"))];
    var t := Handle(s, b.0, b.1).state;
    assert t.open == s.open + [Open(Key("j", Runtime), 1, None, true, Some("runtime"))];
    assert Find(t.open, Key("j", Runtime)) == Some(t.open[1]);
    RunThree(EMPTY, a, b, c);
  }

  lemma OneConstantInvocation()
    ensures var open := Run(EMPTY, ConstantEvents()).open;
            && |open| == 3 && open[0].key.invocation == open[1].key.invocation == open[2].key.invocation
            && open[0].id == open[2].id == Some("run") && open[1].parent == Some(open[0].serial)
            && !Upper(open[2].key.slot)
  {
    var a, b, c := ConstantEvents()[0], ConstantEvents()[1], ConstantEvents()[2];
    var s := Handle(EMPTY, a.0, a.1).state;
    assert s.open == [Open(Key("i", Runtime), 0, None, true, Some("run"))];
    assert Find(s.open, Key("i", Runtime)) == Some(s.open[0]);
    var t := Handle(s, b.0, b.1).state;
    assert t.open == s.open + [Open(Key("i", Turn), 1, Some(0), true, Some("run"))];
    assert t.open[0] == s.open[0];
    RunThree(EMPTY, a, b, c);
  }

  /** The serials are those of three runs the client created. */
  lemma ThreeRuns(s: State)
    requires Conserved(s) && |s.open| == 3
    ensures s.open[0].serial < s.open[1].serial < s.open[2].serial < |s.ids|
    ensures forall k | 0 <= k < 3 :: s.open[k] in s.open && s.ids[s.open[k].serial] == s.open[k].id
  {
    assert forall k | 0 <= k < 3 :: s.open[k] in s.open;
  }

  lemma SilentRunsShareAnId()
    ensures var s := Run(EMPTY, SilentEvents());
            && Conserved(s) && Nested(s) && |s.open| == 3
            && Twin(s, s.open[2], s.open[1], s.open[0].serial) && Apart(s, s.open[2], s.open[0].serial)
            && s.open[0].serial < s.open[1].serial < |s.ids| && s.ids[s.open[1].serial].Some?
  {
    var s := Run(EMPTY, SilentEvents());
    TwoSilentInvocations();
    RunConserves(EMPTY, SilentEvents());
    RunNests(EMPTY, SilentEvents());
    ThreeRuns(s);
  }

  /**
   * The end of one invocation updates the id that the other one's turn is linked to, and the ends of both
   * update it twice.
   */
  lemma SilentClientsMixUpRuns()
    ensures exists events :: OnlyEnds(events) && !LinksLive(Run(Run(EMPTY, SilentEvents()), events))
    ensures exists events :: OnlyEnds(events) && !UpdatedOnce(Run(Run(EMPTY, SilentEvents()), events))
  {
    var s := Run(EMPTY, SilentEvents());
    SilentRunsShareAnId();
    SharedLinksGoStale(s, s.open[2], s.open[1], s.open[0].serial);
    assert s.open[1] in s.open;
    SharedIdsAreUpdatedTwice(s, s.open[0].serial, s.open[1].serial);
  }

  /** With one invocation only, the end of its tool updates the id that its turn is linked to. */
  lemma ConstantClientsMixUpRuns()
    ensures exists events :: OnlyEnds(events) && !LinksLive(Run(Run(EMPTY, ConstantEvents()), events))
  {
    var s := Run(EMPTY, ConstantEvents());
    OneConstantInvocation();
    RunConserves(EMPTY, ConstantEvents());
    RunNests(EMPTY, ConstantEvents());
    ThreeRuns(s);
    assert Apart(s, s.open[1], s.open[2].serial);
    SharedLinksGoStale(s, s.open[1], s.open[0], s.open[2].serial);
  }

  lemma TurnEndsAlone(s: State, r: Open, turn: Open)
    requires s.open == [r, turn] && Numbered(s.open) && r.key == Key("i", Runtime) && turn.key == Key("i", Turn)
    ensures Handle(s, Plain(TurnCompleted, "i", SILENT).0, SILENT).state == State([r], s.ids, s.updates + [turn.serial])
  {
    var e := Plain(TurnCompleted, "i", SILENT).0;
    HandleEnd(s, e, SILENT);
    EndedKeys(s, e);
    var keys := Ended(s, e);
    assert turn in s.open && turn.key in keys;
    assert forall k | 0 <= k < |keys| :: keys[k] in keys;
    assert keys == [turn.key];
    assert s.open[1..] == [turn] && [turn][1..] == [];
    FinishOne(s, turn.key, None);
    assert Remove([turn], turn.key) == [];
  }

  /** The second turn of an invocation goes by the name of the first, and what is opened in it is linked to it. */
  lemma ASecondSilentTurn(s: State, r: Open)
    requires s.open == [r] && r.key == Key("i", Runtime) && r.id == Some("runtime")
    ensures var t := Handle(s, Plain(TurnStarted, "i", SILENT).0, SILENT).state;
            var u := Handle(t, Plain(ToolStarted, "i", SILENT).0, SILENT).state;
            && u.updates == s.updates && u.ids == s.ids + [Some("turn"), Some("tool:")]
            && |u.open| == 3 && u.open[2].parent == Some(|s.ids|)
  {
    var t := Handle(s, Plain(TurnStarted, "i", SILENT).0, SILENT).state;
    var turn := Open(Key("i", Turn), |s.ids|, Some(r.serial), true, Some("turn"));
    assert Find(s.open, Key("i", Runtime)) == Some(r);
    assert t.open == [r, turn];
    assert t.open[1..] == [turn] && Find([turn], turn.key) == Some(turn);
    assert Find(t.open, Key("i", Turn)) == Some(turn);
    assert SlotName(Tool("")) == "tool:";
  }

  const SILENT_RUN := Open(Key("i", Runtime), 0, None, true, Some("runtime"))

  function SilentTurn(): seq<(Event, Client)> {
    [Plain(InvocationStarted, "i", SILENT), Plain(TurnStarted, "i", SILENT), Plain(TurnCompleted, "i", SILENT)]
  }

  lemma AfterASilentTurn()
    ensures Run(EMPTY, SilentTurn()) == State([SILENT_RUN], [Some("runtime"), Some("turn")], [1])
  {
    var a, b, c := SilentTurn()[0], SilentTurn()[1], SilentTurn()[2];
    var s := Handle(EMPTY, a.0, a.1).state;
    assert s == State([SILENT_RUN], [Some("runtime")], []);
    assert Find(s.open, Key("i", Runtime)) == Some(SILENT_RUN);
    var t := Handle(s, b.0, b.1).state;
    var turn := Open(Key("i", Turn), 1, Some(0), true, Some("turn"));
    assert t == State([SILENT_RUN, turn], [Some("runtime"), Some("turn")], []);
    TurnEndsAlone(t, SILENT_RUN, turn);
    RunThree(EMPTY, a, b, c);
  }

  /** An invocation's second turn is reported under the id of the first, which was updated. */
  lemma SilentTurnsMixUp()
    ensures !LinksLive(Run(EMPTY, SilentTurn() + [Plain(TurnStarted, "i", SILENT), Plain(ToolStarted, "i", SILENT)]))
  {
    var b, d := Plain(TurnStarted, "i", SILENT), Plain(ToolStarted, "i", SILENT);
    var u := Run(EMPTY, SilentTurn());
    AfterASilentTurn();
    ASecondSilentTurn(u, SILENT_RUN);
    RunTwo(u, b, d);
    RunConcat(EMPTY, SilentTurn(), [b, d]);
    var v := Run(u, [b, d]);
    assert v.open[2] in v.open && v.open[2].parent == Some(2) && v.updates[0] == 1;
    assert IdOf(v, 1) == IdOf(v, 2) == Some("turn");
  }

  lemma RunTwo(s: State, a: (Event, Client), b: (Event, Client))
    ensures Run(s, [a, b]) == Handle(Handle(s, a.0, a.1).state, b.0, b.1).state
  {
    var t := Handle(s, a.0, a.1).state;
    assert [a, b][1..] == [b] && [b][1..] == [];
    assert Run(t, [b]) == Handle(t, b.0, b.1).state;
  }

  // ---------- Other invocations ----------

  /** The runs of other invocations stay as they are. */
  predicate Spares(s: State, t: State, invocation: string) {
    && (forall o | o in s.open && o.key.invocation != invocation :: o in t.open)
    && (forall o | o in t.open && o.key.invocation != invocation :: o in s.open)
  }

  lemma {:induction false} FinishSpares(s: State, keys: seq<Key>, failAt: Option<nat>, invocation: string)
    requires Numbered(s.open) && forall k | k in keys :: k.invocation == invocation
    ensures Spares(s, Finish(s, keys, failAt).state, invocation)
    decreases |keys|
  {
    if keys != [] {
      assert keys[0] in keys && forall k | k in keys[1..] :: k in keys;
      if Has(s.open, keys[0]) {
        RemoveMembers(s.open, keys[0]);
        RemoveKeepsOrder(s.open, keys[0]);
        if failAt != Some(0) {
          var later := if failAt.Some? then Some(failAt.value - 1) else None;
          FinishSpares(Popped(s, keys[0]), keys[1..], later, invocation);
        }
      } else {
        FinishSpares(s, keys[1..], failAt, invocation);
      }
    }
  }

  lemma CreateSpares(s: State, key: Key, parent: Option<Open>, creation: Creation)
    ensures Spares(s, Create(s, key, parent, creation).state, key.invocation)
  {
  }

  lemma MarkSpares(s: State, key: Key, c: Client)
    requires Conserved(s)
    ensures Spares(s, Mark(s, key, c).state, key.invocation)
  {
    CreateConserves(s, key, Enclosing(s, key.invocation), c.creation);
    FinishSpares(Create(s, key, Enclosing(s, key.invocation), c.creation).state, [key], c.failAt, key.invocation);
  }

  /** An event touches no run of another invocation, whatever the client does. */
  lemma HandleSparesOthers(s: State, e: Event, c: Client)
    requires Conserved(s)
    ensures Spares(s, Handle(s, e, c).state, Invocation(e))
  {
    var i := Invocation(e);
    if e.kind.InvocationStarted? {
      CreateSpares(s, Key(i, Runtime), None, c.creation);
    } else if e.kind.TurnStarted? {
      CreateSpares(s, Key(i, Turn), Find(s.open, Key(i, Runtime)), c.creation);
    } else if e.kind.RetryScheduled? || e.kind.ToolRetryScheduled? {
      MarkSpares(s, Key(i, Retry(e.attempt)), c);
    } else if e.kind.ValidationFailed? {
      MarkSpares(s, Key(i, Validation(e.attempt)), c);
    } else if OpensTool(e.kind) {
      CreateSpares(s, Key(i, Tool(e.tool)), Enclosing(s, i), c.creation);
    } else if EndsTool(e.kind) {
      ToolRunIsOwn(s, e);
      FinishSpares(s, [ToolRun(s, e)], c.failAt, i);
    } else if EndsTurn(e.kind) || EndsInvocation(e.kind) {
      EndedKeys(s, e);
      FinishSpares(s, Ended(s, e), c.failAt, i);
      HandleEnd(s, e, c);
    }
  }

  lemma ToolRunIsOwn(s: State, e: Event)
    requires Numbered(s.open)
    ensures ToolRun(s, e).invocation == Invocation(e)
  {
    var tools := Keep(s.open, ToolTest(e));
    KeepMembers(s.open, ToolTest(e));
    if tools != [] {
      assert tools[|tools| - 1] in tools;
    }
  }

  // ---------- The observer ----------

  class LangSmithObserver {
    var runs: seq<Open>
    /** What the client handed out and was asked so far. */
    var ids: seq<Option<string>>
    var updates: seq<nat>
    /** Whether no update of an end has raised so far. */
    ghost var smooth: bool

    function View(): State
      reads this
    {
      State(runs, ids, updates)
    }

    /** Nothing is lost or updated twice, and as long as no end failed, open runs keep their parents. */
    ghost predicate Valid()
      reads this
    {
      Conserved(View()) && (smooth ==> Nested(View()))
    }

    constructor ()
      ensures Valid() && smooth && View() == EMPTY
    {
      runs, ids, updates, smooth := [], [], [], true;
    }

    method CreateRun(key: Key, parent: Option<Open>, creation: Creation) returns (ok: bool)
      modifies this
      ensures Handled(View(), ok) == Create(old(View()), key, parent, creation) && smooth == old(smooth)
      ensures ok <==> Has(runs, key)
      ensures !old(Has(runs, key)) && ok ==>
                && |ids| == |old(ids)| + 1
                && (creation.ReturnsNothing? ==> ids[|old(ids)|] == Some(SlotName(key.slot)))
    {
      if Has(runs, key) {
        return true;
      }
      if creation.Raises? {
        return false;
      }
      var (truthy, id) := Kept(key.slot, creation);
      var link := if parent.Some? && parent.value.id.Some? then Some(parent.value.serial) else None;
      runs := runs + [Open(key, |ids|, link, truthy, id)];
      ids := ids + [id];
      assert runs[|runs| - 1] in runs;
      return true;
    }

    method FinishKeys(keys: seq<Key>, failAt: Option<nat>) returns (ok: bool)
      modifies this
      ensures Handled(View(), ok) == Finish(old(View()), keys, failAt) && smooth == old(smooth)
    {
      var k, left := 0, failAt;
      while k < |keys|
        invariant 0 <= k <= |keys| && smooth == old(smooth)
        invariant Finish(View(), keys[k..], left) == Finish(old(View()), keys, failAt)
      {
        var run := Find(runs, keys[k]);
        assert keys[k..][0] == keys[k] && keys[k..][1..] == keys[k + 1..];
        if run.Some? {
          runs := Remove(runs, keys[k]);
          updates := updates + [run.value.serial];
          if left == Some(0) {
            return false;
          }
          left := if left.Some? then Some(left.value - 1) else None;
        }
        k := k + 1;
      }
      return true;
    }

    method FinishMatching(e: Event, failAt: Option<nat>) returns (ok: bool)
      modifies this
      ensures Handled(View(), ok) == Finish(old(View()), Ended(old(View()), e), failAt) && smooth == old(smooth)
    {
      ok := FinishKeys(Keep(runs, key => Ends(e, key)), failAt);
    }

    method CreateAndFinish(key: Key, c: Client) returns (ok: bool)
      modifies this
      ensures Handled(View(), ok) == Mark(old(View()), key, c) && smooth == old(smooth)
    {
      ok := CreateRun(key, Enclosing(View(), key.invocation), c.creation);
      if ok {
        ok := FinishKeys([key], c.failAt);
      }
    }

    /**
     * One event: runs of other invocations are not touched, and the end of an invocation leaves none of its
     * runs open unless an update before the last one raises.
     */
    method HandleEvent(e: Event, c: Client) returns (ok: bool)
      requires Valid()
      modifies this
      ensures Valid() && Handled(View(), ok) == Handle(old(View()), e, c)
      ensures smooth == (old(smooth) && (EndsTurn(e.kind) || EndsInvocation(e.kind) ==> c.failAt.None?))
      ensures Spares(old(View()), View(), Invocation(e))
      ensures old(updates) <= updates && old(ids) <= ids
      ensures EndsInvocation(e.kind) && c.failAt.None? ==> forall o | o in runs :: o.key.invocation != Invocation(e)
    {
      ghost var before := View();
      HandleConserves(before, e, c);
      HandleSparesOthers(before, e, c);
      HandleGrows(before, e, c);
      if EndsInvocation(e.kind) {
        AfterTheEnd(before, e, c);
      }
      if smooth && (EndsTurn(e.kind) || EndsInvocation(e.kind) ==> c.failAt.None?) {
        HandleNests(before, e, c);
      }
      ok := Export(e, c);
      smooth := smooth && (EndsTurn(e.kind) || EndsInvocation(e.kind) ==> c.failAt.None?);
    }

    method Export(e: Event, c: Client) returns (ok: bool)
      modifies this
      ensures Handled(View(), ok) == Handle(old(View()), e, c) && smooth == old(smooth)
    {
      var i := Invocation(e);
      ok := true;
      if e.kind.InvocationStarted? {
        ok := CreateRun(Key(i, Runtime), None, c.creation);
      } else if e.kind.TurnStarted? {
        ok := CreateRun(Key(i, Turn), Find(runs, Key(i, Runtime)), c.creation);
      } else if e.kind.RetryScheduled? || e.kind.ToolRetryScheduled? {
        ok := CreateAndFinish(Key(i, Retry(e.attempt)), c);
      } else if e.kind.ValidationFailed? {
        ok := CreateAndFinish(Key(i, Validation(e.attempt)), c);
      } else if OpensTool(e.kind) {
        ok := CreateRun(Key(i, Tool(e.tool)), Enclosing(View(), i), c.creation);
      } else if EndsTool(e.kind) {
        ok := FinishKeys([ToolRun(View(), e)], c.failAt);
      } else if EndsTurn(e.kind) || EndsInvocation(e.kind) {
        ok := FinishMatching(e, c.failAt);
      }
    }
  }
}
