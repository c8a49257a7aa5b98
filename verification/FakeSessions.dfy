/**
 * Sessions of the fake runtime: retained states, the registry that finds them, handles that grow stale, and
 * turns that claim a state. One action is one stretch of code between two awaits. States, handles and turns
 * are named by their place in the order of creation.
 */
module FakeSessions {
  import opened Options

  /** One `_SessionState`. */
  datatype Session = Session(
    provider: string,
    descriptor: string,
    profile: string,
    generation: nat,
    active: bool,
    interrupted: bool,
    deleted: bool)

  datatype Handle = Handle(state: nat, id: string, generation: nat, closed: bool)

  /** Where a turn that got its claim is: in `_execute`, in the stream behind it, or past the release. */
  datatype Phase = Executing | Streaming | Released

  datatype Turn = Turn(state: nat, handle: nat, stream: bool, phase: Phase) {
    predicate Running() {
      phase != Released
    }
  }

  /** `opening` holds the states of the calls that still wait for their event to be dispatched. */
  datatype State = State(
    states: seq<Session>,
    sessions: map<string, nat>,
    handles: seq<Handle>,
    turns: seq<Turn>,
    opening: seq<nat>,
    deletedIds: set<string>)

  const EMPTY := State([], map[], [], [], [], {})

  /** What the checks on a descriptor make of it, before the registry is looked at. */
  datatype Checked = Refused | Accepted(provider: string, profile: string)

  /**
   * `Resume` and `Migrate` carry what the codec and the profile checks find; a migration that the later
   * checks refuse has no target. `Deliver` is the end of a dispatch, after which the handle is built, unless
   * the dispatch raised. `EndExecute` is any way out of `_execute`: `completed` or with an error or a
   * cancellation. `EndStream` is any way out of a stream: its end, an error, or its closing by the consumer.
   */
  datatype Action =
    | Create(descriptor: string, provider: string, profile: string)
    | Resume(id: string, checked: Checked)
    | Migrate(id: string, checked: Checked, target: Option<(string, string)>)
    | Deliver(call: nat, raised: bool)
    | Begin(handle: nat, stream: bool)
    | EndExecute(turn: nat, completed: bool)
    | EndStream(turn: nat)
    | Interrupt(handle: nat)
    | CloseHandle(handle: nat)
    | Delete(handle: nat)

  // ---------- The transitions ----------

  predicate HandleOk(s: State, h: nat) {
    h < |s.handles| && s.handles[h].state < |s.states|
  }

  predicate Enabled(s: State, a: Action) {
    match a
    case Deliver(c, _) => c < |s.opening| && s.opening[c] < |s.states|
    case Begin(h, _) => HandleOk(s, h)
    case EndExecute(t, _) => t < |s.turns| && s.turns[t].phase.Executing? && s.turns[t].state < |s.states|
    case EndStream(t) => t < |s.turns| && s.turns[t].phase.Streaming? && s.turns[t].state < |s.states|
    case Interrupt(h) => HandleOk(s, h)
    case CloseHandle(h) => HandleOk(s, h)
    case Delete(h) => HandleOk(s, h)
    case _ => forall id | id in s.sessions :: s.sessions[id] < |s.states|
  }

  /** The state an id is registered for, unless it was deleted. */
  function Current(s: State, id: string): Option<nat> {
    if id in s.sessions && s.sessions[id] < |s.states| && !s.states[s.sessions[id]].deleted then Some(s.sessions[id])
    else None
  }

  predicate Busy(s: State, id: string) {
    Current(s, id).Some? && s.states[Current(s, id).value].active
  }

  function Register(s: State, descriptor: string, provider: string, profile: string): State {
    s.(states := s.states + [Session(provider, descriptor, profile, 0, false, false, false)],
       sessions := s.sessions[descriptor := |s.states|],
       opening := s.opening + [|s.states|])
  }

  /** A handle may start a turn as long as it is open and of its state's generation. */
  predicate Fresh(s: State, h: nat)
    requires HandleOk(s, h)
  {
    var x := s.handles[h];
    !x.closed && !s.states[x.state].deleted && x.generation == s.states[x.state].generation
  }

  predicate Resumes(s: State, id: string, checked: Checked) {
    id !in s.deletedIds && checked.Accepted? && !Busy(s, id)
  }

  predicate Migrates(s: State, id: string, checked: Checked, target: Option<(string, string)>) {
    checked.Accepted? && !Busy(s, id) && target.Some?
  }

  /** A state gets its new descriptor and leaves its old place in the registry. */
  function MoveState(s: State, id: string, i: nat, descriptor: string, profile: string): State
    requires i < |s.states|
  {
    var moved := s.states[i].(descriptor := descriptor, profile := profile, generation := s.states[i].generation + 1);
    s.(states := s.states[i := moved], sessions := (s.sessions - {id})[descriptor := i], opening := s.opening + [i])
  }

  function ReleaseTurn(s: State, t: nat): State
    requires t < |s.turns| && s.turns[t].state < |s.states|
  {
    var i := s.turns[t].state;
    s.(states := s.states[i := s.states[i].(active := false)],
       turns := s.turns[t := s.turns[t].(phase := Released)])
  }

  function Next(s: State, a: Action): State
    requires Enabled(s, a)
  {
    match a
    case Create(descriptor, provider, profile) => Register(s, descriptor, provider, profile)
    case Resume(id, checked) =>
      if !Resumes(s, id, checked) then s
      else (
        match Current(s, id)
        case None => Register(s, id, checked.provider, checked.profile)
        case Some(i) =>
          s.(states := s.states[i := s.states[i].(generation := s.states[i].generation + 1)],
             opening := s.opening + [i]))
    case Migrate(id, checked, target) =>
      if !Migrates(s, id, checked, target) then s
      else (
        var (descriptor, profile) := target.value;
        match Current(s, id)
        case None => Register(s, descriptor, checked.provider, profile)
        case Some(i) => MoveState(s, id, i, descriptor, profile))
    case Deliver(c, raised) =>
      var i := s.opening[c];
      var handle := Handle(i, s.states[i].descriptor, s.states[i].generation, false);
      s.(opening := s.opening[..c] + s.opening[c + 1..],
         handles := if raised then s.handles else s.handles + [handle])
    case Begin(h, stream) =>
      var i := s.handles[h].state;
      if !Fresh(s, h) || s.states[i].active then s
      else s.(states := s.states[i := s.states[i].(active := true, interrupted := false)],
              turns := s.turns + [Turn(i, h, stream, Executing)])
    case EndExecute(t, completed) =>
      if s.turns[t].stream && completed then s.(turns := s.turns[t := s.turns[t].(phase := Streaming)])
      else ReleaseTurn(s, t)
    case EndStream(t) => ReleaseTurn(s, t)
    case Interrupt(h) =>
      var i := s.handles[h].state;
      if s.states[i].active then s.(states := s.states[i := s.states[i].(interrupted := true)]) else s
    case CloseHandle(h) => s.(handles := s.handles[h := s.handles[h].(closed := true)])
    case Delete(h) =>
      var x := s.handles[h];
      if s.states[x.state].deleted then s
      else s.(states := s.states[x.state := s.states[x.state].(deleted := true)],
              sessions := s.sessions - {x.id},
              deletedIds := s.deletedIds + {x.id},
              handles := s.handles[h := x.(closed := true)])
  }

  /** An action that is not enabled does not happen. */
  function Step(s: State, a: Action): State {
    if Enabled(s, a) then Next(s, a) else s
  }

  function Run(s: State, acts: seq<Action>): State
    decreases |acts|
  {
    if acts == [] then s else Run(Step(s, acts[0]), acts[1..])
  }

  // ---------- The invariant ----------

  /** Every key of the registry is the descriptor of the state it leads to. */
  predicate RegistryOk(s: State) {
    forall id | id in s.sessions :: s.sessions[id] < |s.states| && s.states[s.sessions[id]].descriptor == id
  }

  predicate HandlesOk(s: State) {
    && (forall h | 0 <= h < |s.handles| ::
          HandleOk(s, h) && s.handles[h].generation <= s.states[s.handles[h].state].generation)
    && (forall c | 0 <= c < |s.opening| :: s.opening[c] < |s.states|)
  }

  predicate TurnOk(s: State, t: nat)
    requires t < |s.turns|
  {
    var turn := s.turns[t];
    && HandleOk(s, turn.handle)
    && s.handles[turn.handle].state == turn.state
    && (turn.Running() ==>
          s.states[turn.state].active && s.handles[turn.handle].generation == s.states[turn.state].generation)
  }

  predicate Holds(s: State, t: int, i: int) {
    0 <= t < |s.turns| && s.turns[t].Running() && s.turns[t].state == i
  }

  /** A state is active exactly when a turn runs on it, and no two do. */
  predicate ClaimsOk(s: State) {
    && (forall t | 0 <= t < |s.turns| :: TurnOk(s, t))
    && (forall i | 0 <= i < |s.states| && s.states[i].active ::
          exists t | 0 <= t < |s.turns| :: Holds(s, t, i))
    && (forall t, u | 0 <= t < |s.turns| && 0 <= u < |s.turns| && s.turns[t].Running() && s.turns[u].Running() ::
          s.turns[t].state == s.turns[u].state ==> t == u)
  }

  predicate Inv(s: State) {
    RegistryOk(s) && HandlesOk(s) && ClaimsOk(s)
  }

  lemma StepKeepsRegistry(s: State, a: Action)
    requires Inv(s)
    ensures RegistryOk(Step(s, a))
  {
  }

  lemma GenerationsGrow(s: State, a: Action)
    requires Inv(s)
    ensures var t := Step(s, a);
            && |t.states| >= |s.states|
            && forall i | 0 <= i < |s.states| :: t.states[i].generation >= s.states[i].generation
  {
  }

  lemma StepKeepsHandles(s: State, a: Action)
    requires Inv(s)
    ensures HandlesOk(Step(s, a))
  {
    var t := Step(s, a);
    GenerationsGrow(s, a);
    forall h | 0 <= h < |t.handles|
      ensures HandleOk(t, h) && t.handles[h].generation <= t.states[t.handles[h].state].generation
    {
      if h < |s.handles| {
        assert HandleOk(s, h);
      }
    }
  }

  /** A state without an active turn has no running one. */
  lemma IdleHasNoTurn(s: State, i: nat, t: nat)
    requires ClaimsOk(s) && t < |s.turns| && i < |s.states| && !s.states[i].active
    ensures !Holds(s, t, i)
  {
    assert TurnOk(s, t);
  }

  lemma StepKeepsTurns(s: State, a: Action)
    requires Inv(s) && Enabled(s, a)
    ensures var t := Next(s, a); forall k | 0 <= k < |t.turns| :: TurnOk(t, k)
  {
    var t := Next(s, a);
    forall k | 0 <= k < |t.turns| ensures TurnOk(t, k) {
      if k < |s.turns| {
        assert TurnOk(s, k);
        if a.EndExecute? || a.EndStream? {
          assert TurnOk(s, a.turn);
        }
      }
    }
  }

  lemma StepKeepsActive(s: State, a: Action)
    requires Inv(s) && Enabled(s, a)
    ensures var t := Next(s, a);
            forall i | 0 <= i < |t.states| && t.states[i].active :: exists k | 0 <= k < |t.turns| :: Holds(t, k, i)
  {
    var t := Next(s, a);
    forall i | 0 <= i < |t.states| && t.states[i].active ensures exists k | 0 <= k < |t.turns| :: Holds(t, k, i) {
      if i < |s.states| && s.states[i].active {
        var k :| 0 <= k < |s.turns| && Holds(s, k, i);
        assert Holds(t, k, i);
      } else {
        assert Holds(t, |s.turns|, i);
      }
    }
  }

  lemma StepKeepsOneTurn(s: State, a: Action)
    requires Inv(s) && Enabled(s, a)
    ensures var t := Next(s, a);
            forall k, u | 0 <= k < |t.turns| && 0 <= u < |t.turns| && t.turns[k].Running() && t.turns[u].Running() ::
              t.turns[k].state == t.turns[u].state ==> k == u
  {
    var t := Next(s, a);
    if a.Begin? && t != s {
      var i := s.handles[a.handle].state;
      forall k | 0 <= k < |s.turns| ensures t.turns[k] == s.turns[k] && !Holds(s, k, i) {
        IdleHasNoTurn(s, i, k);
      }
    } else {
      assert |t.turns| == |s.turns|;
      assert forall k | 0 <= k < |s.turns| :: t.turns[k].state == s.turns[k].state;
      assert forall k | 0 <= k < |s.turns| :: t.turns[k].Running() ==> s.turns[k].Running();
    }
  }

  lemma StepKeepsInv(s: State, a: Action)
    requires Inv(s)
    ensures Inv(Step(s, a))
  {
    StepKeepsRegistry(s, a);
    StepKeepsHandles(s, a);
    if Enabled(s, a) {
      StepKeepsTurns(s, a);
      StepKeepsActive(s, a);
      StepKeepsOneTurn(s, a);
    }
  }

  lemma EmptyInv()
    ensures Inv(EMPTY)
  {
  }

  lemma {:induction false} RunKeepsInv(s: State, acts: seq<Action>)
    requires Inv(s)
    ensures Inv(Run(s, acts))
    decreases |acts|
  {
    if acts != [] {
      StepKeepsInv(s, acts[0]);
      RunKeepsInv(Step(s, acts[0]), acts[1..]);
    }
  }

  // ---------- The theorems ----------

  /** In every reachable state each key of the registry is its state's descriptor. */
  lemma RegistryMatchesDescriptors(acts: seq<Action>, id: string)
    requires id in Run(EMPTY, acts).sessions
    ensures var s := Run(EMPTY, acts);
            s.sessions[id] < |s.states| && s.states[s.sessions[id]].descriptor == id
  {
    RunKeepsInv(EMPTY, acts);
  }

  /** `active` is set exactly while one turn, and no more, holds a claim on the state. */
  lemma ActiveExactlyWhenClaimed(acts: seq<Action>, i: nat)
    requires i < |Run(EMPTY, acts).states|
    ensures var s := Run(EMPTY, acts);
            && (s.states[i].active <==> exists t :: Holds(s, t, i))
            && (forall t, u | Holds(s, t, i) && Holds(s, u, i) :: t == u)
  {
    var s := Run(EMPTY, acts);
    RunKeepsInv(EMPTY, acts);
    forall t | Holds(s, t, i) ensures s.states[i].active {
      assert TurnOk(s, t);
    }
  }

  /** A running turn was started through a handle of what is still the current generation. */
  lemma RunningTurnsAreCurrent(acts: seq<Action>, t: nat)
    requires t < |Run(EMPTY, acts).turns| && Run(EMPTY, acts).turns[t].Running()
    ensures var s := Run(EMPTY, acts);
            && HandleOk(s, s.turns[t].handle)
            && s.handles[s.turns[t].handle].generation == s.states[s.handles[s.turns[t].handle].state].generation
  {
    RunKeepsInv(EMPTY, acts);
    assert TurnOk(Run(EMPTY, acts), t);
  }

  /** Generations and descriptors move only while nothing runs on the state, and generations only grow. */
  lemma OnlyIdleStatesMove(s: State, a: Action, i: nat)
    requires Inv(s) && i < |s.states|
    ensures var t := Step(s, a);
            && i < |t.states|
            && t.states[i].provider == s.states[i].provider
            && t.states[i].generation >= s.states[i].generation
            && (t.states[i].descriptor != s.states[i].descriptor ==> t.states[i].generation > s.states[i].generation)
            && (t.states[i].generation != s.states[i].generation ==> !s.states[i].active && !t.states[i].active)
  {
  }

  /** The way out of a turn that gives its claim back. */
  predicate GivesBack(s: State, a: Action, t: nat)
    requires t < |s.turns|
  {
    if s.turns[t].phase.Streaming? then a == EndStream(t)
    else a.EndExecute? && a.turn == t && (s.turns[t].stream ==> !a.completed)
  }

  /**
   * On every way out a claim is released once: a turn loses it by the exits of its own phase only, never
   * gets it back, and has a way out as long as it holds it.
   */
  lemma ReleasedOnce(s: State, a: Action, t: nat)
    requires Inv(s) && t < |s.turns|
    ensures var n := Step(s, a);
            && t < |n.turns|
            && (s.turns[t].Running() ==>
                  && (n.turns[t].Running() <==> !GivesBack(s, a, t))
                  && (GivesBack(s, a, t) ==> !n.states[s.turns[t].state].active)
                  && Enabled(s, if s.turns[t].phase.Streaming? then EndStream(t) else EndExecute(t, false)))
            && (!s.turns[t].Running() ==> !n.turns[t].Running())
  {
    assert TurnOk(s, t);
  }

  /** A claim that was released is not held again. */
  lemma {:induction false} ReleasedForGood(s: State, acts: seq<Action>, t: nat)
    requires Inv(s) && t < |s.turns|
    ensures t < |Run(s, acts).turns| && (Run(s, acts).turns[t].Running() ==> s.turns[t].Running())
    decreases |acts|
  {
    if acts != [] {
      StepKeepsInv(s, acts[0]);
      ReleasedOnce(s, acts[0], t);
      ReleasedForGood(Step(s, acts[0]), acts[1..], t);
    }
  }

  /** For as long as a turn holds its claim, its session keeps descriptor and generation, whatever others do. */
  lemma {:induction false} TurnsPinTheirSession(s: State, acts: seq<Action>, t: nat)
    requires Inv(s) && t < |s.turns| && t < |Run(s, acts).turns| && Run(s, acts).turns[t].Running()
    ensures var i, e := s.turns[t].state, Run(s, acts);
            && i < |s.states| && i < |e.states| && e.turns[t].state == i
            && e.states[i].active && e.states[i].descriptor == s.states[i].descriptor
            && e.states[i].generation == s.states[i].generation
    decreases |acts|
  {
    ReleasedForGood(s, acts, t);
    assert TurnOk(s, t);
    if acts != [] {
      var n := Step(s, acts[0]);
      StepKeepsInv(s, acts[0]);
      ReleasedOnce(s, acts[0], t);
      ReleasedForGood(n, acts[1..], t);
      assert TurnOk(n, t);
      OnlyIdleStatesMove(s, acts[0], s.turns[t].state);
      TurnsPinTheirSession(n, acts[1..], t);
      assert n.turns[t].state == s.turns[t].state;
    }
  }

  predicate Stale(s: State, h: nat) {
    HandleOk(s, h) && s.handles[h].generation != s.states[s.handles[h].state].generation
  }

  /** Once stale, always stale; and a stale handle starts no turn. */
  lemma {:induction false} StaleStaysStale(s: State, acts: seq<Action>, h: nat)
    requires Inv(s) && Stale(s, h)
    ensures Stale(Run(s, acts), h)
    ensures forall stream :: Step(Run(s, acts), Begin(h, stream)) == Run(s, acts)
    decreases |acts|
  {
    if acts != [] {
      StepKeepsInv(s, acts[0]);
      StepKeepsHandle(s, acts[0], h);
      StaleStaysStale(Step(s, acts[0]), acts[1..], h);
    }
  }

  lemma StepKeepsHandle(s: State, a: Action, h: nat)
    requires Inv(s) && HandleOk(s, h)
    ensures HandleOk(Step(s, a), h)
    ensures Step(s, a).handles[h].state == s.handles[h].state
    ensures Step(s, a).handles[h].generation == s.handles[h].generation
    ensures Step(s, a).states[s.handles[h].state].generation >= s.states[s.handles[h].state].generation
  {
  }

  /** Resuming or migrating a registered session leaves every handle there is stale. */
  lemma ResumingOutdatesHandles(s: State, a: Action, i: nat, h: nat)
    requires Inv(s) && HandleOk(s, h) && s.handles[h].state == i
    requires match a
             case Resume(id, checked) => Resumes(s, id, checked) && Current(s, id) == Some(i)
             case Migrate(id, checked, target) => Migrates(s, id, checked, target) && Current(s, id) == Some(i)
             case _ => false
    ensures Stale(Step(s, a), h)
  {
  }

  /** The old descriptor of a migrated session leads nowhere, the new one to the same provider session. */
  lemma MigrationMoves(s: State, id: string, checked: Checked, descriptor: string, profile: string)
    requires Inv(s) && Migrates(s, id, checked, Some((descriptor, profile))) && descriptor != id
    ensures var t := Step(s, Migrate(id, checked, Some((descriptor, profile))));
            && Current(t, id) == None
            && (Current(s, id).Some? ==> Current(t, descriptor) == Current(s, id))
            && (Current(s, id).None? ==> Current(t, descriptor) == Some(|s.states|)
                                         && t.states[|s.states|].provider == checked.provider)
            && (forall other | other != id && other != descriptor :: Current(t, other) == Current(s, other))
  {
  }

  /**
   * `delete` drops the registry entry of the handle's own id. That is the entry of the deleted state exactly
   * when the handle's id is still the state's descriptor; after a migration it can be another session's.
   */
  lemma DeleteDropsTheHandlesEntry(s: State, h: nat)
    requires Inv(s) && HandleOk(s, h) && !s.states[s.handles[h].state].deleted
    ensures var i, id := s.handles[h].state, s.handles[h].id;
            var t := Step(s, Delete(h));
            && (i in s.sessions.Values ==> (i !in t.sessions.Values <==> id == s.states[i].descriptor))
            && (forall j | j != i && j in s.sessions.Values ::
                  j !in t.sessions.Values <==> j < |s.states| && s.states[j].descriptor == id)
            && Current(t, s.states[i].descriptor) != Some(i)
  {
    var t := Step(s, Delete(h));
    var id := s.handles[h].id;
    forall j | j in s.sessions.Values ensures j !in t.sessions.Values <==> s.states[j].descriptor == id {
      var k :| k in s.sessions && s.sessions[k] == j;
      if k != id {
        assert t.sessions[k] == j;
      }
    }
  }

  const ACCEPT: Checked := Accepted("p", "x")
  const ORIGINAL: Session := Session("p", "a", "x", 0, false, false, false)
  const MOVED: Session := Session("p", "b", "x", 1, false, false, false)

  /** A session is migrated and its old id resumed once more. */
  lemma MigrateAndResume()
    ensures exists acts: seq<Action> ::
      Run(EMPTY, acts) == State([MOVED, ORIGINAL], map["b" := 0, "a" := 1], [Handle(0, "a", 0, false)], [], [0, 1], {})
  {
    var a, b := Create("a", "p", "x"), Deliver(0, false);
    var c, d := Migrate("a", ACCEPT, Some(("b", "x"))), Resume("a", ACCEPT);
    var s := Step(EMPTY, a);
    assert s == State([ORIGINAL], map["a" := 0], [], [], [0], {});
    var t := Step(s, b);
    assert t == State([ORIGINAL], map["a" := 0], [Handle(0, "a", 0, false)], [], [], {});
    var u := Step(t, c);
    assert u == State([MOVED], map["b" := 0], [Handle(0, "a", 0, false)], [], [0], {});
    var acts := [a, b, c, d];
    RunUnfolds(EMPTY, acts);
    RunUnfolds(s, acts[1..]);
    RunUnfolds(t, acts[2..]);
    RunUnfolds(u, acts[3..]);
    assert Run(EMPTY, acts) == Step(u, d);
  }

  /** That does happen: a handle that is stale after a migration deletes the entry of a later session. */
  lemma AStaleDeleteHitsAnother()
    ensures exists acts: seq<Action>, h: nat ::
      var s := Run(EMPTY, acts);
      && HandleOk(s, h) && s.handles[h].state == 0 && s.sessions == map["b" := 0, "a" := 1]
      && var t := Step(s, Delete(h));
         t.sessions == map["b" := 0] && |t.states| == 2 && t.states[0].deleted && !t.states[1].deleted
  {
    MigrateAndResume();
    var acts: seq<Action> :|
      Run(EMPTY, acts) == State([MOVED, ORIGINAL], map["b" := 0, "a" := 1], [Handle(0, "a", 0, false)], [], [0, 1], {});
    var s := Run(EMPTY, acts);
    assert HandleOk(s, 0);
    var t := Step(s, Delete(0));
    assert t.sessions == map["b" := 0] && t.states == [MOVED.(deleted := true), ORIGINAL];
  }

  lemma RunUnfolds(s: State, acts: seq<Action>)
    requires acts != []
    ensures Run(s, acts) == Run(Step(s, acts[0]), acts[1..])
  {
  }

  /** Whatever is opened again, or anew, is idle, and no earlier handle of it can start a turn. */
  lemma OpenedIsIdle(s: State, a: Action)
    requires Inv(s) && Enabled(s, a)
    requires match a
             case Resume(id, checked) => Resumes(s, id, checked)
             case Migrate(id, checked, target) => Migrates(s, id, checked, target)
             case _ => false
    ensures var t := Next(s, a);
            && t.opening != []
            && var i := t.opening[|t.opening| - 1];
            && i < |t.states| && !t.states[i].active && t.handles == s.handles
            && forall h | 0 <= h < |t.handles| && t.handles[h].state == i :: Stale(t, h)
  {
    forall h | 0 <= h < |s.handles| ensures HandleOk(s, h) {
    }
  }

  lemma OneHolder(s: State, t: nat)
    requires ClaimsOk(s) && t < |s.turns| && s.turns[t].Running()
    ensures s.turns[t].state < |s.states| && s.states[s.turns[t].state].active
    ensures forall u :: Holds(s, u, s.turns[t].state) <==> u == t
  {
    assert TurnOk(s, t);
  }

  lemma NoHolder(s: State, i: nat)
    requires ClaimsOk(s) && i < |s.states| && !s.states[i].active
    ensures forall t :: !Holds(s, t, i)
  {
    forall t: nat | t < |s.turns| ensures !Holds(s, t, i) {
      IdleHasNoTurn(s, i, t);
    }
  }

  // ---------- The runtime and its objects ----------

  class SessionState {
    /** The place in the order of creation. */
    ghost const number: nat
    const provider: string
    var descriptor: string
    var profile: string
    var generation: nat
    var active: bool
    var interrupted: bool
    var deleted: bool

    constructor (ghost number: nat, provider: string, descriptor: string, profile: string)
      ensures this.number == number && View() == Session(provider, descriptor, profile, 0, false, false, false)
    {
      this.number := number;
      this.provider, this.descriptor, this.profile := provider, descriptor, profile;
      generation, active, interrupted, deleted := 0, false, false, false;
    }

    function View(): Session
      reads this
    {
      Session(provider, descriptor, profile, generation, active, interrupted, deleted)
    }
  }

  class FakeRuntimeSession {
    const state: SessionState
    const id: string
    const generation: nat
    var closed: bool

    /** A handle takes over what its state is at the time. */
    constructor (state: SessionState)
      ensures this.state == state && View() == Handle(state.number, state.descriptor, state.generation, false)
    {
      this.state, id, generation, closed := state, state.descriptor, state.generation, false;
    }

    ghost function View(): Handle
      reads this
    {
      Handle(state.number, id, generation, closed)
    }
  }

  /** The registry with states named by number. */
  ghost function Numbers(sessions: map<string, SessionState>): map<string, nat> {
    map id | id in sessions :: sessions[id].number
  }

  lemma NumbersPut(sessions: map<string, SessionState>, id: string, state: SessionState)
    ensures Numbers(sessions[id := state]) == Numbers(sessions)[id := state.number]
  {
  }

  lemma NumbersDrop(sessions: map<string, SessionState>, id: string)
    ensures Numbers(sessions - {id}) == Numbers(sessions) - {id}
  {
  }

  datatype Reply = Opening(state: SessionState) | NotFound | Mismatch | SessionBusy | NotCapable

  class FakeRuntime {
    var sessions: map<string, SessionState>
    var deletedIds: set<string>
    ghost var states: seq<SessionState>
    ghost var handles: seq<FakeRuntimeSession>
    ghost var turns: seq<Turn>
    ghost var opening: seq<nat>

    /** What ties the objects to the numbers that name them. */
    ghost predicate Sound()
      reads this, states
    {
      && (forall i | 0 <= i < |states| :: states[i].number == i)
      && (forall id | id in sessions :: sessions[id] in states && sessions[id].descriptor == id)
      && (forall h | 0 <= h < |handles| :: handles[h].state in states)
      && (forall g, h | 0 <= g < h < |handles| :: handles[g] != handles[h])
    }

    ghost predicate Valid()
      reads this, states, handles
    {
      Sound() && Inv(View())
    }

    ghost function View(): State
      reads this, states, handles
    {
      State(
        seq(|states|, i requires 0 <= i < |states| reads this, states => states[i].View()),
        Numbers(sessions),
        seq(|handles|, h requires 0 <= h < |handles| reads this, handles => handles[h].View()),
        turns,
        opening,
        deletedIds)
    }

    constructor ()
      ensures Valid() && View() == EMPTY
    {
      sessions, deletedIds := map[], {};
      states, handles, turns, opening := [], [], [], [];
      new;
      assert Numbers(sessions) == map[];
      assert View() == EMPTY;
      EmptyInv();
    }

    /** The end of `session`, up to the dispatch of its event; the descriptor may be registered already. */
    method CreateSession(provider: string, descriptor: string, profile: string) returns (state: SessionState)
      requires Valid()
      modifies this
      ensures Valid() && View() == Next(old(View()), Create(descriptor, provider, profile))
      ensures fresh(state) && descriptor in sessions && sessions[descriptor] == state && !state.active
      ensures forall id | id != descriptor :: id in sessions <==> id in old(sessions)
    {
      StepKeepsInv(View(), Create(descriptor, provider, profile));
      state := Retain(provider, descriptor, profile);
    }

    /** `_retain_state`: a new state is registered under its descriptor. */
    method Retain(provider: string, descriptor: string, profile: string) returns (state: SessionState)
      requires Sound()
      modifies this
      ensures Sound() && fresh(state) && states == old(states) + [state] && state.descriptor == descriptor
      ensures sessions == old(sessions)[descriptor := state] && !state.active && state.number == |old(states)|
      ensures View() == Register(old(View()), descriptor, provider, profile)
    {
      state := new SessionState(|states|, provider, descriptor, profile);
      ghost var before := View();
      states := states + [state];
      assert View().states == before.states + [state.View()];
      Enrol(state);
    }

    /** The state waits to be handed out, nobody runs on it, and no handle there is can start a turn on it. */
    ghost predicate Opens(state: SessionState)
      reads this, states, handles
    {
      && state in states && opening != [] && opening[|opening| - 1] == state.number && !state.active
      && forall h | 0 <= h < |handles| && handles[h].state == state :: Stale(View(), h)
    }

    /** What the numbers say about a state's object. */
    lemma StateOf(state: SessionState)
      requires Sound() && state in states
      ensures state.number < |states| && states[state.number] == state && View().states[state.number] == state.View()
    {
    }

    lemma HandleOf(h: nat)
      requires Sound() && h < |handles|
      ensures HandleOk(View(), h) && View().handles[h] == handles[h].View() && handles[h].state in states
    {
      StateOf(handles[h].state);
    }

    /** A state object is active exactly while a turn holds it, and then one turn does. */
    lemma ActiveWhileHeld(state: SessionState)
      requires Valid() && state in states
      ensures state.active <==> exists t :: Holds(View(), t, state.number)
      ensures forall t, u | Holds(View(), t, state.number) && Holds(View(), u, state.number) :: t == u
    {
      StateOf(state);
      forall t: nat | Holds(View(), t, state.number) ensures state.active {
        OneHolder(View(), t);
      }
    }

    method ResumeSession(id: string, checked: Checked) returns (reply: Reply)
      requires Valid()
      modifies this, states
      ensures Valid() && View() == Next(old(View()), Resume(id, checked))
      ensures match reply
              case NotFound => id in old(deletedIds)
              case Mismatch => id !in old(deletedIds) && checked.Refused?
              case SessionBusy => id !in old(deletedIds) && checked.Accepted? && Busy(old(View()), id)
              case Opening(state) => Resumes(old(View()), id, checked) && state.descriptor == id
              case NotCapable => false
      ensures reply.Opening? ==> Opens(reply.state)
    {
      ghost var before := View();
      StepKeepsInv(before, Resume(id, checked));
      reply := Reopen(id, checked);
      if reply.Opening? {
        OpenedIsIdle(before, Resume(id, checked));
        Opened(reply.state);
      }
    }

    /** From the numbers to the objects. */
    lemma Opened(state: SessionState)
      requires Sound() && state in states && opening != [] && opening[|opening| - 1] == state.number
      requires var s, i := View(), state.number;
               && i < |s.states| && !s.states[i].active
               && forall h | 0 <= h < |s.handles| && s.handles[h].state == i :: Stale(s, h)
      ensures Opens(state)
    {
      StateOf(state);
      forall h | 0 <= h < |handles| && handles[h].state == state ensures Stale(View(), h) {
        HandleOf(h);
      }
    }

    /** The refusals of `resume_session`, and the state found or made. */
    method Reopen(id: string, checked: Checked) returns (reply: Reply)
      requires Sound()
      modifies this, states
      ensures Sound() && View() == Next(old(View()), Resume(id, checked))
      ensures match reply
              case NotFound => id in old(deletedIds)
              case Mismatch => id !in old(deletedIds) && checked.Refused?
              case SessionBusy => id !in old(deletedIds) && checked.Accepted? && Busy(old(View()), id)
              case Opening(state) => Resumes(old(View()), id, checked) && state in states && state.descriptor == id
              case NotCapable => false
      ensures reply.Opening? ==> opening == old(opening) + [reply.state.number]
    {
      ghost var before := View();
      if id in deletedIds {
        return NotFound;
      }
      if checked.Refused? {
        return Mismatch;
      }
      if id in sessions {
        var state := sessions[id];
        assert before.states[state.number] == state.View();
        if !state.deleted {
          if state.active {
            return SessionBusy;
          }
          state.generation := state.generation + 1;
          opening := opening + [state.number];
          assert View().states == before.states[state.number := state.View()];
          return Opening(state);
        }
      }
      var state := Retain(checked.provider, id, checked.profile);
      return Opening(state);
    }

    method Rename(state: SessionState, descriptor: string, profile: string)
      requires (forall i | 0 <= i < |states| :: states[i].number == i) && state in states
      requires forall id | id in sessions :: sessions[id] in states
      modifies state
      ensures state.descriptor == descriptor
      ensures forall other: SessionState | other != state && other in states ::
                other.descriptor == old(other.descriptor)
      ensures var s, n := old(View()), state.number;
              View() == s.(states := s.states[n := s.states[n].(descriptor := descriptor, profile := profile,
                                                                generation := s.states[n].generation + 1)])
    {
      ghost var before := View();
      assert before.states[state.number] == state.View();
      state.descriptor, state.profile := descriptor, profile;
      state.generation := state.generation + 1;
      assert View().states == before.states[state.number := state.View()];
    }

    /** The state leaves its old place in the registry for the new one. */
    method Move(id: string, state: SessionState, descriptor: string, profile: string)
      requires Sound() && id in sessions && sessions[id] == state
      modifies this, state
      ensures Sound() && states == old(states) && state.descriptor == descriptor
      ensures View() == MoveState(old(View()), id, state.number, descriptor, profile)
    {
      assert forall key | key in sessions && sessions[key] == state :: key == id;
      Forget(id);
      Rename(state, descriptor, profile);
      Enrol(state);
    }

    method Forget(id: string)
      requires forall key | key in sessions :: sessions[key] in states
      modifies this`sessions
      ensures sessions == old(sessions) - {id}
      ensures View() == old(View()).(sessions := old(View()).sessions - {id})
    {
      NumbersDrop(sessions, id);
      sessions := sessions - {id};
    }

    method Enrol(state: SessionState)
      requires forall key | key in sessions :: sessions[key] in states
      modifies this`sessions, this`opening
      ensures sessions == old(sessions)[state.descriptor := state]
      ensures var s := old(View());
              View() == s.(sessions := s.sessions[state.descriptor := state.number],
                           opening := s.opening + [state.number])
    {
      NumbersPut(sessions, state.descriptor, state);
      sessions := sessions[state.descriptor := state];
      opening := opening + [state.number];
    }

    method MigrateSession(id: string, checked: Checked, target: Option<(string, string)>) returns (reply: Reply)
      requires Valid()
      modifies this, states
      ensures Valid() && View() == Next(old(View()), Migrate(id, checked, target))
      ensures match reply
              case Mismatch => checked.Refused?
              case SessionBusy => checked.Accepted? && Busy(old(View()), id)
              case NotCapable => checked.Accepted? && !Busy(old(View()), id) && target.None?
              case Opening(state) => Migrates(old(View()), id, checked, target) && state.descriptor == target.value.0
              case NotFound => false
      ensures reply.Opening? ==> Opens(reply.state)
    {
      ghost var before := View();
      StepKeepsInv(before, Migrate(id, checked, target));
      reply := Relocate(id, checked, target);
      if reply.Opening? {
        OpenedIsIdle(before, Migrate(id, checked, target));
        Opened(reply.state);
      }
    }

    /** The refusals of `migrate_session`, and the state moved or made. */
    method Relocate(id: string, checked: Checked, target: Option<(string, string)>) returns (reply: Reply)
      requires Sound()
      modifies this, states
      ensures Sound() && View() == Next(old(View()), Migrate(id, checked, target))
      ensures match reply
              case Mismatch => checked.Refused?
              case SessionBusy => checked.Accepted? && Busy(old(View()), id)
              case NotCapable => checked.Accepted? && !Busy(old(View()), id) && target.None?
              case Opening(state) =>
                Migrates(old(View()), id, checked, target) && state in states && state.descriptor == target.value.0
              case NotFound => false
      ensures reply.Opening? ==> opening == old(opening) + [reply.state.number]
    {
      ghost var before := View();
      if checked.Refused? {
        return Mismatch;
      }
      if id in sessions {
        var state := sessions[id];
        assert before.states[state.number] == state.View();
        if !state.deleted {
          if state.active {
            return SessionBusy;
          }
          if target.None? {
            return NotCapable;
          }
          Move(id, state, target.value.0, target.value.1);
          return Opening(state);
        }
      }
      if target.None? {
        return NotCapable;
      }
      var state := Retain(checked.provider, target.value.0, target.value.1);
      return Opening(state);
    }

    /** After the dispatch of call number `call`, unless it raised. */
    method HandOut(ghost call: nat, state: SessionState) returns (handle: FakeRuntimeSession)
      requires Valid() && call < |opening| && state in states && opening[call] == state.number
      modifies this
      ensures Valid() && fresh(handle) && handles == old(handles) + [handle]
      ensures View() == Next(old(View()), Deliver(call, false))
      ensures handle.state == state && handle.id == state.descriptor && !handle.closed
      ensures Fresh(View(), |old(handles)|) <==> !state.deleted
    {
      StepKeepsInv(View(), Deliver(call, false));
      handle := Build(call, state);
      HandleOf(|handles| - 1);
      StateOf(state);
    }

    method Build(ghost call: nat, state: SessionState) returns (handle: FakeRuntimeSession)
      requires Sound() && call < |opening| && state in states && opening[call] == state.number
      modifies this
      ensures Sound() && fresh(handle) && handles == old(handles) + [handle] && states == old(states)
      ensures View() == Next(old(View()), Deliver(call, false))
      ensures handle.state == state && handle.id == state.descriptor && !handle.closed
      ensures handle.generation == state.generation
    {
      ghost var before := View();
      assert before.states[state.number] == state.View();
      handle := new FakeRuntimeSession(state);
      opening := opening[..call] + opening[call + 1..];
      handles := handles + [handle];
      assert View().handles == before.handles + [handle.View()];
    }

    /** The turn and no other holds the state, which is then active. */
    ghost predicate OnlyHolder(t: nat, state: SessionState)
      reads this, states, handles
    {
      forall u :: Holds(View(), u, state.number) <==> u == t
    }

    ghost predicate Unheld(state: SessionState)
      reads this, states, handles, state
    {
      !state.active && forall t :: !Holds(View(), t, state.number)
    }

    /** The handle's checks and the claim, which no await separates. */
    method Claim(handle: FakeRuntimeSession, ghost h: nat, ghost stream: bool) returns (claimed: bool)
      requires Valid() && h < |handles| && handles[h] == handle
      modifies this, states
      ensures Valid() && View() == Next(old(View()), Begin(h, stream))
      ensures claimed <==> Fresh(old(View()), h) && !old(handle.state.active)
      ensures claimed ==> turns == old(turns) + [Turn(handle.state.number, h, stream, Executing)]
      ensures claimed ==> handle.state.active && OnlyHolder(|old(turns)|, handle.state)
      ensures !claimed ==> View() == old(View())
    {
      StepKeepsInv(View(), Begin(h, stream));
      claimed := TryClaim(handle, h, stream);
      if claimed {
        OneHolder(View(), |turns| - 1);
        StateOf(handle.state);
      }
    }

    method TryClaim(handle: FakeRuntimeSession, ghost h: nat, ghost stream: bool) returns (claimed: bool)
      requires Sound() && h < |handles| && handles[h] == handle
      modifies this, states
      ensures Sound() && View() == Next(old(View()), Begin(h, stream)) && handles == old(handles)
      ensures claimed <==> Fresh(old(View()), h) && !old(handle.state.active)
      ensures claimed ==> turns == old(turns) + [Turn(handle.state.number, h, stream, Executing)]
      ensures !claimed ==> View() == old(View())
    {
      ghost var before := View();
      var state := handle.state;
      assert before.states[state.number] == state.View() && before.handles[h] == handle.View();
      if handle.closed || state.deleted || handle.generation != state.generation {
        return false;
      }
      if state.active {
        return false;
      }
      state.active, state.interrupted := true, false;
      turns := turns + [Turn(state.number, h, stream, Executing)];
      assert View().states == before.states[state.number := state.View()];
      return true;
    }

    method Release(state: SessionState, ghost t: nat)
      requires Sound() && t < |turns| && state in states && turns[t].state == state.number
      modifies this, states
      ensures Sound() && states == old(states) && handles == old(handles)
      ensures View() == ReleaseTurn(old(View()), t) && !state.active
    {
      ghost var before := View();
      state.active := false;
      turns := turns[t := turns[t].(phase := Released)];
      assert View().states == before.states[state.number := state.View()];
    }

    /** The `finally` clause of `_execute`; a completed turn of a stream keeps its claim. */
    method LeaveExecute(state: SessionState, keepActive: bool, completed: bool, ghost t: nat)
      requires Valid() && state in states && Enabled(View(), EndExecute(t, completed))
      requires turns[t].state == state.number && turns[t].stream == keepActive
      modifies this, states
      ensures Valid() && View() == Next(old(View()), EndExecute(t, completed))
      ensures if keepActive && completed then state.active && OnlyHolder(t, state) else Unheld(state)
    {
      StepKeepsInv(View(), EndExecute(t, completed));
      if !keepActive || !completed {
        Release(state, t);
        NoHolder(View(), state.number);
      } else {
        GoOnAsStream(t);
        OneHolder(View(), t);
      }
      StateOf(state);
    }

    ghost method GoOnAsStream(t: nat)
      requires Sound() && Enabled(View(), EndExecute(t, true)) && turns[t].stream
      modifies this`turns
      ensures Sound() && View() == Next(old(View()), EndExecute(t, true))
    {
      turns := turns[t := turns[t].(phase := Streaming)];
    }

    /** The `finally` clause of `astream`, which owns the claim once `_execute` has returned. */
    method LeaveStream(state: SessionState, ghost t: nat)
      requires Valid() && state in states && Enabled(View(), EndStream(t)) && turns[t].state == state.number
      modifies this, states
      ensures Valid() && View() == Next(old(View()), EndStream(t)) && Unheld(state)
    {
      StepKeepsInv(View(), EndStream(t));
      Release(state, t);
      NoHolder(View(), state.number);
    }

    method InterruptTurn(handle: FakeRuntimeSession, ghost h: nat)
      requires Valid() && h < |handles| && handles[h] == handle
      modifies states
      ensures Valid() && View() == Next(old(View()), Interrupt(h))
      ensures handle.state.active == old(handle.state.active)
      ensures handle.state.active ==> handle.state.interrupted
    {
      StepKeepsInv(View(), Interrupt(h));
      SetInterrupted(handle, h);
    }

    method SetInterrupted(handle: FakeRuntimeSession, ghost h: nat)
      requires Sound() && h < |handles| && handles[h] == handle
      modifies states
      ensures Sound() && View() == Next(old(View()), Interrupt(h))
      ensures handle.state.active == old(handle.state.active)
      ensures handle.state.active ==> handle.state.interrupted
    {
      ghost var before := View();
      var state := handle.state;
      assert before.states[state.number] == state.View() && before.handles[h] == handle.View();
      if state.active {
        state.interrupted := true;
        assert View().states == before.states[state.number := state.View()];
      }
    }

    method Close(handle: FakeRuntimeSession, ghost h: nat)
      requires Valid() && h < |handles| && handles[h] == handle
      modifies handle
      ensures Valid() && View() == Next(old(View()), CloseHandle(h)) && !Fresh(View(), h)
    {
      StepKeepsInv(View(), CloseHandle(h));
      Shut(handle, h);
      HandleOf(h);
    }

    method Shut(handle: FakeRuntimeSession, ghost h: nat)
      requires Sound() && h < |handles| && handles[h] == handle
      modifies handle
      ensures Sound() && View() == Next(old(View()), CloseHandle(h)) && handle.closed
    {
      ghost var before := View();
      handle.closed := true;
      assert View().handles == before.handles[h := handle.View()];
    }

    /** After a deletion no handle of the state can start a turn, and the handle's id is not registered. */
    method DeleteSession(handle: FakeRuntimeSession, ghost h: nat)
      requires Valid() && h < |handles| && handles[h] == handle
      modifies this, states, handle
      ensures Valid() && View() == Next(old(View()), Delete(h))
      ensures handle.state.deleted && handle.state.active == old(handle.state.active)
      ensures !old(handle.state.deleted) ==>
                handle.closed && handle.id in deletedIds && sessions == old(sessions) - {handle.id}
      ensures forall g | 0 <= g < |handles| && handles[g].state == handle.state :: !Fresh(View(), g)
    {
      StepKeepsInv(View(), Delete(h));
      Drop(handle, h);
      StateOf(handle.state);
      forall g | 0 <= g < |handles| && handles[g].state == handle.state ensures !Fresh(View(), g) {
        HandleOf(g);
      }
    }

    method Drop(handle: FakeRuntimeSession, ghost h: nat)
      requires Sound() && h < |handles| && handles[h] == handle
      modifies this, states, handle
      ensures Sound() && View() == Next(old(View()), Delete(h)) && states == old(states) && handles == old(handles)
      ensures handle.state.deleted && handle.state.active == old(handle.state.active)
      ensures !old(handle.state.deleted) ==>
                handle.closed && handle.id in deletedIds && sessions == old(sessions) - {handle.id}
    {
      ghost var before := View();
      var state := handle.state;
      assert before.states[state.number] == state.View() && before.handles[h] == handle.View();
      if !state.deleted {
        state.deleted := true;
        NumbersDrop(sessions, handle.id);
        sessions := sessions - {handle.id};
        deletedIds := deletedIds + {handle.id};
        handle.closed := true;
        assert View().states == before.states[state.number := state.View()];
        assert View().handles == before.handles[h := handle.View()];
      }
    }
  }
}
