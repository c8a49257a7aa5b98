/**
 * Lifecycle of a Codex task: any number of turns and any number of `close()` calls over one turn lock,
 * one close lock and one close event. An action is the code one coroutine runs between two awaits.
 * Locks are those of asyncio: a release wakes the first waiter but lets go of the lock at once, so a
 * newcomer can find the lock free while a waiter is on its way.
 */
module TaskProtocol {
  import opened Options

  datatype TaskState = OPEN | CLOSING | CLOSED

  datatype Kind = Invoke | Stream

  /** Where a turn is suspended. `Leaked` is the turn that lost its cleanup to a late cancellation. */
  datatype TurnAt = Queued | Starting | Rejecting | Streaming | Interrupting | Finalizing | Leaked | TurnOver

  /**
   * Where a `close()` is suspended. The call that found the task open does the closing, from
   * `StoppingTurn` to `Announcing`; `Dropped` is a call that was cancelled.
   */
  datatype CloserAt =
    | QueuedToEnter | AwaitingEvent | StoppingTurn | QueuedForTurn | Deleting | Announcing | Returned | Dropped

  datatype Proc = Turn(kind: Kind, turn: TurnAt) | Closer(closer: CloserAt)

  datatype State = State(
    state: TaskState,
    lock: Option<nat>,
    waiters: seq<nat>,
    closeLock: Option<nat>,
    closeWaiters: seq<nat>,
    closeEvent: bool,
    active: Option<nat>,
    registered: set<nat>,
    listed: bool,
    threadDeleted: bool,
    workspaceRemoved: bool,
    closedEvents: nat,
    closer: Option<nat>,                // the call that found the task open
    closerCancelled: bool,
    procs: seq<Proc>)

  const INITIAL := State(OPEN, None, [], None, [], false, None, {}, true, false, false, 0, None, false, [])

  datatype Action =
    | ArriveTurn(kind: Kind)            // ainvoke or astream, up to the provider call
    | TakeTurnLock(p: nat)              // the first waiter of the turn lock runs
    | ProviderAnswers(p: nat)           // thread.turn returned a handle
    | SetupFails(p: nat)                // a handle was returned but the bridge could not be installed
    | ProviderFails(p: nat)             // thread.turn raised or was cancelled
    | RejectionDone(p: nat)             // the handle of a rejected turn was interrupted
    | StreamEnds(p: nat, terminal: bool)
    | StreamBreaks(p: nat)              // timeout or cancellation while events are awaited
    | InterruptDone(p: nat, terminal: bool)
    | FinalInterruptDone(p: nat)
    | FinalInterruptCancelled(p: nat)
    | ArriveClose
    | EnterClose(p: nat)                // the first waiter of the close lock runs
    | EventSeen(p: nat)
    | WaitingCloserCancelled(p: nat)
    | TurnStopped(p: nat)
    | ThreadDeleted(p: nat)
    | Announced(p: nat)
    | CloserCancelled(p: nat)           // cancellation of the call that does the closing

  predicate TurnIs(s: State, p: nat, at: TurnAt) {
    p < |s.procs| && s.procs[p].Turn? && s.procs[p].turn == at
  }

  predicate CloserIs(s: State, p: nat, at: CloserAt) {
    p < |s.procs| && s.procs[p].Closer? && s.procs[p].closer == at
  }

  predicate Enabled(s: State, a: Action) {
    match a
    case ArriveTurn(_) => true
    case TakeTurnLock(p) =>
      && s.lock.None? && s.waiters != [] && s.waiters[0] == p
      && (TurnIs(s, p, Queued) || CloserIs(s, p, QueuedForTurn))
    case ProviderAnswers(p) => TurnIs(s, p, Starting)
    case SetupFails(p) => TurnIs(s, p, Starting)
    case ProviderFails(p) => TurnIs(s, p, Starting)
    case RejectionDone(p) => TurnIs(s, p, Rejecting)
    case StreamEnds(p, _) => TurnIs(s, p, Streaming)
    case StreamBreaks(p) => TurnIs(s, p, Streaming)
    case InterruptDone(p, _) => TurnIs(s, p, Interrupting)
    case FinalInterruptDone(p) => TurnIs(s, p, Finalizing)
    case FinalInterruptCancelled(p) => TurnIs(s, p, Finalizing)
    case ArriveClose => true
    case EnterClose(p) =>
      s.closeLock.None? && s.closeWaiters != [] && s.closeWaiters[0] == p && CloserIs(s, p, QueuedToEnter)
    case EventSeen(p) => CloserIs(s, p, AwaitingEvent) && s.closeEvent
    case WaitingCloserCancelled(p) => CloserIs(s, p, AwaitingEvent) || CloserIs(s, p, QueuedToEnter)
    case TurnStopped(p) => CloserIs(s, p, StoppingTurn)
    case ThreadDeleted(p) => CloserIs(s, p, Deleting)
    case Announced(p) => CloserIs(s, p, Announcing)
    case CloserCancelled(p) =>
      || CloserIs(s, p, StoppingTurn) || CloserIs(s, p, QueuedForTurn)
      || CloserIs(s, p, Deleting) || CloserIs(s, p, Announcing)
  }

  // ---------- The transitions ----------

  /** No run is registered, no cancellation of the closing call recorded, and the task not opened again. */
  predicate Quiet(s: State, t: State) {
    t.registered <= s.registered && t.closerCancelled == s.closerCancelled && (t.state.OPEN? ==> s.state.OPEN?)
  }

  function Move(s: State, p: nat, q: Proc): (t: State)
    requires p < |s.procs|
    ensures Quiet(s, t)
  {
    s.(procs := s.procs[p := q])
  }

  /** The `finally` of a turn whose run was started: forget the run and release the turn lock. */
  function FinishTurn(s: State, p: nat): (t: State)
    requires p < |s.procs| && s.procs[p].Turn?
    ensures Quiet(s, t)
  {
    Move(s, p, s.procs[p].(turn := TurnOver)).(lock := None, active := None, registered := s.registered - {p})
  }

  /** A stream without a terminal status interrupts its run once more before it cleans up. */
  function LeaveStream(s: State, p: nat, terminal: bool): (t: State)
    requires p < |s.procs| && s.procs[p].Turn?
    ensures Quiet(s, t)
  {
    if s.procs[p].kind.Stream? && !terminal then Move(s, p, s.procs[p].(turn := Finalizing)) else FinishTurn(s, p)
  }

  /** A turn that never got a run releases the lock; it has nothing registered. */
  function AbandonTurn(s: State, p: nat): (t: State)
    requires p < |s.procs| && s.procs[p].Turn?
    ensures Quiet(s, t)
  {
    var t := Move(s, p, s.procs[p].(turn := TurnOver)).(lock := None);
    if s.procs[p].kind.Stream? then t.(active := None) else t
  }

  /** With the turn lock in hand the closer starts to delete the provider thread. */
  function StartDeleting(s: State, p: nat): (t: State)
    requires p < |s.procs|
    ensures Quiet(s, t)
  {
    Move(s, p, Closer(Deleting)).(lock := Some(p), threadDeleted := true)
  }

  function SeekTurnLock(s: State, p: nat): (t: State)
    requires p < |s.procs|
    ensures Quiet(s, t)
  {
    if s.lock.None? && s.waiters == [] then StartDeleting(s, p)
    else Move(s, p, Closer(QueuedForTurn)).(waiters := s.waiters + [p])
  }

  /** The body of `close()` under the close lock and on to its next await. */
  function Close(s: State, p: nat): (t: State)
    requires p < |s.procs|
    ensures Quiet(s, t)
  {
    match s.state
    case CLOSED => Move(s, p, Closer(Returned))
    case CLOSING =>
      if s.closeEvent then Move(s, p, Closer(Returned))
      else Move(s, p, Closer(AwaitingEvent)).(closeLock := Some(p))
    case OPEN =>
      var t := s.(state := CLOSING, closer := Some(p));
      if s.active.Some? then Move(t, p, Closer(StoppingTurn)) else SeekTurnLock(t, p)
  }

  /** The `finally` of the closing call, up to the dispatch of TASK_CLOSED. */
  function Seal(s: State, p: nat): (t: State)
    requires p < |s.procs|
    ensures Quiet(s, t)
  {
    Move(s, p, Closer(Announcing)).(state := CLOSED, closeEvent := true, closedEvents := s.closedEvents + 1)
  }

  function Without(q: seq<nat>, p: nat): seq<nat> {
    if q == [] then [] else (if q[0] == p then [] else [q[0]]) + Without(q[1..], p)
  }

  predicate TurnAction(a: Action) {
    || a.ArriveTurn? || a.ProviderAnswers? || a.SetupFails? || a.ProviderFails? || a.RejectionDone?
    || a.StreamEnds? || a.StreamBreaks? || a.InterruptDone? || a.FinalInterruptDone? || a.FinalInterruptCancelled?
  }

  function NextOfTurn(s: State, a: Action): (t: State)
    requires TurnAction(a) && Enabled(s, a)
    ensures !s.state.OPEN? ==> Quiet(s, t)
    ensures t.closerCancelled == s.closerCancelled && t.state == s.state
  {
    match a
    case ArriveTurn(kind) =>
      if !s.state.OPEN? || s.lock.Some? then s
      else if s.waiters != [] then s.(waiters := s.waiters + [|s.procs|], procs := s.procs + [Turn(kind, Queued)])
      else s.(lock := Some(|s.procs|), procs := s.procs + [Turn(kind, Starting)])
    case ProviderAnswers(p) =>
      if s.state.OPEN? then
        Move(s, p, s.procs[p].(turn := Streaming)).(active := Some(p), registered := s.registered + {p})
      else Move(s, p, s.procs[p].(turn := Rejecting))
    case SetupFails(p) => Move(s, p, s.procs[p].(turn := Rejecting))
    case ProviderFails(p) => AbandonTurn(s, p)
    case RejectionDone(p) => AbandonTurn(s, p)
    case StreamEnds(p, terminal) => LeaveStream(s, p, terminal)
    case StreamBreaks(p) => Move(s, p, s.procs[p].(turn := Interrupting))
    case InterruptDone(p, terminal) => LeaveStream(s, p, terminal)
    case FinalInterruptDone(p) => FinishTurn(s, p)
    case FinalInterruptCancelled(p) => Move(s, p, s.procs[p].(turn := Leaked))
  }

  /** Cancellation of the closing call: whatever it was waiting for, its `finally` seals the task. */
  function CancelCloser(s: State, p: nat): (t: State)
    requires Enabled(s, CloserCancelled(p))
    ensures t.closerCancelled && t.registered <= s.registered && (t.state.OPEN? ==> s.state.OPEN?)
  {
    var t := s.(closerCancelled := true);
    match s.procs[p].closer
    case StoppingTurn => Seal(t, p)
    case QueuedForTurn => Seal(t.(waiters := Without(s.waiters, p)), p)
    case Deleting => Seal(t.(lock := None), p)
    case _ => Move(t, p, Closer(Dropped))
  }

  function NextOfCloser(s: State, a: Action): (t: State)
    requires !TurnAction(a) && !a.CloserCancelled? && Enabled(s, a)
    ensures Quiet(s, t)
  {
    match a
    case TakeTurnLock(p) =>
      var t := s.(waiters := s.waiters[1..]);
      if s.procs[p].Closer? then StartDeleting(t, p)
      else if s.state.OPEN? then Move(t, p, s.procs[p].(turn := Starting)).(lock := Some(p))
      else Move(t, p, s.procs[p].(turn := TurnOver))
    case ArriveClose =>
      var t := s.(procs := s.procs + [Closer(QueuedToEnter)]);
      if s.closeLock.None? && s.closeWaiters == [] then Close(t, |s.procs|)
      else t.(closeWaiters := s.closeWaiters + [|s.procs|])
    case EnterClose(p) => Close(s.(closeWaiters := s.closeWaiters[1..]), p)
    case EventSeen(p) => Move(s, p, Closer(Returned)).(closeLock := None)
    case WaitingCloserCancelled(p) =>
      if s.procs[p].closer.AwaitingEvent? then Move(s, p, Closer(Dropped)).(closeLock := None)
      else Move(s, p, Closer(Dropped)).(closeWaiters := Without(s.closeWaiters, p))
    case TurnStopped(p) => SeekTurnLock(s, p)
    case ThreadDeleted(p) => Seal(s.(workspaceRemoved := true, listed := false, lock := None), p)
    case Announced(p) => Move(s, p, Closer(Returned))
  }

  function Next(s: State, a: Action): (t: State)
    requires Enabled(s, a)
    ensures t.closerCancelled <==> s.closerCancelled || a.CloserCancelled?
    ensures !s.state.OPEN? ==> t.registered <= s.registered && !t.state.OPEN?
  {
    if TurnAction(a) then NextOfTurn(s, a)
    else if a.CloserCancelled? then CancelCloser(s, a.p)
    else NextOfCloser(s, a)
  }

  function Step(s: State, a: Action): State {
    if Enabled(s, a) then Next(s, a) else s
  }

  function Run(s: State, acts: seq<Action>): State
    decreases |acts|
  {
    if acts == [] then s else Run(Step(s, acts[0]), acts[1..])
  }

  // ---------- What every run keeps ----------

  predicate Holding(q: Proc) {
    match q
    case Turn(_, at) => !at.Queued? && !at.TurnOver?
    case Closer(at) => at.Deleting?
  }

  predicate HasRun(q: Proc) {
    q.Turn? && (q.turn.Streaming? || q.turn.Interrupting? || q.turn.Finalizing? || q.turn.Leaked?)
  }

  predicate Closing(q: Proc) {
    q.Closer? && (q.closer.StoppingTurn? || q.closer.QueuedForTurn? || q.closer.Deleting?)
  }

  predicate ProcOk(s: State, p: nat)
    requires p < |s.procs|
  {
    var q := s.procs[p];
    && (Holding(q) <==> s.lock == Some(p))
    && (HasRun(q) <==> p in s.registered)
    && (HasRun(q) <==> s.active == Some(p))
    && !(q.Turn? && q.turn.Queued?)
    && (q == Closer(QueuedForTurn) <==> p in s.waiters)
    && (q == Closer(AwaitingEvent) <==> s.closeLock == Some(p))
    && (q == Closer(QueuedToEnter) <==> p in s.closeWaiters)
    && (q.Closer? ==> !s.state.OPEN?)
    && (Closing(q) ==> s.state.CLOSING? && s.closer == Some(p))
    && (s.closer == Some(p) ==> Closing(q) || q == Closer(Announcing) || q == Closer(Returned))
    && (q == Closer(Deleting) ==> s.threadDeleted)
    && (q == Closer(Announcing) || q == Closer(Returned) ==> s.state.CLOSED?)
  }

  predicate Distinct(q: seq<nat>) {
    forall i, j | 0 <= i < j < |q| :: q[i] != q[j]
  }

  /** What ties the fields to each other, whatever the single calls are doing. */
  predicate Tied(s: State) {
    && |s.waiters| <= 1 && Distinct(s.closeWaiters)
    && (s.state.OPEN? <==> s.closer.None?)
    && (s.state.CLOSED? <==> s.closeEvent)
    && (s.state.CLOSED? <==> s.workspaceRemoved)
    && (s.state.CLOSED? <==> !s.listed)
    && s.closedEvents == (if s.state.CLOSED? then 1 else 0)
    && (s.state.CLOSED? ==> s.lock.None? && s.threadDeleted)
    && (s.threadDeleted ==> s.closer.Some? && (s.state.CLOSING? ==> s.lock == s.closer))
  }

  ghost predicate InRange(s: State) {
    && (s.lock.Some? ==> s.lock.value < |s.procs|)
    && (s.active.Some? ==> s.active.value < |s.procs|)
    && (s.closeLock.Some? ==> s.closeLock.value < |s.procs|)
    && (s.closer.Some? ==> s.closer.value < |s.procs|)
    && (forall p | p in s.registered :: p < |s.procs|)
    && (forall p | p in s.waiters :: p < |s.procs|)
    && (forall p | p in s.closeWaiters :: p < |s.procs|)
  }

  ghost predicate Core(s: State) {
    Tied(s) && InRange(s) && forall p: nat | p < |s.procs| :: ProcOk(s, p)
  }

  /** A new caller fits when nothing refers to its place yet. */
  lemma ArriveTurnKeepsCore(s: State, kind: Kind)
    requires Core(s)
    ensures Core(Next(s, ArriveTurn(kind)))
  {
    var t := Next(s, ArriveTurn(kind));
    if s.waiters != [] {
      assert s.waiters[0] in s.waiters;
      assert ProcOk(s, s.waiters[0]);
    }
    forall p: nat | p < |t.procs| ensures ProcOk(t, p) {
      if p < |s.procs| {
        assert ProcOk(s, p);
      }
    }
  }

  /** A turn moves on and keeps the lock. */
  predicate MovesTurn(a: Action) {
    a.ProviderAnswers? || a.SetupFails? || a.StreamBreaks? || a.FinalInterruptCancelled?
  }

  lemma MovingTurnKeepsCore(s: State, a: Action)
    requires Core(s) && MovesTurn(a) && Enabled(s, a)
    ensures Core(Next(s, a))
  {
    var t := Next(s, a);
    assert ProcOk(s, a.p);
    forall p: nat | p < |t.procs| ensures ProcOk(t, p) {
      assert ProcOk(s, p);
    }
  }

  /** A turn that holds the lock lets go of it, with or without a run to forget. */
  lemma ReleaseKeepsCore(s: State, p: nat, t: State)
    requires Core(s) && p < |s.procs| && s.procs[p].Turn? && Holding(s.procs[p])
    requires t == FinishTurn(s, p) || (!HasRun(s.procs[p]) && t == AbandonTurn(s, p))
    ensures Core(t)
  {
    assert ProcOk(s, p);
    forall q: nat | q < |t.procs| ensures ProcOk(t, q) {
      assert ProcOk(s, q);
    }
  }

  lemma EndingTurnKeepsCore(s: State, a: Action)
    requires Core(s) && TurnAction(a) && !MovesTurn(a) && !a.ArriveTurn? && Enabled(s, a)
    ensures Core(Next(s, a))
  {
    var t := Next(s, a);
    if TurnIs(t, a.p, Finalizing) {
      assert ProcOk(s, a.p);
      forall p: nat | p < |t.procs| ensures ProcOk(t, p) {
        assert ProcOk(s, p);
      }
    } else {
      ReleaseKeepsCore(s, a.p, t);
    }
  }

  lemma {:induction false} WithoutKeepsOthers(q: seq<nat>, p: nat)
    ensures forall x :: x in Without(q, p) <==> x in q && x != p
    ensures |Without(q, p)| <= |q| && (Distinct(q) ==> Distinct(Without(q, p)))
  {
    if q != [] {
      WithoutKeepsOthers(q[1..], p);
      assert q == [q[0]] + q[1..];
      if Distinct(q) {
        assert forall i, j | 0 <= i < j < |q[1..]| :: q[1..][i] == q[i + 1] && q[1..][j] == q[j + 1];
        assert q[0] !in q[1..];
      }
    }
  }

  /** The first of a queue without repetitions does not come again. */
  lemma FirstLeaves(q: seq<nat>)
    requires q != [] && Distinct(q)
    ensures Distinct(q[1..]) && forall x :: x in q[1..] <==> x in q && x != q[0]
  {
    assert q == [q[0]] + q[1..];
    assert forall i | 0 <= i < |q[1..]| :: q[1..][i] == q[i + 1];
  }

  /** The state on entry to `close()`: the caller's place is taken and nothing refers to it. */
  ghost predicate Entering(s: State, p: nat) {
    && Tied(s) && InRange(s) && p < |s.procs| && s.closeLock.None?
    && s.procs[p] == Closer(QueuedToEnter)
    && s.lock != Some(p) && s.active != Some(p) && s.closer != Some(p)
    && p !in s.registered && p !in s.waiters && p !in s.closeWaiters
    && (forall q: nat | q < |s.procs| && q != p :: ProcOk(s, q))
  }

  lemma CloseKeepsCore(s: State, p: nat)
    requires Entering(s, p)
    ensures Core(Close(s, p))
  {
    var t := Close(s, p);
    if s.waiters != [] {
      assert s.waiters[0] in s.waiters;
      assert ProcOk(s, s.waiters[0]);
    }
    forall q: nat | q < |t.procs| ensures ProcOk(t, q) {
      if q != p {
        assert ProcOk(s, q);
      }
    }
  }

  lemma QueueCloseKeepsCore(s: State)
    requires Core(s) && (s.closeLock.Some? || s.closeWaiters != [])
    ensures Core(Next(s, ArriveClose))
  {
    var t := Next(s, ArriveClose);
    if s.closeLock.Some? {
      assert ProcOk(s, s.closeLock.value);
    } else {
      assert s.closeWaiters[0] in s.closeWaiters;
      assert ProcOk(s, s.closeWaiters[0]);
    }
    forall i | 0 <= i < |s.closeWaiters| ensures s.closeWaiters[i] < |s.procs| {
      assert s.closeWaiters[i] in s.closeWaiters;
    }
    assert Distinct(t.closeWaiters);
    forall q: nat | q < |t.procs| ensures ProcOk(t, q) {
      if q < |s.procs| {
        assert ProcOk(s, q);
      }
    }
  }

  lemma ArriveCloseKeepsCore(s: State)
    requires Core(s)
    ensures Core(Next(s, ArriveClose))
  {
    if s.closeLock.None? && s.closeWaiters == [] {
      var t := s.(procs := s.procs + [Closer(QueuedToEnter)]);
      forall q: nat | q < |s.procs| ensures ProcOk(t, q) {
        assert ProcOk(s, q);
      }
      CloseKeepsCore(t, |s.procs|);
    } else {
      QueueCloseKeepsCore(s);
    }
  }

  lemma EnterCloseKeepsCore(s: State, p: nat)
    requires Core(s) && Enabled(s, EnterClose(p))
    ensures Core(Next(s, EnterClose(p)))
  {
    FirstLeaves(s.closeWaiters);
    assert ProcOk(s, p);
    var t := s.(closeWaiters := s.closeWaiters[1..]);
    forall q: nat | q < |s.procs| && q != p ensures ProcOk(t, q) {
      assert ProcOk(s, q);
    }
    CloseKeepsCore(t, p);
  }

  lemma WaitingCloserKeepsCore(s: State, a: Action)
    requires Core(s) && Enabled(s, a) && (a.EventSeen? || a.WaitingCloserCancelled? || a.Announced?)
    ensures Core(Next(s, a))
  {
    var t := Next(s, a);
    assert ProcOk(s, a.p);
    if a.WaitingCloserCancelled? && CloserIs(s, a.p, QueuedToEnter) {
      QueuedCloserLeaves(s, a.p);
    } else {
      forall q: nat | q < |t.procs| ensures ProcOk(t, q) {
        assert ProcOk(s, q);
      }
    }
  }

  lemma QueuedCloserLeaves(s: State, p: nat)
    requires Core(s) && CloserIs(s, p, QueuedToEnter)
    ensures Core(Next(s, WaitingCloserCancelled(p)))
  {
    var t := Next(s, WaitingCloserCancelled(p));
    assert ProcOk(s, p);
    WithoutKeepsOthers(s.closeWaiters, p);
    forall q: nat | q < |t.procs| ensures ProcOk(t, q) {
      assert ProcOk(s, q);
    }
  }

  lemma ClosingStepKeepsCore(s: State, a: Action)
    requires Core(s) && Enabled(s, a) && (a.TurnStopped? || a.TakeTurnLock? || a.ThreadDeleted?)
    ensures Core(Next(s, a))
  {
    var t := Next(s, a);
    assert ProcOk(s, a.p);
    if s.waiters != [] {
      assert s.waiters[0] in s.waiters;
      assert ProcOk(s, s.waiters[0]);
      assert s.waiters == [s.waiters[0]];
    }
    forall q: nat | q < |t.procs| ensures ProcOk(t, q) {
      assert ProcOk(s, q);
    }
  }

  lemma StepKeepsCore(s: State, a: Action)
    requires Core(s) && !a.CloserCancelled?
    ensures Core(Step(s, a))
  {
    if Enabled(s, a) {
      if a.ArriveTurn? {
        ArriveTurnKeepsCore(s, a.kind);
      } else if MovesTurn(a) {
        MovingTurnKeepsCore(s, a);
      } else if TurnAction(a) {
        EndingTurnKeepsCore(s, a);
      } else if a.ArriveClose? {
        ArriveCloseKeepsCore(s);
      } else if a.EnterClose? {
        EnterCloseKeepsCore(s, a.p);
      } else if a.EventSeen? || a.WaitingCloserCancelled? || a.Announced? {
        WaitingCloserKeepsCore(s, a);
      } else {
        ClosingStepKeepsCore(s, a);
      }
    }
  }

  ghost predicate Inv(s: State) {
    !s.closerCancelled ==> Core(s)
  }

  lemma {:induction false} RunKeepsInv(s: State, acts: seq<Action>)
    requires Inv(s)
    ensures Inv(Run(s, acts))
    decreases |acts|
  {
    if acts != [] {
      if !s.closerCancelled && !acts[0].CloserCancelled? {
        StepKeepsCore(s, acts[0]);
      }
      RunKeepsInv(Step(s, acts[0]), acts[1..]);
    }
  }

  ghost predicate Reachable(s: State) {
    exists acts :: s == Run(INITIAL, acts)
  }

  /** A reachable state in which the closing call has not been cancelled. */
  ghost predicate Proper(s: State) {
    Reachable(s) && !s.closerCancelled
  }

  lemma ProperIsCore(s: State)
    requires Proper(s)
    ensures Core(s)
  {
    var acts :| s == Run(INITIAL, acts);
    RunKeepsInv(INITIAL, acts);
  }

  // ---------- Safety ----------

  function Rank(state: TaskState): nat {
    match state
    case OPEN => 0
    case CLOSING => 1
    case CLOSED => 2
  }

  /** The state only moves from OPEN to CLOSING to CLOSED, one step at a time. */
  lemma StateOnlyMovesForward(s: State, a: Action)
    requires Proper(s)
    ensures Rank(s.state) <= Rank(Step(s, a).state) <= Rank(s.state) + 1 || a.CloserCancelled?
    ensures Rank(s.state) <= Rank(Step(s, a).state)
  {
    ProperIsCore(s);
    if a.ThreadDeleted? && Enabled(s, a) {
      assert ProcOk(s, a.p);
    }
  }

  /** At most one turn holds the lock, only its run can be registered, and no turn ever waits for the lock. */
  lemma OneTurnAtATime(s: State, p: nat, q: nat)
    requires Proper(s) && p < |s.procs| && q < |s.procs|
    ensures Holding(s.procs[p]) && Holding(s.procs[q]) ==> p == q
    ensures p in s.registered ==> s.registered == {p} && s.lock == Some(p) && s.active == Some(p)
    ensures !TurnIs(s, p, Queued)
  {
    ProperIsCore(s);
    assert ProcOk(s, p) && ProcOk(s, q);
    if p in s.registered {
      forall x | x in s.registered ensures x == p {
        assert ProcOk(s, x);
      }
    }
  }

  /** Once the task is closing no further run is registered, whatever happens, cancellations included. */
  lemma {:induction false} NoRunIsRegisteredOnceClosing(s: State, acts: seq<Action>)
    requires !s.state.OPEN?
    ensures Run(s, acts).registered <= s.registered && !Run(s, acts).state.OPEN?
    decreases |acts|
  {
    if acts != [] {
      NoRunIsRegisteredOnceClosing(Step(s, acts[0]), acts[1..]);
    }
  }

  /**
   * The provider thread and the workspace are destroyed while the closing call holds the turn lock and
   * no run is registered; afterwards no turn runs again.
   */
  lemma DestroyedOnlyUnderTheTurnLock(s: State, a: Action)
    requires Proper(s) && !a.CloserCancelled?
    ensures var t := Step(s, a);
            (t.threadDeleted && !s.threadDeleted ==> t.lock == t.closer && t.closer.Some? && t.registered == {})
            && (t.workspaceRemoved && !s.workspaceRemoved ==>
                  s.lock == s.closer && s.closer.Some? && s.registered == {})
    ensures s.threadDeleted ==> Step(s, a).registered == {}
  {
    ProperIsCore(s);
    StepKeepsCore(s, a);
    var t := Step(s, a);
    forall p | p in s.registered ensures s.lock == Some(p) && s.closer != Some(p) {
      assert ProcOk(s, p);
    }
    forall p | p in t.registered ensures t.lock == Some(p) && t.closer != Some(p) {
      assert ProcOk(t, p);
    }
    if Enabled(s, a) && a.ThreadDeleted? {
      assert ProcOk(s, a.p);
    }
    if t.threadDeleted && !s.threadDeleted && t.closer.Some? {
      assert ProcOk(t, t.closer.value);
    }
  }

  /** TASK_CLOSED is emitted exactly once, on the way to CLOSED, and a returned `close()` saw CLOSED. */
  lemma ClosedIsAnnouncedOnce(s: State, p: nat)
    requires Proper(s)
    ensures s.closedEvents == if s.state.CLOSED? then 1 else 0
    ensures CloserIs(s, p, Returned) ==> s.state.CLOSED?
    ensures s.state.CLOSED? ==> s.lock.None? && s.registered == {} && !s.listed && s.workspaceRemoved
  {
    ProperIsCore(s);
    if p < |s.procs| {
      assert ProcOk(s, p);
    }
    forall x | x in s.registered ensures s.lock == Some(x) {
      assert ProcOk(s, x);
    }
  }

  // ---------- Does closing come to an end? ----------

  /** The turn lock is held by a stream whose last interrupt was cancelled. */
  predicate LockLeaked(s: State) {
    s.lock.Some? && TurnIs(s, s.lock.value, Leaked)
  }

  function TurnWork(q: Proc): nat {
    match q
    case Turn(_, at) =>
      (match at
       case Streaming => 4
       case Interrupting => 3
       case Finalizing => 2
       case Starting => 2
       case Rejecting => 1
       case _ => 0)
    case _ => 0
  }

  function CloserWork(q: Proc): nat {
    match q
    case Closer(at) =>
      (match at
       case StoppingTurn => 3
       case QueuedForTurn => 2
       case Deleting => 1
       case _ => 0)
    case _ => 0
  }

  /** How many more steps the lock holder and the closing call can take before the task is closed. */
  function Work(s: State): nat {
    (if s.lock.Some? && s.lock.value < |s.procs| then TurnWork(s.procs[s.lock.value]) else 0)
    + (if s.closer.Some? && s.closer.value < |s.procs| then CloserWork(s.procs[s.closer.value]) else 0)
  }

  /** The actions of the lock holder and of the closing call. */
  predicate Advances(s: State, a: Action) {
    match a
    case ArriveTurn(_) => false
    case ArriveClose => false
    case EnterClose(_) => false
    case EventSeen(_) => false
    case WaitingCloserCancelled(_) => false
    case Announced(_) => false
    case _ => Enabled(s, a)
  }

  lemma AdvancingTurnUsesUpWork(s: State, a: Action)
    requires Core(s) && s.state.CLOSING? && TurnAction(a) && Enabled(s, a) && !a.ArriveTurn?
    ensures Work(Next(s, a)) < Work(s) && Next(s, a).state.CLOSING?
  {
    assert ProcOk(s, a.p) && ProcOk(s, s.closer.value);
  }

  lemma AdvancingCloserUsesUpWork(s: State, a: Action)
    requires Core(s) && s.state.CLOSING? && Enabled(s, a) && (a.TakeTurnLock? || a.TurnStopped? || a.ThreadDeleted?)
    ensures Work(Next(s, a)) < Work(s)
  {
    assert ProcOk(s, a.p) && ProcOk(s, s.closer.value);
    if s.waiters != [] {
      assert s.waiters[0] in s.waiters;
      assert ProcOk(s, s.waiters[0]);
    }
    if s.lock.Some? {
      assert ProcOk(s, s.lock.value);
    }
  }

  /**
   * While the task is closing, at most `Work(s)` steps of the lock holder and the closing call remain:
   * each of them uses up work and nothing else adds any. In a closing task that is at most 7.
   */
  lemma ClosingIsBounded(s: State, a: Action)
    requires Proper(s) && s.state.CLOSING? && !a.CloserCancelled?
    ensures Advances(s, a) ==> Work(Step(s, a)) < Work(s)
    ensures !Advances(s, a) ==> Work(Step(s, a)) == Work(s)
    ensures Work(s) <= 7
  {
    ProperIsCore(s);
    assert ProcOk(s, s.closer.value);
    if Advances(s, a) {
      if TurnAction(a) {
        AdvancingTurnUsesUpWork(s, a);
      } else {
        AdvancingCloserUsesUpWork(s, a);
      }
    } else if Enabled(s, a) && !a.ArriveTurn? && !a.ArriveClose? {
      assert ProcOk(s, a.p);
    }
  }

  /** Whoever can move next, short of a cancellation. */
  function Mover(s: State): Action
    requires s.closer.Some?
  {
    if s.lock.Some? && s.lock != s.closer && s.lock.value < |s.procs| && s.procs[s.lock.value].Turn? then
      match s.procs[s.lock.value].turn
      case Starting => ProviderAnswers(s.lock.value)
      case Streaming => StreamEnds(s.lock.value, true)
      case Interrupting => InterruptDone(s.lock.value, true)
      case Rejecting => RejectionDone(s.lock.value)
      case _ => FinalInterruptDone(s.lock.value)
    else if CloserIs(s, s.closer.value, StoppingTurn) then TurnStopped(s.closer.value)
    else if CloserIs(s, s.closer.value, Deleting) then ThreadDeleted(s.closer.value)
    else TakeTurnLock(s.closer.value)
  }

  lemma MoverMoves(s: State)
    requires Core(s) && s.state.CLOSING? && !LockLeaked(s)
    ensures var a := Mover(s);
            !a.CloserCancelled? && Enabled(s, a) && Core(Next(s, a)) && Work(Next(s, a)) < Work(s)
            && !LockLeaked(Next(s, a)) && !Next(s, a).state.OPEN?
  {
    var a := Mover(s);
    var c := s.closer.value;
    assert ProcOk(s, c);
    if s.lock.Some? {
      assert ProcOk(s, s.lock.value);
    }
    assert CloserIs(s, c, QueuedForTurn) ==> c in s.waiters && s.waiters == [c];
    StepKeepsCore(s, a);
    if TurnAction(a) {
      AdvancingTurnUsesUpWork(s, a);
    } else {
      AdvancingCloserUsesUpWork(s, a);
    }
  }

  ghost predicate CanClose(s: State) {
    exists acts: seq<Action> :: (forall a | a in acts :: !a.CloserCancelled?) && Run(s, acts).state.CLOSED?
  }

  lemma {:induction false} UnleakedCanClose(s: State)
    requires Core(s) && !s.state.OPEN? && !LockLeaked(s)
    ensures CanClose(s)
    decreases Work(s)
  {
    if s.state.CLOSED? {
      assert Run(s, []).state.CLOSED?;
    } else {
      MoverMoves(s);
      var a := Mover(s);
      var t := Next(s, a);
      UnleakedCanClose(t);
      var acts: seq<Action> :| (forall b | b in acts :: !b.CloserCancelled?) && Run(t, acts).state.CLOSED?;
      assert ([a] + acts)[1..] == acts;
      assert Run(s, [a] + acts) == Run(t, acts);
    }
  }

  lemma {:induction false} LeakedNeverCloses(s: State, acts: seq<Action>)
    requires Core(s) && LockLeaked(s) && forall a | a in acts :: !a.CloserCancelled?
    ensures !Run(s, acts).state.CLOSED? && Run(s, acts).lock == s.lock
    decreases |acts|
  {
    if acts != [] {
      var a := acts[0];
      assert a in acts;
      StepKeepsCore(s, a);
      assert ProcOk(s, s.lock.value);
      if Enabled(s, a) && !a.ArriveTurn? && !a.ArriveClose? {
        assert ProcOk(s, a.p);
      }
      assert LockLeaked(Step(s, a)) && Step(s, a).lock == s.lock;
      LeakedNeverCloses(Step(s, a), acts[1..]);
    }
  }

  /**
   * A closing task can still be closed exactly when its turn lock has not leaked: when no stream has
   * been cancelled during the interrupt of its own cleanup.
   */
  lemma ClosesExactlyWhenNotLeaked(s: State)
    requires Proper(s) && s.state.CLOSING?
    ensures CanClose(s) <==> !LockLeaked(s)
  {
    ProperIsCore(s);
    if LockLeaked(s) {
      forall acts: seq<Action> | forall a | a in acts :: !a.CloserCancelled? ensures !Run(s, acts).state.CLOSED? {
        LeakedNeverCloses(s, acts);
      }
    } else {
      UnleakedCanClose(s);
    }
  }

  lemma RunFrom(s: State, acts: seq<Action>, i: nat)
    requires i < |acts|
    ensures Run(s, acts[i..]) == Run(Step(s, acts[i]), acts[i + 1..])
  {
    assert acts[i..][1..] == acts[i + 1..];
  }

  /** A stream runs, breaks and is interrupted without a terminal status. */
  lemma BrokenStream()
    ensures var s := Run(INITIAL, [ArriveTurn(Stream), ProviderAnswers(0), StreamBreaks(0), InterruptDone(0, false)]);
            s == INITIAL.(lock := Some(0), active := Some(0), registered := {0}, procs := [Turn(Stream, Finalizing)])
  {
    var acts := [ArriveTurn(Stream), ProviderAnswers(0), StreamBreaks(0), InterruptDone(0, false)];
    var s1 := Step(INITIAL, acts[0]); RunFrom(INITIAL, acts, 0);
    assert s1 == INITIAL.(lock := Some(0), procs := [Turn(Stream, Starting)]);
    var s2 := Step(s1, acts[1]); RunFrom(s1, acts, 1);
    var s3 := Step(s2, acts[2]); RunFrom(s2, acts, 2);
    RunFrom(s3, acts, 3);
    assert acts[0..] == acts;
  }

  lemma {:induction false} RunConcat(s: State, a: seq<Action>, b: seq<Action>)
    ensures Run(s, a + b) == Run(Run(s, a), b)
    decreases |a|
  {
    if a == [] {
      assert a + b == b;
    } else {
      assert (a + b)[1..] == a[1..] + b;
      RunConcat(Step(s, a[0]), a[1..], b);
    }
  }

  /** Its last interrupt is cancelled, and then the task is to be closed. */
  lemma BrokenStreamLeaks(s: State)
    requires s == INITIAL.(lock := Some(0), active := Some(0), registered := {0}, procs := [Turn(Stream, Finalizing)])
    ensures var t := Run(s, [FinalInterruptCancelled(0), ArriveClose]);
            t.state.CLOSING? && LockLeaked(t) && !t.closerCancelled
  {
    var acts := [FinalInterruptCancelled(0), ArriveClose];
    var t := Step(s, acts[0]); RunFrom(s, acts, 0);
    assert t == s.(procs := [Turn(Stream, Leaked)]);
    RunFrom(t, acts, 1);
    assert acts[0..] == acts;
  }

  /** A stream cancelled twice, the second time during the interrupt of its `finally`, leaks the lock. */
  lemma LeakIsReachable()
    ensures exists s :: Proper(s) && s.state.CLOSING? && LockLeaked(s)
  {
    var front := [ArriveTurn(Stream), ProviderAnswers(0), StreamBreaks(0), InterruptDone(0, false)];
    var back := [FinalInterruptCancelled(0), ArriveClose];
    BrokenStream();
    BrokenStreamLeaks(Run(INITIAL, front));
    RunConcat(INITIAL, front, back);
    var t := Run(INITIAL, front + back);
    assert Proper(t);
  }

  /** A closing call cancelled while a turn streams declares the task CLOSED under the running turn. */
  lemma CancelledCloserClosesUnderATurn()
    ensures exists s :: Reachable(s) && s.closerCancelled && s.state.CLOSED? && s.registered != {} && s.lock.Some?
  {
    var acts := [ArriveTurn(Invoke), ProviderAnswers(0), ArriveClose, CloserCancelled(1)];
    var s1 := Step(INITIAL, acts[0]); RunFrom(INITIAL, acts, 0);
    var s2 := Step(s1, acts[1]); RunFrom(s1, acts, 1);
    var s3 := Step(s2, acts[2]); RunFrom(s2, acts, 2);
    var s4 := Step(s3, acts[3]); RunFrom(s3, acts, 3);
    assert acts[0..] == acts;
    assert s4 == Run(INITIAL, acts) && 0 in s4.registered;
    assert Reachable(s4) && s4.closerCancelled && s4.state.CLOSED? && s4.lock.Some?;
  }

  // ---------- What single steps come to ----------

  /** No turn ever waits for the lock, since a newcomer that would have to is refused. */
  lemma NoTurnWaits(s: State)
    requires Core(s)
    ensures s.state.OPEN? ==> s.waiters == []
  {
    if s.waiters != [] {
      assert s.waiters[0] in s.waiters;
      assert ProcOk(s, s.waiters[0]);
    }
  }

  /** Only the turn that holds the lock can have a run. */
  lemma HolderOnly(s: State, p: nat)
    requires Core(s) && p < |s.procs| && Holding(s.procs[p])
    ensures s.registered <= {p} && s.lock == Some(p)
  {
    assert ProcOk(s, p);
    forall q | q in s.registered ensures q == p {
      assert ProcOk(s, q);
    }
  }

  lemma NobodyHolds(s: State)
    requires Core(s) && s.lock.None?
    ensures s.registered == {} && s.active.None?
  {
    forall q: nat | q < |s.procs| ensures q !in s.registered && s.active != Some(q) {
      assert ProcOk(s, q);
    }
  }

  /** Where a turn leaves its events: a stream without a terminal status interrupts once more, others are over. */
  lemma LeavingDecides(s: State, a: Action)
    requires Core(s) && Enabled(s, a) && (a.StreamEnds? || a.InterruptDone?)
    ensures var t := Next(s, a);
            && Core(t)
            && if s.procs[a.p].kind.Stream? && !a.terminal then
                 TurnIs(t, a.p, Finalizing) && t.lock == s.lock && t.registered == s.registered
               else
                 TurnIs(t, a.p, TurnOver) && t.lock.None? && t.registered == {} && t.active.None?
  {
    StepKeepsCore(s, a);
    if !(s.procs[a.p].kind.Stream? && !a.terminal) {
      NobodyHolds(Next(s, a));
    }
  }

  lemma EnteringSeesClosed(s: State, p: nat)
    requires Core(s) && Enabled(s, EnterClose(p))
    ensures var t := Next(s, EnterClose(p));
            Core(t) && !t.state.OPEN? && (t.procs[p] == Closer(Returned) ==> t.state.CLOSED?)
  {
    StepKeepsCore(s, EnterClose(p));
    assert ProcOk(Next(s, EnterClose(p)), p);
  }

  /** A cancelled call that only waited is in nobody's way. */
  lemma DroppedLeaves(s: State, p: nat)
    requires Core(s) && Enabled(s, WaitingCloserCancelled(p))
    ensures var t := Next(s, WaitingCloserCancelled(p));
            Core(t) && t.state == s.state && t.closeLock != Some(p) && p !in t.closeWaiters
  {
    StepKeepsCore(s, WaitingCloserCancelled(p));
    assert ProcOk(Next(s, WaitingCloserCancelled(p)), p);
  }

  /** The last interrupt of a stream decides whether the task can ever be closed. */
  lemma FinalInterruptDecides(s: State, p: nat, cancelled: bool)
    requires Core(s) && Enabled(s, FinalInterruptDone(p))
    ensures var t := Next(s, if cancelled then FinalInterruptCancelled(p) else FinalInterruptDone(p));
            && Core(t)
            && (!cancelled ==> t.lock.None? && t.registered == {})
            && (cancelled ==> LockLeaked(t) && !CanClose(t))
  {
    var a := if cancelled then FinalInterruptCancelled(p) else FinalInterruptDone(p);
    var t := Next(s, a);
    assert ProcOk(s, p);
    StepKeepsCore(s, a);
    if cancelled {
      forall acts: seq<Action> | forall b | b in acts :: !b.CloserCancelled? ensures !Run(t, acts).state.CLOSED? {
        LeakedNeverCloses(t, acts);
      }
    } else {
      NobodyHolds(t);
    }
  }

  lemma ArrivalCloses(s: State)
    requires Core(s)
    ensures var t := Next(s, ArriveClose);
            && !t.state.OPEN? && t.closer.Some?
            && (s.state.OPEN? ==> t.state.CLOSING? && t.closer == Some(|s.procs|))
            && (!s.state.OPEN? ==> t.state == s.state && t.closer == s.closer)
  {
    if s.closeLock.Some? {
      assert ProcOk(s, s.closeLock.value);
    } else if s.closeWaiters != [] {
      assert s.closeWaiters[0] in s.closeWaiters;
      assert ProcOk(s, s.closeWaiters[0]);
    }
  }

  /** Whoever waits for the turn lock is the closing call, and deletes the thread once it has the lock. */
  lemma WaiterDeletes(s: State, p: nat)
    requires Core(s) && Enabled(s, TakeTurnLock(p))
    ensures var t := Next(s, TakeTurnLock(p));
            && t.procs[p] == Closer(Deleting) && t.lock == Some(p) && t.closer == Some(p)
            && t.threadDeleted && t.registered == {}
  {
    assert s.waiters[0] in s.waiters;
    assert ProcOk(s, p);
    NobodyHolds(s);
  }

  /** The step that deletes the last traces leaves a closed task with nothing running. */
  lemma DeletedIsClosed(s: State, p: nat)
    requires Core(s) && Enabled(s, ThreadDeleted(p))
    ensures var t := Next(s, ThreadDeleted(p));
            && Core(t) && t.state.CLOSED? && t.lock.None? && t.registered == {} && t.closedEvents == 1
            && t.workspaceRemoved && !t.listed && t.closeEvent
  {
    StepKeepsCore(s, ThreadDeleted(p));
    NobodyHolds(Next(s, ThreadDeleted(p)));
  }

  predicate TurnHoldsLock(s: State) {
    s.lock.Some? && s.lock.value < |s.procs| && s.procs[s.lock.value].Turn?
  }

  predicate ClosedUnderATurn(s: State) {
    s.state.CLOSED? && TurnHoldsLock(s)
  }

  /**
   * A cancelled closing call declares the task closed under a turn exactly when a turn has the lock and the
   * call was still stopping that turn or waiting for the lock.
   */
  lemma CancelledCloserExactly(s: State, p: nat)
    requires Core(s) && Enabled(s, CloserCancelled(p))
    ensures ClosedUnderATurn(Next(s, CloserCancelled(p)))
            <==> TurnHoldsLock(s) && (s.procs[p].closer.StoppingTurn? || s.procs[p].closer.QueuedForTurn?)
  {
    assert ProcOk(s, p);
  }
}
