/** The task object: its fields, and the code of its coroutines cut at their awaits. */
module CodexTask {
  import opened Options
  import opened TaskProtocol

  datatype Reply = NotFound | Busy | Waits | Starts

  /**
   * `procs` stands for the suspended coroutines, each named by its place there; `closer` and
   * `closerCancelled` are history. Every method takes one transition of the protocol and keeps its
   * invariant, which the cancellation of the closing call is the one thing to break.
   */
  class CodexTask {
    var state: TaskState
    var lock: Option<nat>
    var waiters: seq<nat>
    var closeLock: Option<nat>
    var closeWaiters: seq<nat>
    var closeEvent: bool
    var activeRun: Option<nat>
    var registered: set<nat>
    var listed: bool
    var threadDeleted: bool
    var workspaceRemoved: bool
    var closedEvents: nat
    var closer: Option<nat>
    var closerCancelled: bool
    var procs: seq<Proc>

    ghost function View(): State
      reads this
    {
      State(state, lock, waiters, closeLock, closeWaiters, closeEvent, activeRun, registered, listed, threadDeleted,
            workspaceRemoved, closedEvents, closer, closerCancelled, procs)
    }

    ghost predicate Valid()
      reads this
    {
      closerCancelled || Core(View())
    }

    constructor ()
      ensures Valid() && View() == INITIAL
    {
      state, lock, waiters, closeLock, closeWaiters, closeEvent := OPEN, None, [], None, [], false;
      activeRun, registered, listed, threadDeleted, workspaceRemoved := None, {}, true, false, false;
      closedEvents, closer, closerCancelled, procs := 0, None, false, [];
    }

    /** `ainvoke` or `astream` up to the call of the provider, the turn lock being free or not. */
    method ArriveTurn(kind: Kind) returns (reply: Reply)
      requires Valid()
      modifies this
      ensures Valid() && View() == Next(old(View()), Action.ArriveTurn(kind))
      ensures registered == old(registered) && (!closerCancelled ==> !reply.Waits?)
      ensures reply.NotFound? <==> !old(state).OPEN?
      ensures reply.Busy? <==> old(state).OPEN? && old(lock).Some?
      ensures reply.Starts? ==> lock == Some(|old(procs)|)
    {
      ghost var before := View();
      if !closerCancelled {
        StepKeepsCore(before, Action.ArriveTurn(kind));
        NoTurnWaits(before);
      }
      if state != OPEN { return NotFound; }
      if lock.Some? { return Busy; }
      if waiters != [] {
        waiters, procs := waiters + [|procs|], procs + [Turn(kind, Queued)];
        return Waits;
      }
      lock, procs := Some(|procs|), procs + [Turn(kind, Starting)];
      reply := Starts;
    }

    /** `_start_turn` after the provider's answer: the state is looked at again before a run is made. */
    method ProviderAnswers(p: nat) returns (accepted: bool)
      requires Valid() && Enabled(View(), Action.ProviderAnswers(p))
      modifies this
      ensures Valid() && View() == Next(old(View()), Action.ProviderAnswers(p))
      ensures accepted == state.OPEN? && state == old(state)
      ensures registered == old(registered) + if accepted then {p} else {}
      ensures !closerCancelled && accepted ==> registered == {p} && lock == Some(p)
    {
      if !closerCancelled {
        StepKeepsCore(View(), Action.ProviderAnswers(p));
        HolderOnly(View(), p);
      }
      accepted := state == OPEN;
      if accepted {
        procs := procs[p := procs[p].(turn := Streaming)];
        activeRun, registered := Some(p), registered + {p};
      } else {
        procs := procs[p := procs[p].(turn := Rejecting)];
      }
    }

    /** A coroutine is suspended at another place. */
    method MoveTo(p: nat, q: Proc)
      requires p < |procs|
      modifies this`procs
      ensures View() == TaskProtocol.Move(old(View()), p, q)
    {
      procs := procs[p := q];
    }

    /** A turn forgets its run and lets go of the lock. */
    method FinishTurn(p: nat)
      requires p < |procs| && procs[p].Turn?
      modifies this
      ensures View() == TaskProtocol.FinishTurn(old(View()), p)
      ensures p !in registered && lock.None? && activeRun.None?
    {
      procs := procs[p := procs[p].(turn := TurnOver)];
      activeRun, registered, lock := None, registered - {p}, None;
    }

    method SetupFails(p: nat)
      requires Valid() && Enabled(View(), Action.SetupFails(p))
      modifies this
      ensures Valid() && View() == Next(old(View()), Action.SetupFails(p))
      ensures registered == old(registered) && lock == old(lock)
    {
      if !closerCancelled {
        StepKeepsCore(View(), Action.SetupFails(p));
      }
      procs := procs[p := procs[p].(turn := Rejecting)];
    }

    /** A turn without a run leaves: the provider failed, or its rejected handle has been interrupted. */
    method Abandon(p: nat, a: Action)
      requires Valid() && (a == Action.ProviderFails(p) || a == Action.RejectionDone(p)) && Enabled(View(), a)
      modifies this
      ensures Valid() && View() == Next(old(View()), a)
      ensures lock.None? && registered == old(registered) && (!closerCancelled ==> registered == {})
    {
      if !closerCancelled {
        StepKeepsCore(View(), a);
        NobodyHolds(Next(View(), a));
      }
      if procs[p].kind == Stream { activeRun := None; }
      procs, lock := procs[p := procs[p].(turn := TurnOver)], None;
    }

    method StreamBreaks(p: nat)
      requires Valid() && Enabled(View(), Action.StreamBreaks(p))
      modifies this
      ensures Valid() && View() == Next(old(View()), Action.StreamBreaks(p))
      ensures registered == old(registered) && lock == old(lock)
    {
      if !closerCancelled {
        StepKeepsCore(View(), Action.StreamBreaks(p));
      }
      procs := procs[p := procs[p].(turn := Interrupting)];
    }

    /** The `finally` of a turn, reached from its event loop or from the interrupt of a broken turn. */
    method LeaveEvents(p: nat, terminal: bool, a: Action)
      requires Valid() && Enabled(View(), a)
      requires a == Action.StreamEnds(p, terminal) || a == Action.InterruptDone(p, terminal)
      modifies this
      ensures Valid() && View() == Next(old(View()), a)
      ensures !closerCancelled ==>
                if old(procs)[p].kind.Stream? && !terminal then
                  TurnIs(View(), p, Finalizing) && lock == old(lock) && registered == old(registered)
                else
                  TurnIs(View(), p, TurnOver) && lock.None? && registered == {} && activeRun.None?
    {
      if !closerCancelled {
        LeavingDecides(View(), a);
      }
      if procs[p].kind == Stream && !terminal {
        MoveTo(p, procs[p].(turn := Finalizing));
      } else {
        FinishTurn(p);
      }
    }

    /** The last interrupt of a stream: only if it is not itself cancelled is the lock released. */
    method FinalInterrupt(p: nat, cancelled: bool)
      requires Valid() && Enabled(View(), FinalInterruptDone(p))
      modifies this
      ensures Valid()
      ensures View() == Next(old(View()), if cancelled then FinalInterruptCancelled(p) else FinalInterruptDone(p))
      ensures !closerCancelled && !cancelled ==> lock.None? && registered == {}
      ensures !closerCancelled && cancelled ==> LockLeaked(View()) && !CanClose(View())
    {
      if !closerCancelled {
        FinalInterruptDecides(View(), p, cancelled);
      }
      if cancelled {
        MoveTo(p, procs[p].(turn := Leaked));
      } else {
        FinishTurn(p);
      }
    }

    /** After any call of `close()` the task is no longer open, and the first one does the closing. */
    method ArriveClose()
      requires Valid()
      modifies this
      ensures Valid() && View() == Next(old(View()), Action.ArriveClose)
      ensures !closerCancelled ==> !state.OPEN? && closer.Some?
      ensures !closerCancelled && old(state).OPEN? ==> state.CLOSING? && closer == Some(|old(procs)|)
      ensures !old(state).OPEN? ==> state == old(state) && closer == old(closer)
    {
      if !closerCancelled {
        StepKeepsCore(View(), Action.ArriveClose);
        ArrivalCloses(View());
      }
      var p := |procs|;
      procs := procs + [Closer(QueuedToEnter)];
      if closeLock == None && closeWaiters == [] {
        Close(p);
      } else {
        closeWaiters := closeWaiters + [p];
      }
    }

    method EnterClose(p: nat)
      requires Valid() && Enabled(View(), Action.EnterClose(p))
      modifies this
      ensures Valid() && View() == Next(old(View()), Action.EnterClose(p))
      ensures !closerCancelled ==> !state.OPEN? && (procs[p] == Closer(Returned) ==> state.CLOSED?)
    {
      if !closerCancelled {
        EnteringSeesClosed(View(), p);
      }
      closeWaiters := closeWaiters[1..];
      Close(p);
    }

    /** What `close()` does under the close lock and on to its next await. */
    method Close(p: nat)
      requires p < |procs|
      modifies this
      ensures View() == TaskProtocol.Close(old(View()), p)
      ensures !state.OPEN? && registered == old(registered) && |procs| == |old(procs)|
      ensures old(state).OPEN? ==> state.CLOSING? && closer == Some(p)
      ensures !old(state).OPEN? ==> state == old(state) && closer == old(closer)
      ensures procs[p] == Closer(Returned) ==> state.CLOSED? || closeEvent
      ensures procs[p] == Closer(AwaitingEvent) ==> closeLock == Some(p)
    {
      match state {
        case CLOSED =>
          procs := procs[p := Closer(Returned)];
        case CLOSING =>
          if closeEvent {
            procs := procs[p := Closer(Returned)];
          } else {
            procs, closeLock := procs[p := Closer(AwaitingEvent)], Some(p);
          }
        case OPEN =>
          state, closer := CLOSING, Some(p);
          if activeRun.Some? {
            procs := procs[p := Closer(StoppingTurn)];
          } else {
            SeekTurnLock(p);
          }
      }
    }

    method SeekTurnLock(p: nat)
      requires p < |procs|
      modifies this
      ensures View() == TaskProtocol.SeekTurnLock(old(View()), p)
      ensures if old(lock).None? && old(waiters) == [] then lock == Some(p) && threadDeleted
              else lock == old(lock) && threadDeleted == old(threadDeleted) && p in waiters
    {
      if lock == None && waiters == [] {
        StartDeleting(p);
      } else {
        procs, waiters := procs[p := Closer(QueuedForTurn)], waiters + [p];
      }
    }

    method StartDeleting(p: nat)
      requires p < |procs|
      modifies this
      ensures View() == TaskProtocol.StartDeleting(old(View()), p)
      ensures lock == Some(p) && threadDeleted
    {
      procs, lock, threadDeleted := procs[p := Closer(Deleting)], Some(p), true;
    }

    /** The active turn has been interrupted, or could not be: `close()` goes for the turn lock. */
    method TurnStopped(p: nat)
      requires Valid() && Enabled(View(), Action.TurnStopped(p))
      modifies this
      ensures Valid() && View() == Next(old(View()), Action.TurnStopped(p))
      ensures registered == old(registered) && (threadDeleted && !old(threadDeleted) ==> lock == Some(p))
    {
      if !closerCancelled {
        StepKeepsCore(View(), Action.TurnStopped(p));
      }
      SeekTurnLock(p);
    }

    method TakeTurnLock(p: nat)
      requires Valid() && Enabled(View(), Action.TakeTurnLock(p))
      modifies this
      ensures Valid() && View() == Next(old(View()), Action.TakeTurnLock(p))
      ensures !closerCancelled ==>
                && procs[p] == Closer(Deleting) && lock == Some(p) && closer == Some(p)
                && threadDeleted && registered == {}
    {
      if !closerCancelled {
        StepKeepsCore(View(), Action.TakeTurnLock(p));
        WaiterDeletes(View(), p);
      }
      waiters := waiters[1..];
      if procs[p].Closer? {
        StartDeleting(p);
      } else if state == OPEN {
        procs, lock := procs[p := procs[p].(turn := Starting)], Some(p);
      } else {
        procs := procs[p := procs[p].(turn := TurnOver)];
      }
    }

    /** The provider thread is gone: the workspace, the registry entry, the lock, and then the state. */
    method ThreadDeleted(p: nat)
      requires Valid() && Enabled(View(), Action.ThreadDeleted(p))
      modifies this
      ensures Valid() && View() == Next(old(View()), Action.ThreadDeleted(p))
      ensures state.CLOSED? && lock.None? && workspaceRemoved && !listed && closeEvent
      ensures !closerCancelled ==> registered == {} && closedEvents == 1
    {
      if !closerCancelled {
        DeletedIsClosed(View(), p);
      }
      Discard();
      Seal(p);
    }

    method Discard()
      modifies this`workspaceRemoved, this`listed, this`lock
      ensures View() == old(View()).(workspaceRemoved := true, listed := false, lock := None)
    {
      workspaceRemoved, listed, lock := true, false, None;
    }

    /** The `finally` of the closing call, up to the dispatch of TASK_CLOSED. */
    method Seal(p: nat)
      requires p < |procs|
      modifies this
      ensures View() == TaskProtocol.Seal(old(View()), p)
      ensures state.CLOSED? && closeEvent && closedEvents == old(closedEvents) + 1
    {
      state, closeEvent := CLOSED, true;
      closedEvents := closedEvents + 1;
      procs := procs[p := Closer(Announcing)];
    }

    /** The last await of a `close()`: its event was dispatched, or the event it waited for is set. */
    method ReturnFromClose(p: nat, a: Action)
      requires Valid() && (a == Announced(p) || a == EventSeen(p)) && Enabled(View(), a)
      modifies this
      ensures Valid() && View() == Next(old(View()), a)
      ensures !closerCancelled ==> state.CLOSED? && closedEvents == 1
    {
      if !closerCancelled {
        StepKeepsCore(View(), a);
        assert ProcOk(Next(View(), a), p);
      }
      if procs[p].closer == AwaitingEvent { closeLock := None; }
      procs := procs[p := Closer(Returned)];
    }

    /** Cancellation of a `close()` that waits for another one leaves the close lock or its queue. */
    method CancelWaitingClose(p: nat)
      requires Valid() && Enabled(View(), WaitingCloserCancelled(p))
      modifies this
      ensures Valid() && View() == Next(old(View()), WaitingCloserCancelled(p))
      ensures !closerCancelled ==> state == old(state) && closeLock != Some(p) && p !in closeWaiters
    {
      if !closerCancelled {
        DroppedLeaves(View(), p);
      }
      if procs[p].closer == AwaitingEvent {
        closeLock := None;
      } else {
        closeWaiters := Without(closeWaiters, p);
      }
      procs := procs[p := Closer(Dropped)];
    }

    /** Cancellation of the closing call itself: its `finally` seals the task whatever it waited for. */
    method CancelClosing(p: nat)
      requires Valid() && Enabled(View(), CloserCancelled(p))
      modifies this
      ensures Valid() && View() == Next(old(View()), CloserCancelled(p))
      ensures !old(closerCancelled) ==>
                (ClosedUnderATurn(View()) <==>
                  && TurnHoldsLock(old(View()))
                  && (old(procs)[p].closer.StoppingTurn? || old(procs)[p].closer.QueuedForTurn?))
    {
      if !closerCancelled {
        CancelledCloserExactly(View(), p);
      }
      Abort(p);
    }

    method Abort(p: nat)
      requires Enabled(View(), CloserCancelled(p))
      modifies this
      ensures View() == CancelCloser(old(View()), p)
    {
      closerCancelled := true;
      if procs[p].closer == Announcing {
        MoveTo(p, Closer(Dropped));
      } else {
        GiveUpWaiting(p);
        Seal(p);
      }
    }

    /** The closing call leaves the queue of the turn lock, or the lock. */
    method GiveUpWaiting(p: nat)
      requires p < |procs| && procs[p].Closer?
      modifies this`waiters, this`lock
      ensures View() == old(View()).(
                waiters := if procs[p].closer.QueuedForTurn? then Without(old(waiters), p) else old(waiters),
                lock := if procs[p].closer.Deleting? then None else old(lock))
    {
      if procs[p].closer == QueuedForTurn { waiters := Without(waiters, p); }
      if procs[p].closer == Deleting { lock := None; }
    }
  }
}
