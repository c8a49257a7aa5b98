/**
 * Structured output: bounded attempts, each a provider turn whose events are renumbered into one logical
 * stream, until an output validates. What the provider does in each attempt is an input.
 */
module StructuredLoop {
  import opened Options
  import T = TurnRun

  type Value = string

  /** The provider in one attempt: its turn, and whether the next turn can be started. */
  datatype Attempt = Attempt(notifications: seq<T.Notification>, ending: T.Ending, retryStarts: bool)

  /**
   * What does not change: `thread` is whether the provider's thread can be used again, `attempt(k)` what the
   * provider does in attempt number `k`, `validate` the schema's verdict on an output.
   */
  datatype Env = Env(maxAttempts: nat, thread: bool, attempt: nat -> Attempt, validate: string -> Option<Value>)

  datatype Kind = Started | Forwarded(kind: T.Kind) | ValidationFailed | RetryScheduled | Failed | Completed

  datatype Event = Event(kind: Kind, sequence: nat, attempt: nat, result: Option<Value>)

  datatype Outcome =
    | Returned
    | Exhausted
    | TurnRaised
    | MissingResult
    | ThreadMissing
    | RetryRefused
    | Stopped

  /** The events of a stream and how it ends. */
  datatype Stream = Stream(events: seq<Event>, outcome: Outcome)

  // ---------- The stream ----------

  function Turn(env: Env, k: nat): T.State {
    T.Run("", env.attempt(k).notifications, env.attempt(k).ending)
  }

  predicate IsForwarded(k: T.Kind) {
    !k.OutputTextDelta? && !k.InvocationCompleted? && !k.InvocationStarted?
  }

  /** The provider's events under logical numbers, without those the logical stream has its own of. */
  function Forward(trace: seq<T.Event>, sequence: nat, attempt: nat): seq<Event> {
    if trace == [] then []
    else if IsForwarded(trace[0].kind) then
      [Event(Forwarded(trace[0].kind), sequence, attempt, None)] + Forward(trace[1..], sequence + 1, attempt)
    else Forward(trace[1..], sequence, attempt)
  }

  function Verdict(env: Env, k: nat): Option<Value> {
    if Turn(env, k).result.Some? then env.validate(Turn(env, k).result.value.output) else None
  }

  /** What an attempt says after the provider's events; `n` is the next number. */
  function Judged(env: Env, k: nat, n: nat): seq<Event> {
    match Verdict(env, k)
    case Some(v) => [Event(Completed, n, k, Some(v))]
    case None =>
      [Event(ValidationFailed, n, k, None),
       if k >= env.maxAttempts then Event(Failed, n + 1, k, None) else Event(RetryScheduled, n + 1, k, None)]
  }

  /** The events of one attempt. */
  function Said(env: Env, k: nat, n: nat): seq<Event> {
    var turn := Turn(env, k);
    if !turn.outcome.Returned? then []
    else if turn.result.None? then [Event(Failed, n, k, None)]
    else Forward(turn.trace, n, k) + Judged(env, k, n + |Forward(turn.trace, n, k)|)
  }

  /** How the stream ends after an attempt, unless it goes on. */
  function Halts(env: Env, k: nat): (r: Option<Outcome>)
    ensures r.None? ==> k < env.maxAttempts
  {
    if !Turn(env, k).outcome.Returned? then Some(TurnRaised)
    else if Turn(env, k).result.None? then Some(MissingResult)
    else if Verdict(env, k).Some? then Some(Returned)
    else if k >= env.maxAttempts then Some(Exhausted)
    else if !env.thread then Some(ThreadMissing)
    else if !env.attempt(k).retryStarts then Some(RetryRefused)
    else None
  }

  /** The stream from attempt `k` on. */
  function Attempts(env: Env, k: nat, n: nat): Stream
    decreases env.maxAttempts - k
  {
    match Halts(env, k)
    case Some(o) => Stream(Said(env, k, n), o)
    case None =>
      var rest := Attempts(env, k + 1, n + |Said(env, k, n)|);
      Stream(Said(env, k, n) + rest.events, rest.outcome)
  }

  function Logical(env: Env): Stream {
    var rest := Attempts(env, 1, 1);
    Stream([Event(Started, 0, 0, None)] + rest.events, rest.outcome)
  }

  // ---------- Numbers ----------

  predicate NumberedFrom(events: seq<Event>, n: nat) {
    forall i | 0 <= i < |events| :: events[i].sequence == n + i
  }

  lemma {:induction false} ForwardIsNumbered(trace: seq<T.Event>, n: nat, k: nat)
    ensures NumberedFrom(Forward(trace, n, k), n)
    ensures forall e | e in Forward(trace, n, k) :: e.kind.Forwarded? && e.result == None
  {
    if trace != [] {
      ForwardIsNumbered(trace[1..], if IsForwarded(trace[0].kind) then n + 1 else n, k);
    }
  }

  lemma NumberedConcat(a: seq<Event>, b: seq<Event>, n: nat)
    requires NumberedFrom(a, n) && NumberedFrom(b, n + |a|)
    ensures NumberedFrom(a + b, n)
  {
  }

  lemma SaidIsNumbered(env: Env, k: nat, n: nat)
    ensures NumberedFrom(Said(env, k, n), n)
  {
    var forwarded := Forward(Turn(env, k).trace, n, k);
    ForwardIsNumbered(Turn(env, k).trace, n, k);
    NumberedConcat(forwarded, Judged(env, k, n + |forwarded|), n);
  }

  lemma {:induction false} AttemptsAreNumbered(env: Env, k: nat, n: nat)
    ensures NumberedFrom(Attempts(env, k, n).events, n)
    decreases env.maxAttempts - k
  {
    SaidIsNumbered(env, k, n);
    if Halts(env, k).None? {
      var m := n + |Said(env, k, n)|;
      AttemptsAreNumbered(env, k + 1, m);
      NumberedConcat(Said(env, k, n), Attempts(env, k + 1, m).events, n);
    }
  }

  /** Whatever the provider does, the logical stream is numbered 0, 1, 2, … */
  lemma LogicalNumbers(env: Env)
    ensures forall i | 0 <= i < |Logical(env).events| :: Logical(env).events[i].sequence == i
  {
    AttemptsAreNumbered(env, 1, 1);
    NumberedConcat([Event(Started, 0, 0, None)], Attempts(env, 1, 1).events, 0);
  }

  // ---------- Outcomes ----------

  /** A turn that the provider completed without a failure. */
  predicate TurnOk(env: Env, k: nat) {
    var a := env.attempt(k);
    !T.SomeFails(a.notifications) && a.ending.StreamEnds? && T.Completions(a.notifications) > 0
  }

  /** A turn returns exactly when the provider completed it, and then there is a result. */
  lemma TurnsReturn(env: Env, k: nat)
    ensures Turn(env, k).outcome.Returned? <==> TurnOk(env, k)
    ensures TurnOk(env, k) ==> Turn(env, k).result.Some? && T.NoFailure(Turn(env, k).trace)
  {
    T.ReturnsExactly("", env.attempt(k).notifications, env.attempt(k).ending);
  }

  /** The attempt the stream stops at. */
  function Last(env: Env, k: nat): (r: nat)
    ensures k <= r
    ensures k <= env.maxAttempts ==> r <= env.maxAttempts
    decreases env.maxAttempts - k
  {
    if Halts(env, k).None? then Last(env, k + 1) else k
  }

  /** It is the first one that does not go on, and whatever came before it gave an invalid output. */
  lemma {:induction false} LastIsFirst(env: Env, k: nat)
    ensures Halts(env, Last(env, k)).Some?
    ensures forall j | k <= j < Last(env, k) :: Halts(env, j).None? && Verdict(env, j).None?
    decreases env.maxAttempts - k
  {
    if Halts(env, k).None? {
      LastIsFirst(env, k + 1);
    }
  }

  function Count(events: seq<Event>, kind: Kind): nat {
    if events == [] then 0 else (if events[0].kind == kind then 1 else 0) + Count(events[1..], kind)
  }

  lemma {:induction false} CountConcat(a: seq<Event>, b: seq<Event>, kind: Kind)
    ensures Count(a + b, kind) == Count(a, kind) + Count(b, kind)
  {
    if a == [] {
      assert a + b == b;
    } else {
      assert (a + b)[1..] == a[1..] + b;
      CountConcat(a[1..], b, kind);
    }
  }

  lemma {:induction false} ForwardCounts(trace: seq<T.Event>, n: nat, k: nat, kind: Kind)
    requires !kind.Forwarded?
    ensures Count(Forward(trace, n, k), kind) == 0
  {
    if trace != [] {
      ForwardCounts(trace[1..], if IsForwarded(trace[0].kind) then n + 1 else n, k, kind);
      if IsForwarded(trace[0].kind) {
        var e := Event(Forwarded(trace[0].kind), n, k, None);
        var rest := Forward(trace[1..], n + 1, k);
        assert ([e] + rest)[1..] == rest;
      }
    }
  }

  /** The logical events of one kind that an attempt says. */
  function SaidCount(env: Env, k: nat, kind: Kind): nat {
    match Halts(env, k)
    case Some(TurnRaised) => 0
    case Some(MissingResult) => if kind.Failed? then 1 else 0
    case Some(Returned) => if kind.Completed? then 1 else 0
    case Some(Exhausted) => if kind.ValidationFailed? || kind.Failed? then 1 else 0
    case _ => if kind.ValidationFailed? || kind.RetryScheduled? then 1 else 0
  }

  lemma SaidCounts(env: Env, k: nat, n: nat, kind: Kind)
    requires !kind.Forwarded?
    ensures Count(Said(env, k, n), kind) == SaidCount(env, k, kind)
  {
    var turn := Turn(env, k);
    if turn.outcome.Returned? && turn.result.Some? {
      var forwarded := Forward(turn.trace, n, k);
      var judged := Judged(env, k, n + |forwarded|);
      ForwardCounts(turn.trace, n, k, kind);
      CountConcat(forwarded, judged, kind);
      CountJudged(env, k, n + |forwarded|, kind);
    }
  }

  lemma CountJudged(env: Env, k: nat, n: nat, kind: Kind)
    requires Turn(env, k).outcome.Returned? && Turn(env, k).result.Some?
    ensures Count(Judged(env, k, n), kind) == SaidCount(env, k, kind)
  {
    var judged := Judged(env, k, n);
    if |judged| == 1 {
      CountOne(judged[0], kind);
      assert judged == [judged[0]];
    } else {
      CountOne(judged[0], kind);
      CountOne(judged[1], kind);
      CountConcat([judged[0]], [judged[1]], kind);
      assert judged == [judged[0]] + [judged[1]];
    }
  }

  lemma CountOne(e: Event, kind: Kind)
    ensures Count([e], kind) == if e.kind == kind then 1 else 0
  {
    assert [e][1..] == [];
  }

  lemma {:induction false} AttemptsCount(env: Env, k: nat, n: nat, kind: Kind)
    requires !kind.Forwarded?
    ensures var last := Last(env, k);
            Count(Attempts(env, k, n).events, kind) == SaidCount(env, last, kind)
              + if kind.ValidationFailed? || kind.RetryScheduled? then last - k else 0
    decreases env.maxAttempts - k
  {
    SaidCounts(env, k, n, kind);
    if Halts(env, k).None? {
      var m := n + |Said(env, k, n)|;
      AttemptsCount(env, k + 1, m, kind);
      CountConcat(Said(env, k, n), Attempts(env, k + 1, m).events, kind);
    }
  }

  /** The end of a stream that has a terminal event. */
  predicate EndsAs(events: seq<Event>, outcome: Outcome, value: Option<Value>) {
    match outcome
    case Returned =>
      events != [] && events[|events| - 1].kind.Completed? && events[|events| - 1].result == value
    case Exhausted => events != [] && events[|events| - 1].kind.Failed?
    case MissingResult => events != [] && events[|events| - 1].kind.Failed?
    case _ => true
  }

  lemma SaidEnds(env: Env, k: nat, n: nat)
    requires Halts(env, k).Some?
    ensures EndsAs(Said(env, k, n), Halts(env, k).value, Verdict(env, k))
  {
  }

  /** The last event is the last one of the last attempt. */
  lemma {:induction false} AttemptsEnd(env: Env, k: nat, n: nat)
    ensures Some(Attempts(env, k, n).outcome) == Halts(env, Last(env, k))
    ensures EndsAs(Attempts(env, k, n).events, Attempts(env, k, n).outcome, Verdict(env, Last(env, k)))
    decreases env.maxAttempts - k
  {
    if Halts(env, k).None? {
      var said, verdict := Said(env, k, n), Verdict(env, Last(env, k));
      var rest := Attempts(env, k + 1, n + |said|);
      AttemptsEnd(env, k + 1, n + |said|);
      assert Attempts(env, k, n) == Stream(said + rest.events, rest.outcome);
      EndsBehind(said, rest.events, rest.outcome, verdict);
    } else {
      SaidEnds(env, k, n);
    }
  }

  lemma EndsBehind(a: seq<Event>, b: seq<Event>, outcome: Outcome, value: Option<Value>)
    requires EndsAs(b, outcome, value)
    ensures EndsAs(a + b, outcome, value)
  {
  }

  lemma LogicalCount(env: Env, kind: Kind)
    requires !kind.Forwarded? && !kind.Started?
    ensures Count(Logical(env).events, kind) == Count(Attempts(env, 1, 1).events, kind)
  {
    CountConcat([Event(Started, 0, 0, None)], Attempts(env, 1, 1).events, kind);
  }

  /** A result is never missing: a turn that returns has one. */
  lemma NoResultIsMissing(env: Env)
    ensures !Logical(env).outcome.MissingResult?
  {
    AttemptsEnd(env, 1, 1);
    TurnsReturn(env, Last(env, 1));
  }

  function Terminals(events: seq<Event>): nat {
    Count(events, Completed) + Count(events, Failed)
  }

  /** The counts of a stream follow from how its last attempt ends. */
  lemma LogicalCounts(env: Env)
    ensures var s, k := Logical(env), Last(env, 1);
            && (Terminals(s.events) == 0 || Terminals(s.events) == 1)
            && (Terminals(s.events) == 1 <==> Halts(env, k) == Some(Returned) || Halts(env, k) == Some(Exhausted))
            && (Terminals(s.events) == 1 ==> Count(s.events, RetryScheduled) == k - 1)
  {
    LastIsFirst(env, 1);
    TurnsReturn(env, Last(env, 1));
    LogicalCount(env, RetryScheduled);
    LogicalCount(env, Completed);
    LogicalCount(env, Failed);
    AttemptsCount(env, 1, 1, RetryScheduled);
    AttemptsCount(env, 1, 1, Completed);
    AttemptsCount(env, 1, 1, Failed);
  }

  lemma LogicalEnd(env: Env)
    ensures Some(Logical(env).outcome) == Halts(env, Last(env, 1))
    ensures EndsAs(Logical(env).events, Logical(env).outcome, Verdict(env, Last(env, 1)))
  {
    AttemptsEnd(env, 1, 1);
    var rest := Attempts(env, 1, 1);
    EndsBehind([Event(Started, 0, 0, None)], rest.events, rest.outcome, Verdict(env, Last(env, 1)));
  }

  /**
   * When no turn fails and every retry can be started, the stream stops at the first attempt whose output
   * validates, and with its value, or at the last attempt allowed; there is one terminal event, at the end,
   * and one retry event less than attempts.
   */
  lemma FirstValidOutputWins(env: Env)
    requires env.maxAttempts >= 1 && env.thread
    requires forall k | 1 <= k <= env.maxAttempts :: TurnOk(env, k) && env.attempt(k).retryStarts
    ensures var s, k := Logical(env), Last(env, 1);
            var last := s.events[|s.events| - 1];
            && 1 <= k <= env.maxAttempts
            && (forall j | 1 <= j < k :: Verdict(env, j).None?)
            && (if Verdict(env, k).Some?
                then s.outcome.Returned? && last.kind.Completed? && last.result == Verdict(env, k)
                else k == env.maxAttempts && s.outcome.Exhausted? && last.kind.Failed?)
            && Count(s.events, RetryScheduled) == k - 1
            && Terminals(s.events) == 1
  {
    LastIsFirst(env, 1);
    TurnsReturn(env, Last(env, 1));
    LogicalEnd(env);
    LogicalCounts(env);
  }

  /**
   * In general there is at most one terminal event, and there is one if and only if the attempt the stream
   * stops at has a completed turn and either a valid output or no further attempt allowed. A failed turn, a
   * thread that cannot be used again and a retry that is refused all leave the stream without one.
   */
  lemma TerminalEventExactly(env: Env)
    ensures var s, k := Logical(env), Last(env, 1);
            && Terminals(s.events) <= 1
            && (Terminals(s.events) == 1 <==> TurnOk(env, k) && (Verdict(env, k).Some? || k >= env.maxAttempts))
  {
    LastIsFirst(env, 1);
    TurnsReturn(env, Last(env, 1));
    LogicalCounts(env);
  }

  /** A provider whose only turn fails leaves the logical stream without a terminal event. */
  lemma AFailedTurnIsTheEnd(env: Env)
    requires env.attempt(1) == Attempt([T.TurnCompleted("", Some(T.StatusOther("failed")), [])], T.StreamEnds, true)
    ensures Logical(env) == Stream([Event(Started, 0, 0, None)], TurnRaised)
  {
    var ns := env.attempt(1).notifications;
    T.ReturnsExactly("", ns, T.StreamEnds);
    assert ns[0] in ns && T.Fails(ns[0]);
    assert Said(env, 1, 1) == [];
  }

  // ---------- The model ----------

  /** What is emitted of a stream when the dispatch of event number `stop` raises, or the consumer leaves there. */
  function Cut(events: seq<Event>, stop: Option<nat>): seq<Event> {
    if stop.Some? && stop.value < |events| then events[..stop.value] else events
  }

  predicate IsCut(events: seq<Event>, stop: Option<nat>) {
    stop.Some? && stop.value < |events|
  }

  lemma CutBehind(a: seq<Event>, b: seq<Event>, stop: Option<nat>)
    ensures IsCut(a, stop) ==> IsCut(a + b, stop) && Cut(a + b, stop) == Cut(a, stop)
  {
  }

  /** What the attempts behind attempt `k` say. */
  function Behind(env: Env, k: nat, n: nat): (r: seq<Event>)
    ensures Attempts(env, k, n).events == Said(env, k, n) + r
  {
    if Halts(env, k).None? then Attempts(env, k + 1, n + |Said(env, k, n)|).events else []
  }

  predicate AllBelow(runs: set<nat>, n: nat) {
    forall r | r in runs :: r < n
  }

  class StructuredCodexModel {
    /** The provider turns registered for cleanup, and the next run's id. */
    var activeRuns: set<nat>
    var nextRun: nat
    var sequence: nat
    /** What was yielded. */
    var emitted: seq<Event>

    constructor ()
      ensures activeRuns == {} && nextRun == 0 && sequence == 0 && emitted == []
    {
      activeRuns, nextRun, sequence, emitted := {}, 0, 0, [];
    }

    predicate Numbering()
      reads this
    {
      sequence == |emitted|
    }

    /** Of the model's own runs at most this one is registered, next to those of others. */
    predicate Alone(run: nat, others: set<nat>)
      reads this
    {
      activeRuns - {run} == others && run < nextRun && AllBelow(others, run)
    }

    method Register() returns (run: nat)
      modifies this`activeRuns, this`nextRun
      ensures nextRun == run + 1 && activeRuns == old(activeRuns) + {run}
      ensures AllBelow(old(activeRuns), old(nextRun)) ==> Alone(run, old(activeRuns))
    {
      run := nextRun;
      nextRun := nextRun + 1;
      activeRuns := activeRuns + {run};
    }

    method Dispatch(kind: Kind, attempt: nat, result: Option<Value>, stop: Option<nat>) returns (ok: bool)
      requires Numbering() && !IsCut(emitted, stop)
      modifies this`sequence, this`emitted
      ensures Numbering()
      ensures var all := old(emitted) + [Event(kind, old(sequence), attempt, result)];
              emitted == Cut(all, stop) && (ok <==> !IsCut(all, stop))
    {
      if stop == Some(|emitted|) {
        return false;
      }
      emitted := emitted + [Event(kind, sequence, attempt, result)];
      sequence := sequence + 1;
      return true;
    }

    method ForwardAll(trace: seq<T.Event>, attempt: nat, stop: Option<nat>) returns (ok: bool)
      requires Numbering() && !IsCut(emitted, stop)
      modifies this`sequence, this`emitted
      ensures Numbering()
      ensures var all := old(emitted) + Forward(trace, old(sequence), attempt);
              emitted == Cut(all, stop) && (ok <==> !IsCut(all, stop))
    {
      ghost var all := emitted + Forward(trace, sequence, attempt);
      var i := 0;
      while i < |trace|
        invariant 0 <= i <= |trace| && Numbering() && !IsCut(emitted, stop)
        invariant emitted + Forward(trace[i..], sequence, attempt) == all
      {
        assert trace[i..][0] == trace[i] && trace[i..][1..] == trace[i + 1..];
        if IsForwarded(trace[i].kind) {
          ghost var rest := Forward(trace[i + 1..], sequence + 1, attempt);
          ghost var e := Event(Forwarded(trace[i].kind), sequence, attempt, None);
          assert emitted + ([e] + rest) == (emitted + [e]) + rest;
          var more := Dispatch(Forwarded(trace[i].kind), attempt, None, stop);
          if !more {
            return false;
          }
        }
        i := i + 1;
      }
      return true;
    }
  
    /** What follows the provider's events of an attempt. */
    method Judge(env: Env, k: nat, stop: Option<nat>) returns (ok: bool)
      requires Numbering() && !IsCut(emitted, stop)
      modifies this`sequence, this`emitted
      ensures Numbering()
      ensures var all := old(emitted) + Judged(env, k, old(sequence));
              emitted == Cut(all, stop) && (ok <==> !IsCut(all, stop))
    {
      ghost var before, judged := emitted, Judged(env, k, sequence);
      var verdict := Verdict(env, k);
      if verdict.Some? {
        ok := Dispatch(Completed, k, verdict, stop);
        return;
      }
      assert before + judged == (before + [judged[0]]) + [judged[1]];
      ok := Dispatch(ValidationFailed, k, None, stop);
      if ok {
        ok := Dispatch(if k >= env.maxAttempts then Failed else RetryScheduled, k, None, stop);
      }
    }

    method Report(env: Env, k: nat, trace: seq<T.Event>, stop: Option<nat>) returns (ok: bool)
      requires Numbering() && !IsCut(emitted, stop)
      modifies this`sequence, this`emitted
      ensures Numbering()
      ensures var forwarded := Forward(trace, old(sequence), k);
              var all := old(emitted) + (forwarded + Judged(env, k, old(sequence) + |forwarded|));
              emitted == Cut(all, stop) && (ok <==> !IsCut(all, stop))
    {
      ghost var before, forwarded := emitted, Forward(trace, sequence, k);
      ghost var judged := Judged(env, k, sequence + |forwarded|);
      assert before + (forwarded + judged) == (before + forwarded) + judged;
      CutBehind(before + forwarded, judged, stop);
      ok := ForwardAll(trace, k, stop);
      if ok {
        ok := Judge(env, k, stop);
      }
    }

    /** One attempt: the turn is consumed and unregistered before anything is said about it. */
    method MakeAttempt(env: Env, k: nat, run: nat, stop: Option<nat>) returns (ok: bool)
      requires Numbering() && !IsCut(emitted, stop)
      modifies this`sequence, this`emitted, this`activeRuns
      ensures Numbering() && activeRuns == old(activeRuns) - {run}
      ensures var all := old(emitted) + Said(env, k, old(sequence));
              emitted == Cut(all, stop) && (ok <==> !IsCut(all, stop))
    {
      var turn := new T.TurnRun("");
      var outcome := turn.Events(env.attempt(k).notifications, env.attempt(k).ending, Option.None);
      assert turn.View(outcome) == Turn(env, k);
      activeRuns := activeRuns - {run};
      ghost var before := emitted;
      if !outcome.Returned? {
        assert before + [] == before;
        return true;
      }
      if turn.result.None? {
        ok := Dispatch(Failed, k, None, stop);
        return;
      }
      ok := Report(env, k, turn.trace, stop);
    }

    /** What was emitted and what attempt `k` and those behind it say make up the whole stream. */
    predicate Underway(env: Env, k: nat, stop: Option<nat>, all: Stream)
      reads this
    {
      var rest := Attempts(env, k, sequence);
      !IsCut(emitted, stop) && all == Stream(emitted + rest.events, rest.outcome)
    }

    predicate IsOver(outcome: Outcome, stop: Option<nat>, all: Stream)
      reads this
    {
      emitted == Cut(all.events, stop) && outcome == if IsCut(all.events, stop) then Stopped else all.outcome
    }

    /** One attempt, and what is left of the stream behind it. */
    method Advance(env: Env, k: nat, run: nat, stop: Option<nat>, ghost all: Stream) returns (halts: Option<Outcome>)
      requires Numbering() && Underway(env, k, stop, all)
      modifies this`sequence, this`emitted, this`activeRuns
      ensures Numbering() && activeRuns == old(activeRuns) - {run}
      ensures halts.None? ==> Halts(env, k).None? && Underway(env, k + 1, stop, all)
      ensures halts.Some? ==> IsOver(halts.value, stop, all)
    {
      ghost var before, said := emitted, Said(env, k, sequence);
      ghost var behind := Behind(env, k, sequence);
      assert all.events == (before + said) + behind;
      CutBehind(before + said, behind, stop);
      var ok := MakeAttempt(env, k, run, stop);
      return if ok then Halts(env, k) else Some(Stopped);
    }

    /**
     * `_events` up to its last event, or up to event number `stop`. The first run is registered when the
     * stream begins; on no path does a run stay registered.
     */
    method Events(env: Env, stop: Option<nat>) returns (outcome: Outcome)
      requires emitted == [] && sequence == 0 && AllBelow(activeRuns, nextRun)
      modifies this
      ensures activeRuns == old(activeRuns)
      ensures emitted == Cut(Logical(env).events, stop)
      ensures outcome == if IsCut(Logical(env).events, stop) then Stopped else Logical(env).outcome
    {
      ghost var logical := Logical(env);
      var run: nat := Register();
      var ok := Dispatch(Started, 0, None, stop);
      var k: nat := 1;
      var halts := if ok then None else Some(Stopped);
      while halts.None?
        invariant Numbering() && Alone(run, old(activeRuns))
        invariant if halts.None? then Underway(env, k, stop, logical) else IsOver(halts.value, stop, logical)
        decreases halts.None?, env.maxAttempts - k
      {
        halts := Advance(env, k, run, stop, logical);
        if halts.None? {
          run := Register();
          k := k + 1;
        }
      }
      activeRuns := activeRuns - {run};
      outcome := halts.value;
    }
  }
}
