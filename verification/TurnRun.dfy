/**
 * One provider turn: its notifications become a stream of numbered events. The provider's stream may end,
 * fail or be cancelled at any point, and so may the dispatch of an event; the consumer may leave at any event.
 * Sinks neither raise nor replace results.
 */
module TurnRun {
  import opened Options

  /** An item the provider completed; `message` is whether it is an agent message. */
  datatype Item = Item(message: bool, text: string)

  datatype Usage = Usage(tokens: seq<Option<int>>)

  datatype TurnStatus = StatusCompleted | StatusInterrupted | StatusOther(name: string)

  datatype Notification =
    | TurnStarted(turnId: string)
    | AgentDelta(text: string)
    | ItemCompleted(item: Option<Item>)
    | UsageUpdated(usage: Usage)
    | TurnCompleted(turnId: string, reported: Option<TurnStatus>, items: seq<Item>)
    | OtherNotification

  /** What waiting for the next notification comes to in the end. */
  datatype Ending = StreamEnds | RuntimeError | OtherError | CancelledWhileWaiting

  datatype Kind =
    | InvocationStarted | TurnBegan | OutputTextDelta | TokenUsageUpdated
    | TurnInterrupted | Interrupted | TurnDone | TurnFailed
    | InvocationCompleted | InvocationFailed | Cancelled

  datatype Result = Result(output: string, usage: Option<Usage>, turnId: string)

  datatype Event = Event(kind: Kind, sequence: nat, turnId: string, text: string, result: Option<Result>)

  /** How the event stream ends for its consumer. */
  datatype Outcome =
    | Running
    | Returned
    | RaisedTurnError
    | RaisedRuntimeError
    | RaisedTransportError
    | RaisedCancelled
    | ConsumerLeft

  /** The dispatch of event number `at` is cancelled, or the consumer leaves when it is given that event. */
  datatype Stop = Stop(at: nat, cancelled: bool)

  /** The fields of the run and the events emitted so far. */
  datatype State = State(
    turnId: string,
    deltas: seq<string>,
    items: seq<Item>,
    usage: Option<Usage>,
    status: Option<TurnStatus>,
    result: Option<Result>,
    sequence: nat,
    trace: seq<Event>,
    outcome: Outcome)

  // ---------- The transitions ----------

  function Emit(s: State, kind: Kind, text: string, result: Option<Result>): State {
    s.(trace := s.trace + [Event(kind, s.sequence, s.turnId, text, result)], sequence := s.sequence + 1)
  }

  function EmitPlain(s: State, kind: Kind): State {
    Emit(s, kind, "", None)
  }

  function Begin(turnId: string): State {
    EmitPlain(EmitPlain(State(turnId, [], [], None, None, None, 0, [], Running), InvocationStarted), TurnBegan)
  }

  function Joined(texts: seq<string>): string {
    if texts == [] then "" else texts[0] + Joined(texts[1..])
  }

  function MessageText(items: seq<Item>): string {
    if items == [] then "" else (if items[0].message then items[0].text else "") + MessageText(items[1..])
  }

  /** The agent messages' text, or else the streamed text. */
  function Output(items: seq<Item>, deltas: seq<string>): string {
    if MessageText(items) != "" then MessageText(items) else Joined(deltas)
  }

  /** A turn without a status counts as completed. */
  function Status(reported: Option<TurnStatus>): TurnStatus {
    if reported.None? then StatusCompleted else reported.value
  }

  function Interrupt(s: State): State {
    EmitPlain(EmitPlain(EmitPlain(s, TurnInterrupted), Interrupted), InvocationFailed)
  }

  function Fail(s: State): State {
    EmitPlain(EmitPlain(s, TurnFailed), InvocationFailed)
  }

  function Succeed(s: State, result: Result): State {
    Emit(EmitPlain(s, TurnDone), InvocationCompleted, "", Some(result))
  }

  /** The turn is over: its fields are set, and its events follow. */
  function Complete(s: State, turnId: string, reported: Option<TurnStatus>, items: seq<Item>): State {
    var t := s.(items := if s.items == [] then items else s.items, status := Some(Status(reported)));
    match Status(reported)
    case StatusInterrupted => Interrupt(t.(outcome := RaisedTurnError))
    case StatusCompleted =>
      var result := Result(Output(t.items, t.deltas), t.usage, turnId);
      Succeed(t.(result := Some(result)), result)
    case StatusOther(_) => Fail(t.(outcome := RaisedTurnError))
  }

  function Consume(s: State, n: Notification): State {
    match n
    case TurnStarted(id) => s.(turnId := id)
    case AgentDelta(text) => Emit(s.(deltas := s.deltas + [text]), OutputTextDelta, text, None)
    case ItemCompleted(item) => if item.Some? then s.(items := s.items + [item.value]) else s
    case UsageUpdated(usage) => EmitPlain(s.(usage := Some(usage)), TokenUsageUpdated)
    case TurnCompleted(id, status, items) => Complete(s, id, status, items)
    case OtherNotification => s
  }

  /** The notifications up to the one that raises. */
  function ConsumeAll(s: State, ns: seq<Notification>): State
    decreases |ns|
  {
    if ns == [] || !s.outcome.Running? then s else ConsumeAll(Consume(s, ns[0]), ns[1..])
  }

  function End(s: State, ending: Ending): State {
    if !s.outcome.Running? then s
    else match ending
      case StreamEnds =>
        if s.status.None? then EmitPlain(s, InvocationFailed).(outcome := RaisedTransportError)
        else s.(outcome := Returned)
      case RuntimeError =>
        (if s.status.None? then EmitPlain(s, InvocationFailed) else s).(outcome := RaisedRuntimeError)
      case OtherError => EmitPlain(s, InvocationFailed).(outcome := RaisedTransportError)
      case CancelledWhileWaiting => EmitPlain(s, Cancelled).(outcome := RaisedCancelled)
  }

  function Run(turnId: string, ns: seq<Notification>, ending: Ending): State {
    End(ConsumeAll(Begin(turnId), ns), ending)
  }

  predicate Stops(trace: seq<Event>, stop: Option<Stop>) {
    stop.Some? && stop.value.at < |trace|
  }

  /**
   * The events of a run that may be stopped. A cancellation inside the `try`, where the notifications are
   * consumed, is announced; one in its handlers or behind it is not.
   */
  function Emitted(turnId: string, ns: seq<Notification>, ending: Ending, stop: Option<Stop>): seq<Event> {
    var full := Run(turnId, ns, ending).trace;
    if !Stops(full, stop) then full
    else
      var at := stop.value.at;
      full[..at + 1]
      + if stop.value.cancelled && Stops(ConsumeAll(Begin(turnId), ns).trace, stop)
        then [Event(Cancelled, at + 1, full[at].turnId, "", None)] else []
  }

  /** How a run that may be stopped ends; CANCELLED is not given to the consumer, who cannot leave there. */
  function Ended(turnId: string, ns: seq<Notification>, ending: Ending, stop: Option<Stop>): Outcome {
    var full := Run(turnId, ns, ending);
    if !Stops(full.trace, stop) then full.outcome
    else if stop.value.cancelled || full.trace[stop.value.at].kind.Cancelled? then RaisedCancelled
    else ConsumerLeft
  }

  // ---------- What holds after every notification ----------

  predicate IsTerminal(k: Kind) {
    k.InvocationCompleted? || k.InvocationFailed? || k.Cancelled?
  }

  function TerminalPlaces(trace: seq<Event>): set<nat> {
    set k: nat | k < |trace| && IsTerminal(trace[k].kind)
  }

  function Terminals(trace: seq<Event>): nat {
    |TerminalPlaces(trace)|
  }

  /** Numbers without gaps, and results on completions and nowhere else. */
  predicate Numbered(trace: seq<Event>) {
    forall k | 0 <= k < |trace| ::
      trace[k].sequence == k && (trace[k].result.Some? <==> trace[k].kind.InvocationCompleted?)
  }

  predicate NoFailure(trace: seq<Event>) {
    forall k | 0 <= k < |trace| :: !trace[k].kind.InvocationFailed? && !trace[k].kind.Cancelled?
  }

  predicate Opened(trace: seq<Event>) {
    |trace| >= 2 && trace[0].kind.InvocationStarted? && trace[1].kind.TurnBegan?
  }

  predicate Inv(s: State) {
    && s.sequence == |s.trace|
    && Numbered(s.trace)
    && Opened(s.trace)
    && (s.outcome.Running? ==> NoFailure(s.trace) && (s.status.Some? <==> s.result.Some?))
  }

  lemma AppendedTerminals(trace: seq<Event>, e: Event)
    ensures Terminals(trace + [e]) == Terminals(trace) + (if IsTerminal(e.kind) then 1 else 0)
  {
    var before, after := TerminalPlaces(trace), TerminalPlaces(trace + [e]);
    if IsTerminal(e.kind) {
      assert after == before + {|trace|};
    } else {
      assert after == before;
    }
  }

  lemma AppendedShape(trace: seq<Event>, e: Event)
    ensures Numbered(trace) && e.sequence == |trace| && (e.result.Some? <==> e.kind.InvocationCompleted?)
        ==> Numbered(trace + [e])
    ensures NoFailure(trace) && !e.kind.InvocationFailed? && !e.kind.Cancelled? ==> NoFailure(trace + [e])
    ensures Opened(trace) ==> Opened(trace + [e])
  {
  }

  /** What one more event does to a trace. */
  lemma Appended(trace: seq<Event>, e: Event)
    ensures Terminals(trace + [e]) == Terminals(trace) + (if IsTerminal(e.kind) then 1 else 0)
    ensures Numbered(trace) && e.sequence == |trace| && (e.result.Some? <==> e.kind.InvocationCompleted?)
        ==> Numbered(trace + [e])
    ensures NoFailure(trace) && !e.kind.InvocationFailed? && !e.kind.Cancelled? ==> NoFailure(trace + [e])
    ensures Opened(trace) ==> Opened(trace + [e])
  {
    AppendedTerminals(trace, e);
    AppendedShape(trace, e);
  }

  lemma BeginInv(turnId: string)
    ensures Inv(Begin(turnId)) && Terminals(Begin(turnId).trace) == 0
  {
    var a, b := Event(InvocationStarted, 0, turnId, "", None), Event(TurnBegan, 1, turnId, "", None);
    Appended([], a);
    assert [] + [a] == [a];
    Appended([a], b);
    assert Begin(turnId).trace == [a] + [b];
  }

  /** One event that is neither a failure nor a completion. */
  lemma PlainKeepsInv(s: State, kind: Kind)
    requires Inv(s) && !IsTerminal(kind) && !kind.OutputTextDelta?
    ensures Inv(EmitPlain(s, kind)) && Terminals(EmitPlain(s, kind).trace) == Terminals(s.trace)
  {
    Appended(s.trace, Event(kind, s.sequence, s.turnId, "", None));
  }

  lemma DeltaKeepsInv(s: State, text: string)
    requires Inv(s)
    ensures var t := Emit(s.(deltas := s.deltas + [text]), OutputTextDelta, text, None);
            Inv(t) && Terminals(t.trace) == Terminals(s.trace)
  {
    Appended(s.trace, Event(OutputTextDelta, s.sequence, s.turnId, text, None));
  }

  /** A failure ends the run. */
  lemma FailureKeepsInv(s: State, kind: Kind, outcome: Outcome)
    requires Inv(s) && !outcome.Running? && (kind.InvocationFailed? || kind.Cancelled?)
    ensures var t := EmitPlain(s, kind).(outcome := outcome);
            && Inv(t)
            && Terminals(t.trace) == Terminals(s.trace) + 1
            && |t.trace| == |s.trace| + 1 && t.trace[|s.trace|].kind == kind
  {
    Appended(s.trace, Event(kind, s.sequence, s.turnId, "", None));
  }

  lemma CompletionKeepsInv(s: State, result: Result)
    requires Inv(s)
    ensures var t := Emit(s, InvocationCompleted, "", Some(result));
            && Inv(t)
            && Terminals(t.trace) == Terminals(s.trace) + 1
            && |t.trace| == |s.trace| + 1 && t.trace[|s.trace|].kind.InvocationCompleted?
            && t.trace[|s.trace|].result == Some(result)
  {
    Appended(s.trace, Event(InvocationCompleted, s.sequence, s.turnId, "", Some(result)));
  }

  /** The last event of a turn that is over. */
  predicate EndsTurn(s: State, t: State, completed: bool) {
    && Inv(t)
    && Terminals(t.trace) == Terminals(s.trace) + 1
    && var last := t.trace[|t.trace| - 1];
    && IsTerminal(last.kind) && !last.kind.Cancelled?
    && (last.kind.InvocationCompleted? <==> completed)
    && (completed ==> last.result == t.result)
  }

  lemma InterruptedEndsTurn(s: State)
    requires Inv(s) && s.outcome.RaisedTurnError?
    ensures EndsTurn(s, Interrupt(s), false)
  {
    PlainKeepsInv(s, TurnInterrupted);
    var t := EmitPlain(s, TurnInterrupted);
    PlainKeepsInv(t, Interrupted);
    FailureKeepsInv(EmitPlain(t, Interrupted), InvocationFailed, RaisedTurnError);
  }

  lemma FailedEndsTurn(s: State)
    requires Inv(s) && s.outcome.RaisedTurnError?
    ensures EndsTurn(s, Fail(s), false)
  {
    PlainKeepsInv(s, TurnFailed);
    FailureKeepsInv(EmitPlain(s, TurnFailed), InvocationFailed, RaisedTurnError);
  }

  lemma CompletedEndsTurn(s: State, result: Result)
    requires Inv(s) && s.result == Some(result)
    ensures EndsTurn(s, Succeed(s, result), true)
  {
    PlainKeepsInv(s, TurnDone);
    CompletionKeepsInv(EmitPlain(s, TurnDone), result);
  }

  lemma CompleteKeepsInv(s: State, turnId: string, reported: Option<TurnStatus>, items: seq<Item>)
    requires Inv(s) && s.outcome.Running?
    ensures EndsTurn(s, Complete(s, turnId, reported, items), Status(reported).StatusCompleted?)
  {
    var t := s.(items := if s.items == [] then items else s.items, status := Some(Status(reported)));
    match Status(reported)
    case StatusInterrupted => InterruptedEndsTurn(t.(outcome := RaisedTurnError));
    case StatusCompleted =>
      var result := Result(Output(t.items, t.deltas), t.usage, turnId);
      CompletedEndsTurn(t.(result := Some(result)), result);
    case StatusOther(_) => FailedEndsTurn(t.(outcome := RaisedTurnError));
  }

  lemma ConsumeKeepsInv(s: State, n: Notification)
    requires Inv(s) && s.outcome.Running?
    ensures Inv(Consume(s, n))
    ensures var t := Consume(s, n);
            !n.TurnCompleted? ==>
              t.outcome.Running? && t.status == s.status && Terminals(t.trace) == Terminals(s.trace)
  {
    match n
    case AgentDelta(text) => DeltaKeepsInv(s, text);
    case UsageUpdated(usage) => PlainKeepsInv(s.(usage := Some(usage)), TokenUsageUpdated);
    case TurnCompleted(id, status, items) => CompleteKeepsInv(s, id, status, items);
    case _ =>
  }

  lemma {:induction false} ConsumeAllKeepsInv(s: State, ns: seq<Notification>)
    requires Inv(s)
    ensures Inv(ConsumeAll(s, ns))
    decreases |ns|
  {
    if ns != [] && s.outcome.Running? {
      ConsumeKeepsInv(s, ns[0]);
      ConsumeAllKeepsInv(Consume(s, ns[0]), ns[1..]);
    }
  }

  /** The terminal events the end of the stream adds. */
  function LateTerminals(s: State, ending: Ending): nat {
    match ending
    case StreamEnds => if s.status.None? then 1 else 0
    case RuntimeError => if s.status.None? then 1 else 0
    case _ => 1
  }

  lemma EndKeepsInv(s: State, ending: Ending)
    requires Inv(s) && s.outcome.Running?
    ensures var t := End(s, ending);
            && Inv(t) && !t.outcome.Running?
            && Terminals(t.trace) == Terminals(s.trace) + LateTerminals(s, ending)
            && (LateTerminals(s, ending) == 1 ==> IsTerminal(t.trace[|t.trace| - 1].kind))
            && (LateTerminals(s, ending) == 0 ==> t.trace == s.trace)
            && (LateTerminals(s, ending) == 1 ==>
                  (t.trace[|t.trace| - 1].kind.Cancelled? <==> ending.CancelledWhileWaiting?)
                  && !t.trace[|t.trace| - 1].kind.InvocationCompleted?)
  {
    FailureKeepsInv(s, InvocationFailed, RaisedTransportError);
    FailureKeepsInv(s, InvocationFailed, RaisedRuntimeError);
    FailureKeepsInv(s, Cancelled, RaisedCancelled);
  }

  // ---------- The streamed text ----------

  function DeltaTexts(trace: seq<Event>): seq<string> {
    if trace == [] then []
    else
      var last := trace[|trace| - 1];
      DeltaTexts(trace[..|trace| - 1]) + if last.kind.OutputTextDelta? then [last.text] else []
  }

  /** The deltas kept are those that were streamed. */
  predicate InStep(s: State) {
    DeltaTexts(s.trace) == s.deltas
  }

  lemma AppendedDeltas(trace: seq<Event>, e: Event)
    ensures DeltaTexts(trace + [e]) == DeltaTexts(trace) + (if e.kind.OutputTextDelta? then [e.text] else [])
  {
    assert (trace + [e])[..|trace|] == trace;
  }

  lemma EmitStaysInStep(s: State, kind: Kind, result: Option<Result>)
    requires InStep(s) && !kind.OutputTextDelta?
    ensures InStep(Emit(s, kind, "", result))
  {
    AppendedDeltas(s.trace, Event(kind, s.sequence, s.turnId, "", result));
  }

  lemma CompleteStaysInStep(s: State, turnId: string, reported: Option<TurnStatus>, items: seq<Item>)
    requires InStep(s)
    ensures InStep(Complete(s, turnId, reported, items))
  {
    var t := s.(items := if s.items == [] then items else s.items, status := Some(Status(reported)));
    match Status(reported)
    case StatusInterrupted =>
      var u := t.(outcome := RaisedTurnError);
      EmitStaysInStep(u, TurnInterrupted, None);
      EmitStaysInStep(EmitPlain(u, TurnInterrupted), Interrupted, None);
      EmitStaysInStep(EmitPlain(EmitPlain(u, TurnInterrupted), Interrupted), InvocationFailed, None);
    case StatusCompleted =>
      var u := t.(result := Some(Result(Output(t.items, t.deltas), t.usage, turnId)));
      EmitStaysInStep(u, TurnDone, None);
      EmitStaysInStep(EmitPlain(u, TurnDone), InvocationCompleted, u.result);
    case StatusOther(_) =>
      var u := t.(outcome := RaisedTurnError);
      EmitStaysInStep(u, TurnFailed, None);
      EmitStaysInStep(EmitPlain(u, TurnFailed), InvocationFailed, None);
  }

  lemma ConsumeStaysInStep(s: State, n: Notification)
    requires InStep(s)
    ensures InStep(Consume(s, n))
  {
    match n
    case AgentDelta(text) => AppendedDeltas(s.trace, Event(OutputTextDelta, s.sequence, s.turnId, text, None));
    case UsageUpdated(usage) => EmitStaysInStep(s.(usage := Some(usage)), TokenUsageUpdated, None);
    case TurnCompleted(id, status, items) => CompleteStaysInStep(s, id, status, items);
    case _ =>
  }

  lemma {:induction false} ConsumeAllStaysInStep(s: State, ns: seq<Notification>)
    requires InStep(s)
    ensures InStep(ConsumeAll(s, ns))
    decreases |ns|
  {
    if ns != [] && s.outcome.Running? {
      ConsumeStaysInStep(s, ns[0]);
      ConsumeAllStaysInStep(Consume(s, ns[0]), ns[1..]);
    }
  }

  /** The texts of the streamed events are the deltas the run keeps, in order and once each. */
  lemma StreamedTextsAreTheDeltas(turnId: string, ns: seq<Notification>, ending: Ending)
    ensures InStep(Run(turnId, ns, ending))
  {
    var s := State(turnId, [], [], None, None, None, 0, [], Running);
    EmitStaysInStep(s, InvocationStarted, None);
    EmitStaysInStep(EmitPlain(s, InvocationStarted), TurnBegan, None);
    ConsumeAllStaysInStep(Begin(turnId), ns);
    EmitStaysInStep(ConsumeAll(Begin(turnId), ns), InvocationFailed, None);
    EmitStaysInStep(ConsumeAll(Begin(turnId), ns), Cancelled, None);
  }

  /** Without agent messages the result is the text that was streamed. */
  lemma StreamedTextIsTheOutput(s: State, turnId: string, reported: Option<TurnStatus>, items: seq<Item>)
    requires InStep(s) && Status(reported).StatusCompleted?
    requires MessageText(if s.items == [] then items else s.items) == ""
    ensures var t := Complete(s, turnId, reported, items);
            t.result.Some? && t.result.value.output == Joined(DeltaTexts(t.trace))
  {
    CompleteStaysInStep(s, turnId, reported, items);
  }

  // ---------- Every trace ----------

  lemma RunInv(turnId: string, ns: seq<Notification>, ending: Ending)
    ensures Inv(ConsumeAll(Begin(turnId), ns))
    ensures Inv(Run(turnId, ns, ending)) && !Run(turnId, ns, ending).outcome.Running?
  {
    BeginInv(turnId);
    ConsumeAllKeepsInv(Begin(turnId), ns);
    var s := ConsumeAll(Begin(turnId), ns);
    if s.outcome.Running? {
      EndKeepsInv(s, ending);
    }
  }

  /**
   * On every path, stopped or not: numbers without gaps, the opening events, results on completion and
   * nowhere else.
   */
  lemma EveryTraceIsWellFormed(turnId: string, ns: seq<Notification>, ending: Ending, stop: Option<Stop>)
    ensures var trace := Emitted(turnId, ns, ending, stop);
            && trace != [] && trace[0].kind.InvocationStarted?
            && (stop.None? || stop.value.at > 0 ==> |trace| >= 2 && trace[1].kind.TurnBegan?)
            && (forall k | 0 <= k < |trace| ::
                  trace[k].sequence == k && (trace[k].result.Some? <==> trace[k].kind.InvocationCompleted?))
  {
    RunInv(turnId, ns, ending);
  }

  lemma TerminalsOfFront(trace: seq<Event>, n: nat)
    requires n <= |trace|
    ensures Terminals(trace[..n]) == 0 <==> forall k | 0 <= k < n :: !IsTerminal(trace[k].kind)
  {
    assert forall k | 0 <= k < n :: trace[..n][k] == trace[k];
    if Terminals(trace[..n]) == 0 {
      forall k | 0 <= k < n ensures !IsTerminal(trace[k].kind) {
        assert k in TerminalPlaces(trace[..n]) <==> IsTerminal(trace[k].kind);
      }
    } else {
      var k :| k in TerminalPlaces(trace[..n]);
      assert IsTerminal(trace[k].kind);
    }
  }

  /**
   * A cancellation during the dispatch of an event ends the trace with CANCELLED whenever notifications are
   * still consumed, and this is the one terminal event exactly when neither the event nor one before it is
   * terminal. A consumer that leaves at an event adds none.
   */
  lemma StoppedExactly(turnId: string, ns: seq<Notification>, ending: Ending, stop: Stop)
    requires Stops(ConsumeAll(Begin(turnId), ns).trace, Some(stop))
    ensures var full, trace := Run(turnId, ns, ending).trace, Emitted(turnId, ns, ending, Some(stop));
            && stop.at < |full|
            && (stop.cancelled ==> trace[|trace| - 1].kind.Cancelled?)
            && (Ended(turnId, ns, ending, Some(stop)).RaisedCancelled? <==> stop.cancelled)
            && (Terminals(trace) == (if stop.cancelled then 1 else 0)
                <==> forall k | 0 <= k <= stop.at :: !IsTerminal(full[k].kind))
  {
    BeginInv(turnId);
    ConsumeAllKeepsInv(Begin(turnId), ns);
    var body, full := ConsumeAll(Begin(turnId), ns), Run(turnId, ns, ending).trace;
    EndExtends(body, ending);
    BodyIsNotCancelled(Begin(turnId), ns);
    TerminalsOfFront(full, stop.at + 1);
    assert full[stop.at] == body.trace[stop.at];
    if !stop.cancelled {
      assert full[..stop.at + 1] + [] == full[..stop.at + 1];
    } else {
      AppendedTerminals(full[..stop.at + 1], Event(Cancelled, stop.at + 1, full[stop.at].turnId, "", None));
    }
  }

  lemma StoppedIn(trace: seq<Event>, body: seq<Event>, full: seq<Event>, stop: Option<Stop>)
    requires trace <= body <= full && trace != [] && stop.Some? && stop.value.at == |trace| - 1
    ensures Stops(body, stop) && Stops(full, stop) && trace == full[..stop.value.at + 1]
    ensures full[stop.value.at] == body[stop.value.at] == trace[|trace| - 1]
  {
  }

  lemma EndExtends(s: State, ending: Ending)
    ensures s.trace <= End(s, ending).trace
  {
  }

  lemma EmitExtends(s: State, kind: Kind, text: string, result: Option<Result>)
    ensures s.trace <= Emit(s, kind, text, result).trace
  {
  }

  lemma InterruptExtends(s: State)
    ensures EmitPlain(s, TurnInterrupted).trace <= Interrupt(s).trace
    ensures EmitPlain(EmitPlain(s, TurnInterrupted), Interrupted).trace <= Interrupt(s).trace
  {
    EmitExtends(EmitPlain(s, TurnInterrupted), Interrupted, "", None);
    EmitExtends(EmitPlain(EmitPlain(s, TurnInterrupted), Interrupted), InvocationFailed, "", None);
  }

  lemma CompleteExtends(s: State, turnId: string, reported: Option<TurnStatus>, items: seq<Item>)
    ensures var t := Complete(s, turnId, reported, items);
            && s.trace <= t.trace
            && forall k | |s.trace| <= k < |t.trace| :: !t.trace[k].kind.Cancelled? && t.trace[k].turnId == s.turnId
  {
  }

  lemma ConsumeExtends(s: State, n: Notification)
    ensures var t := Consume(s, n);
            && s.trace <= t.trace
            && forall k | |s.trace| <= k < |t.trace| :: !t.trace[k].kind.Cancelled? && t.trace[k].turnId == t.turnId
  {
    if n.TurnCompleted? {
      CompleteExtends(s, n.turnId, n.reported, n.items);
    }
  }

  lemma {:induction false} ConsumeAllExtends(s: State, ns: seq<Notification>)
    ensures s.trace <= ConsumeAll(s, ns).trace
    decreases |ns|
  {
    if ns != [] && s.outcome.Running? {
      ConsumeExtends(s, ns[0]);
      ConsumeAllExtends(Consume(s, ns[0]), ns[1..]);
    }
  }

  lemma {:induction false} BodyIsNotCancelled(s: State, ns: seq<Notification>)
    requires forall k | 0 <= k < |s.trace| :: !s.trace[k].kind.Cancelled?
    ensures forall k | 0 <= k < |ConsumeAll(s, ns).trace| :: !ConsumeAll(s, ns).trace[k].kind.Cancelled?
    decreases |ns|
  {
    if ns != [] && s.outcome.Running? {
      ConsumeExtends(s, ns[0]);
      BodyIsNotCancelled(Consume(s, ns[0]), ns[1..]);
    }
  }

  // ---------- Terminal events ----------

  predicate Succeeds(n: Notification) {
    n.TurnCompleted? && Status(n.reported).StatusCompleted?
  }

  predicate Fails(n: Notification) {
    n.TurnCompleted? && !Status(n.reported).StatusCompleted?
  }

  /** How often a turn is reported as completed before one is reported as failed. */
  function Completions(ns: seq<Notification>): nat {
    if ns == [] || Fails(ns[0]) then 0 else (if Succeeds(ns[0]) then 1 else 0) + Completions(ns[1..])
  }

  predicate SomeFails(ns: seq<Notification>) {
    exists n | n in ns :: Fails(n)
  }

  lemma {:induction false} CountTerminals(s: State, ns: seq<Notification>)
    requires Inv(s) && s.outcome.Running?
    ensures var t := ConsumeAll(s, ns);
            && (t.outcome.Running? <==> !SomeFails(ns))
            && (t.outcome.Running? ==> (t.status.None? <==> s.status.None? && Completions(ns) == 0))
            && (!t.outcome.Running? ==> t.outcome.RaisedTurnError?)
            && Terminals(t.trace) == Terminals(s.trace) + Completions(ns) + (if SomeFails(ns) then 1 else 0)
    decreases |ns|
  {
    if ns != [] {
      var n := ns[0];
      ConsumeKeepsInv(s, n);
      assert SomeFails(ns) <==> Fails(n) || SomeFails(ns[1..]) by {
        assert forall m | m in ns :: m == n || m in ns[1..];
      }
      if n.TurnCompleted? {
        CompleteKeepsInv(s, n.turnId, n.reported, n.items);
      }
      if Consume(s, n).outcome.Running? {
        CountTerminals(Consume(s, n), ns[1..]);
      }
    }
  }

  /** The number of terminal events of any run. */
  function ExpectedTerminals(ns: seq<Notification>, ending: Ending): nat {
    var c := Completions(ns);
    if SomeFails(ns) then c + 1
    else match ending
      case StreamEnds => if c == 0 then 1 else c
      case RuntimeError => if c == 0 then 1 else c
      case _ => c + 1
  }

  /**
   * A run ends in exactly one terminal event if and only if no turn is reported as completed before a
   * failure of any kind but an error of the runtime's own, and none twice.
   */
  lemma OneTerminalExactly(turnId: string, ns: seq<Notification>, ending: Ending)
    ensures Terminals(Run(turnId, ns, ending).trace) == ExpectedTerminals(ns, ending)
    ensures Terminals(Run(turnId, ns, ending).trace) == 1 <==>
      if SomeFails(ns) || ending.OtherError? || ending.CancelledWhileWaiting? then Completions(ns) == 0
      else Completions(ns) <= 1
  {
    var s := ConsumeAll(Begin(turnId), ns);
    BeginInv(turnId);
    RunInv(turnId, ns, ending);
    CountTerminals(Begin(turnId), ns);
    if s.outcome.Running? {
      EndKeepsInv(s, ending);
    }
  }

  /** A turn reported as completed, after which the stream breaks, has two terminal events. */
  lemma CompletedAndThenCutOff(turnId: string, ending: Ending)
    requires ending.OtherError? || ending.CancelledWhileWaiting?
    ensures Terminals(Run(turnId, [TurnCompleted(turnId, None, [])], ending).trace) == 2
  {
    var ns := [TurnCompleted(turnId, None, [])];
    OneTerminalExactly(turnId, ns, ending);
    assert !Fails(ns[0]) && Succeeds(ns[0]);
    assert Completions(ns) == 1 + Completions(ns[1..]) && Completions(ns[1..]) == 0;
  }

  /** The stream is consumed without an error exactly when a turn completed, none failed, and the stream ended. */
  lemma ReturnsExactly(turnId: string, ns: seq<Notification>, ending: Ending)
    ensures var s := Run(turnId, ns, ending);
            && (s.outcome.Returned? <==> !SomeFails(ns) && ending.StreamEnds? && Completions(ns) > 0)
            && (s.outcome.Returned? ==> s.result.Some?)
            && (s.outcome.Returned? ==> NoFailure(s.trace))
  {
    BeginInv(turnId);
    RunInv(turnId, ns, ending);
    CountTerminals(Begin(turnId), ns);
  }

  /** The notifications a provider that keeps its protocol sends: a turn's completion is the last one. */
  predicate Orderly(ns: seq<Notification>, ending: Ending) {
    forall k | 0 <= k < |ns| && ns[k].TurnCompleted? :: k == |ns| - 1 && ending.StreamEnds?
  }

  lemma {:induction false} BeforeCompletion(s: State, ns: seq<Notification>)
    requires Inv(s) && s.outcome.Running? && forall n | n in ns :: !n.TurnCompleted?
    ensures var t := ConsumeAll(s, ns);
            t.outcome.Running? && t.status == s.status && Terminals(t.trace) == Terminals(s.trace)
    decreases |ns|
  {
    if ns != [] {
      ConsumeKeepsInv(s, ns[0]);
      BeforeCompletion(Consume(s, ns[0]), ns[1..]);
    }
  }

  lemma {:induction false} ConsumeLast(s: State, ns: seq<Notification>, n: Notification)
    requires Inv(s) && s.outcome.Running? && forall m | m in ns :: !m.TurnCompleted?
    ensures ConsumeAll(s, ns + [n]) == Consume(ConsumeAll(s, ns), n)
    decreases |ns|
  {
    if ns == [] {
      assert ns + [n] == [n];
    } else {
      ConsumeKeepsInv(s, ns[0]);
      assert (ns + [n])[1..] == ns[1..] + [n];
      ConsumeLast(Consume(s, ns[0]), ns[1..], n);
    }
  }

  /** One terminal event, at the end; a completion with the result exactly when `completed`. */
  predicate EndsOnce(s: State, completed: bool, cancelled: bool) {
    && s.trace != []
    && var last := s.trace[|s.trace| - 1];
    && Terminals(s.trace) == 1
    && IsTerminal(last.kind)
    && (last.kind.InvocationCompleted? <==> completed)
    && (last.kind.Cancelled? <==> cancelled)
    && (completed <==> s.outcome.Returned?)
    && (completed ==> last.result == s.result && s.result.Some?)
  }

  lemma EndsWithCompletion(turnId: string, front: seq<Notification>, n: Notification)
    requires n.TurnCompleted? && forall m | m in front :: !m.TurnCompleted?
    ensures EndsOnce(Run(turnId, front + [n], StreamEnds), Succeeds(n), false)
  {
    var s := Begin(turnId);
    BeginInv(turnId);
    ConsumeAllKeepsInv(s, front);
    BeforeCompletion(s, front);
    ConsumeLast(s, front, n);
    var t := ConsumeAll(s, front);
    CompleteKeepsInv(t, n.turnId, n.reported, n.items);
    var u := Complete(t, n.turnId, n.reported, n.items);
    if u.outcome.Running? {
      EndKeepsInv(u, StreamEnds);
    }
  }

  lemma EndsWithoutCompletion(turnId: string, ns: seq<Notification>, ending: Ending)
    requires forall m | m in ns :: !m.TurnCompleted?
    ensures EndsOnce(Run(turnId, ns, ending), false, ending.CancelledWhileWaiting?)
  {
    var s := Begin(turnId);
    BeginInv(turnId);
    ConsumeAllKeepsInv(s, ns);
    BeforeCompletion(s, ns);
    EndKeepsInv(ConsumeAll(s, ns), ending);
  }

  /**
   * With an orderly provider every trace has exactly one terminal event, it is the last one, and it is a
   * completion with the turn's result exactly when the turn's completion was reported as such.
   */
  lemma OrderlyRuns(turnId: string, ns: seq<Notification>, ending: Ending)
    requires Orderly(ns, ending)
    ensures EndsOnce(Run(turnId, ns, ending), ns != [] && Succeeds(ns[|ns| - 1]), ending.CancelledWhileWaiting?)
  {
    if ns != [] && ns[|ns| - 1].TurnCompleted? {
      var front, n := ns[..|ns| - 1], ns[|ns| - 1];
      assert ns == front + [n];
      assert forall k | 0 <= k < |front| :: front[k] == ns[k];
      EndsWithCompletion(turnId, front, n);
    } else {
      assert forall k | 0 <= k < |ns| :: !ns[k].TurnCompleted?;
      EndsWithoutCompletion(turnId, ns, ending);
    }
  }

  // ---------- The run ----------

  class TurnRun {
    var turnId: string
    var deltas: seq<string>
    var items: seq<Item>
    var usage: Option<Usage>
    var terminalStatus: Option<TurnStatus>
    var result: Option<Result>
    var sequence: nat
    /** What was published; of these events the consumer is given all but CANCELLED. */
    var trace: seq<Event>

    constructor (turnId: string)
      ensures View(Running) == State(turnId, [], [], None, None, None, 0, [], Running)
    {
      this.turnId := turnId;
      deltas, items, usage, terminalStatus, result, sequence, trace := [], [], None, None, None, 0, [];
    }

    function View(outcome: Outcome): State
      reads this
    {
      State(turnId, deltas, items, usage, terminalStatus, result, sequence, trace, outcome)
    }

    method Publish(kind: Kind, text: string, res: Option<Result>, stop: Option<Stop>) returns (stopped: bool)
      modifies this`trace, this`sequence
      ensures forall o :: View(o) == Emit(old(View(o)), kind, text, res)
      ensures stopped <==> stop.Some? && stop.value.at == old(sequence)
    {
      trace := trace + [Event(kind, sequence, turnId, text, res)];
      sequence := sequence + 1;
      stopped := stop.Some? && stop.value.at == sequence - 1;
    }

    /** The run goes on in the given state, or was stopped at one of the events on the way to it. */
    ghost predicate Reached(t: State, outcome: Outcome, stopped: bool, stop: Option<Stop>)
      reads this
    {
      if stopped then
        && trace <= t.trace && sequence == |trace| > 0 && trace[|trace| - 1].turnId == turnId
        && stop.Some? && stop.value.at == |trace| - 1
      else View(outcome) == t && !Stops(t.trace, stop)
    }

    method InterruptTurn(stop: Option<Stop>) returns (stopped: bool)
      requires sequence == |trace| && !Stops(trace, stop)
      modifies this`trace, this`sequence
      ensures Reached(Interrupt(old(View(RaisedTurnError))), RaisedTurnError, stopped, stop)
    {
      InterruptExtends(View(RaisedTurnError));
      stopped := Publish(TurnInterrupted, "", None, stop);
      if stopped { return; }
      stopped := Publish(Interrupted, "", None, stop);
      if stopped { return; }
      stopped := Publish(InvocationFailed, "", None, stop);
    }

    method FailTurn(stop: Option<Stop>) returns (stopped: bool)
      requires sequence == |trace| && !Stops(trace, stop)
      modifies this`trace, this`sequence
      ensures Reached(Fail(old(View(RaisedTurnError))), RaisedTurnError, stopped, stop)
    {
      EmitExtends(EmitPlain(View(RaisedTurnError), TurnFailed), InvocationFailed, "", None);
      stopped := Publish(TurnFailed, "", None, stop);
      if stopped { return; }
      stopped := Publish(InvocationFailed, "", None, stop);
    }

    method SucceedTurn(res: Result, stop: Option<Stop>) returns (stopped: bool)
      requires sequence == |trace| && !Stops(trace, stop)
      modifies this`trace, this`sequence
      ensures Reached(Succeed(old(View(Running)), res), Running, stopped, stop)
    {
      EmitExtends(EmitPlain(View(Running), TurnDone), InvocationCompleted, "", Some(res));
      stopped := Publish(TurnDone, "", None, stop);
      if stopped { return; }
      stopped := Publish(InvocationCompleted, "", Some(res), stop);
    }

    method TurnIsOver(id: string, reported: Option<TurnStatus>, turnItems: seq<Item>, stop: Option<Stop>)
      returns (outcome: Outcome, stopped: bool)
      requires sequence == |trace| && !Stops(trace, stop)
      modifies this
      ensures Reached(Complete(old(View(Running)), id, reported, turnItems), outcome, stopped, stop)
    {
      if items == [] {
        items := turnItems;
      }
      var status := Status(reported);
      terminalStatus := Some(status);
      outcome := RaisedTurnError;
      if status.StatusInterrupted? {
        stopped := InterruptTurn(stop);
      } else if status.StatusCompleted? {
        result := Some(Result(Output(items, deltas), usage, id));
        outcome := Running;
        stopped := SucceedTurn(result.value, stop);
      } else {
        stopped := FailTurn(stop);
      }
    }

    method Handle(n: Notification, stop: Option<Stop>) returns (outcome: Outcome, stopped: bool)
      requires sequence == |trace| && !Stops(trace, stop)
      modifies this
      ensures Reached(Consume(old(View(Running)), n), outcome, stopped, stop)
    {
      outcome, stopped := Running, false;
      match n
      case TurnStarted(id) => turnId := id;
      case AgentDelta(text) =>
        deltas := deltas + [text];
        stopped := Publish(OutputTextDelta, text, None, stop);
      case ItemCompleted(item) =>
        if item.Some? {
          items := items + [item.value];
        }
      case UsageUpdated(u) =>
        usage := Some(u);
        stopped := Publish(TokenUsageUpdated, "", None, stop);
      case TurnCompleted(id, status, turnItems) => outcome, stopped := TurnIsOver(id, status, turnItems, stop);
      case OtherNotification =>
    }

    /** The loop over the notifications. */
    method Deliver(ns: seq<Notification>, stop: Option<Stop>) returns (outcome: Outcome, stopped: bool)
      requires sequence == |trace| && !Stops(trace, stop)
      modifies this
      ensures Reached(ConsumeAll(old(View(Running)), ns), outcome, stopped, stop)
    {
      ghost var body := ConsumeAll(View(Running), ns);
      outcome, stopped := Running, false;
      var k := 0;
      while k < |ns| && outcome.Running?
        invariant 0 <= k <= |ns| && !stopped
        invariant sequence == |trace| && !Stops(trace, stop)
        invariant ConsumeAll(View(outcome), ns[k..]) == body
      {
        assert ns[k..][0] == ns[k] && ns[k..][1..] == ns[k + 1..];
        ConsumeAllExtends(Consume(View(Running), ns[k]), ns[k + 1..]);
        outcome, stopped := Handle(ns[k], stop);
        if stopped { return; }
        k := k + 1;
      }
    }

    /** The body of the `try`: the opening events and the notifications. */
    method Body(ns: seq<Notification>, stop: Option<Stop>) returns (outcome: Outcome, stopped: bool)
      requires View(Running) == State(turnId, [], [], None, None, None, 0, [], Running)
      modifies this
      ensures Reached(ConsumeAll(Begin(old(turnId)), ns), outcome, stopped, stop)
    {
      ConsumeAllExtends(Begin(turnId), ns);
      outcome := Running;
      stopped := Publish(InvocationStarted, "", None, stop);
      if stopped { return; }
      stopped := Publish(TurnBegan, "", None, stop);
      if stopped { return; }
      outcome, stopped := Deliver(ns, stop);
    }

    /** What follows the notifications when nothing has stopped the run. */
    method Finish(ending: Ending, stop: Option<Stop>) returns (outcome: Outcome, stopped: bool)
      requires sequence == |trace| && !Stops(trace, stop)
      modifies this
      ensures Reached(End(old(View(Running)), ending), outcome, stopped, stop)
    {
      stopped := false;
      match ending
      case StreamEnds =>
        outcome := Returned;
        if terminalStatus.None? {
          stopped := Publish(InvocationFailed, "", None, stop);
          outcome := RaisedTransportError;
        }
      case RuntimeError =>
        if terminalStatus.None? {
          stopped := Publish(InvocationFailed, "", None, stop);
        }
        outcome := RaisedRuntimeError;
      case OtherError =>
        stopped := Publish(InvocationFailed, "", None, stop);
        outcome := RaisedTransportError;
      case CancelledWhileWaiting =>
        stopped := Publish(Cancelled, "", None, stop);
        outcome := RaisedCancelled;
    }

    method AnnounceCancellation()
      modifies this`trace, this`sequence
      ensures trace == old(trace) + [Event(Cancelled, old(sequence), turnId, "", None)]
    {
      ghost var t := Emit(View(Running), Cancelled, "", None);
      var _ := Publish(Cancelled, "", None, None);
      assert View(Running) == t;
    }

    /** `events`, for a stream that delivers `ns` and then comes to `ending`, unless it is stopped. */
    method Events(ns: seq<Notification>, ending: Ending, stop: Option<Stop>) returns (outcome: Outcome)
      requires View(Running) == State(turnId, [], [], None, None, None, 0, [], Running)
      modifies this
      ensures trace == Emitted(old(turnId), ns, ending, stop)
      ensures outcome == Ended(old(turnId), ns, ending, stop)
      ensures !Stops(Run(old(turnId), ns, ending).trace, stop) ==> View(outcome) == Run(old(turnId), ns, ending)
    {
      ghost var body, full := ConsumeAll(Begin(turnId), ns), Run(turnId, ns, ending);
      BeginInv(turnId);
      ConsumeAllKeepsInv(Begin(turnId), ns);
      EndExtends(body, ending);
      BodyIsNotCancelled(Begin(turnId), ns);
      var stopped;
      outcome, stopped := Body(ns, stop);
      if stopped {
        StoppedIn(trace, body.trace, full.trace, stop);
        outcome := ConsumerLeft;
        assert trace + [] == trace;
        if stop.value.cancelled {
          AnnounceCancellation();
          outcome := RaisedCancelled;
        }
        return;
      }
      if outcome.Running? {
        outcome, stopped := Finish(ending, stop);
        if stopped {
          StoppedIn(trace, full.trace, full.trace, stop);
          assert trace + [] == trace;
          var cut := stop.value.cancelled || trace[|trace| - 1].kind == Cancelled;
          outcome := if cut then RaisedCancelled else ConsumerLeft;
        }
      }
    }
  }
}
