/**
 * The safety pipeline one owner runs: validate, check the permission, ask for approval, check
 * idempotence, then a bounded retry loop, each stage announced by an event. The first part is an
 * automaton over traces of events with what follows for every trace it accepts; the second part is
 * the pipeline itself, whose events in the executor's shared list are proved to be such a trace.
 */
module ToolPipeline {
  import opened Options
  import opened ToolTypes

  datatype SideEffect = NoEffect | Read | Write | Destructive

  datatype ApprovalRequirement = Never | Always | ForSideEffects

  datatype Definition = Definition(
    name: string,
    permission: string,
    sideEffect: SideEffect,
    idempotent: bool,
    approval: ApprovalRequirement)

  datatype Kind =
    | ToolRequested
    | ValidationFailed
    | ApprovalRequested
    | ApprovalResolved(approved: bool)
    | ToolStarted
    | RetryScheduled
    | ToolCompleted
    | ToolDenied
    | ToolFailed

  datatype Event = Event(key: Key, kind: Kind, attempt: nat, sequence: nat)

  predicate Terminal(k: Kind) {
    k.ToolCompleted? || k.ToolDenied? || k.ToolFailed?
  }

  predicate RequiresApproval(d: Definition) {
    d.approval.Always? || (d.approval.ForSideEffects? && (d.sideEffect.Write? || d.sideEffect.Destructive?))
  }

  /** What the pipeline is about: the tool if it is known, and the facts its guards look at. */
  datatype Context = Context(
    definition: Option<Definition>,
    argumentsValid: bool,
    permissions: set<string>,
    hasHandler: bool,
    maxAttempts: nat)
  {
    predicate Allowed() {
      definition.Some? && argumentsValid && definition.value.permission in permissions
    }

    predicate NeedsApproval() {
      definition.Some? && RequiresApproval(definition.value)
    }

    /** A tool that is not idempotent runs under a policy of one attempt only. */
    predicate Compatible() {
      definition.Some? && (maxAttempts <= 1 || definition.value.idempotent)
    }
  }

  // ---------- The automaton ----------

  datatype Phase =
    | Fresh
    | Asked
    | Invalid
    | AwaitingApproval
    | Decided(approved: bool)
    | Running(attempt: nat)
    | Retrying(attempt: nat)
    | Ended
    | Stuck

  predicate MayStart(ctx: Context, q: Phase) {
    && ctx.Allowed() && ctx.Compatible()
    && if ctx.NeedsApproval() then q == Decided(true) else q.Asked?
  }

  predicate MayFailUnstarted(ctx: Context, q: Phase) {
    match q
    case Asked => ctx.definition.None? || (ctx.Allowed() && !ctx.NeedsApproval() && !ctx.Compatible())
    case Invalid => true
    case Decided(approved) => approved && !ctx.Compatible()
    case _ => false
  }

  predicate MayDeny(ctx: Context, q: Phase) {
    match q
    case Asked => ctx.definition.Some? && ctx.argumentsValid && !ctx.Allowed()
    case Decided(approved) => !approved
    case _ => false
  }

  function Delta(ctx: Context, q: Phase, kind: Kind, attempt: nat): Phase {
    match kind
    case ToolRequested => if q.Fresh? && attempt == 0 then Asked else Stuck
    case ValidationFailed =>
      if q.Asked? && attempt == 0 && ctx.definition.Some? && !ctx.argumentsValid then Invalid else Stuck
    case ApprovalRequested =>
      if q.Asked? && attempt == 0 && ctx.Allowed() && ctx.NeedsApproval() then AwaitingApproval else Stuck
    case ApprovalResolved(approved) =>
      if q.AwaitingApproval? && attempt == 0 && (approved ==> ctx.hasHandler) then Decided(approved) else Stuck
    case ToolStarted =>
      if MayStart(ctx, q) && attempt == 1 then Running(1)
      else if q.Retrying? && attempt == q.attempt + 1 then Running(attempt)
      else Stuck
    case RetryScheduled =>
      if q.Running? && attempt == q.attempt && attempt < ctx.maxAttempts then Retrying(attempt) else Stuck
    case ToolCompleted => if q.Running? && attempt == q.attempt then Ended else Stuck
    case ToolFailed =>
      if q.Running? && attempt == q.attempt then Ended
      else if MayFailUnstarted(ctx, q) && attempt == 0 then Ended
      else Stuck
    case ToolDenied => if MayDeny(ctx, q) && attempt == 0 then Ended else Stuck
  }

  /** The phase a trace leads to. */
  function Reach(ctx: Context, trace: seq<Event>): Phase {
    if trace == [] then Fresh
    else
      var last := trace[|trace| - 1];
      Delta(ctx, Reach(ctx, trace[..|trace| - 1]), last.kind, last.attempt)
  }

  function Starts(trace: seq<Event>): nat {
    if trace == [] then 0
    else Starts(trace[..|trace| - 1]) + if trace[|trace| - 1].kind.ToolStarted? then 1 else 0
  }

  // ---------- What holds of every accepted trace ----------

  lemma {:induction false} StuckIsForever(ctx: Context, trace: seq<Event>, n: nat)
    requires n <= |trace| && (Reach(ctx, trace[..n]).Stuck? || (Reach(ctx, trace[..n]).Ended? && n < |trace|))
    ensures Reach(ctx, trace).Stuck?
    decreases |trace|
  {
    if n == |trace| {
      assert trace[..n] == trace;
    } else {
      var front := trace[..|trace| - 1];
      assert front[..n] == trace[..n];
      if n == |front| {
        assert front[..n] == front;
      } else {
        StuckIsForever(ctx, front, n);
      }
    }
  }

  /** The first event is the request, and a terminal event, if there is one, is the last and only one. */
  lemma {:induction false} OneTerminalAtTheEnd(ctx: Context, trace: seq<Event>)
    requires !Reach(ctx, trace).Stuck? && trace != []
    ensures trace[0].kind.ToolRequested?
    ensures forall i :: 0 <= i < |trace| - 1 ==> !Terminal(trace[i].kind)
    ensures Terminal(trace[|trace| - 1].kind) <==> Reach(ctx, trace).Ended?
  {
    if Reach(ctx, trace[..1]).Stuck? {
      StuckIsForever(ctx, trace, 1);
    }
    assert trace[..1][..0] == [] && trace[..1][0] == trace[0];
    assert Reach(ctx, trace[..1]) == Delta(ctx, Fresh, trace[0].kind, trace[0].attempt);
    forall i | 0 <= i < |trace| - 1 ensures !Terminal(trace[i].kind) {
      assert trace[..i + 1][..i] == trace[..i];
      if Terminal(trace[i].kind) {
        StuckIsForever(ctx, trace, i + 1);
      }
    }
  }

  /** Bodies started so far, as the phase knows them. */
  lemma {:induction false} StartsAreCounted(ctx: Context, trace: seq<Event>)
    requires !Reach(ctx, trace).Stuck?
    ensures Reach(ctx, trace).Running? || Reach(ctx, trace).Retrying? ==> Reach(ctx, trace).attempt == Starts(trace)
    ensures !Reach(ctx, trace).Running? && !Reach(ctx, trace).Retrying? && !Reach(ctx, trace).Ended? ==>
              Starts(trace) == 0
    ensures Reach(ctx, trace).Retrying? ==> Starts(trace) < ctx.maxAttempts
    ensures 0 < Starts(trace) ==> ctx.Allowed() && ctx.Compatible()
    ensures Starts(trace) <= if ctx.maxAttempts == 0 then 1 else ctx.maxAttempts
    decreases |trace|
  {
    if trace != [] {
      StartsAreCounted(ctx, trace[..|trace| - 1]);
    }
  }

  /**
   * Bodies run at most `maxAttempts` times, and at most once when the tool is not idempotent; none
   * runs without valid arguments and an allowed permission.
   */
  lemma BodiesAreBounded(ctx: Context, trace: seq<Event>)
    requires !Reach(ctx, trace).Stuck? && 1 <= ctx.maxAttempts
    ensures Starts(trace) <= ctx.maxAttempts
    ensures 0 < Starts(trace) ==> ctx.Allowed()
    ensures ctx.definition.Some? && !ctx.definition.value.idempotent ==> Starts(trace) <= 1
  {
    StartsAreCounted(ctx, trace);
  }

  lemma {:induction false} ApprovedFirst(ctx: Context, trace: seq<Event>)
    requires !Reach(ctx, trace).Stuck? && ctx.NeedsApproval()
    requires Reach(ctx, trace) == Decided(true) || 0 < Starts(trace)
    ensures ctx.hasHandler
    ensures exists j :: 0 <= j < |trace| && trace[j].kind == ApprovalResolved(true)
    decreases |trace|
  {
    var front := trace[..|trace| - 1];
    if trace[|trace| - 1].kind != ApprovalResolved(true) {
      ApprovedFirst(ctx, front);
      var j :| 0 <= j < |front| && front[j].kind == ApprovalResolved(true);
      assert trace[j] == front[j];
    }
  }

  /** When approval is required, there is a handler and its APPROVE decision comes before every body. */
  lemma NoBodyBeforeApproval(ctx: Context, trace: seq<Event>, i: nat)
    requires !Reach(ctx, trace).Stuck? && ctx.NeedsApproval()
    requires i < |trace| && trace[i].kind.ToolStarted?
    ensures ctx.hasHandler
    ensures exists j :: 0 <= j < i && trace[j].kind == ApprovalResolved(true)
  {
    if Reach(ctx, trace[..i + 1]).Stuck? {
      StuckIsForever(ctx, trace, i + 1);
    }
    assert trace[..i + 1][..i] == trace[..i];
    assert Starts(trace[..i + 1]) > 0;
    ApprovedFirst(ctx, trace[..i + 1]);
    var j :| 0 <= j < |trace[..i + 1]| && trace[..i + 1][j].kind == ApprovalResolved(true);
    assert trace[j] == trace[..i + 1][j] && j != i;
  }

  predicate ApprovedIn(trace: seq<Event>) {
    exists j :: 0 <= j < |trace| && trace[j].kind == ApprovalResolved(true)
  }

  lemma {:induction false} OnceApproved(ctx: Context, trace: seq<Event>, j: nat)
    requires j < |trace| && trace[j].kind == ApprovalResolved(true)
    ensures var q := Reach(ctx, trace); q == Decided(true) || q.Running? || q.Retrying? || q.Ended? || q.Stuck?
    decreases |trace|
  {
    var front := trace[..|trace| - 1];
    if j < |front| {
      assert front[j] == trace[j];
      OnceApproved(ctx, front, j);
    }
  }

  lemma {:induction false} NotYetStarted(ctx: Context, trace: seq<Event>)
    requires !Reach(ctx, trace).Stuck?
    ensures Reach(ctx, trace).Invalid? ==> !ctx.argumentsValid
    ensures Reach(ctx, trace).Decided? || Reach(ctx, trace).AwaitingApproval? ==> ctx.NeedsApproval()
    ensures Reach(ctx, trace).Running? ==> 0 < Starts(trace)
    decreases |trace|
  {
    if trace != [] {
      NotYetStarted(ctx, trace[..|trace| - 1]);
    }
  }

  /**
   * A body starts exactly when the tool is known, its arguments are valid, its permission is allowed,
   * the retry policy suits it and, where approval is required, it was approved.
   */
  lemma BodiesStartExactlyWhenAllowed(ctx: Context, trace: seq<Event>)
    requires Reach(ctx, trace).Ended?
    ensures 0 < Starts(trace) <==> ctx.Allowed() && ctx.Compatible() && (ctx.NeedsApproval() ==> ApprovedIn(trace))
  {
    var front := trace[..|trace| - 1];
    StartsAreCounted(ctx, trace);
    NotYetStarted(ctx, front);
    if 0 < Starts(trace) && ctx.NeedsApproval() {
      ApprovedFirst(ctx, trace);
    }
    if Reach(ctx, front) == Decided(false) && ApprovedIn(trace) {
      var j :| 0 <= j < |trace| && trace[j].kind == ApprovalResolved(true);
      assert front[j] == trace[j];
      OnceApproved(ctx, front, j);
    }
  }

  // ---------- The pipeline ----------

  /**
   * What comes of asking the handler. `CannotAsk` is an exception before there is anything to await:
   * the arguments cannot be presented as JSON, or the handler raises at the call itself.
   */
  datatype ApprovalReply =
    | Approve
    | Deny
    | NotADecision
    | HandlerRaised
    | HandlerTimedOut
    | HandlerCancelled
    | CannotAsk(error: ToolError)

  /** A body's reply; a tool whose arguments cannot be dumped for the completion event has `RaisedOther`. */
  datatype BodyReply =
    | Output(value: string)
    | BadOutput
    | TimedOut
    | RaisedToolError(code: string, timedOut: bool, attempts: Attempts)
    | RaisedOther

  /** An event another request puts into the shared list. */
  datatype Foreign = Foreign(key: Key, kind: Kind, attempt: nat)

  /**
   * What one await brings: cancellation of this request, the handler's or the body's reply, and the
   * events other requests emit before this one runs again.
   */
  datatype Answer = Answer(cancelled: bool, approval: ApprovalReply, body: BodyReply, others: seq<Foreign>)

  predicate Elsewhere(key: Key, a: Answer) {
    forall f | f in a.others :: f.key != key
  }

  /** Other requests have other keys. */
  ghost predicate AllElsewhere(key: Key, answer: nat -> Answer) {
    forall i: nat :: Elsewhere(key, answer(i))
  }

  /** The request is never cancelled. */
  ghost predicate Steady(answer: nat -> Answer) {
    forall i: nat :: !answer(i).cancelled
  }

  /** The replies after which the loop goes on to the next attempt, if there is one. */
  predicate Retryable(r: BodyReply) {
    r.TimedOut? || r.RaisedToolError? || r.RaisedOther?
  }

  /** The error an attempt leaves behind. */
  function AttemptError(r: BodyReply): ToolError {
    match r
    case RaisedToolError(code, timedOut, attempts) => ToolError(code, false, timedOut, attempts)
    case TimedOut => ToolError("tool_execution_error", false, true, Absent)
    case _ => ToolError("tool_execution_error", false, false, Absent)
  }

  function Plain(): ToolError {
    ToolError("tool_execution_error", false, false, Absent)
  }

  function Denied(): ToolError {
    ToolError("tool_denied", true, false, Absent)
  }

  /** The error of a pipeline that ends before its first body. */
  function UnstartedError(ctx: Context, last: Kind): ToolError {
    if last.ToolDenied? then Denied()
    else if ctx.definition.Some? && ctx.argumentsValid then Plain().(attempts := Count(0))
    else Plain()
  }

  /** The exception that leaves the approval stage, which nothing in the pipeline catches. */
  function Escape(ctx: Context, asked: ApprovalReply): Option<ToolError> {
    if ctx.Allowed() && ctx.NeedsApproval() && ctx.hasHandler && asked.CannotAsk? then Some(asked.error) else None
  }

  /**
   * How an uncancelled pipeline's end follows from the replies of the bodies it ran and its last event.
   * Every reply but the last was retryable; an output is the result, reported with the number of
   * bodies run; retryable replies end the pipeline only when the attempts are used up; and an
   * exception that escapes the approval stage is the end, with no event behind the question.
   */
  predicate Explains(ctx: Context, last: Kind, replies: seq<BodyReply>, escape: Option<ToolError>, end: Pipeline) {
    && (forall i | 0 <= i < |replies| - 1 :: Retryable(replies[i]))
    && (end.Completed? <==> last.ToolCompleted?)
    && if escape.Some? then
         replies == [] && last.ApprovalRequested? && end == Failed(escape.value)
       else if replies == [] then
         && end.Failed?
         && (last.ToolDenied? || last.ToolFailed?)
         && end.error == UnstartedError(ctx, last)
       else
         match replies[|replies| - 1]
         case Output(v) => end == Completed(ToolResult(true, v, None, |replies|, false, false))
         case BadOutput => last.ToolFailed? && end == Failed(Plain())
         case reply =>
           && last.ToolFailed? && |replies| == ctx.maxAttempts
           && end == Failed(if ctx.maxAttempts > 1
                            then ToolError("retry_exhausted", false, false, Count(ctx.maxAttempts))
                            else AttemptError(reply))
  }

  /**
   * The attempts an error result reports are the bodies that ran, except in these cases: a request
   * that was denied, unknown or invalid reports 1 and ran none; a rejected output reports 1 whatever
   * the attempt; under a single-attempt policy the tool's own error may name any number, and so may an
   * error that escapes the approval stage, under any policy.
   */
  lemma ReportedAttemptsAreBodiesRun(ctx: Context, last: Kind, replies: seq<BodyReply>, escape: Option<ToolError>,
                                     end: Pipeline)
    requires Explains(ctx, last, replies, escape, end) && end.Failed? && Convertible(end.error)
    ensures ErrorResult(end.error).value.attempts == |replies|
            <==> if escape.Some? then escape.value.attempts == Count(0)
                 else if replies == [] then last.ToolFailed? && ctx.definition.Some? && ctx.argumentsValid
                 else match replies[|replies| - 1]
                   case BadOutput => |replies| == 1
                   case RaisedToolError(_, _, n) => ctx.maxAttempts > 1 || n.Absent? || n == Count(1)
                   case _ => true
  {
    if replies != [] {
      assert replies[|replies| - 1].BadOutput? || |replies| == ctx.maxAttempts;
    }
  }

  /**
   * The executor's own errors can always be converted to a result. One that cannot is the error that
   * escaped the approval stage, or comes from a tool body under a policy of a single attempt.
   */
  lemma ConversionBreaksExactly(ctx: Context, last: Kind, replies: seq<BodyReply>, escape: Option<ToolError>,
                                end: Pipeline)
    requires Explains(ctx, last, replies, escape, end) && end.Failed?
    ensures !Convertible(end.error)
            <==> if escape.Some? then !Convertible(escape.value)
                 else && ctx.maxAttempts == 1 && |replies| == 1 && replies[0].RaisedToolError?
                      && !Convertible(AttemptError(replies[0]))
  {
    if replies != [] {
      assert replies[|replies| - 1].BadOutput? || |replies| == ctx.maxAttempts;
    }
  }

  /** How an attempt whose body replied ends: with the pipeline's end, or with none to send the loop on. */
  predicate Concluded(ctx: Context, trace: seq<Event>, attempt: nat, reply: BodyReply, end: Option<Pipeline>) {
    && trace != []
    && !Reach(ctx, trace).Stuck?
    && match end
       case None =>
         && Retryable(reply)
         && Reach(ctx, trace) == if attempt < ctx.maxAttempts then Retrying(attempt) else Running(attempt)
       case Some(Completed(result)) =>
         && Reach(ctx, trace).Ended? && trace[|trace| - 1].kind.ToolCompleted?
         && reply.Output? && result == ToolResult(true, reply.value, Option.None, attempt, false, false)
       case Some(Failed(error)) =>
         && Reach(ctx, trace).Ended? && trace[|trace| - 1].kind.ToolFailed?
         && reply.BadOutput? && error == Plain()
       case Some(Interrupted) => true
  }

  /** A pass of the loop leaves the next attempt to make, or an end its replies explain. */
  predicate PassEnded(ctx: Context, trace: seq<Event>, replies: seq<BodyReply>, end: Option<Pipeline>) {
    && trace != []
    && match end
       case None => AllRetryable(replies) && BeforeAttempt(ctx, Reach(ctx, trace), |replies| + 1)
       case Some(Interrupted) => true
       case Some(p) => Reach(ctx, trace).Ended? && Explains(ctx, trace[|trace| - 1].kind, replies, None, p)
  }

  /** With the replies before it, the reply that ends an attempt explains the pipeline's end. */
  lemma LastReplyExplains(ctx: Context, trace: seq<Event>, replies: seq<BodyReply>, reply: BodyReply,
                          end: Option<Pipeline>)
    requires AllRetryable(replies) && |replies| < ctx.maxAttempts && Concluded(ctx, trace, |replies| + 1, reply, end)
    ensures PassEnded(ctx, trace, replies + [reply], end)
  {
  }

  /** How the approval callback ends: with a decision, with an exception, or with the request's cancellation. */
  datatype Verdict = Verdict(approved: bool) | Raised(error: ToolError) | Withdrawn

  /** The reply of the body of an attempt: three awaits to an attempt, behind the checks' five. */
  function BodyAnswer(answer: nat -> Answer, attempt: nat): BodyReply {
    answer(3 + 3 * attempt).body
  }

  /** The replies are those of the bodies of the attempts 1, 2, and so on. */
  predicate InTurn(answer: nat -> Answer, replies: seq<BodyReply>) {
    forall i | 0 <= i < |replies| :: replies[i] == BodyAnswer(answer, i + 1)
  }

  predicate AllRetryable(replies: seq<BodyReply>) {
    forall i | 0 <= i < |replies| :: Retryable(replies[i])
  }

  /** Where the loop stands before an attempt. */
  predicate BeforeAttempt(ctx: Context, q: Phase, attempt: nat) {
    if attempt == 1 then MayStart(ctx, q)
    else if attempt == ctx.maxAttempts + 1 then q == Running(ctx.maxAttempts)
    else 1 < attempt && q == Retrying(attempt - 1)
  }

  /** The events of one request within the executor's shared list. */
  function Own(events: seq<Event>, key: Key): seq<Event> {
    if events == [] then []
    else Own(events[..|events| - 1], key) + if events[|events| - 1].key == key then [events[|events| - 1]] else []
  }

  ghost function Of(own: map<Key, seq<Event>>, key: Key): seq<Event> {
    if key in own then own[key] else []
  }

  lemma {:induction false} OwnAppend(a: seq<Event>, b: seq<Event>, key: Key)
    ensures Own(a + b, key) == Own(a, key) + Own(b, key)
    decreases |b|
  {
    if b == [] {
      assert a + b == a;
    } else {
      assert (a + b)[..|a + b| - 1] == a + b[..|b| - 1];
      OwnAppend(a, b[..|b| - 1], key);
    }
  }

  lemma OwnPush(events: seq<Event>, e: Event, key: Key)
    ensures Own(events + [e], key) == Own(events, key) + if e.key == key then [e] else []
  {
    OwnAppend(events, [e], key);
    assert [e][..0] == [];
    assert Own([e], key) == if e.key == key then [e] else [];
  }

  class ToolExecutor {
    const permissions: set<string>
    const hasHandler: bool
    const maxAttempts: nat
    var events: seq<Event>
    var sequence: nat
    /** The events of each request, kept beside the list: those of its running owner, and those before. */
    ghost var own: map<Key, seq<Event>>
    ghost var past: map<Key, seq<Event>>

    /** Every event of the list has been numbered in turn and belongs to its request's events. */
    ghost predicate Valid()
      reads this
    {
      && 1 <= maxAttempts <= 3
      && |events| == sequence
      && (forall i | 0 <= i < |events| :: events[i].sequence == i + 1)
      && (forall k {:trigger Own(events, k)} :: Own(events, k) == Of(past, k) + Of(own, k))
    }

    /** The retry policy's own check: between one and three attempts. */
    constructor (permissions: set<string>, hasHandler: bool, maxAttempts: nat)
      requires 1 <= maxAttempts <= 3
      ensures Valid() && events == []
      ensures this.permissions == permissions && this.hasHandler == hasHandler && this.maxAttempts == maxAttempts
    {
      this.permissions, this.hasHandler, this.maxAttempts := permissions, hasHandler, maxAttempts;
      events, sequence, own, past := [], 0, map[], map[];
    }

    /**
     * `_emit`: number the event, append it, and await the sink, during which other requests may run.
     * `trace` holds the events of this request so far.
     */
    method Emit(ghost ctx: Context, trace: seq<Event>, kind: Kind, key: Key, attempt: nat,
                a: Answer)
      returns (longer: seq<Event>)
      requires Valid() && Elsewhere(key, a) && Of(own, key) == trace
      modifies this
      ensures Valid() && past == old(past)
      ensures |longer| == |trace| + 1 && longer[|trace|].kind == kind
      ensures Of(own, key) == longer
      ensures Reach(ctx, longer) == Delta(ctx, Reach(ctx, trace), kind, attempt)
      ensures Starts(longer) == Starts(trace) + if kind.ToolStarted? then 1 else 0
    {
      Append(Event(key, kind, attempt, sequence + 1));
      longer := trace + [events[|events| - 1]];
      assert longer[..|trace|] == trace;
      Suspend(key, a);
    }

    method Append(e: Event)
      requires Valid() && e.sequence == sequence + 1
      modifies this
      ensures Valid() && events == old(events) + [e] && past == old(past)
      ensures own == old(own)[e.key := Of(old(own), e.key) + [e]]
    {
      sequence := sequence + 1;
      ghost var before := events;
      events := events + [e];
      own := own[e.key := Of(own, e.key) + [e]];
      forall k ensures Own(events, k) == Of(past, k) + Of(own, k) {
        OwnPush(before, e, k);
      }
    }

    /** Other requests of the same executor emit their events. */
    method Suspend(key: Key, a: Answer)
      requires Valid() && Elsewhere(key, a)
      modifies this
      ensures Valid() && past == old(past) && Of(own, key) == Of(old(own), key)
    {
      for i := 0 to |a.others|
        invariant Valid() && past == old(past) && Of(own, key) == Of(old(own), key)
      {
        assert a.others[i] in a.others;
        Append(Event(a.others[i].key, a.others[i].kind, a.others[i].attempt, sequence + 1));
      }
    }

    /** `_approval`: the handler's decision, a denial without one. */
    method Decide(key: Key, a: Answer) returns (verdict: Verdict)
      requires Valid() && Elsewhere(key, a)
      modifies this
      ensures Valid() && past == old(past) && Of(own, key) == old(Of(own, key))
      ensures verdict == Verdict(true) <==> hasHandler && !a.cancelled && a.approval.Approve?
      ensures verdict.Raised? <==> hasHandler && a.approval.CannotAsk?
      ensures verdict.Raised? ==> verdict.error == a.approval.error
      ensures verdict.Withdrawn? ==> a.cancelled
    {
      if !hasHandler {
        return Verdict(false);
      }
      if a.approval.CannotAsk? {
        return Raised(a.approval.error);
      }
      Suspend(key, a);
      return if a.cancelled then Withdrawn else Verdict(a.approval.Approve?);
    }

    /** The approval stage; an end of `None` means that the handler approved. */
    method Approval(ghost ctx: Context, soFar: seq<Event>, key: Key, answer: nat -> Answer)
      returns (end: Option<Pipeline>, trace: seq<Event>)
      requires Valid() && AllElsewhere(key, answer)
      requires Of(own, key) == soFar && ctx.hasHandler == hasHandler
      requires ctx.Allowed() && ctx.NeedsApproval() && Reach(ctx, soFar).Asked?
      modifies this
      ensures Valid() && past == old(past)
      ensures Of(own, key) == trace && trace != [] && Starts(trace) == Starts(soFar)
      ensures !Reach(ctx, trace).Stuck?
      ensures Steady(answer) ==> end != Some(Interrupted)
      ensures end.None? ==> Reach(ctx, trace) == Decided(true) && hasHandler && answer(2).approval.Approve?
      ensures end.Some? && !end.value.Interrupted? ==>
                if Escape(ctx, answer(2).approval).Some?
                then && Reach(ctx, trace).AwaitingApproval? && trace[|trace| - 1].kind.ApprovalRequested?
                     && end.value == Failed(answer(2).approval.error)
                else && Reach(ctx, trace).Ended? && trace[|trace| - 1].kind.ToolDenied?
                     && end.value == Failed(Denied())
    {
      end := Some(Interrupted);
      trace := Emit(ctx, soFar, ApprovalRequested, key, 0, answer(1));
      if answer(1).cancelled { return; }
      var verdict := Decide(key, answer(2));
      if verdict.Raised? { return Some(Failed(verdict.error)), trace; }
      if verdict.Withdrawn? { return; }
      trace := Emit(ctx, trace, ApprovalResolved(verdict.approved), key, 0, answer(3));
      if answer(3).cancelled { return; }
      if verdict.approved { return None, trace; }
      end, trace := Refuse(ctx, trace, ToolDenied, key, Denied(), answer(4));
    }

    /** A terminal event for a request whose body never started, and the error it is raised with. */
    method Refuse(ghost ctx: Context, soFar: seq<Event>, kind: Kind, key: Key, error: ToolError,
                  a: Answer)
      returns (end: Option<Pipeline>, trace: seq<Event>)
      requires Valid() && Elsewhere(key, a) && Of(own, key) == soFar
      requires kind.ToolDenied? || kind.ToolFailed?
      requires Delta(ctx, Reach(ctx, soFar), kind, 0).Ended? && error == UnstartedError(ctx, kind)
      modifies this
      ensures Valid() && past == old(past)
      ensures Of(own, key) == trace && trace != [] && Starts(trace) == Starts(soFar)
      ensures Reach(ctx, trace).Ended? && trace[|trace| - 1].kind == kind
      ensures end == Some(if a.cancelled then Interrupted else Failed(error))
      ensures !a.cancelled ==> Explains(ctx, kind, [], None, Failed(error))
    {
      trace := Emit(ctx, soFar, kind, key, 0, a);
      end := Some(if a.cancelled then Interrupted else Failed(error));
    }

    /** The checks every request goes through; an end of `None` means that it is known, valid and allowed. */
    method Screen(ghost ctx: Context, soFar: seq<Event>, key: Key, definition: Option<Definition>,
                  argumentsValid: bool, answer: nat -> Answer)
      returns (end: Option<Pipeline>, trace: seq<Event>)
      requires Valid() && AllElsewhere(key, answer)
      requires Of(own, key) == soFar && soFar != [] && Reach(ctx, soFar).Asked?
      requires ctx == Context(definition, argumentsValid, permissions, hasHandler, maxAttempts)
      modifies this
      ensures Valid() && past == old(past)
      ensures Of(own, key) == trace && trace != [] && Starts(trace) == Starts(soFar)
      ensures !Reach(ctx, trace).Stuck?
      ensures Steady(answer) ==> end != Some(Interrupted)
      ensures end.None? <==> ctx.Allowed()
      ensures end.None? ==> trace == soFar
      ensures end.Some? && !end.value.Interrupted? ==>
                Reach(ctx, trace).Ended? && Explains(ctx, trace[|trace| - 1].kind, [], None, end.value)
    {
      trace := soFar;
      if definition.None? {
        end, trace := Refuse(ctx, trace, ToolFailed, key, Plain(), answer(1));
        return;
      }
      if !argumentsValid {
        trace := Emit(ctx, trace, ValidationFailed, key, 0, answer(1));
        if answer(1).cancelled { return Some(Interrupted), trace; }
        end, trace := Refuse(ctx, trace, ToolFailed, key, Plain(), answer(2));
        return;
      }
      if definition.value.permission !in permissions {
        end, trace := Refuse(ctx, trace, ToolDenied, key, Denied(), answer(1));
        return;
      }
      end := None;
    }

    /** Approval where the tool requires it, then the check that the retry policy suits the tool. */
    method Admit(ghost ctx: Context, soFar: seq<Event>, key: Key, tool: Definition, answer: nat -> Answer)
      returns (end: Option<Pipeline>, trace: seq<Event>)
      requires Valid() && AllElsewhere(key, answer)
      requires Of(own, key) == soFar && soFar != [] && Reach(ctx, soFar).Asked?
      requires ctx.Allowed() && ctx == Context(Some(tool), true, permissions, hasHandler, maxAttempts)
      modifies this
      ensures Valid() && past == old(past)
      ensures Of(own, key) == trace && trace != [] && Starts(trace) == Starts(soFar)
      ensures !Reach(ctx, trace).Stuck?
      ensures Steady(answer) ==> end != Some(Interrupted)
      ensures end.None? ==> MayStart(ctx, Reach(ctx, trace)) && Escape(ctx, answer(2).approval).None?
      ensures end.Some? && !end.value.Interrupted? ==>
                && (Reach(ctx, trace).Ended? <==> Escape(ctx, answer(2).approval).None?)
                && Explains(ctx, trace[|trace| - 1].kind, [], Escape(ctx, answer(2).approval), end.value)
    {
      end, trace := None, soFar;
      if RequiresApproval(tool) {
        end, trace := Approval(ctx, trace, key, answer);
      }
      if end.None? && maxAttempts > 1 && !tool.idempotent {
        end, trace := Refuse(ctx, trace, ToolFailed, key, Plain().(attempts := Count(0)), answer(4));
      }
    }

    /**
     * `_execute_owner` up to its first body, with `answer(i)` coming from the i-th await. An end of
     * `None` means that the body may start; five awaits at most have been made by then.
     */
    method Preflight(ghost ctx: Context, key: Key, definition: Option<Definition>,
                     argumentsValid: bool, answer: nat -> Answer)
      returns (end: Option<Pipeline>, trace: seq<Event>)
      requires Valid() && AllElsewhere(key, answer)
      requires Of(own, key) == []
      requires ctx == Context(definition, argumentsValid, permissions, hasHandler, maxAttempts)
      modifies this
      ensures Valid() && past == old(past)
      ensures Of(own, key) == trace && trace != [] && Starts(trace) == 0
      ensures !Reach(ctx, trace).Stuck?
      ensures Steady(answer) ==> end != Some(Interrupted)
      ensures end.None? ==> MayStart(ctx, Reach(ctx, trace)) && Escape(ctx, answer(2).approval).None?
      ensures end.Some? && !end.value.Interrupted? ==>
                && (Reach(ctx, trace).Ended? <==> Escape(ctx, answer(2).approval).None?)
                && Explains(ctx, trace[|trace| - 1].kind, [], Escape(ctx, answer(2).approval), end.value)
    {
      trace := Emit(ctx, [], ToolRequested, key, 0, answer(0));
      if answer(0).cancelled { return Some(Interrupted), trace; }
      end, trace := Screen(ctx, trace, key, definition, argumentsValid, answer);
      if end.None? {
        end, trace := Admit(ctx, trace, key, definition.value, answer);
      }
    }

    /** Announce one attempt and await its body; no reply means that this request was cancelled. */
    method RunBody(ghost ctx: Context, soFar: seq<Event>, key: Key, attempt: nat,
                   started: Answer, finished: Answer)
      returns (reply: Option<BodyReply>, trace: seq<Event>)
      requires Valid() && Elsewhere(key, started) && Elsewhere(key, finished)
      requires Of(own, key) == soFar
      requires if attempt <= 1 then attempt == 1 && MayStart(ctx, Reach(ctx, soFar))
               else Reach(ctx, soFar) == Retrying(attempt - 1)
      modifies this
      ensures Valid() && past == old(past)
      ensures Of(own, key) == trace && trace != [] && Starts(trace) == Starts(soFar) + 1
      ensures Reach(ctx, trace) == Running(attempt)
      ensures reply == if started.cancelled || finished.cancelled then None else Some(finished.body)
    {
      trace := Emit(ctx, soFar, ToolStarted, key, attempt, started);
      reply := None;
      if !started.cancelled {
        Suspend(key, finished);
        reply := if finished.cancelled then None else Some(finished.body);
      }
    }

    /** What follows a body's reply; an end of `None` sends the loop on. */
    method Conclude(ghost ctx: Context, soFar: seq<Event>, key: Key, attempt: nat, reply: BodyReply, last: Answer)
      returns (end: Option<Pipeline>, trace: seq<Event>)
      requires Valid() && Elsewhere(key, last)
      requires ctx.maxAttempts == maxAttempts && 1 <= attempt <= maxAttempts
      requires Of(own, key) == soFar && soFar != [] && Reach(ctx, soFar) == Running(attempt)
      modifies this
      ensures Valid() && past == old(past)
      ensures Of(own, key) == trace && trace != [] && Starts(trace) == Starts(soFar)
      ensures Concluded(ctx, trace, attempt, reply, end)
      ensures end == Some(Interrupted) ==> last.cancelled
    {
      end := Some(Interrupted);
      match reply {
        case Output(value) =>
          trace := Emit(ctx, soFar, ToolCompleted, key, attempt, last);
          if !last.cancelled { end := Some(Completed(ToolResult(true, value, Option.None, attempt, false, false))); }
        case BadOutput =>
          trace := Emit(ctx, soFar, ToolFailed, key, attempt, last);
          if !last.cancelled { end := Some(Failed(Plain())); }
        case _ =>
          trace := soFar;
          if attempt < maxAttempts {
            trace := Emit(ctx, soFar, RetryScheduled, key, attempt, last);
            if last.cancelled { return; }
          }
          end := Option.None;
      }
    }

    /** One pass of the retry loop. */
    method Attempt(ghost ctx: Context, soFar: seq<Event>, key: Key, attempt: nat, answer: nat -> Answer,
                   earlier: seq<BodyReply>)
      returns (end: Option<Pipeline>, trace: seq<Event>, replies: seq<BodyReply>)
      requires Valid() && AllElsewhere(key, answer)
      requires ctx.maxAttempts == maxAttempts && attempt <= maxAttempts
      requires Of(own, key) == soFar && BeforeAttempt(ctx, Reach(ctx, soFar), attempt)
      requires |earlier| == attempt - 1 && AllRetryable(earlier) && InTurn(answer, earlier)
      modifies this
      ensures Valid() && past == old(past)
      ensures Of(own, key) == trace && trace != [] && Starts(trace) == Starts(soFar) + 1
      ensures !Reach(ctx, trace).Stuck?
      ensures Steady(answer) ==> end != Some(Interrupted)
      ensures InTurn(answer, replies) && attempt - 1 <= |replies| <= attempt
      ensures end != Some(Interrupted) ==> |replies| == attempt
      ensures PassEnded(ctx, trace, replies, end)
    {
      end, replies := Some(Interrupted), earlier;
      var reply;
      reply, trace := RunBody(ctx, soFar, key, attempt, answer(2 + 3 * attempt), answer(3 + 3 * attempt));
      if reply.Some? {
        end, trace := Conclude(ctx, trace, key, attempt, reply.value, answer(4 + 3 * attempt));
        LastReplyExplains(ctx, trace, earlier, reply.value, end);
        replies := earlier + [reply.value];
      }
    }

    /** The bounded retry loop, three awaits to an attempt. */
    method RetryLoop(ghost ctx: Context, soFar: seq<Event>, key: Key, answer: nat -> Answer)
      returns (end: Pipeline, trace: seq<Event>, replies: seq<BodyReply>)
      requires Valid() && AllElsewhere(key, answer)
      requires ctx.maxAttempts == maxAttempts
      requires Of(own, key) == soFar && Starts(soFar) == 0 && MayStart(ctx, Reach(ctx, soFar))
      modifies this
      ensures Valid() && past == old(past)
      ensures Of(own, key) == trace && trace != []
      ensures !Reach(ctx, trace).Stuck? && (!end.Interrupted? ==> Reach(ctx, trace).Ended?)
      ensures Steady(answer) ==> !end.Interrupted?
      ensures InTurn(answer, replies)
      ensures |replies| <= Starts(trace) <= |replies| + if end.Interrupted? then 1 else 0
      ensures !end.Interrupted? ==> Explains(ctx, trace[|trace| - 1].kind, replies, None, end)
    {
      replies, trace := [], soFar;
      for attempt := 1 to maxAttempts + 1
        invariant Valid() && past == old(past)
        invariant Of(own, key) == trace
        invariant |replies| == Starts(trace) == attempt - 1
        invariant AllRetryable(replies) && InTurn(answer, replies)
        invariant BeforeAttempt(ctx, Reach(ctx, trace), attempt)
      {
        var early;
        early, trace, replies := Attempt(ctx, trace, key, attempt, answer, replies);
        if early.Some? {
          end := early.value;
          return;
        }
      }
      end, trace := Exhaust(ctx, trace, key, replies, answer(5 + 3 * maxAttempts));
    }

    /** The end of a pipeline whose attempts are used up. */
    method Exhaust(ghost ctx: Context, soFar: seq<Event>, key: Key, replies: seq<BodyReply>, last: Answer)
      returns (end: Pipeline, trace: seq<Event>)
      requires Valid() && Elsewhere(key, last)
      requires ctx.maxAttempts == maxAttempts && Of(own, key) == soFar && Reach(ctx, soFar) == Running(maxAttempts)
      requires |replies| == maxAttempts && AllRetryable(replies)
      modifies this
      ensures Valid() && past == old(past)
      ensures Of(own, key) == trace && trace != [] && Reach(ctx, trace).Ended? && Starts(trace) == Starts(soFar)
      ensures end.Interrupted? <==> last.cancelled
      ensures !end.Interrupted? ==> Explains(ctx, trace[|trace| - 1].kind, replies, None, end)
    {
      trace := Emit(ctx, soFar, ToolFailed, key, maxAttempts, last);
      end := if last.cancelled then Interrupted
             else if maxAttempts > 1 then Failed(ToolError("retry_exhausted", false, false, Count(maxAttempts)))
             else Failed(AttemptError(replies[0]));
    }

    ghost function ContextOf(definition: Option<Definition>, argumentsValid: bool): Context {
      Context(definition, argumentsValid, permissions, hasHandler, maxAttempts)
    }

    /** `_execute_owner`: the checks, then the retry loop. */
    method ExecuteOwner(key: Key, definition: Option<Definition>, argumentsValid: bool, answer: nat -> Answer)
      returns (end: Pipeline, trace: seq<Event>, replies: seq<BodyReply>)
      requires Valid() && AllElsewhere(key, answer)
      modifies this
      ensures Valid()
      ensures Own(events, key) == Own(old(events), key) + trace
      ensures trace != [] && !Reach(ContextOf(definition, argumentsValid), trace).Stuck?
      ensures Steady(answer) ==> !end.Interrupted?
      ensures !end.Interrupted? ==>
                (Reach(ContextOf(definition, argumentsValid), trace).Ended?
                 <==> Escape(ContextOf(definition, argumentsValid), answer(2).approval).None?)
      ensures |replies| <= Starts(trace) <= |replies| + if end.Interrupted? then 1 else 0
      ensures InTurn(answer, replies)
      ensures !end.Interrupted? ==>
                Explains(ContextOf(definition, argumentsValid), trace[|trace| - 1].kind, replies,
                         Escape(ContextOf(definition, argumentsValid), answer(2).approval), end)
    {
      ghost var ctx := ContextOf(definition, argumentsValid);
      past, own := past[key := Of(past, key) + Of(own, key)], own[key := []];
      replies := [];
      var early;
      early, trace := Preflight(ctx, key, definition, argumentsValid, answer);
      match early {
        case Some(p) => end := p;
        case None => end, trace, replies := RetryLoop(ctx, trace, key, answer);
      }
    }
  }

  // ---------- Concrete runs ----------

  /**
   * A request whose approval cannot be asked for ends with the escaping error and without a terminal
   * event, whatever the retry policy.
   */
  method EscapedRequest(key: Key, tool: Definition, maxAttempts: nat, error: ToolError)
    returns (end: Pipeline, trace: seq<Event>)
    requires 1 <= maxAttempts <= 3 && RequiresApproval(tool)
    ensures end == Failed(error) && trace != []
    ensures forall i | 0 <= i < |trace| :: !Terminal(trace[i].kind)
  {
    var executor := new ToolExecutor({tool.permission}, true, maxAttempts);
    var replies;
    end, trace, replies := executor.ExecuteOwner(
      key, Some(tool), true, i => Answer(false, CannotAsk(error), BadOutput, []));
    OneTerminalAtTheEnd(executor.ContextOf(Some(tool), true), trace);
  }

  /** A rejected output on the second attempt is reported as one attempt, and two bodies ran. */
  method RejectedAtTheSecondAttempt(key: Key, tool: Definition)
    returns (result: Option<ToolResult>, trace: seq<Event>)
    requires !RequiresApproval(tool) && tool.idempotent
    ensures result.Some? && result.value.attempts == 1 && Starts(trace) == 2
  {
    var executor := new ToolExecutor({tool.permission}, false, 2);
    var end, replies;
    end, trace, replies := executor.ExecuteOwner(
      key, Some(tool), true, i => Answer(false, Deny, if i <= 6 then RaisedOther else BadOutput, []));
    BodiesStartExactlyWhenAllowed(executor.ContextOf(Some(tool), true), trace);
    assert replies[0] == RaisedOther;
    assert 1 < |replies| ==> replies[1] == BadOutput;
    result := ErrorResult(end.error);
  }
}
