/**
 * The status of an invocation in the telemetry database, computed twice: by a scan over the fetched events
 * and by a subquery. A time is its text's place in the order of texts.
 */
module InvocationStatus {
  import opened Options

  datatype Kind = InvocationCompleted | ToolCompleted | InvocationFailed | ToolFailed | ToolDenied | Other(name: string)

  datatype Status = Completed | Failed | Denied | Running

  datatype Row = Row(id: int, occurredAt: int, invocation: Option<string>, kind: Kind)

  /** What a kind says about its invocation, if anything. */
  function Meaning(k: Kind): Option<Status> {
    match k
    case InvocationCompleted => Some(Completed)
    case ToolCompleted => Some(Completed)
    case InvocationFailed => Some(Failed)
    case ToolFailed => Some(Failed)
    case ToolDenied => Some(Denied)
    case Other(_) => None
  }

  /** `ORDER BY occurred_at, id`. */
  predicate NotAfter(a: Row, b: Row) {
    a.occurredAt < b.occurredAt || (a.occurredAt == b.occurredAt && a.id <= b.id)
  }

  // ---------- The subquery ----------

  predicate Decides(invocation: string, r: Row) {
    r.invocation == Some(invocation) && Meaning(r.kind).Some?
  }

  /** The row the subquery keeps: the latest that says something. */
  predicate IsLatest(table: seq<Row>, invocation: string, r: Row) {
    && r in table && Decides(invocation, r)
    && forall q | q in table && Decides(invocation, q) :: NotAfter(q, r)
  }

  /** What the query answers: the latest row's meaning, or 'running'. */
  predicate QueryAnswers(table: seq<Row>, invocation: string, status: Status) {
    || (exists r | r in table :: IsLatest(table, invocation, r) && Meaning(r.kind) == Some(status))
    || (status.Running? && forall r | r in table :: !Decides(invocation, r))
  }

  // ---------- The scan ----------

  /** The rows fetched for an invocation, in order. */
  ghost predicate Fetched(table: seq<Row>, invocation: string, events: seq<Row>) {
    && (forall r :: r in events <==> r in table && r.invocation == Some(invocation))
    && forall i, j | 0 <= i < j < |events| :: NotAfter(events[i], events[j])
  }

  function Scanned(events: seq<Row>): Status {
    if events == [] then Running
    else match Meaning(events[|events| - 1].kind)
      case Some(s) => s
      case None => Scanned(events[..|events| - 1])
  }

  /** `derive_invocation_status`. */
  method Derive(events: seq<Row>) returns (status: Status)
    ensures status == Scanned(events)
    ensures status.Running? <==> forall e | e in events :: Meaning(e.kind).None?
  {
    var i := |events|;
    assert events[..i] == events;
    while i > 0
      invariant 0 <= i <= |events|
      invariant Scanned(events[..i]) == Scanned(events)
      invariant forall k | i <= k < |events| :: Meaning(events[k].kind).None?
    {
      i := i - 1;
      assert events[..i + 1][..i] == events[..i];
      var meaning := Meaning(events[i].kind);
      if meaning.Some? {
        assert events[i] in events;
        return meaning.value;
      }
    }
    return Running;
  }

  lemma {:induction false} ScanFindsTheLast(events: seq<Row>)
    ensures Scanned(events).Running? ==> forall i | 0 <= i < |events| :: Meaning(events[i].kind).None?
    ensures !Scanned(events).Running? ==>
              exists i | 0 <= i < |events| ::
                && Meaning(events[i].kind) == Some(Scanned(events))
                && forall j | i < j < |events| :: Meaning(events[j].kind).None?
  {
    if events != [] && Meaning(events[|events| - 1].kind).None? {
      ScanFindsTheLast(events[..|events| - 1]);
    }
  }

  /** On whatever order the table's rows are in, the scan and the subquery give one and the same answer. */
  lemma ScanIsTheQuery(table: seq<Row>, invocation: string, events: seq<Row>, status: Status)
    requires forall q, r | q in table && r in table :: q.id == r.id ==> q == r
    requires Fetched(table, invocation, events)
    ensures QueryAnswers(table, invocation, status) <==> status == Scanned(events)
  {
    ScanFindsTheLast(events);
    if Scanned(events).Running? {
      forall r | r in table ensures !Decides(invocation, r) {
        if r.invocation == Some(invocation) {
          assert r in events;
        }
      }
    } else {
      var i :| 0 <= i < |events| && Meaning(events[i].kind) == Some(Scanned(events))
               && forall j | i < j < |events| :: Meaning(events[j].kind).None?;
      var last := events[i];
      assert last in events;
      forall q | q in table && Decides(invocation, q) ensures NotAfter(q, last) {
        assert q in events;
        var j :| 0 <= j < |events| && events[j] == q;
      }
      assert IsLatest(table, invocation, last);
      forall r | r in table && IsLatest(table, invocation, r) ensures r == last {
        assert NotAfter(r, last) && NotAfter(last, r);
      }
    }
  }
}
