/** The status `get_event` derives: a grouped aggregate over the attempt and DLQ rows
    of one event, then a decision chain over three counts. */
module EventStatus {
  import opened Domain
  import opened Watermarks

  /** A row of the UNION ALL: an attempt with its status, or a DLQ entry, whose
      status column is NULL. */
  datatype Row = AttemptRow(endpoint: Uuid, status: Status) | DlqRow(endpoint: Uuid)

  /** One group: `bool_or(status = 'success')`, NULL while no attempt row was seen,
      and `bool_or(from_dlq)`. */
  datatype Group = Group(success: Option<bool>, inDlq: bool)

  datatype Derived = Pending | Retrying | Delivered | PartiallyRetrying | PartiallyDelivered | Dlq

  function OneRow(row: Row): Group {
    match row
    case AttemptRow(_, status) => Group(Some(status == Success), false)
    case DlqRow(_) => Group(None, true)
  }

  /** SQL's OR over possibly NULL values, as `bool_or` folds it. */
  function Merge(g: Group, h: Group): Group {
    var success :=
      if g.success.None? then h.success
      else if h.success.None? then g.success
      else Some(g.success.value || h.success.value);
    Group(success, g.inDlq || h.inDlq)
  }

  function GroupBy(rows: seq<Row>): map<Uuid, Group> {
    if rows == [] then map[]
    else
      var rest := GroupBy(rows[1..]);
      var ep := rows[0].endpoint;
      rest[ep := if ep in rest then Merge(OneRow(rows[0]), rest[ep]) else OneRow(rows[0])]
  }

  /** `coalesce(.., false)`. */
  function Succeeded(g: Group): bool {
    g.success.Some? && g.success.value
  }

  datatype Counts = Counts(succeeded: nat, exhausted: nat, retrying: nat)

  /** `CASE WHEN has_success`. */
  function SucceededIn(groups: map<Uuid, Group>): set<Uuid> {
    set ep | ep in groups && Succeeded(groups[ep])
  }

  /** `CASE WHEN in_dlq AND NOT has_success`. */
  function ExhaustedIn(groups: map<Uuid, Group>): set<Uuid> {
    set ep | ep in groups && groups[ep].inDlq && !Succeeded(groups[ep])
  }

  /** `CASE WHEN NOT has_success AND NOT in_dlq`. */
  function RetryingIn(groups: map<Uuid, Group>): set<Uuid> {
    set ep | ep in groups && !Succeeded(groups[ep]) && !groups[ep].inDlq
  }

  function Count(groups: map<Uuid, Group>): Counts {
    Counts(|SucceededIn(groups)|, |ExhaustedIn(groups)|, |RetryingIn(groups)|)
  }

  /** The if-chain, branch by branch. */
  function Decide(c: Counts): Derived {
    if c.succeeded + c.exhausted + c.retrying == 0 then Pending
    else if c.succeeded == 0 && c.retrying > 0 then Retrying
    else if c.succeeded > 0 && c.exhausted == 0 && c.retrying == 0 then Delivered
    else if c.succeeded > 0 && c.retrying > 0 then PartiallyRetrying
    else if c.succeeded > 0 && c.exhausted > 0 && c.retrying == 0 then PartiallyDelivered
    else Dlq
  }

  function DeriveStatus(rows: seq<Row>): Derived {
    Decide(Count(GroupBy(rows)))
  }

  // ---------- what the aggregate means ----------

  ghost predicate HasRow(rows: seq<Row>, ep: Uuid) {
    exists i :: 0 <= i < |rows| && rows[i].endpoint == ep
  }

  /** The three classes an endpoint with rows can be in. */
  ghost predicate IsDelivered(rows: seq<Row>, ep: Uuid) {
    AttemptRow(ep, Success) in rows
  }

  ghost predicate IsExhausted(rows: seq<Row>, ep: Uuid) {
    DlqRow(ep) in rows && AttemptRow(ep, Success) !in rows
  }

  ghost predicate IsRetrying(rows: seq<Row>, ep: Uuid) {
    HasRow(rows, ep) && DlqRow(ep) !in rows && AttemptRow(ep, Success) !in rows
  }

  /** The fold computes, per endpoint, exactly: is there a success row, is there a
      DLQ row. */
  lemma {:induction false} GroupByMeans(rows: seq<Row>, ep: Uuid)
    ensures ep in GroupBy(rows) <==> HasRow(rows, ep)
    ensures ep in GroupBy(rows) ==>
              && (Succeeded(GroupBy(rows)[ep]) <==> AttemptRow(ep, Success) in rows)
              && (GroupBy(rows)[ep].inDlq <==> DlqRow(ep) in rows)
  {
    if rows != [] {
      GroupByMeans(rows[1..], ep);
      assert rows == [rows[0]] + rows[1..];
      assert HasRow(rows[1..], ep) ==> HasRow(rows, ep) by {
        if HasRow(rows[1..], ep) {
          var i :| 0 <= i < |rows[1..]| && rows[1..][i].endpoint == ep;
          assert rows[i + 1].endpoint == ep;
        }
      }
      assert HasRow(rows, ep) ==> rows[0].endpoint == ep || HasRow(rows[1..], ep) by {
        if HasRow(rows, ep) && rows[0].endpoint != ep {
          var i :| 0 <= i < |rows| && rows[i].endpoint == ep;
          assert rows[1..][i - 1].endpoint == ep;
        }
      }
      NoRowNoSuccess(rows[1..], ep);
    }
  }

  lemma {:induction false} NoRowNoSuccess(rows: seq<Row>, ep: Uuid)
    ensures !HasRow(rows, ep) ==> AttemptRow(ep, Success) !in rows && DlqRow(ep) !in rows
  {
    if AttemptRow(ep, Success) in rows {
      var i :| 0 <= i < |rows| && rows[i] == AttemptRow(ep, Success);
      assert rows[i].endpoint == ep;
    }
    if DlqRow(ep) in rows {
      var i :| 0 <= i < |rows| && rows[i] == DlqRow(ep);
      assert rows[i].endpoint == ep;
    }
  }

  ghost function EndpointsOf(rows: seq<Row>): set<Uuid> {
    set row | row in rows :: row.endpoint
  }

  lemma {:induction false} EndpointsHaveRows(rows: seq<Row>, ep: Uuid)
    ensures ep in EndpointsOf(rows) <==> HasRow(rows, ep)
  {
    if HasRow(rows, ep) {
      var i :| 0 <= i < |rows| && rows[i].endpoint == ep;
      assert rows[i] in rows;
    }
  }

  ghost function DeliveredSet(rows: seq<Row>): set<Uuid> {
    set ep | ep in EndpointsOf(rows) && IsDelivered(rows, ep)
  }

  ghost function ExhaustedSet(rows: seq<Row>): set<Uuid> {
    set ep | ep in EndpointsOf(rows) && IsExhausted(rows, ep)
  }

  ghost function RetryingSet(rows: seq<Row>): set<Uuid> {
    set ep | ep in EndpointsOf(rows) && IsRetrying(rows, ep)
  }

  lemma {:induction false} ClassesPartition(rows: seq<Row>)
    ensures DeliveredSet(rows) + ExhaustedSet(rows) + RetryingSet(rows) == EndpointsOf(rows)
    ensures DeliveredSet(rows) !! ExhaustedSet(rows) && DeliveredSet(rows) + ExhaustedSet(rows) !! RetryingSet(rows)
  {
    hide HasRow, EndpointsOf;
    forall ep | ep in EndpointsOf(rows) ensures HasRow(rows, ep) {
      EndpointsHaveRows(rows, ep);
    }
  }

  lemma {:induction false} CountsAre(rows: seq<Row>)
    ensures Count(GroupBy(rows)) == Counts(|DeliveredSet(rows)|, |ExhaustedSet(rows)|, |RetryingSet(rows)|)
  {
    hide HasRow, EndpointsOf, GroupBy, Succeeded;
    var g := GroupBy(rows);
    forall ep ensures
      && (ep in g <==> ep in EndpointsOf(rows))
      && (ep in g <==> HasRow(rows, ep))
      && (ep in g ==> (Succeeded(g[ep]) <==> IsDelivered(rows, ep)) && (g[ep].inDlq <==> DlqRow(ep) in rows))
    {
      GroupByMeans(rows, ep);
      EndpointsHaveRows(rows, ep);
    }
    assert DeliveredSet(rows) == SucceededIn(g);
    assert ExhaustedSet(rows) == ExhaustedIn(g);
    assert RetryingSet(rows) == RetryingIn(g);
  }

  /** The counts are the sizes of three classes that partition the endpoints with
      rows; a success overrides an endpoint's DLQ and failure rows. */
  lemma {:induction false} CountsPartition(rows: seq<Row>)
    ensures var c := Count(GroupBy(rows));
            && c == Counts(|DeliveredSet(rows)|, |ExhaustedSet(rows)|, |RetryingSet(rows)|)
            && c.succeeded + c.exhausted + c.retrying == |EndpointsOf(rows)|
  {
    hide Count, DeliveredSet, ExhaustedSet, RetryingSet, EndpointsOf;
    CountsAre(rows);
    ClassesPartition(rows);
  }

  /** The order and the multiplicity of rows do not matter. */
  lemma {:induction false} OnlyMembershipMatters(rows: seq<Row>, rows': seq<Row>)
    requires forall row :: row in rows <==> row in rows'
    ensures DeriveStatus(rows) == DeriveStatus(rows')
  {
    hide HasRow, Count;
    CountsPartition(rows);
    CountsPartition(rows');
    assert EndpointsOf(rows) == EndpointsOf(rows');
    forall ep ensures HasRow(rows, ep) <==> HasRow(rows', ep) {
      EndpointsHaveRows(rows, ep);
      EndpointsHaveRows(rows', ep);
    }
    assert DeliveredSet(rows) == DeliveredSet(rows');
    assert ExhaustedSet(rows) == ExhaustedSet(rows');
    assert RetryingSet(rows) == RetryingSet(rows');
  }

  ghost predicate SomeDelivered(rows: seq<Row>) {
    exists ep :: IsDelivered(rows, ep)
  }

  ghost predicate SomeExhausted(rows: seq<Row>) {
    exists ep :: IsExhausted(rows, ep)
  }

  ghost predicate SomeRetrying(rows: seq<Row>) {
    exists ep :: IsRetrying(rows, ep)
  }

  lemma {:induction false} NonEmptyClasses(rows: seq<Row>)
    ensures var c := Count(GroupBy(rows));
            && (c.succeeded > 0 <==> SomeDelivered(rows))
            && (c.exhausted > 0 <==> SomeExhausted(rows))
            && (c.retrying > 0 <==> SomeRetrying(rows))
  {
    hide HasRow, Count;
    CountsPartition(rows);
    forall ep | IsDelivered(rows, ep) || IsExhausted(rows, ep) || IsRetrying(rows, ep)
      ensures ep in EndpointsOf(rows)
    {
      NoRowNoSuccess(rows, ep);
      EndpointsHaveRows(rows, ep);
    }
    if DeliveredSet(rows) != {} { assert IsDelivered(rows, Pick(DeliveredSet(rows))); }
    if ExhaustedSet(rows) != {} { assert IsExhausted(rows, Pick(ExhaustedSet(rows))); }
    if RetryingSet(rows) != {} { assert IsRetrying(rows, Pick(RetryingSet(rows))); }
    if ep :| IsDelivered(rows, ep) { assert ep in DeliveredSet(rows); }
    if ep :| IsExhausted(rows, ep) { assert ep in ExhaustedSet(rows); }
    if ep :| IsRetrying(rows, ep) { assert ep in RetryingSet(rows); }
  }

  /** Which classes are non-empty decides the status, and every combination has
      exactly one. */
  lemma {:induction false} StatusMeans(rows: seq<Row>)
    ensures var d, x, r := SomeDelivered(rows), SomeExhausted(rows), SomeRetrying(rows);
            var status := DeriveStatus(rows);
            && (status == Pending <==> !d && !x && !r)
            && (status == Retrying <==> !d && r)
            && (status == Delivered <==> d && !x && !r)
            && (status == PartiallyRetrying <==> d && r)
            && (status == PartiallyDelivered <==> d && x && !r)
            && (status == Dlq <==> !d && x && !r)
  {
    NonEmptyClasses(rows);
  }

  lemma {:induction false} PendingMeansNoRows(rows: seq<Row>)
    ensures DeriveStatus(rows) == Pending <==> rows == []
  {
    hide Count;
    CountsPartition(rows);
    if rows != [] {
      assert rows[0] in rows;
      assert rows[0].endpoint in EndpointsOf(rows);
    }
  }
}

/** What `get_event` says when a clean run is over. */
module TerminalStatus {
  import opened Domain
  import opened Protocol
  import opened DeliverySteps
  import opened NoLoss
  import opened Deeds
  import opened CleanRuns
  import opened CleanOutcome
  import opened CleanTheorems
  import opened EventStatus

  /** `rows` lists the rows of the event, in any order. */
  ghost predicate RowsOf(s: State, e: Uuid, rows: seq<Row>) {
    && (forall ep: Uuid, status ::
          AttemptRow(ep, status) in rows <==>
          exists n: nat :: Key(Pair(e, ep), n) in s.db.attempts && s.db.attempts[Key(Pair(e, ep), n)] == status)
    && (forall ep: Uuid :: DlqRow(ep) in rows <==> Pair(e, ep) in s.db.dlq)
  }

  ghost predicate IsTarget(s: State, e: Uuid, ep: Uuid) {
    Target(s.db.endpoints, s.db.events, Pair(e, ep))
  }

  lemma {:induction false} RowsMean(s: State, e: Uuid, rows: seq<Row>, ep: Uuid)
    requires RowsOf(s, e, rows)
    ensures IsDelivered(rows, ep) <==> HasSuccess(s.db.attempts, Pair(e, ep))
    ensures DlqRow(ep) in rows <==> Pair(e, ep) in s.db.dlq
    ensures HasRow(rows, ep) ==>
              Pair(e, ep) in s.db.dlq || exists n: nat :: Key(Pair(e, ep), n) in s.db.attempts
  {
    if HasRow(rows, ep) {
      var i :| 0 <= i < |rows| && rows[i].endpoint == ep;
      assert rows[i] in rows;
      if rows[i].AttemptRow? {
        assert AttemptRow(ep, rows[i].status) in rows;
      }
    }
  }

  /** The verdicts of the tables, read through the aggregate. */
  lemma {:induction false} VerdictsMean(s: State, e: Uuid, rows: seq<Row>)
    requires RowsOf(s, e, rows)
    requires forall q :: Target(s.db.endpoints, s.db.events, q) ==>
               (HasSuccess(s.db.attempts, q) <==> q !in s.db.dlq)
    requires forall k :: k in s.db.attempts ==> Target(s.db.endpoints, s.db.events, k.pair)
    requires forall q :: q in s.db.dlq ==> Target(s.db.endpoints, s.db.events, q)
    ensures forall ep :: IsDelivered(rows, ep) <==> IsTarget(s, e, ep) && Pair(e, ep) !in s.db.dlq
    ensures forall ep :: IsExhausted(rows, ep) <==> IsTarget(s, e, ep) && Pair(e, ep) in s.db.dlq
    ensures forall ep :: !IsRetrying(rows, ep)
  {
    hide Target, RowsOf;
    forall ep ensures
      && (IsDelivered(rows, ep) <==> IsTarget(s, e, ep) && Pair(e, ep) !in s.db.dlq)
      && (IsExhausted(rows, ep) <==> IsTarget(s, e, ep) && Pair(e, ep) in s.db.dlq)
      && !IsRetrying(rows, ep)
    {
      RowsMean(s, e, rows, ep);
    }
  }

  /** At the end of a clean run a success row is the trace of a 2xx, and every 2xx has
      left one. */
  lemma {:induction false} AnsweredIffRow(s: State, acts: seq<Action>, t: State, l: Ledger, q: Pair)
    requires Init(s) && CleanLeads(s, EMPTY, acts, t, l) && !CanWork(t)
    ensures HasSuccess(t.db.attempts, q) <==> Ever(s, acts, q, Acknowledges)
  {
    InitClean(s);
    hide Init, CleanInv, PairsClean, CleanLeads, CanWork, Drained, HasSuccess, Leads, Ever;
    CleanRunInv(s, EMPTY, acts, t, l);
    DrainedAtTheEnd(t, l);
    CleanIsInv(t, l);
    AckedHasRow(t, l, q);
    SuccessMeansAcked(t, q);
    HistoriesAreTrue(s, acts, t, q);
  }

  /** At the end of a clean run the derived status never says that something is still
      being retried; it is `pending` exactly when the event has no target, `delivered`
      exactly when it has one and the run got a 2xx from each, `dlq` exactly when it has
      one and all were dead-lettered. */
  lemma {:induction false} StatusAtTheEnd(s: State, acts: seq<Action>, t: State, l: Ledger, e: Uuid, rows: seq<Row>)
    requires Init(s) && CleanLeads(s, EMPTY, acts, t, l) && !CanWork(t)
    requires RowsOf(t, e, rows)
    ensures DeriveStatus(rows) != Retrying && DeriveStatus(rows) != PartiallyRetrying
    ensures DeriveStatus(rows) == Pending <==> forall ep :: !IsTarget(t, e, ep)
    ensures DeriveStatus(rows) == Delivered <==>
              && (exists ep :: IsTarget(t, e, ep))
              && forall ep :: IsTarget(t, e, ep) ==> Ever(s, acts, Pair(e, ep), Acknowledges)
    ensures DeriveStatus(rows) == Dlq <==>
              (exists ep :: IsTarget(t, e, ep)) && forall ep :: IsTarget(t, e, ep) ==> Pair(e, ep) in t.db.dlq
  {
    hide Init, CleanLeads, CanWork, RowsOf, DeriveStatus, IsDelivered, IsExhausted, IsRetrying, Target, HasSuccess,
      Ever;
    ExactlyOneVerdict(s, acts, t, l);
    VerdictsMean(t, e, rows);
    StatusMeans(rows);
    assert forall ep :: IsTarget(t, e, ep) ==> IsDelivered(rows, ep) || IsExhausted(rows, ep);
    forall ep | IsTarget(t, e, ep)
      ensures Pair(e, ep) !in t.db.dlq <==> Ever(s, acts, Pair(e, ep), Acknowledges)
    {
      AnsweredIffRow(s, acts, t, l, Pair(e, ep));
    }
  }
}
