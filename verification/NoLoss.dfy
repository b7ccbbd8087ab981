/** Nothing is lost: when no record, retry or outbox row is left to work on, every
    target ever resolved has been acknowledged, dead-lettered or dropped. */
module NoLoss {
  import opened Domain
  import opened Protocol
  import opened Invariants
  import opened Safety

  /** Nothing outstanding: no retry, no outbox row, and every record of the log is
      behind a committed position or finished by the worker that now owns it. */
  ghost predicate Drained(s: State) {
    && s.redis == {}
    && s.db.outbox == {}
    && forall pos :: pos in s.kafka.log ==> Covered(s.kafka.parts, pos)
  }

  lemma {:induction false} HandledRecord(s: State, m: Message) returns (pos: Pos)
    requires Inv(s) && Drained(s) && m in s.kafka.log.Values && !m.Poison?
    ensures pos in s.kafka.log && s.kafka.log[pos] == m && pos in s.hist.resolved
    ensures RecordHandled(s.hist.resolved, s.hist.scheduled, s.hist.acked, s.hist.dlqed, s.hist.dropped, pos, m)
  {
    hide PartsInv, FinishedInv, LogInv, TasksInv, SchedulersInv, HandOffInv, OutboxInv, RelayCountInv, RowsInv,
      TaskRowsInv, ResultsInv, TaskOutcomeInv, StableInv, TargetsInv, Covered, Handled;
    pos :| pos in s.kafka.log && s.kafka.log[pos] == m;
  }

  lemma {:induction false} HandOffFacts(s: State, k: Key)
    requires Inv(s) && k in s.hist.scheduled
    ensures k.attempt < s.max && (k in s.redis || Targeted(k) in s.kafka.log.Values)
  {
    hide PartsInv, FinishedInv, LogInv, TasksInv, SchedulersInv, OutboxInv, RelayCountInv, RowsInv, TaskRowsInv,
      ResultsInv, TaskOutcomeInv, CoveredInv, StableInv, TargetsInv;
  }

  /** The chain of attempts n, n+1, .. ends, because attempt numbers are bounded. */
  lemma {:induction false} ScheduledSettles(s: State, q: Pair, n: nat)
    requires Inv(s) && Drained(s) && Key(q, n) in s.hist.scheduled
    ensures Settled(s.hist.acked, s.hist.dlqed, s.hist.dropped, q)
    decreases s.max - n
  {
    hide Inv, Settled;
    HandOffFacts(s, Key(q, n));
    var pos := HandledRecord(s, Targeted(Key(q, n)));
    if !Settled(s.hist.acked, s.hist.dlqed, s.hist.dropped, q) {
      HandOffFacts(s, Key(q, n + 1));
      ScheduledSettles(s, q, n + 1);
    }
  }

  lemma {:induction false} ResolvedSettles(s: State, pos: Pos, ep: Uuid)
    requires Inv(s) && Drained(s)
    requires pos in s.hist.resolved && pos in s.kafka.log && !s.kafka.log[pos].Poison? && ep in s.hist.resolved[pos]
    ensures Settled(s.hist.acked, s.hist.dlqed, s.hist.dropped, Pair(EventOf(s.kafka.log[pos]), ep))
  {
    hide PartsInv, FinishedInv, LogInv, TasksInv, SchedulersInv, HandOffInv, OutboxInv, RelayCountInv, RowsInv,
      TaskRowsInv, ResultsInv, TaskOutcomeInv, StableInv, TargetsInv, Covered, Settled;
    var q := Pair(EventOf(s.kafka.log[pos]), ep);
    var n := AttemptOf(s.kafka.log[pos]);
    assert RecordHandled(s.hist.resolved, s.hist.scheduled, s.hist.acked, s.hist.dlqed, s.hist.dropped, pos,
                         s.kafka.log[pos]);
    assert Handled(s.hist.scheduled, s.hist.acked, s.hist.dlqed, s.hist.dropped, q, n);
    if !Settled(s.hist.acked, s.hist.dlqed, s.hist.dropped, q) {
      ScheduledSettles(s, q, n + 1);
    }
  }

  lemma {:induction false} ResolvedFacts(s: State, pos: Pos)
    requires Inv(s) && pos in s.hist.resolved
    ensures pos in s.kafka.log && !s.kafka.log[pos].Poison?
  {
    hide PartsInv, FinishedInv, LogInv, TasksInv, SchedulersInv, HandOffInv, OutboxInv, RelayCountInv, RowsInv,
      TaskRowsInv, ResultsInv, TaskOutcomeInv, CoveredInv, TargetsInv;
  }

  /** End to end: over every run, with crashes anywhere, a drained state owes nothing
      to any pair that was ever a target or ever scheduled for a retry. */
  lemma {:induction false} NothingIsLost(t: State)
    requires Reachable(t) && Drained(t)
    ensures forall pos, ep :: pos in t.hist.resolved && ep in t.hist.resolved[pos] ==>
              pos in t.kafka.log && !t.kafka.log[pos].Poison? &&
              Settled(t.hist.acked, t.hist.dlqed, t.hist.dropped, Pair(EventOf(t.kafka.log[pos]), ep))
    ensures forall k :: k in t.hist.scheduled ==> Settled(t.hist.acked, t.hist.dlqed, t.hist.dropped, k.pair)
  {
    hide Reachable, Inv, Settled, Drained;
    ReachableInv(t);
    forall pos, ep | pos in t.hist.resolved && ep in t.hist.resolved[pos]
      ensures pos in t.kafka.log && !t.kafka.log[pos].Poison? &&
              Settled(t.hist.acked, t.hist.dlqed, t.hist.dropped, Pair(EventOf(t.kafka.log[pos]), ep))
    {
      ResolvedFacts(t, pos);
      ResolvedSettles(t, pos, ep);
    }
    forall k | k in t.hist.scheduled ensures Settled(t.hist.acked, t.hist.dlqed, t.hist.dropped, k.pair) {
      ScheduledSettles(t, k.pair, k.attempt);
    }
  }

  /** Every ingested event has been fanned out by then. */
  lemma {:induction false} EveryEventIsFannedOut(t: State, e: Uuid)
    requires Reachable(t) && Drained(t) && e in t.db.events
    ensures exists pos :: pos in t.kafka.log && t.kafka.log[pos] == Fanout(e) && pos in t.hist.resolved
  {
    hide Reachable, Inv, Drained;
    ReachableInv(t);
    OutboxConservation(t);
    assert e !in t.db.outbox by {
      DrainedOutbox(t);
    }
    var pos := HandledRecord(t, Fanout(e));
  }

  lemma {:induction false} DrainedOutbox(t: State)
    requires Drained(t)
    ensures t.db.outbox == {}
  {
  }

  lemma {:induction false} StableFacts(s: State, pos: Pos, ep: Uuid)
    requires Inv(s) && Stable(s.db.endpoints, s.hist.disturbed, ep) && pos in s.hist.resolved
    requires pos in s.kafka.log && s.kafka.log[pos].Fanout? && s.kafka.log[pos].event in s.db.events
    ensures ep in s.hist.resolved[pos] <==> Matches(s.db.endpoints[ep], s.db.events[s.kafka.log[pos].event])
    ensures forall e :: Pair(e, ep) !in s.hist.dropped
  {
    hide PartsInv, FinishedInv, LogInv, TasksInv, SchedulersInv, HandOffInv, OutboxInv, RelayCountInv, RowsInv,
      TaskRowsInv, ResultsInv, TaskOutcomeInv, CoveredInv, TargetsInv, Matches;
  }

  /** An endpoint nobody updated or deleted gets every event it subscribes to:
      acknowledged with a 2xx, or dead-lettered; never silently dropped. */
  lemma {:induction false} StableEndpointGetsEveryEvent(t: State, e: Uuid, ep: Uuid)
    requires Reachable(t) && Drained(t) && e in t.db.events
    requires ep in t.db.endpoints && ep !in t.hist.disturbed
    requires t.db.endpoints[ep].enabled && t.db.events[e].eventType in t.db.endpoints[ep].eventTypes
    ensures Pair(e, ep) in t.hist.acked || Pair(e, ep) in t.hist.dlqed
  {
    hide Reachable, Inv, Drained;
    ReachableInv(t);
    EveryEventIsFannedOut(t, e);
    var pos :| pos in t.kafka.log && t.kafka.log[pos] == Fanout(e) && pos in t.hist.resolved;
    StableFacts(t, pos, ep);
    NothingIsLost(t);
  }
}
