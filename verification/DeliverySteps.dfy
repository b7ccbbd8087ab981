/** The steps of a delivery task keep the invariant. */
module DeliverySteps {
  import opened Domain
  import opened Protocol
  import opened Invariants
  import opened Updates

  lemma {:induction false} TaskFacts(s: State, pos: Pos)
    requires Inv(s) && pos in s.live.tasks
    ensures pos in s.kafka.log
    ensures TaskShape(s.max, s.db.events, s.kafka.log[pos], s.live.tasks[pos])
    ensures TaskRows(s.db.endpoints, s.hist.known, s.db.attempts, s.kafka.log[pos], s.live.tasks[pos])
    ensures TaskOutcome(s.hist.resolved, s.hist.scheduled, s.hist.acked, s.hist.dlqed, s.hist.dropped, pos,
                        s.kafka.log[pos], s.live.tasks[pos])
    ensures forall ep :: ep in s.live.tasks[pos].targets && ep !in s.hist.disturbed ==>
              ep in s.db.endpoints && s.db.endpoints[ep].enabled
  {
    hide PartsInv, FinishedInv, LogInv, HandOffInv, SchedulersInv, OutboxInv, RelayCountInv, RowsInv, ResultsInv,
      CoveredInv, StableInv, TaskShape, TaskRows, TaskOutcome;
  }

  /** The attempt under way is within the limit and its predecessors have rows. */
  lemma {:induction false} CurrentKeyFacts(s: State, pos: Pos)
    requires Inv(s) && Delivering(s, pos) && !s.live.tasks[pos].pc.Resolving?
    ensures var k := CurrentKey(s, pos);
            && k.attempt < s.max && k.pair.event in s.db.events && k.pair.endpoint in s.hist.known
            && (k.pair.endpoint in s.db.endpoints ==> RowsBelow(s.db.attempts, k))
            && (k in s.hist.scheduled ==> Targeted(k) in s.kafka.log.Values)
  {
    TaskFacts(s, pos);
    var k := CurrentKey(s, pos);
    var m := s.kafka.log[pos];
    assert m in s.kafka.log.Values;
    hide PartsInv, FinishedInv, LogInv, SchedulersInv, OutboxInv, RelayCountInv, TaskRowsInv, ResultsInv, CoveredInv,
      TargetsInv, TaskOutcomeInv;
    if m.Targeted? {
      assert m.key in s.hist.scheduled;
      assert k.pair.endpoint in s.live.tasks[pos].targets;
      assert k == m.key;
    }
  }

  lemma {:induction false} SuccessMeansAcked(s: State, q: Pair)
    requires Inv(s)
    ensures HasSuccess(s.db.attempts, q) ==> q in s.hist.acked
  {
    hide PartsInv, FinishedInv, LogInv, TasksInv, HandOffInv, SchedulersInv, OutboxInv, RelayCountInv, RowsInv,
      TaskRowsInv, CoveredInv, StableInv, TargetsInv, TaskOutcomeInv;
  }

  lemma {:induction false} CheckPreserves(s: State, pos: Pos)
    requires Inv(s) && Delivering(s, pos) && s.live.tasks[pos].pc.Checking?
    ensures Inv(StepCheck(s, pos))
  {
    hide Inv;
    TaskFacts(s, pos);
    SuccessMeansAcked(s, CurrentPair(s, pos));
    var t := s.live.tasks[pos];
    var t' := if HasSuccess(s.db.attempts, CurrentPair(s, pos)) then t.(index := t.index + 1, pc := Checking)
              else t.(pc := Posting);
    SetTaskInv(s, pos, t');
  }

  lemma {:induction false} PostPreserves(s: State, pos: Pos, o: Outcome)
    requires Inv(s) && Delivering(s, pos) && s.live.tasks[pos].pc.Posting?
    ensures Inv(StepPost(s, pos, o))
  {
    hide Inv;
    TaskFacts(s, pos);
    var q := CurrentPair(s, pos);
    var s1 := s;
    if StatusOf(o) == Success {
      AckInv(s, q);
      s1 := s.(hist := s.hist.(acked := s.hist.acked + {q}));
    }
    TaskFacts(s1, pos);
    SetTaskInv(s1, pos, s.live.tasks[pos].(pc := Inserting(o)));
    PostsAreFree(SetPc(s1, pos, Inserting(o)), s.hist.posts + multiset{CurrentKey(s, pos)});
  }

  /** No part of the invariant reads the trace of POSTs. */
  lemma {:induction false} PostsAreFree(s: State, posts: multiset<Key>)
    requires Inv(s)
    ensures Inv(s.(hist := s.hist.(posts := posts)))
  {
    hide PartsInv, FinishedInv, LogInv, TasksInv, HandOffInv, SchedulersInv, OutboxInv, RelayCountInv, RowsInv,
      TaskRowsInv, ResultsInv, CoveredInv, StableInv, TargetsInv, TaskOutcomeInv;
  }

  lemma {:induction false} InsertPreserves(s: State, pos: Pos)
    requires Inv(s) && Delivering(s, pos) && s.live.tasks[pos].pc.Inserting?
    requires CurrentPair(s, pos).endpoint in s.db.endpoints
    ensures Inv(StepInsert(s, pos))
  {
    hide Inv, RowsBelow, Distinct, IsPermanent;
    TaskFacts(s, pos);
    CurrentKeyFacts(s, pos);
    var o := s.live.tasks[pos].pc.outcome;
    var k := CurrentKey(s, pos);
    InsertInv(s, k, StatusOf(o));
    var s1 := s.(db := s.db.(attempts := InsertRow(s.db.attempts, k, StatusOf(o))));
    TaskFacts(s1, pos);
    SetTaskInv(s1, pos, StepInsert(s, pos).live.tasks[pos]);
    assert StepInsert(s, pos) ==
           s1.(live := s1.live.(tasks := s1.live.tasks[pos := StepInsert(s, pos).live.tasks[pos]]));
  }

  lemma {:induction false} SchedulePreserves(s: State, pos: Pos)
    requires Inv(s) && Delivering(s, pos) && s.live.tasks[pos].pc.Scheduling?
    ensures Inv(StepSchedule(s, pos))
  {
    hide Inv;
    TaskFacts(s, pos);
    CurrentKeyFacts(s, pos);
    var q := CurrentPair(s, pos);
    var n := AttemptOf(s.kafka.log[pos]);
    var k := Key(q, n + 1);
    ScheduleInv(s, k);
    var s1 := s.(redis := s.redis + {k}, hist := s.hist.(scheduled := s.hist.scheduled + {k}));
    TaskFacts(s1, pos);
    SetTaskInv(s1, pos, StepSchedule(s, pos).live.tasks[pos]);
    assert StepSchedule(s, pos) ==
           s1.(live := s1.live.(tasks := s1.live.tasks[pos := StepSchedule(s, pos).live.tasks[pos]]));
  }

  lemma {:induction false} BuryPreserves(s: State, pos: Pos)
    requires Inv(s) && Delivering(s, pos) && s.live.tasks[pos].pc.Burying?
    requires CurrentPair(s, pos).endpoint in s.db.endpoints
    ensures Inv(StepBury(s, pos))
  {
    hide Inv, Handled, Distinct, GivesUp, StatusOf;
    var q := CurrentPair(s, pos);
    BuryInv(s, q);
    var s1 := s.(db := s.db.(dlq := s.db.dlq + {q}), hist := s.hist.(dlqed := s.hist.dlqed + {q}));
    TaskFacts(s1, pos);
    SetTaskInv(s1, pos, StepBury(s, pos).live.tasks[pos]);
    assert StepBury(s, pos) == s1.(live := s1.live.(tasks := s1.live.tasks[pos := StepBury(s, pos).live.tasks[pos]]));
  }

  lemma {:induction false} UnschedulePreserves(s: State, pos: Pos, ok: bool)
    requires Inv(s) && Delivering(s, pos) && s.live.tasks[pos].pc.Unscheduling?
    ensures Inv(StepUnschedule(s, pos, ok))
  {
    hide Inv, RowsBelow;
    CurrentKeyFacts(s, pos);
    var k := CurrentKey(s, pos);
    var s1 := s;
    if ok {
      UnscheduleInv(s, k);
      s1 := s.(redis := s.redis - {k});
    }
    TaskFacts(s1, pos);
    SetTaskInv(s1, pos, StepUnschedule(s, pos, ok).live.tasks[pos]);
    assert StepUnschedule(s, pos, ok) ==
           s1.(live := s1.live.(tasks := s1.live.tasks[pos := StepUnschedule(s, pos, ok).live.tasks[pos]]));
  }
}
