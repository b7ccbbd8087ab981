/** Small updates that keep the invariant; every step is one or two of them. */
module Updates {
  import opened Domain
  import opened Protocol
  import opened Invariants

  // ---------- appending a record ----------

  lemma {:induction false} AppendValues(log: map<Pos, Message>, pos: Pos, m: Message)
    requires pos !in log
    ensures forall m' :: m' in log[pos := m].Values <==> m' == m || m' in log.Values
  {
    assert log[pos := m][pos] == m;
    forall m' | m' in log.Values ensures m' in log[pos := m].Values {
      var x :| x in log && log[x] == m';
      assert log[pos := m][x] == m';
    }
  }

  lemma {:induction false} AppendOutbox(events: map<Uuid, Event>, outbox: set<Uuid>, log: map<Pos, Message>,
                                        relays: map<nat, Relay>, log': map<Pos, Message>)
    requires OutboxInv(events, outbox, log, relays)
    requires forall m :: m in log.Values ==> m in log'.Values
    ensures OutboxInv(events, outbox, log', relays)
  {
    forall r | r in relays ensures RelayOk(outbox, log', relays[r]) {
      assert RelayOk(outbox, log, relays[r]);
    }
  }

  lemma {:induction false} AppendCovered(log: map<Pos, Message>, parts: seq<Part>, p: nat, m: Message,
                                         resolved: map<Pos, set<Uuid>>, scheduled: set<Key>, acked: set<Pair>,
                                         dlqed: set<Pair>, dropped: set<Pair>)
    requires p < |parts| && PartOk(parts[p])
    requires CoveredInv(log, parts, resolved, scheduled, acked, dlqed, dropped)
    ensures var parts' := parts[p := parts[p].(end := parts[p].end + 1)];
            CoveredInv(log[Pos(p, parts[p].end) := m], parts', resolved, scheduled, acked, dlqed, dropped)
  {
    hide RecordHandled;
    var pos := Pos(p, parts[p].end);
    var parts' := parts[p := parts[p].(end := parts[p].end + 1)];
    assert !Covered(parts', pos);
    assert forall x :: Covered(parts', x) <==> Covered(parts, x);
  }

  lemma {:induction false} AppendParts(log: map<Pos, Message>, parts: seq<Part>, pending: set<Commit>,
                                       tasks: map<Pos, Task>, p: nat, m: Message)
    requires p < |parts| && PartsInv(parts, pending) && LogInv(log, parts, tasks)
    ensures var parts' := parts[p := parts[p].(end := parts[p].end + 1)];
            PartsInv(parts', pending) && LogInv(log[Pos(p, parts[p].end) := m], parts', tasks)
  {
    var parts' := parts[p := parts[p].(end := parts[p].end + 1)];
    assert PartOk(parts[p]) && PartOk(parts'[p]);
    assert forall q, c :: 0 <= q < |parts| && SafePosition(parts[q], c) ==> SafePosition(parts'[q], c);
  }

  lemma {:induction false} AppendFinished(parts: seq<Part>, finished: set<Pos>, p: nat)
    requires p < |parts| && FinishedInv(parts, finished)
    ensures FinishedInv(parts[p := parts[p].(end := parts[p].end + 1)], finished)
  {
  }

  lemma {:induction false} AppendTasks(max: nat, events: map<Uuid, Event>, endpoints: map<Uuid, Endpoint>,
                                       known: set<Uuid>, attempts: map<Key, Status>, log: map<Pos, Message>,
                                       tasks: map<Pos, Task>, pos: Pos, m: Message)
    requires pos !in log && TasksInv(max, events, log, tasks)
    requires TaskRowsInv(endpoints, known, attempts, log, tasks)
    ensures TasksInv(max, events, log[pos := m], tasks)
    ensures TaskRowsInv(endpoints, known, attempts, log[pos := m], tasks)
  {
    hide TaskShape, TaskRows;
  }

  lemma {:induction false} AppendTaskOutcome(log: map<Pos, Message>, tasks: map<Pos, Task>, pos: Pos, m: Message,
                          resolved: map<Pos, set<Uuid>>,
                          scheduled: set<Key>, acked: set<Pair>, dlqed: set<Pair>, dropped: set<Pair>)
    requires pos !in log && pos !in tasks
    requires TaskOutcomeInv(log, tasks, resolved, scheduled, acked, dlqed, dropped)
    ensures TaskOutcomeInv(log[pos := m], tasks, resolved, scheduled, acked, dlqed, dropped)
  {
    hide TaskOutcome;
  }

  lemma {:induction false} AppendHandOff(max: nat, events: map<Uuid, Event>, redis: set<Key>, log: map<Pos, Message>,
                      scheduled: set<Key>, schedulers: map<nat, Scheduler>, log': map<Pos, Message>, m: Message)
    requires HandOffInv(max, events, redis, log, scheduled) && SchedulersInv(log, schedulers, scheduled)
    requires forall m' :: m' in log'.Values <==> m' == m || m' in log.Values
    requires MessageOk(events, scheduled, m)
    ensures HandOffInv(max, events, redis, log', scheduled) && SchedulersInv(log', schedulers, scheduled)
  {
  }

  lemma {:induction false} AppendStable(endpoints: map<Uuid, Endpoint>, known: set<Uuid>, disturbed: set<Uuid>,
                     events: map<Uuid, Event>, log: map<Pos, Message>, pos: Pos, m: Message,
                     resolved: map<Pos, set<Uuid>>, scheduled: set<Key>, dropped: set<Pair>)
    requires pos !in log && StableInv(endpoints, known, disturbed, events, log, resolved, scheduled, dropped)
    ensures StableInv(endpoints, known, disturbed, events, log[pos := m], resolved, scheduled, dropped)
  {
    hide Stable, Matches;
  }

  lemma {:induction false} EndIsFree(s: State, p: nat)
    requires Inv(s) && p < |s.kafka.parts|
    ensures PartOk(s.kafka.parts[p])
    ensures Pos(p, s.kafka.parts[p].end) !in s.kafka.log && Pos(p, s.kafka.parts[p].end) !in s.live.tasks
  {
    hide FinishedInv, TasksInv, HandOffInv, SchedulersInv, OutboxInv, RelayCountInv, RowsInv, TaskRowsInv, ResultsInv,
      TaskOutcomeInv, CoveredInv, StableInv, TargetsInv;
  }

  lemma {:induction false} AppendInv(s: State, p: nat, m: Message)
    requires Inv(s) && p < |s.kafka.parts| && MessageOk(s.db.events, s.hist.scheduled, m)
    ensures Inv(Append(s, p, m))
    ensures forall m' :: m' in Append(s, p, m).kafka.log.Values <==> m' == m || m' in s.kafka.log.Values
  {
    hide PartsInv, FinishedInv, LogInv, TasksInv, HandOffInv, SchedulersInv, OutboxInv, RelayCountInv, RowsInv,
      TaskRowsInv, ResultsInv, TaskOutcomeInv, CoveredInv, StableInv, TargetsInv;
    var pos := Pos(p, s.kafka.parts[p].end);
    EndIsFree(s, p);
    AppendValues(s.kafka.log, pos, m);
    AppendOutbox(s.db.events, s.db.outbox, s.kafka.log, s.live.relays, s.kafka.log[pos := m]);
    AppendCovered(s.kafka.log, s.kafka.parts, p, m, s.hist.resolved, s.hist.scheduled, s.hist.acked, s.hist.dlqed,
                  s.hist.dropped);
    AppendParts(s.kafka.log, s.kafka.parts, s.kafka.pending, s.live.tasks, p, m);
    AppendTasks(s.max, s.db.events, s.db.endpoints, s.hist.known, s.db.attempts, s.kafka.log, s.live.tasks, pos, m);
    AppendTaskOutcome(s.kafka.log, s.live.tasks, pos, m, s.hist.resolved, s.hist.scheduled, s.hist.acked, s.hist.dlqed,
                      s.hist.dropped);
    AppendFinished(s.kafka.parts, s.hist.finished, p);
    AppendHandOff(s.max, s.db.events, s.redis, s.kafka.log, s.hist.scheduled, s.live.schedulers, s.kafka.log[pos := m],
                  m);
    AppendStable(s.db.endpoints, s.hist.known, s.hist.disturbed, s.db.events, s.kafka.log, pos, m, s.hist.resolved,
                 s.hist.scheduled, s.hist.dropped);
  }

  // ---------- replacing or removing one task ----------

  lemma {:induction false} SetTaskInv(s: State, pos: Pos, t: Task)
    requires Inv(s) && pos in s.live.tasks && pos in s.kafka.log
    requires TaskShape(s.max, s.db.events, s.kafka.log[pos], t)
    requires TaskRows(s.db.endpoints, s.hist.known, s.db.attempts, s.kafka.log[pos], t)
    requires TaskOutcome(s.hist.resolved, s.hist.scheduled, s.hist.acked, s.hist.dlqed, s.hist.dropped, pos,
                         s.kafka.log[pos], t)
    requires forall ep :: ep in t.targets && ep !in s.hist.disturbed ==>
               ep in s.db.endpoints && s.db.endpoints[ep].enabled
    ensures Inv(s.(live := s.live.(tasks := s.live.tasks[pos := t])))
  {
    hide PartsInv, FinishedInv, HandOffInv, SchedulersInv, OutboxInv, RelayCountInv, RowsInv, ResultsInv, CoveredInv,
      StableInv, TaskShape, TaskRows, TaskOutcome;
  }

  lemma {:induction false} RemoveTaskInv(s: State, pos: Pos)
    requires Inv(s)
    ensures Inv(s.(live := s.live.(tasks := s.live.tasks - {pos})))
  {
    hide PartsInv, FinishedInv, HandOffInv, SchedulersInv, OutboxInv, RelayCountInv, RowsInv, ResultsInv, CoveredInv,
      StableInv, TaskShape, TaskRows, TaskOutcome;
  }

  // ---------- growing histories ----------

  /** What has been handled stays handled when the histories grow. */
  lemma {:induction false} GrowOutcomes(log: map<Pos, Message>, parts: seq<Part>, tasks: map<Pos, Task>,
                                        resolved: map<Pos, set<Uuid>>, scheduled: set<Key>, acked: set<Pair>,
                                        dlqed: set<Pair>, dropped: set<Pair>, scheduled': set<Key>, acked': set<Pair>,
                                        dlqed': set<Pair>, dropped': set<Pair>)
    requires TaskOutcomeInv(log, tasks, resolved, scheduled, acked, dlqed, dropped)
    requires CoveredInv(log, parts, resolved, scheduled, acked, dlqed, dropped)
    requires scheduled <= scheduled' && acked <= acked' && dlqed <= dlqed' && dropped <= dropped'
    ensures TaskOutcomeInv(log, tasks, resolved, scheduled', acked', dlqed', dropped')
    ensures CoveredInv(log, parts, resolved, scheduled', acked', dlqed', dropped')
  {
    assert forall q, n: nat :: Handled(scheduled, acked, dlqed, dropped, q, n) ==>
                               Handled(scheduled', acked', dlqed', dropped', q, n);
    hide Handled, Covered;
    forall pos | pos in tasks && pos in log
      ensures TaskOutcome(resolved, scheduled', acked', dlqed', dropped', pos, log[pos], tasks[pos])
    {
      assert TaskOutcome(resolved, scheduled, acked, dlqed, dropped, pos, log[pos], tasks[pos]);
    }
    forall pos | pos in log && Covered(parts, pos)
      ensures RecordHandled(resolved, scheduled', acked', dlqed', dropped', pos, log[pos])
    {
      assert RecordHandled(resolved, scheduled, acked, dlqed, dropped, pos, log[pos]);
    }
  }

  lemma {:induction false} AckInv(s: State, q: Pair)
    requires Inv(s)
    ensures Inv(s.(hist := s.hist.(acked := s.hist.acked + {q})))
  {
    hide PartsInv, FinishedInv, LogInv, TasksInv, HandOffInv, SchedulersInv, OutboxInv, RelayCountInv, RowsInv,
      TaskRowsInv, TaskOutcomeInv, CoveredInv, StableInv, TargetsInv;
    GrowOutcomes(s.kafka.log, s.kafka.parts, s.live.tasks, s.hist.resolved, s.hist.scheduled, s.hist.acked,
                 s.hist.dlqed, s.hist.dropped,
                 s.hist.scheduled, s.hist.acked + {q}, s.hist.dlqed, s.hist.dropped);
  }

  lemma {:induction false} BuryInv(s: State, q: Pair)
    requires Inv(s)
    ensures Inv(s.(db := s.db.(dlq := s.db.dlq + {q}), hist := s.hist.(dlqed := s.hist.dlqed + {q})))
  {
    hide PartsInv, FinishedInv, LogInv, TasksInv, HandOffInv, SchedulersInv, OutboxInv, RelayCountInv, RowsInv,
      TaskRowsInv, TaskOutcomeInv, CoveredInv, StableInv, TargetsInv;
    GrowOutcomes(s.kafka.log, s.kafka.parts, s.live.tasks, s.hist.resolved, s.hist.scheduled, s.hist.acked,
                 s.hist.dlqed, s.hist.dropped,
                 s.hist.scheduled, s.hist.acked, s.hist.dlqed + {q}, s.hist.dropped);
  }

  lemma {:induction false} ScheduleHandOff(max: nat, events: map<Uuid, Event>, redis: set<Key>, log: map<Pos, Message>,
                        scheduled: set<Key>, schedulers: map<nat, Scheduler>, k: Key)
    requires HandOffInv(max, events, redis, log, scheduled) && SchedulersInv(log, schedulers, scheduled)
    requires 1 <= k.attempt < max && k.pair.event in events
    ensures HandOffInv(max, events, redis + {k}, log, scheduled + {k})
    ensures SchedulersInv(log, schedulers, scheduled + {k})
  {
  }

  lemma {:induction false} ScheduleInv(s: State, k: Key)
    requires Inv(s)
    requires 1 <= k.attempt < s.max && k.pair.event in s.db.events
    requires k.pair.endpoint in s.hist.known && (k.pair.endpoint in s.db.endpoints ==> RowsBelow(s.db.attempts, k))
    requires k.pair.endpoint !in s.hist.disturbed ==>
               k.pair.endpoint in s.db.endpoints && s.db.endpoints[k.pair.endpoint].enabled
    ensures Inv(s.(redis := s.redis + {k}, hist := s.hist.(scheduled := s.hist.scheduled + {k})))
  {
    hide PartsInv, FinishedInv, LogInv, TasksInv, HandOffInv, SchedulersInv, OutboxInv, RelayCountInv, TaskRowsInv,
      ResultsInv, TaskOutcomeInv, CoveredInv, TargetsInv, RowsBelow, Stable, Matches;
    GrowOutcomes(s.kafka.log, s.kafka.parts, s.live.tasks, s.hist.resolved, s.hist.scheduled, s.hist.acked,
                 s.hist.dlqed, s.hist.dropped,
                 s.hist.scheduled + {k}, s.hist.acked, s.hist.dlqed, s.hist.dropped);
    ScheduleHandOff(s.max, s.db.events, s.redis, s.kafka.log, s.hist.scheduled, s.live.schedulers, k);
  }

  lemma {:induction false} UnscheduleInv(s: State, k: Key)
    requires Inv(s)
    requires k in s.hist.scheduled ==> Targeted(k) in s.kafka.log.Values
    ensures Inv(s.(redis := s.redis - {k}))
  {
    hide PartsInv, FinishedInv, LogInv, TasksInv, SchedulersInv, OutboxInv, RelayCountInv, RowsInv, TaskRowsInv,
      ResultsInv, TaskOutcomeInv, CoveredInv, StableInv, TargetsInv;
  }

  lemma {:induction false} InsertRows(s: State, k: Key, status: Status)
    requires RowsInv(s.max, s.db.endpoints, s.hist.known, s.db.attempts, s.hist.scheduled)
    requires TaskRowsInv(s.db.endpoints, s.hist.known, s.db.attempts, s.kafka.log, s.live.tasks)
    requires k.attempt < s.max && k.pair.endpoint in s.db.endpoints && RowsBelow(s.db.attempts, k)
    ensures var attempts' := InsertRow(s.db.attempts, k, status);
            && RowsInv(s.max, s.db.endpoints, s.hist.known, attempts', s.hist.scheduled)
            && TaskRowsInv(s.db.endpoints, s.hist.known, attempts', s.kafka.log, s.live.tasks)
  {
    var attempts' := InsertRow(s.db.attempts, k, status);
    assert forall x :: x in s.db.attempts ==> x in attempts';
    assert forall x :: RowsBelow(s.db.attempts, x) ==> RowsBelow(attempts', x);
    hide RowsBelow;
  }

  lemma {:induction false} InsertInv(s: State, k: Key, status: Status)
    requires Inv(s)
    requires k.attempt < s.max && k.pair.endpoint in s.db.endpoints && RowsBelow(s.db.attempts, k)
    requires status == Success ==> k.pair in s.hist.acked
    ensures Inv(s.(db := s.db.(attempts := InsertRow(s.db.attempts, k, status))))
  {
    hide PartsInv, FinishedInv, LogInv, TasksInv, HandOffInv, SchedulersInv, OutboxInv, RelayCountInv, RowsInv,
      TaskRowsInv, TaskOutcomeInv, CoveredInv, StableInv, TargetsInv;
    InsertRows(s, k, status);
  }
}
