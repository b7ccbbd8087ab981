/** The invariant of clean runs is kept, and no piece of work is noted twice. */
module CleanProofs {
  import opened Domain
  import opened Protocol
  import opened Invariants
  import opened Updates
  import opened CleanRuns

  // ---------- rows of the outbox ----------

  lemma {:induction false} RowsIngest(events: map<Uuid, Event>, outbox: set<Uuid>, relays: map<nat, Relay>,
                                      l: RowLedger, e: Uuid, body: Event)
    requires RowsClean(events, outbox, relays, l) && e !in events
    ensures RowsClean(events[e := body], outbox + {e}, relays, l)
  {
    hide Locked;
  }

  lemma {:induction false} RowsLock(events: map<Uuid, Event>, outbox: set<Uuid>, relays: map<nat, Relay>, l: RowLedger,
                 r: nat, rows: seq<Uuid>)
    requires RowsClean(events, outbox, relays, l) && outbox <= events.Keys
    requires r !in relays && rows != [] && forall e :: e in rows ==> e in outbox && !Locked(relays, e)
    ensures RowsClean(events, outbox, relays[r := Relay(rows, 0)], l.(locked := l.locked + Elements(rows)))
    ensures l.locked !! Elements(rows)
  {
    var relays' := relays[r := Relay(rows, 0)];
    forall e | Locked(relays, e) || e in rows ensures Locked(relays', e) {
      if e in rows {
        assert e in relays'[r].rows;
      } else {
        var q :| q in relays && e in relays[q].rows;
        assert e in relays'[q].rows;
      }
    }
    hide Locked;
  }

  lemma {:induction false} RowsSend(events: map<Uuid, Event>, outbox: set<Uuid>, relays: map<nat, Relay>,
                                    l: RowLedger, r: nat)
    requires RowsClean(events, outbox, relays, l) && DisjointRows(relays)
    requires r in relays && relays[r].sent < |relays[r].rows| && Distinct(relays[r].rows)
    ensures var e := relays[r].rows[relays[r].sent];
            && e !in l.sent
            && RowsClean(events, outbox, relays[r := relays[r].(sent := relays[r].sent + 1)], l.(sent := l.sent + {e}))
  {
    var relays' := relays[r := relays[r].(sent := relays[r].sent + 1)];
    assert relays[r].rows[relays[r].sent] in relays[r].rows;
    forall e | Locked(relays, e) ensures Locked(relays', e) {
      var q :| q in relays && e in relays[q].rows;
      assert e in relays'[q].rows;
    }
    hide Locked;
  }

  lemma {:induction false} RowsCommit(events: map<Uuid, Event>, outbox: set<Uuid>, relays: map<nat, Relay>,
                                      l: RowLedger, r: nat)
    requires RowsClean(events, outbox, relays, l)
    requires r in relays && forall e :: e in relays[r].rows ==> e in outbox
    ensures RowsClean(events, outbox - Elements(relays[r].rows), relays - {r},
                      l.(relayed := l.relayed + Elements(relays[r].rows)))
    ensures l.relayed !! Elements(relays[r].rows)
  {
    var relays' := relays - {r};
    forall e | Locked(relays, e) && e !in relays[r].rows ensures Locked(relays', e) {
      var q :| q in relays && e in relays[q].rows;
      assert q in relays' && e in relays'[q].rows;
    }
    hide Locked;
  }

  // ---------- appending a record ----------

  lemma {:induction false} LogSend(log: map<Pos, Message>, sent: set<Uuid>, republished: set<Key>, pos: Pos, e: Uuid)
    requires LogClean(log, sent, republished) && pos !in log && e !in sent
    ensures LogClean(log[pos := Fanout(e)], sent + {e}, republished)
  {
    AppendValues(log, pos, Fanout(e));
    assert forall p :: p in log ==> log[p] in log.Values;
  }

  lemma {:induction false} LogRepublish(log: map<Pos, Message>, sent: set<Uuid>, republished: set<Key>, pos: Pos,
                                        k: Key)
    requires LogClean(log, sent, republished) && pos !in log && k !in republished
    ensures LogClean(log[pos := Targeted(k)], sent, republished + {k})
  {
    AppendValues(log, pos, Targeted(k));
    assert forall p :: p in log ==> log[p] in log.Values;
  }

  lemma {:induction false} AppendToRecords(log: map<Pos, Message>, parts: seq<Part>, tasks: map<Pos, Task>,
                                           l: RecordLedger, p: nat, m: Message)
    requires RecordsClean(log, parts, tasks, l) && p < |parts| && parts[p].next <= parts[p].end
    requires Pos(p, parts[p].end) !in log && Pos(p, parts[p].end) !in tasks && m !in log.Values
    ensures RecordsClean(log[Pos(p, parts[p].end) := m], parts[p := parts[p].(end := parts[p].end + 1)], tasks, l)
  {
    var pos := Pos(p, parts[p].end);
    AppendValues(log, pos, m);
    assert m !in l.fetched;
  }

  lemma {:induction false} AppendToKeys(log: map<Pos, Message>, tasks: map<Pos, Task>, resolved: set<Message>,
                                        scheduled: set<Key>, l: KeyLedger, pos: Pos, m: Message)
    requires KeysClean(log, tasks, resolved, scheduled, l) && pos !in tasks
    ensures KeysClean(log[pos := m], tasks, resolved, scheduled, l)
  {
    hide TaskClean, NotYet;
  }

  lemma {:induction false} AppendToOutcomes(attempts: map<Key, Status>, dlq: set<Pair>, log: map<Pos, Message>,
                                            tasks: map<Pos, Task>, acked: set<Pair>, dlqed: set<Pair>,
                                            posts: multiset<Key>, l: KeyLedger, pos: Pos, m: Message)
    requires OutcomesClean(attempts, dlq, log, tasks, acked, dlqed, posts, l) && pos !in tasks
    ensures OutcomesClean(attempts, dlq, log[pos := m], tasks, acked, dlqed, posts, l)
  {
    hide HasSuccess, TaskFailed;
    forall q | SuccessInHand(log, tasks, q) ensures SuccessInHand(log[pos := m], tasks, q) {
    }
    hide SuccessInHand;
  }

  lemma {:induction false} AppendRecords(s: State, l: Ledger, p: nat, m: Message)
    requires CleanInv(s, l) && p < |s.kafka.parts| && m !in s.kafka.log.Values
    ensures var t := Append(s, p, m);
            && RecordsClean(t.kafka.log, t.kafka.parts, t.live.tasks, l.records)
            && KeysClean(t.kafka.log, t.live.tasks, l.records.resolved, t.hist.scheduled, l.keys)
            && OutcomesClean(t.db.attempts, t.db.dlq, t.kafka.log, t.live.tasks, t.hist.acked, t.hist.dlqed,
                             t.hist.posts, l.keys)
  {
    hide Inv, LogClean, RowsClean, RetriesClean, RecordsClean, KeysClean, OutcomesClean;
    EndIsFree(s, p);
    var pos := Pos(p, s.kafka.parts[p].end);
    AppendToRecords(s.kafka.log, s.kafka.parts, s.live.tasks, l.records, p, m);
    AppendToKeys(s.kafka.log, s.live.tasks, l.records.resolved, s.hist.scheduled, l.keys, pos, m);
    AppendToOutcomes(s.db.attempts, s.db.dlq, s.kafka.log, s.live.tasks, s.hist.acked, s.hist.dlqed, s.hist.posts,
                     l.keys, pos, m);
  }

  // ---------- retries ----------

  lemma {:induction false} RetriesPoll(redis: set<Key>, schedulers: map<nat, Scheduler>, scheduled: set<Key>,
                                       l: RetryLedger, due: seq<Key>)
    requires RetriesClean(redis, schedulers, scheduled, l) && redis <= scheduled
    requires 0 !in schedulers && due != [] && Distinct(due) && forall k :: k in due ==> k in redis
    ensures RetriesClean(redis, schedulers[0 := Scheduler(due, false)], scheduled,
                         l.(polled := l.polled + Elements(due)))
    ensures l.polled !! Elements(due)
  {
    assert forall i :: 0 <= i < |due| ==> due[i] in due;
  }

  lemma {:induction false} RetriesRepublish(redis: set<Key>, schedulers: map<nat, Scheduler>, scheduled: set<Key>,
                                            l: RetryLedger)
    requires RetriesClean(redis, schedulers, scheduled, l)
    requires 0 in schedulers && schedulers[0].due != [] && !schedulers[0].published
    ensures schedulers[0].due[0] !in l.republished
    ensures RetriesClean(redis, schedulers[0 := schedulers[0].(published := true)], scheduled,
                         l.(republished := l.republished + {schedulers[0].due[0]}))
  {
    assert schedulers[0].due[0] in schedulers[0].due;
  }

  lemma {:induction false} RetriesCancel(redis: set<Key>, schedulers: map<nat, Scheduler>, scheduled: set<Key>,
                                         l: RetryLedger)
    requires RetriesClean(redis, schedulers, scheduled, l)
    requires 0 in schedulers && schedulers[0].due != [] && schedulers[0].published
    ensures schedulers[0].due[0] !in l.cancelled
    ensures var k := schedulers[0].due[0];
            var rest := schedulers[0].due[1..];
            RetriesClean(redis - {k}, if rest == [] then schedulers - {0} else schedulers[0 := Scheduler(rest, false)],
                         scheduled, l.(cancelled := l.cancelled + {k}))
  {
    var due := schedulers[0].due;
    var rest := due[1..];
    assert due[0] in due;
    assert forall k :: k in due <==> k == due[0] || k in rest;
    assert forall i :: 0 <= i < |rest| ==> rest[i] == due[i + 1] && rest[i] in due;
  }

  lemma {:induction false} RetriesSchedule(redis: set<Key>, schedulers: map<nat, Scheduler>, scheduled: set<Key>,
                                           l: RetryLedger, k: Key)
    requires RetriesClean(redis, schedulers, scheduled, l) && k !in scheduled
    ensures RetriesClean(redis + {k}, schedulers, scheduled + {k}, l)
  {
  }

  lemma {:induction false} RetriesUnschedule(redis: set<Key>, schedulers: map<nat, Scheduler>, scheduled: set<Key>,
                                             l: RetryLedger, k: Key)
    requires RetriesClean(redis, schedulers, scheduled, l)
    ensures RetriesClean(redis - {k}, schedulers, scheduled, l)
  {
  }

  // ---------- records ----------

  lemma {:induction false} RecordsFetch(s: State, l: RecordLedger, p: nat)
    requires RecordsClean(s.kafka.log, s.kafka.parts, s.live.tasks, l)
    requires LogInv(s.kafka.log, s.kafka.parts, s.live.tasks)
    requires forall x, y :: x in s.kafka.log && y in s.kafka.log && s.kafka.log[x] == s.kafka.log[y] ==> x == y
    requires p < |s.kafka.parts| && s.kafka.parts[p].next < s.kafka.parts[p].end
    ensures Pos(p, s.kafka.parts[p].next) in s.kafka.log
    ensures var t := StepFetch(s, p);
            var m := s.kafka.log[Pos(p, s.kafka.parts[p].next)];
            && m !in l.fetched
            && RecordsClean(t.kafka.log, t.kafka.parts, t.live.tasks, l.(fetched := l.fetched + {m}))
  {
    var pos := Pos(p, s.kafka.parts[p].next);
    var m := s.kafka.log[pos];
    assert m in s.kafka.log.Values;
  }

  lemma {:induction false} RecordsSetTask(log: map<Pos, Message>, parts: seq<Part>, tasks: map<Pos, Task>,
                                          l: RecordLedger, pos: Pos, t: Task)
    requires RecordsClean(log, parts, tasks, l)
    requires pos in tasks && (tasks[pos].pc.Resolving? <==> t.pc.Resolving?)
    ensures RecordsClean(log, parts, tasks[pos := t], l)
  {
  }

  lemma {:induction false} RecordsResolve(log: map<Pos, Message>, parts: seq<Part>, tasks: map<Pos, Task>,
                                          l: RecordLedger, pos: Pos, t: Task)
    requires RecordsClean(log, parts, tasks, l)
    requires forall x, y :: x in log && y in log && log[x] == log[y] ==> x == y
    requires LogInv(log, parts, tasks) && pos in tasks && pos in log && PartOk(parts[pos.part])
    requires tasks[pos].pc.Resolving? && !t.pc.Resolving?
    ensures log[pos] !in l.resolved
    ensures RecordsClean(log, parts, tasks[pos := t], l.(resolved := l.resolved + {log[pos]}))
  {
    hide SafePosition;
  }

  lemma {:induction false} RecordsFinish(log: map<Pos, Message>, parts: seq<Part>, tasks: map<Pos, Task>,
                                         l: RecordLedger, pos: Pos, parts': seq<Part>)
    requires RecordsClean(log, parts, tasks, l)
    requires forall x, y :: x in log && y in log && log[x] == log[y] ==> x == y
    requires LogInv(log, parts, tasks)
    requires pos in tasks && pos in log && pos.part < |parts| && pos.offset < parts[pos.part].next
    requires |parts'| == |parts|
    requires forall p :: 0 <= p < |parts| ==> parts'[p].start == parts[p].start && parts'[p].next == parts[p].next
    requires forall p :: 0 <= p < |parts| ==>
               parts'[p].wm.inFlight == parts[p].wm.inFlight - (if p == pos.part then {pos.offset} else {})
    ensures log[pos] !in l.finished
    ensures RecordsClean(log, parts', tasks - {pos}, l.(finished := l.finished + {log[pos]}))
  {
  }

  lemma {:induction false} ArriveRecords(s: State, l: RecordLedger, c: Commit)
    requires RecordsClean(s.kafka.log, s.kafka.parts, s.live.tasks, l) && c.part < |s.kafka.parts|
    ensures var t := StepArrive(s, c);
            RecordsClean(t.kafka.log, t.kafka.parts, t.live.tasks, l)
  {
  }

  // ---------- attempts ----------

  /** An attempt names the record it belongs to. */
  lemma {:induction false} KeyNamesRecord(s: State, pos: Pos, ep: Uuid)
    requires Inv(s) && pos in s.live.tasks && pos in s.kafka.log && !s.kafka.log[pos].Poison?
    requires ep in s.live.tasks[pos].targets
    ensures MessageOf(TaskKey(s.kafka.log[pos], ep)) == s.kafka.log[pos]
  {
    hide PartsInv, FinishedInv, LogInv, SchedulersInv, OutboxInv, RelayCountInv, RowsInv, TaskRowsInv, ResultsInv,
      TaskOutcomeInv, CoveredInv, StableInv, TargetsInv;
    assert s.kafka.log[pos] in s.kafka.log.Values;
    assert MessageOk(s.db.events, s.hist.scheduled, s.kafka.log[pos]);
    assert TaskShape(s.max, s.db.events, s.kafka.log[pos], s.live.tasks[pos]);
  }

  /** No other task works on this attempt. */
  lemma {:induction false} KeyIsOurs(s: State, l: Ledger, pos: Pos, pos': Pos, ep: Uuid)
    requires CleanInv(s, l) && Delivering(s, pos)
    requires pos' in s.live.tasks && pos' in s.kafka.log && pos' != pos
    requires ep in s.live.tasks[pos'].targets
    ensures TaskKey(s.kafka.log[pos'], ep) != CurrentKey(s, pos)
  {
    hide Inv, RowsClean, RetriesClean, RecordsClean, KeysClean, OutcomesClean;
    assert s.kafka.log[pos'] in s.kafka.log.Values;
    KeyNamesRecord(s, pos, s.live.tasks[pos].targets[s.live.tasks[pos].index]);
    KeyNamesRecord(s, pos', ep);
  }

  lemma {:induction false} TaskCleanKept(m: Message, t: Task, l: KeyLedger, l': KeyLedger, k: Key)
    requires TaskClean(m, t, l)
    requires forall x, r :: x != k && NotYet(l, x, r) ==> NotYet(l', x, r)
    requires !m.Poison? ==> forall ep :: ep in t.targets ==> TaskKey(m, ep) != k
    ensures TaskClean(m, t, l')
  {
    hide NotYet;
  }

  /** Work on the current attempt leaves every other attempt as it was. */
  lemma {:induction false} KeysStep(s: State, l: Ledger, pos: Pos, t': Task, l': KeyLedger)
    requires CleanInv(s, l) && Delivering(s, pos) && !s.live.tasks[pos].pc.Resolving?
    requires forall x, r :: x != CurrentKey(s, pos) && NotYet(l.keys, x, r) ==> NotYet(l', x, r)
    requires TaskClean(s.kafka.log[pos], t', l')
    ensures forall k :: NotYet(l', k, 0) || MessageOf(k) in l.records.resolved
    ensures forall x :: x in s.live.tasks && x in s.kafka.log ==>
              TaskClean(s.kafka.log[x], s.live.tasks[pos := t'][x], l')
  {
    hide Inv, LogClean, RowsClean, RetriesClean, OutcomesClean, TaskClean, NotYet;
    var k := CurrentKey(s, pos);
    var t := s.live.tasks[pos];
    assert MessageOf(k) in l.records.resolved by {
      InvOf(s, l);
      KeyNamesRecord(s, pos, t.targets[t.index]);
    }
    forall x | x in s.live.tasks && x in s.kafka.log
      ensures TaskClean(s.kafka.log[x], s.live.tasks[pos := t'][x], l')
    {
      if x != pos {
        forall ep | ep in s.live.tasks[x].targets && !s.kafka.log[x].Poison?
          ensures TaskKey(s.kafka.log[x], ep) != k
        {
          KeyIsOurs(s, l, pos, x, ep);
        }
        TaskCleanKept(s.kafka.log[x], s.live.tasks[x], l.keys, l', k);
      }
    }
  }

  lemma {:induction false} InvOf(s: State, l: Ledger)
    requires CleanInv(s, l)
    ensures Inv(s) && s.hist.disturbed == {}
  {
    hide Inv, LogClean, RowsClean, RetriesClean, RecordsClean, KeysClean, OutcomesClean;
  }

  /** Work on the current target touches none of the later ones. */
  lemma {:induction false} LaterTargets(m: Message, t: Task, l: KeyLedger, l': KeyLedger)
    requires !m.Poison? && t.index < |t.targets| && Distinct(t.targets) && TaskClean(m, t, l)
    requires forall x, r :: x != TaskKey(m, t.targets[t.index]) && NotYet(l, x, r) ==> NotYet(l', x, r)
    ensures forall j :: t.index < j < |t.targets| ==> NotYet(l', TaskKey(m, t.targets[j]), 0)
  {
    hide NotYet;
  }

  lemma {:induction false} TargetsDistinct(s: State, pos: Pos)
    requires Inv(s) && pos in s.live.tasks
    ensures Distinct(s.live.tasks[pos].targets)
  {
    hide PartsInv, FinishedInv, LogInv, SchedulersInv, HandOffInv, OutboxInv, RelayCountInv, RowsInv, TaskRowsInv,
      ResultsInv, TaskOutcomeInv, CoveredInv, StableInv, TargetsInv;
  }

  lemma {:induction false} TaskIsClean(s: State, l: Ledger, pos: Pos)
    requires CleanInv(s, l) && pos in s.live.tasks && pos in s.kafka.log
    ensures TaskClean(s.kafka.log[pos], s.live.tasks[pos], l.keys)
    ensures Distinct(s.live.tasks[pos].targets)
  {
    hide Inv, LogClean, RowsClean, RetriesClean, RecordsClean, OutcomesClean, NotYet, TaskClean;
    InvOf(s, l);
    TargetsDistinct(s, pos);
  }

  /** The task moves on to its next target. */
  lemma {:induction false} NextTargetClean(s: State, l: Ledger, pos: Pos, l': KeyLedger)
    requires CleanInv(s, l) && Delivering(s, pos)
    requires forall x, r :: x != CurrentKey(s, pos) && NotYet(l.keys, x, r) ==> NotYet(l', x, r)
    ensures TaskClean(s.kafka.log[pos], NextTarget(s, pos).live.tasks[pos], l')
  {
    hide CleanInv, NotYet;
    TaskIsClean(s, l, pos);
    LaterTargets(s.kafka.log[pos], s.live.tasks[pos], l.keys, l');
  }

  /** The task stays at its target and reaches a later program point. */
  lemma {:induction false} SameTargetClean(s: State, l: Ledger, pos: Pos, l': KeyLedger, pc: Pc)
    requires CleanInv(s, l) && Delivering(s, pos)
    requires forall x, r :: x != CurrentKey(s, pos) && NotYet(l.keys, x, r) ==> NotYet(l', x, r)
    requires NotYet(l', CurrentKey(s, pos), Rank(pc))
    ensures TaskClean(s.kafka.log[pos], s.live.tasks[pos].(pc := pc), l')
  {
    hide CleanInv, NotYet;
    TaskIsClean(s, l, pos);
    LaterTargets(s.kafka.log[pos], s.live.tasks[pos], l.keys, l');
  }

  lemma {:induction false} CurrentNotYet(s: State, l: Ledger, pos: Pos)
    requires CleanInv(s, l) && Delivering(s, pos)
    ensures NotYet(l.keys, CurrentKey(s, pos), Rank(s.live.tasks[pos].pc))
  {
    hide Inv, LogClean, RowsClean, RetriesClean, RecordsClean, OutcomesClean, NotYet;
    assert TaskClean(s.kafka.log[pos], s.live.tasks[pos], l.keys);
  }

  // ---------- outcomes ----------

  ghost predicate SameOutcomeKeys(l: KeyLedger, l': KeyLedger) {
    l'.posted == l.posted && l'.inserted == l.inserted && l'.buried == l.buried && l'.rescheduled == l.rescheduled
  }

  lemma {:induction false} InHandElsewhere(log: map<Pos, Message>, tasks: map<Pos, Task>, tasks': map<Pos, Task>,
                                           pos: Pos, q: Pair)
    requires forall x :: x in tasks && x != pos ==> x in tasks' && tasks'[x] == tasks[x]
    requires pos in tasks ==> !tasks[pos].pc.Inserting?
    requires SuccessInHand(log, tasks, q)
    ensures SuccessInHand(log, tasks', q)
  {
  }

  lemma {:induction false} OutcomesSetTask(attempts: map<Key, Status>, dlq: set<Pair>, log: map<Pos, Message>,
                                           tasks: map<Pos, Task>, acked: set<Pair>, dlqed: set<Pair>,
                                           posts: multiset<Key>, l: KeyLedger, l': KeyLedger, pos: Pos, t: Task)
    requires OutcomesClean(attempts, dlq, log, tasks, acked, dlqed, posts, l) && SameOutcomeKeys(l, l')
    requires pos in tasks ==> !tasks[pos].pc.Inserting?
    requires pos in log ==> TaskFailed(attempts, log[pos], t)
    ensures OutcomesClean(attempts, dlq, log, tasks[pos := t], acked, dlqed, posts, l')
  {
    hide SuccessInHand, HasSuccess, TaskFailed;
    forall q | SuccessInHand(log, tasks, q) ensures SuccessInHand(log, tasks[pos := t], q) {
      InHandElsewhere(log, tasks, tasks[pos := t], pos, q);
    }
  }

  lemma {:induction false} OutcomesRemove(attempts: map<Key, Status>, dlq: set<Pair>, log: map<Pos, Message>,
                                          tasks: map<Pos, Task>, acked: set<Pair>, dlqed: set<Pair>,
                                          posts: multiset<Key>, l: KeyLedger, pos: Pos)
    requires OutcomesClean(attempts, dlq, log, tasks, acked, dlqed, posts, l)
    requires pos in tasks ==> !tasks[pos].pc.Inserting?
    ensures OutcomesClean(attempts, dlq, log, tasks - {pos}, acked, dlqed, posts, l)
  {
    hide SuccessInHand, HasSuccess, TaskFailed;
    forall q | SuccessInHand(log, tasks, q) ensures SuccessInHand(log, tasks - {pos}, q) {
      InHandElsewhere(log, tasks, tasks - {pos}, pos, q);
    }
  }

  lemma {:induction false} OutcomesPost(attempts: map<Key, Status>, dlq: set<Pair>, log: map<Pos, Message>,
                                        tasks: map<Pos, Task>, acked: set<Pair>, dlqed: set<Pair>,
                                        posts: multiset<Key>, l: KeyLedger, pos: Pos, o: Outcome)
    requires OutcomesClean(attempts, dlq, log, tasks, acked, dlqed, posts, l)
    requires pos in tasks && pos in log && !log[pos].Poison? && tasks[pos].index < |tasks[pos].targets|
    requires tasks[pos].pc.Posting?
    requires TaskKey(log[pos], tasks[pos].targets[tasks[pos].index]) !in l.posted
    ensures var k := TaskKey(log[pos], tasks[pos].targets[tasks[pos].index]);
            OutcomesClean(attempts, dlq, log, tasks[pos := tasks[pos].(pc := Inserting(o))],
                          if StatusOf(o) == Success then acked + {k.pair} else acked, dlqed,
                          posts + multiset{k}, l.(posted := l.posted + {k}))
  {
    hide HasSuccess;
    var k := TaskKey(log[pos], tasks[pos].targets[tasks[pos].index]);
    var tasks' := tasks[pos := tasks[pos].(pc := Inserting(o))];
    assert TaskFailed(attempts, log[pos], tasks'[pos]);
    forall q | SuccessInHand(log, tasks, q) ensures SuccessInHand(log, tasks', q) {
      InHandElsewhere(log, tasks, tasks', pos, q);
    }
    assert StatusOf(o) == Success ==> SuccessInHand(log, tasks', k.pair) by {
      assert tasks'[pos].pc.Inserting?;
    }
    hide SuccessInHand, TaskFailed;
  }

  lemma {:induction false} InsertInHand(attempts: map<Key, Status>, log: map<Pos, Message>, tasks: map<Pos, Task>,
                                        pos: Pos, t: Task, q: Pair)
    requires pos in tasks && pos in log && !log[pos].Poison? && tasks[pos].index < |tasks[pos].targets|
    requires tasks[pos].pc.Inserting?
    requires TaskKey(log[pos], tasks[pos].targets[tasks[pos].index]) !in attempts
    requires HasSuccess(attempts, q) || SuccessInHand(log, tasks, q)
    ensures var k := TaskKey(log[pos], tasks[pos].targets[tasks[pos].index]);
            var attempts' := InsertRow(attempts, k, StatusOf(tasks[pos].pc.outcome));
            HasSuccess(attempts', q) || SuccessInHand(log, tasks[pos := t], q)
  {
    var k := TaskKey(log[pos], tasks[pos].targets[tasks[pos].index]);
    var attempts' := InsertRow(attempts, k, StatusOf(tasks[pos].pc.outcome));
    if HasSuccess(attempts, q) {
      var n: nat :| Key(q, n) in attempts && attempts[Key(q, n)] == Success;
      assert attempts'[Key(q, n)] == Success;
    } else if q == k.pair && StatusOf(tasks[pos].pc.outcome) == Success {
      assert attempts'[Key(q, k.attempt)] == Success;
    } else {
      var x :| x in tasks && x in log && !log[x].Poison? && tasks[x].index < |tasks[x].targets|
        && tasks[x].pc.Inserting? && StatusOf(tasks[x].pc.outcome) == Success
        && q == Pair(EventOf(log[x]), tasks[x].targets[tasks[x].index]);
      assert x != pos;
      assert tasks[pos := t][x] == tasks[x];
    }
  }

  lemma {:induction false} OutcomesInsert(attempts: map<Key, Status>, dlq: set<Pair>, log: map<Pos, Message>,
                                          tasks: map<Pos, Task>, acked: set<Pair>, dlqed: set<Pair>,
                                          posts: multiset<Key>, l: KeyLedger, pos: Pos, t: Task)
    requires OutcomesClean(attempts, dlq, log, tasks, acked, dlqed, posts, l)
    requires pos in tasks && pos in log && !log[pos].Poison? && tasks[pos].index < |tasks[pos].targets|
    requires tasks[pos].pc.Inserting?
    requires NotYet(l, TaskKey(log[pos], tasks[pos].targets[tasks[pos].index]), 2)
    requires if StatusOf(tasks[pos].pc.outcome) == Success
             then t == tasks[pos].(index := tasks[pos].index + 1, pc := Checking)
             else t == tasks[pos].(pc := t.pc)
    ensures var k := TaskKey(log[pos], tasks[pos].targets[tasks[pos].index]);
            var attempts' := InsertRow(attempts, k, StatusOf(tasks[pos].pc.outcome));
            OutcomesClean(attempts', dlq, log, tasks[pos := t], acked, dlqed, posts, l.(inserted := l.inserted + {k}))
  {
    var k := TaskKey(log[pos], tasks[pos].targets[tasks[pos].index]);
    var attempts' := InsertRow(attempts, k, StatusOf(tasks[pos].pc.outcome));
    var tasks' := tasks[pos := t];
    forall q | q in acked ensures HasSuccess(attempts', q) || SuccessInHand(log, tasks', q) {
      InsertInHand(attempts, log, tasks, pos, t, q);
    }
    forall x | x in tasks' && x in log ensures TaskFailed(attempts', log[x], tasks'[x]) {
      assert x != pos ==> TaskFailed(attempts, log[x], tasks[x]);
    }
    hide SuccessInHand, HasSuccess, TaskFailed;
  }

  lemma {:induction false} OutcomesSchedule(attempts: map<Key, Status>, dlq: set<Pair>, log: map<Pos, Message>,
                                            tasks: map<Pos, Task>, acked: set<Pair>, dlqed: set<Pair>,
                                            posts: multiset<Key>, l: KeyLedger, k: Key)
    requires OutcomesClean(attempts, dlq, log, tasks, acked, dlqed, posts, l)
    requires k in attempts && attempts[k] != Success && k !in l.buried
    ensures OutcomesClean(attempts, dlq, log, tasks, acked, dlqed, posts, l.(rescheduled := l.rescheduled + {k}))
  {
    hide SuccessInHand, HasSuccess, TaskFailed;
  }

  lemma {:induction false} OutcomesBury(attempts: map<Key, Status>, dlq: set<Pair>, log: map<Pos, Message>,
                                        tasks: map<Pos, Task>, acked: set<Pair>, dlqed: set<Pair>,
                                        posts: multiset<Key>, l: KeyLedger, k: Key)
    requires OutcomesClean(attempts, dlq, log, tasks, acked, dlqed, posts, l)
    requires k in attempts && attempts[k] != Success && k !in l.rescheduled
    ensures OutcomesClean(attempts, dlq + {k.pair}, log, tasks, acked, dlqed + {k.pair}, posts,
                          l.(buried := l.buried + {k}))
  {
    hide SuccessInHand, HasSuccess, TaskFailed;
    var l' := l.(buried := l.buried + {k});
    forall q | q in dlq + {k.pair} ensures exists n: nat :: Key(q, n) in l'.buried {
      if q == k.pair {
        assert Key(q, k.attempt) in l'.buried;
      } else {
        var n: nat :| Key(q, n) in l.buried;
        assert Key(q, n) in l'.buried;
      }
    }
  }
}
