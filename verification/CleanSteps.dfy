/** Every clean step keeps the invariant of clean runs and does new work. */
module CleanSteps {
  import opened Domain
  import opened Watermarks
  import opened Protocol
  import opened Invariants
  import opened DeliverySteps
  import opened PipelineSteps
  import opened ControlSteps
  import opened CleanRuns
  import opened CleanProofs

  ghost predicate OthersKept(l: KeyLedger, l': KeyLedger, k: Key) {
    forall x, r :: x != k && NotYet(l, x, r) ==> NotYet(l', x, r)
  }

  lemma {:induction false} NoteOneKey(s: State, pos: Pos, a: TaskStep, l: KeyLedger)
    requires Delivering(s, pos) && TaskEnabled(s, pos, a) && !a.Resolve? && !a.Finish? && !a.Fail?
    ensures OthersKept(l, NoteKey(s, pos, a, l), CurrentKey(s, pos))
  {
    hide TaskEnabled, CurrentKey;
  }

  lemma {:induction false} TaskPart(s: State, pos: Pos)
    requires Inv(s) && pos in s.live.tasks
    ensures pos in s.kafka.log && pos.part < |s.kafka.parts| && PartOk(s.kafka.parts[pos.part])
    ensures pos.offset in s.kafka.parts[pos.part].wm.inFlight && pos.offset < s.kafka.parts[pos.part].next
    ensures LogInv(s.kafka.log, s.kafka.parts, s.live.tasks)
  {
    hide HandOffInv, SchedulersInv, OutboxInv, RelayCountInv, RowsInv, TaskRowsInv, ResultsInv, TaskOutcomeInv,
      CoveredInv, StableInv, TargetsInv, FinishedInv;
  }

  // ---------- steps inside one delivery ----------

  lemma {:induction false} CheckClean(s: State, l: Ledger, pos: Pos)
    requires CleanInv(s, l) && Delivering(s, pos) && s.live.tasks[pos].pc.Checking?
    ensures CurrentKey(s, pos) !in l.keys.checked
    ensures CleanInv(StepCheck(s, pos), l.(keys := l.keys.(checked := l.keys.checked + {CurrentKey(s, pos)})))
  {
    hide Inv, LogClean, RowsClean, RetriesClean, RecordsClean, KeysClean, OutcomesClean, TaskClean, HasSuccess;
    CurrentNotYet(s, l, pos);
    CheckPreserves(s, pos);
    var k := CurrentKey(s, pos);
    var l' := l.keys.(checked := l.keys.checked + {k});
    var t' := StepCheck(s, pos).live.tasks[pos];
    if t'.pc.Posting? {
      SameTargetClean(s, l, pos, l', Posting);
    } else {
      NextTargetClean(s, l, pos, l');
    }
    KeysStep(s, l, pos, t', l');
    KeysFrom(s, l, pos, t', l', s.hist.scheduled);
    RecordsSetTask(s.kafka.log, s.kafka.parts, s.live.tasks, l.records, pos, t');
    OutcomesSetTask(s.db.attempts, s.db.dlq, s.kafka.log, s.live.tasks, s.hist.acked, s.hist.dlqed, s.hist.posts,
                    l.keys, l', pos, t');
  }

  /** Assembling `KeysClean` after a step that leaves the scheduled attempts alone. */
  lemma {:induction false} KeysFrom(s: State, l: Ledger, pos: Pos, t': Task, l': KeyLedger, scheduled: set<Key>)
    requires CleanInv(s, l) && scheduled == s.hist.scheduled && l'.rescheduled == l.keys.rescheduled
    requires forall k :: NotYet(l', k, 0) || MessageOf(k) in l.records.resolved
    requires pos in s.live.tasks
    requires forall x :: x in s.live.tasks && x in s.kafka.log ==>
               TaskClean(s.kafka.log[x], s.live.tasks[pos := t'][x], l')
    ensures KeysClean(s.kafka.log, s.live.tasks[pos := t'], l.records.resolved, scheduled, l')
  {
    hide Inv, LogClean, RowsClean, RetriesClean, RecordsClean, OutcomesClean, TaskClean, NotYet;
  }

  lemma {:induction false} PostClean(s: State, l: Ledger, pos: Pos, o: Outcome)
    requires CleanInv(s, l) && Delivering(s, pos) && s.live.tasks[pos].pc.Posting?
    ensures CurrentKey(s, pos) !in l.keys.posted
    ensures CleanInv(StepPost(s, pos, o), l.(keys := l.keys.(posted := l.keys.posted + {CurrentKey(s, pos)})))
  {
    hide Inv, LogClean, RowsClean, RetriesClean, RecordsClean, KeysClean, OutcomesClean, TaskClean;
    CurrentNotYet(s, l, pos);
    PostPreserves(s, pos, o);
    var k := CurrentKey(s, pos);
    var l' := l.keys.(posted := l.keys.posted + {k});
    var t' := s.live.tasks[pos].(pc := Inserting(o));
    SameTargetClean(s, l, pos, l', Inserting(o));
    KeysStep(s, l, pos, t', l');
    KeysFrom(s, l, pos, t', l', s.hist.scheduled);
    RecordsSetTask(s.kafka.log, s.kafka.parts, s.live.tasks, l.records, pos, t');
    OutcomesPost(s.db.attempts, s.db.dlq, s.kafka.log, s.live.tasks, s.hist.acked, s.hist.dlqed, s.hist.posts,
                 l.keys, pos, o);
  }

  lemma {:induction false} InsertClean(s: State, l: Ledger, pos: Pos)
    requires CleanInv(s, l) && Delivering(s, pos) && s.live.tasks[pos].pc.Inserting?
    requires CurrentPair(s, pos).endpoint in s.db.endpoints
    ensures CurrentKey(s, pos) !in l.keys.inserted
    ensures CleanInv(StepInsert(s, pos), l.(keys := l.keys.(inserted := l.keys.inserted + {CurrentKey(s, pos)})))
  {
    hide Inv, LogClean, RowsClean, RetriesClean, RecordsClean, KeysClean, OutcomesClean, TaskClean, GivesUp, InsertRow;
    CurrentNotYet(s, l, pos);
    InsertPreserves(s, pos);
    var k := CurrentKey(s, pos);
    var l' := l.keys.(inserted := l.keys.inserted + {k});
    var t' := StepInsert(s, pos).live.tasks[pos];
    if StatusOf(s.live.tasks[pos].pc.outcome) == Success {
      NextTargetClean(s, l, pos, l');
    } else {
      SameTargetClean(s, l, pos, l', t'.pc);
    }
    KeysStep(s, l, pos, t', l');
    KeysFrom(s, l, pos, t', l', s.hist.scheduled);
    RecordsSetTask(s.kafka.log, s.kafka.parts, s.live.tasks, l.records, pos, t');
    OutcomesInsert(s.db.attempts, s.db.dlq, s.kafka.log, s.live.tasks, s.hist.acked, s.hist.dlqed, s.hist.posts,
                   l.keys, pos, t');
  }

  lemma {:induction false} HasFailed(s: State, l: Ledger, pos: Pos)
    requires CleanInv(s, l) && Delivering(s, pos) && Rank(s.live.tasks[pos].pc) >= 3
    ensures CurrentKey(s, pos) in s.db.attempts && s.db.attempts[CurrentKey(s, pos)] != Success
  {
    hide Inv, LogClean, RowsClean, RetriesClean, RecordsClean, KeysClean, SuccessInHand;
    assert TaskFailed(s.db.attempts, s.kafka.log[pos], s.live.tasks[pos]);
  }

  lemma {:induction false} ScheduleKeys(log: map<Pos, Message>, tasks: map<Pos, Task>, resolved: set<Message>,
                                        scheduled: set<Key>, l: KeyLedger, l': KeyLedger, q: Pair, n: nat)
    requires forall k: Key :: k in scheduled <==> k.attempt >= 1 && Key(k.pair, k.attempt - 1) in l.rescheduled
    requires l'.rescheduled == l.rescheduled + {Key(q, n)}
    requires forall k :: NotYet(l', k, 0) || MessageOf(k) in resolved
    requires forall x :: x in tasks && x in log ==> TaskClean(log[x], tasks[x], l')
    ensures KeysClean(log, tasks, resolved, scheduled + {Key(q, n + 1)}, l')
  {
    hide TaskClean, NotYet;
  }

  lemma {:induction false} ScheduledIff(s: State, l: Ledger)
    requires CleanInv(s, l)
    ensures forall k: Key :: k in s.hist.scheduled <==>
              k.attempt >= 1 && Key(k.pair, k.attempt - 1) in l.keys.rescheduled
  {
    hide Inv, LogClean, RowsClean, RetriesClean, RecordsClean, OutcomesClean, TaskClean, NotYet;
  }

  lemma {:induction false} ScheduleClean(s: State, l: Ledger, pos: Pos)
    requires CleanInv(s, l) && Delivering(s, pos) && s.live.tasks[pos].pc.Scheduling?
    ensures CurrentKey(s, pos) !in l.keys.rescheduled
    ensures CleanInv(StepSchedule(s, pos),
                     l.(keys := l.keys.(rescheduled := l.keys.rescheduled + {CurrentKey(s, pos)})))
  {
    hide Inv, LogClean, RowsClean, RetriesClean, RecordsClean, KeysClean, OutcomesClean, TaskClean;
    CurrentNotYet(s, l, pos);
    HasFailed(s, l, pos);
    SchedulePreserves(s, pos);
    ScheduledIff(s, l);
    var k := CurrentKey(s, pos);
    var l' := l.keys.(rescheduled := l.keys.rescheduled + {k});
    var t' := StepSchedule(s, pos).live.tasks[pos];
    var next := Key(k.pair, k.attempt + 1);
    NextTargetClean(s, l, pos, l');
    KeysStep(s, l, pos, t', l');
    ScheduleKeys(s.kafka.log, s.live.tasks[pos := t'], l.records.resolved, s.hist.scheduled, l.keys, l',
                 k.pair, k.attempt);
    RetriesSchedule(s.redis, s.live.schedulers, s.hist.scheduled, l.retries, next);
    RecordsSetTask(s.kafka.log, s.kafka.parts, s.live.tasks, l.records, pos, t');
    OutcomesSchedule(s.db.attempts, s.db.dlq, s.kafka.log, s.live.tasks, s.hist.acked, s.hist.dlqed, s.hist.posts,
                     l.keys, k);
    OutcomesSetTask(s.db.attempts, s.db.dlq, s.kafka.log, s.live.tasks, s.hist.acked, s.hist.dlqed, s.hist.posts,
                    l', l', pos, t');
  }

  lemma {:induction false} BuryClean(s: State, l: Ledger, pos: Pos)
    requires CleanInv(s, l) && Delivering(s, pos) && s.live.tasks[pos].pc.Burying?
    requires CurrentPair(s, pos).endpoint in s.db.endpoints
    ensures CurrentKey(s, pos) !in l.keys.buried
    ensures CleanInv(StepBury(s, pos), l.(keys := l.keys.(buried := l.keys.buried + {CurrentKey(s, pos)})))
  {
    hide Inv, LogClean, RowsClean, RetriesClean, RecordsClean, KeysClean, OutcomesClean, TaskClean;
    CurrentNotYet(s, l, pos);
    HasFailed(s, l, pos);
    BuryPreserves(s, pos);
    var k := CurrentKey(s, pos);
    var l' := l.keys.(buried := l.keys.buried + {k});
    var t' := s.live.tasks[pos].(pc := Unscheduling);
    SameTargetClean(s, l, pos, l', Unscheduling);
    KeysStep(s, l, pos, t', l');
    KeysFrom(s, l, pos, t', l', s.hist.scheduled);
    RecordsSetTask(s.kafka.log, s.kafka.parts, s.live.tasks, l.records, pos, t');
    OutcomesBury(s.db.attempts, s.db.dlq, s.kafka.log, s.live.tasks, s.hist.acked, s.hist.dlqed, s.hist.posts,
                 l.keys, k);
    OutcomesSetTask(s.db.attempts, s.db.dlq + {k.pair}, s.kafka.log, s.live.tasks, s.hist.acked,
                    s.hist.dlqed + {k.pair}, s.hist.posts, l', l', pos, t');
  }

  lemma {:induction false} UnscheduleClean(s: State, l: Ledger, pos: Pos, ok: bool)
    requires CleanInv(s, l) && Delivering(s, pos) && s.live.tasks[pos].pc.Unscheduling?
    ensures CurrentKey(s, pos) !in l.keys.unscheduled
    ensures CleanInv(StepUnschedule(s, pos, ok),
                     l.(keys := l.keys.(unscheduled := l.keys.unscheduled + {CurrentKey(s, pos)})))
  {
    hide Inv, LogClean, RowsClean, RetriesClean, RecordsClean, KeysClean, OutcomesClean, TaskClean;
    CurrentNotYet(s, l, pos);
    UnschedulePreserves(s, pos, ok);
    var k := CurrentKey(s, pos);
    var l' := l.keys.(unscheduled := l.keys.unscheduled + {k});
    var t' := StepUnschedule(s, pos, ok).live.tasks[pos];
    NextTargetClean(s, l, pos, l');
    KeysStep(s, l, pos, t', l');
    KeysFrom(s, l, pos, t', l', s.hist.scheduled);
    RetriesUnschedule(s.redis, s.live.schedulers, s.hist.scheduled, l.retries, k);
    RecordsSetTask(s.kafka.log, s.kafka.parts, s.live.tasks, l.records, pos, t');
    OutcomesSetTask(s.db.attempts, s.db.dlq, s.kafka.log, s.live.tasks, s.hist.acked, s.hist.dlqed, s.hist.posts,
                    l.keys, l', pos, t');
  }

  // ---------- steps of the consumer loop ----------

  lemma {:induction false} LogUnique(s: State, l: Ledger)
    requires CleanInv(s, l)
    ensures forall x, y :: x in s.kafka.log && y in s.kafka.log && s.kafka.log[x] == s.kafka.log[y] ==> x == y
    ensures forall m :: m in s.kafka.log.Values ==> !m.Poison?
  {
    hide Inv, RowsClean, RetriesClean, RecordsClean, KeysClean, OutcomesClean;
  }

  lemma {:induction false} LogFacts(s: State)
    requires Inv(s)
    ensures LogInv(s.kafka.log, s.kafka.parts, s.live.tasks)
  {
    hide PartsInv, FinishedInv, LogInv, TasksInv, HandOffInv, SchedulersInv, OutboxInv, RelayCountInv, RowsInv,
      TaskRowsInv, ResultsInv, TaskOutcomeInv, CoveredInv, StableInv, TargetsInv;
  }

  /** A new task with nothing done, or the removal of one, disturbs no attempt. */
  lemma {:induction false} KeysSetIdle(log: map<Pos, Message>, tasks: map<Pos, Task>, resolved: set<Message>,
                                       scheduled: set<Key>, l: KeyLedger, pos: Pos, t: Task)
    requires KeysClean(log, tasks, resolved, scheduled, l)
    requires pos in log ==> TaskClean(log[pos], t, l)
    ensures KeysClean(log, tasks[pos := t], resolved, scheduled, l)
  {
    hide TaskClean, NotYet;
  }

  lemma {:induction false} KeysRemove(log: map<Pos, Message>, tasks: map<Pos, Task>, resolved: set<Message>,
                                      scheduled: set<Key>, l: KeyLedger, pos: Pos)
    requires KeysClean(log, tasks, resolved, scheduled, l)
    ensures KeysClean(log, tasks - {pos}, resolved, scheduled, l)
  {
    hide TaskClean, NotYet;
  }

  lemma {:induction false} FetchClean(s: State, l: Ledger, p: nat)
    requires CleanInv(s, l) && p < |s.kafka.parts| && s.kafka.parts[p].next < s.kafka.parts[p].end
    ensures Pos(p, s.kafka.parts[p].next) in s.kafka.log
    ensures var m := s.kafka.log[Pos(p, s.kafka.parts[p].next)];
            && m !in l.records.fetched
            && CleanInv(StepFetch(s, p), l.(records := l.records.(fetched := l.records.fetched + {m})))
  {
    hide Inv, LogClean, RowsClean, RetriesClean, RecordsClean, KeysClean, OutcomesClean;
    FetchPreserves(s, p);
    LogUnique(s, l);
    LogFacts(s);
    RecordsFetch(s, l.records, p);
    var pos := Pos(p, s.kafka.parts[p].next);
    var t := Task([], 0, Resolving);
    NotATask(s, p);
    assert TaskClean(s.kafka.log[pos], t, l.keys);
    KeysSetIdle(s.kafka.log, s.live.tasks, l.records.resolved, s.hist.scheduled, l.keys, pos, t);
    OutcomesSetTask(s.db.attempts, s.db.dlq, s.kafka.log, s.live.tasks, s.hist.acked, s.hist.dlqed, s.hist.posts,
                    l.keys, l.keys, pos, t);
  }

  lemma {:induction false} NotATask(s: State, p: nat)
    requires Inv(s) && p < |s.kafka.parts|
    ensures Pos(p, s.kafka.parts[p].next) !in s.live.tasks
  {
    hide TasksInv, HandOffInv, SchedulersInv, OutboxInv, RelayCountInv, RowsInv, TaskRowsInv, ResultsInv,
      TaskOutcomeInv, CoveredInv, StableInv, TargetsInv, FinishedInv, SafePosition;
    assert PartOk(s.kafka.parts[p]);
  }

  /** The attempts of a record not resolved before are all untouched. */
  lemma {:induction false} ResolvedKeys(s: State, l: Ledger, pos: Pos, targets: seq<Uuid>)
    requires CleanInv(s, l) && TaskEnabled(s, pos, Resolve(targets))
    requires s.kafka.log[pos] !in l.records.resolved
    ensures TaskClean(s.kafka.log[pos], Task(targets, 0, Checking), l.keys)
    ensures KeysClean(s.kafka.log, s.live.tasks[pos := Task(targets, 0, Checking)],
                      l.records.resolved + {s.kafka.log[pos]}, s.hist.scheduled, l.keys)
  {
    hide Inv, LogClean, RowsClean, RetriesClean, RecordsClean, OutcomesClean, NotYet, Matches, TargetSet;
    TargetsAreKnown(s, pos, targets);
    KeyAttempt(s, pos);
    var m := s.kafka.log[pos];
    forall ep | ep in targets ensures NotYet(l.keys, TaskKey(m, ep), 0) {
      assert MessageOf(TaskKey(m, ep)) == m;
    }
    hide TaskClean;
    KeysGrow(s.kafka.log, s.live.tasks, l.records.resolved, s.hist.scheduled, l.keys, pos, Task(targets, 0, Checking));
  }

  lemma {:induction false} KeysGrow(log: map<Pos, Message>, tasks: map<Pos, Task>, resolved: set<Message>,
                                    scheduled: set<Key>, l: KeyLedger, pos: Pos, t: Task)
    requires KeysClean(log, tasks, resolved, scheduled, l) && pos in log && TaskClean(log[pos], t, l)
    ensures KeysClean(log, tasks[pos := t], resolved + {log[pos]}, scheduled, l)
  {
    hide TaskClean, NotYet;
  }

  lemma {:induction false} KeyAttempt(s: State, pos: Pos)
    requires Inv(s) && pos in s.kafka.log
    ensures s.kafka.log[pos].Targeted? ==> s.kafka.log[pos].key.attempt >= 1
  {
    hide PartsInv, FinishedInv, LogInv, TasksInv, SchedulersInv, OutboxInv, RelayCountInv, RowsInv, TaskRowsInv,
      ResultsInv, TaskOutcomeInv, CoveredInv, StableInv, TargetsInv;
    assert s.kafka.log[pos] in s.kafka.log.Values;
    assert MessageOk(s.db.events, s.hist.scheduled, s.kafka.log[pos]);
  }

  lemma {:induction false} ResolveClean(s: State, l: Ledger, pos: Pos, targets: seq<Uuid>)
    requires CleanInv(s, l) && TaskEnabled(s, pos, Resolve(targets))
    ensures s.kafka.log[pos] !in l.records.resolved
    ensures CleanInv(StepResolve(s, pos, targets),
                     l.(records := l.records.(resolved := l.records.resolved + {s.kafka.log[pos]})))
  {
    hide Inv, LogClean, RowsClean, RetriesClean, RecordsClean, KeysClean, OutcomesClean, TargetSet, TaskClean,
      DroppedBy;
    ResolvePreserves(s, pos, targets);
    LogUnique(s, l);
    TaskPart(s, pos);
    var t := Task(targets, 0, Checking);
    RecordsResolve(s.kafka.log, s.kafka.parts, s.live.tasks, l.records, pos, t);
    ResolvedKeys(s, l, pos, targets);
    OutcomesSetTask(s.db.attempts, s.db.dlq, s.kafka.log, s.live.tasks, s.hist.acked, s.hist.dlqed, s.hist.posts,
                    l.keys, l.keys, pos, t);
  }

  lemma {:induction false} FinishClean(s: State, l: Ledger, pos: Pos)
    requires CleanInv(s, l) && ReadyToFinish(s, pos)
    ensures s.kafka.log[pos] !in l.records.finished
    ensures CleanInv(StepFinish(s, pos),
                     l.(records := l.records.(finished := l.records.finished + {s.kafka.log[pos]})))
  {
    hide Inv, LogClean, RowsClean, RetriesClean, RecordsClean, KeysClean, OutcomesClean, Finished, ToCommit;
    FinishPreserves(s, pos);
    LogUnique(s, l);
    TaskPart(s, pos);
    FinishedOk(s.kafka.parts[pos.part], pos.offset);
    RecordsFinish(s.kafka.log, s.kafka.parts, s.live.tasks, l.records, pos, StepFinish(s, pos).kafka.parts);
    KeysRemove(s.kafka.log, s.live.tasks, l.records.resolved, s.hist.scheduled, l.keys, pos);
    OutcomesRemove(s.db.attempts, s.db.dlq, s.kafka.log, s.live.tasks, s.hist.acked, s.hist.dlqed, s.hist.posts,
                   l.keys, pos);
  }

  lemma {:induction false} ArriveClean(s: State, l: Ledger, c: Commit)
    requires CleanInv(s, l) && c in s.kafka.pending && c.part < |s.kafka.parts|
    ensures CleanInv(StepArrive(s, c), l)
  {
    hide Inv, LogClean, RowsClean, RetriesClean, RecordsClean, KeysClean, OutcomesClean;
    CommitArrivesPreserves(s, c);
    ArriveRecords(s, l.records, c);
  }

  lemma {:induction false} LoseClean(s: State, l: Ledger, c: Commit)
    requires CleanInv(s, l)
    ensures CleanInv(s.(kafka := s.kafka.(pending := s.kafka.pending - {c})), l)
  {
    hide Inv, LogClean, RowsClean, RetriesClean, RecordsClean, KeysClean, OutcomesClean;
    CommitLostPreserves(s, c);
  }

  // ---------- ingestion, relay and scheduler ----------

  lemma {:induction false} IngestClean(s: State, l: Ledger, e: Uuid, body: Event)
    requires CleanInv(s, l) && e !in s.db.events
    ensures CleanInv(StepIngest(s, e, body), l)
  {
    hide Inv, LogClean, RowsClean, RetriesClean, RecordsClean, KeysClean, OutcomesClean, KeyTaken;
    IngestPreserves(s, e, body);
    RowsIngest(s.db.events, s.db.outbox, s.live.relays, l.rows, e, body);
  }

  lemma {:induction false} RelayRows(s: State, r: nat)
    requires Inv(s) && r in s.live.relays
    ensures Distinct(s.live.relays[r].rows) && forall e :: e in s.live.relays[r].rows ==> e in s.db.outbox
    ensures DisjointRows(s.live.relays)
  {
    hide PartsInv, FinishedInv, LogInv, TasksInv, HandOffInv, SchedulersInv, RelayCountInv, RowsInv, TaskRowsInv,
      ResultsInv, TaskOutcomeInv, CoveredInv, StableInv, TargetsInv;
    assert RelayOk(s.db.outbox, s.kafka.log, s.live.relays[r]);
  }

  lemma {:induction false} LockClean(s: State, l: Ledger, r: nat, rows: seq<Uuid>)
    requires CleanInv(s, l) && RelayEnabled(s, r, Lock(rows))
    ensures l.rows.locked !! Elements(rows) && Elements(rows) != {}
    ensures CleanInv(StepRelay(s, r, Lock(rows)), l.(rows := l.rows.(locked := l.rows.locked + Elements(rows))))
  {
    hide Inv, LogClean, RowsClean, RetriesClean, RecordsClean, KeysClean, OutcomesClean, Locked;
    RelayLockPreserves(s, r, rows);
    OutboxIsIngested(s);
    RowsLock(s.db.events, s.db.outbox, s.live.relays, l.rows, r, rows);
    assert rows[0] in Elements(rows);
  }

  lemma {:induction false} OutboxIsIngested(s: State)
    requires Inv(s)
    ensures s.db.outbox <= s.db.events.Keys
  {
    hide PartsInv, FinishedInv, LogInv, TasksInv, HandOffInv, SchedulersInv, RelayCountInv, RowsInv, TaskRowsInv,
      ResultsInv, TaskOutcomeInv, CoveredInv, StableInv, TargetsInv, RelayOk;
  }

  lemma {:induction false} SendClean(s: State, l: Ledger, r: nat, p: nat)
    requires CleanInv(s, l) && RelayEnabled(s, r, Send(p))
    ensures var e := s.live.relays[r].rows[s.live.relays[r].sent];
            && e !in l.rows.sent
            && CleanInv(StepRelaySend(s, r, p), l.(rows := l.rows.(sent := l.rows.sent + {e})))
  {
    hide Inv, LogClean, RowsClean, RetriesClean, RecordsClean, KeysClean, OutcomesClean;
    var e := s.live.relays[r].rows[s.live.relays[r].sent];
    RelaySendPreserves(s, r, p);
    RelayRows(s, r);
    RowsSend(s.db.events, s.db.outbox, s.live.relays, l.rows, r);
    NotInLog(s, l);
    AppendRecords(s, l, p, Fanout(e));
    EndFree(s, p);
    LogSend(s.kafka.log, l.rows.sent, l.retries.republished, Pos(p, s.kafka.parts[p].end), e);
  }

  lemma {:induction false} NotInLog(s: State, l: Ledger)
    requires CleanInv(s, l)
    ensures forall e: Uuid :: Fanout(e) in s.kafka.log.Values <==> e in l.rows.sent
    ensures forall k: Key :: Targeted(k) in s.kafka.log.Values <==> k in l.retries.republished
  {
    hide Inv, RowsClean, RetriesClean, RecordsClean, KeysClean, OutcomesClean;
  }

  lemma {:induction false} EndFree(s: State, p: nat)
    requires Inv(s) && p < |s.kafka.parts|
    ensures Pos(p, s.kafka.parts[p].end) !in s.kafka.log
  {
    hide PartsInv, FinishedInv, TasksInv, HandOffInv, SchedulersInv, OutboxInv, RelayCountInv, RowsInv, TaskRowsInv,
      ResultsInv, TaskOutcomeInv, CoveredInv, StableInv, TargetsInv;
  }

  lemma {:induction false} CommitRowsClean(s: State, l: Ledger, r: nat)
    requires CleanInv(s, l) && RelayEnabled(s, r, CommitRows)
    ensures l.rows.relayed !! Elements(s.live.relays[r].rows) && Elements(s.live.relays[r].rows) != {}
    ensures CleanInv(StepRelayCommit(s, r),
                     l.(rows := l.rows.(relayed := l.rows.relayed + Elements(s.live.relays[r].rows))))
  {
    RowsNotEmpty(s, l, r);
    hide Inv, LogClean, RowsClean, RetriesClean, RecordsClean, KeysClean, OutcomesClean;
    RelayCommitPreserves(s, r);
    RelayRows(s, r);
    RowsCommit(s.db.events, s.db.outbox, s.live.relays, l.rows, r);
    assert s.live.relays[r].rows[0] in Elements(s.live.relays[r].rows);
  }

  lemma {:induction false} RowsNotEmpty(s: State, l: Ledger, r: nat)
    requires CleanInv(s, l) && r in s.live.relays
    ensures s.live.relays[r].rows != []
  {
    hide Inv, LogClean, RetriesClean, RecordsClean, KeysClean, OutcomesClean, Locked;
  }

  lemma {:induction false} PollClean(s: State, l: Ledger, due: seq<Key>)
    requires CleanInv(s, l) && SchedulerEnabled(s, 0, Poll(due))
    ensures l.retries.polled !! Elements(due) && Elements(due) != {}
    ensures CleanInv(StepScheduler(s, 0, Poll(due)),
                     l.(retries := l.retries.(polled := l.retries.polled + Elements(due))))
  {
    hide Inv, LogClean, RowsClean, RetriesClean, RecordsClean, KeysClean, OutcomesClean;
    PollPreserves(s, 0, due);
    SchedulerFacts(s);
    RetriesPoll(s.redis, s.live.schedulers, s.hist.scheduled, l.retries, due);
    assert due[0] in Elements(due);
  }

  lemma {:induction false} RepublishClean(s: State, l: Ledger, p: nat)
    requires CleanInv(s, l) && SchedulerEnabled(s, 0, Republish(p))
    ensures var k := s.live.schedulers[0].due[0];
            && k !in l.retries.republished
            && CleanInv(StepRepublish(s, 0, p), l.(retries := l.retries.(republished := l.retries.republished + {k})))
  {
    hide Inv, LogClean, RowsClean, RetriesClean, RecordsClean, KeysClean, OutcomesClean;
    var k := s.live.schedulers[0].due[0];
    RepublishPreserves(s, 0, p);
    RetriesRepublish(s.redis, s.live.schedulers, s.hist.scheduled, l.retries);
    NotInLog(s, l);
    AppendRecords(s, l, p, Targeted(k));
    EndFree(s, p);
    LogRepublish(s.kafka.log, l.rows.sent, l.retries.republished, Pos(p, s.kafka.parts[p].end), k);
  }

  lemma {:induction false} CancelClean(s: State, l: Ledger)
    requires CleanInv(s, l) && SchedulerEnabled(s, 0, Cancel)
    ensures var k := s.live.schedulers[0].due[0];
            && k !in l.retries.cancelled
            && CleanInv(StepCancelRepublished(s, 0), l.(retries := l.retries.(cancelled := l.retries.cancelled + {k})))
  {
    hide Inv, LogClean, RowsClean, RetriesClean, RecordsClean, KeysClean, OutcomesClean;
    CancelPreserves(s, 0);
    RetriesCancel(s.redis, s.live.schedulers, s.hist.scheduled, l.retries);
  }
}
