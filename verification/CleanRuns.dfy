/** Runs without crash or failure: one scheduler, fixed endpoints, no replay. A
    ledger notes every piece of work when it is done; in these runs nothing is ever
    done twice. */
module CleanRuns {
  import opened Domain
  import opened Protocol
  import opened Invariants

  datatype RowLedger = RowLedger(locked: set<Uuid>, sent: set<Uuid>, relayed: set<Uuid>)
  datatype RecordLedger = RecordLedger(fetched: set<Message>, resolved: set<Message>, finished: set<Message>)
  datatype RetryLedger = RetryLedger(polled: set<Key>, republished: set<Key>, cancelled: set<Key>)
  datatype KeyLedger = KeyLedger(
    checked: set<Key>, posted: set<Key>, inserted: set<Key>,
    rescheduled: set<Key>, buried: set<Key>, unscheduled: set<Key>)

  datatype Ledger = Ledger(rows: RowLedger, records: RecordLedger, retries: RetryLedger, keys: KeyLedger)

  const EMPTY := Ledger(RowLedger({}, {}, {}), RecordLedger({}, {}, {}), RetryLedger({}, {}, {}),
                        KeyLedger({}, {}, {}, {}, {}, {}))

  /** Neither crash, failure, rollback, replay nor change of endpoints. Commit
      requests may still be lost. */
  predicate Clean(a: Action) {
    match a
    case ByApi(x) => x.Ingest?
    case ByRelay(_, x) => !x.Abort?
    case ByScheduler(c, x) => c == 0 && !x.Crash?
    case ByTask(_, x) => !x.Fail?
    case ByBroker(x) => !x.Restart?
  }

  ghost function NoteRelay(s: State, r: nat, a: RelayStep, l: RowLedger): RowLedger
    requires RelayEnabled(s, r, a)
  {
    match a
    case Lock(rows) => l.(locked := l.locked + Elements(rows))
    case Send(p) => l.(sent := l.sent + {s.live.relays[r].rows[s.live.relays[r].sent]})
    case CommitRows => l.(relayed := l.relayed + Elements(s.live.relays[r].rows))
    case Abort => l
  }

  ghost function NoteScheduler(s: State, c: nat, a: SchedulerStep, l: RetryLedger): RetryLedger
    requires SchedulerEnabled(s, c, a)
  {
    match a
    case Poll(due) => l.(polled := l.polled + Elements(due))
    case Republish(p) => l.(republished := l.republished + {s.live.schedulers[c].due[0]})
    case Cancel => l.(cancelled := l.cancelled + {s.live.schedulers[c].due[0]})
    case Crash => l
  }

  ghost function NoteKey(s: State, pos: Pos, a: TaskStep, l: KeyLedger): KeyLedger
    requires TaskEnabled(s, pos, a)
  {
    match a
    case Resolve(_) => l
    case Check => l.(checked := l.checked + {CurrentKey(s, pos)})
    case Post(_) => l.(posted := l.posted + {CurrentKey(s, pos)})
    case Insert => l.(inserted := l.inserted + {CurrentKey(s, pos)})
    case Schedule => l.(rescheduled := l.rescheduled + {CurrentKey(s, pos)})
    case Bury => l.(buried := l.buried + {CurrentKey(s, pos)})
    case Unschedule(_) => l.(unscheduled := l.unscheduled + {CurrentKey(s, pos)})
    case Finish => l
    case Fail => l
  }

  ghost function Note(s: State, a: Action, l: Ledger): Ledger
    requires Enabled(s, a)
  {
    match a
    case ByApi(x) => l
    case ByRelay(r, x) => l.(rows := NoteRelay(s, r, x, l.rows))
    case ByScheduler(c, x) => l.(retries := NoteScheduler(s, c, x, l.retries))
    case ByTask(pos, x) =>
      var records :=
        if x.Resolve? then l.records.(resolved := l.records.resolved + {s.kafka.log[pos]})
        else if x.Finish? then l.records.(finished := l.records.finished + {s.kafka.log[pos]})
        else l.records;
      l.(records := records, keys := NoteKey(s, pos, x, l.keys))
    case ByBroker(x) =>
      if x.Fetch? && Pos(x.part, s.kafka.parts[x.part].next) in s.kafka.log
      then l.(records := l.records.(
                fetched := l.records.fetched + {s.kafka.log[Pos(x.part, s.kafka.parts[x.part].next)]}))
      else l
  }

  // ---------- the invariant of clean runs ----------

  /** The record whose processing handles this attempt. */
  function MessageOf(k: Key): Message {
    if k.attempt == 0 then Fanout(k.pair.event) else Targeted(k)
  }

  /** No two records of the log are equal, and every one was put there once. */
  ghost predicate LogClean(log: map<Pos, Message>, sent: set<Uuid>, republished: set<Key>) {
    && (forall p, q :: p in log && q in log && log[p] == log[q] ==> p == q)
    && (forall m :: m in log.Values ==> !m.Poison?)
    && (forall e: Uuid :: Fanout(e) in log.Values <==> e in sent)
    && (forall k: Key :: Targeted(k) in log.Values <==> k in republished)
  }

  ghost predicate RowsClean(events: map<Uuid, Event>, outbox: set<Uuid>, relays: map<nat, Relay>, l: RowLedger) {
    && l.locked <= events.Keys && l.sent <= l.locked && l.relayed <= l.locked
    && (forall r, e :: r in relays && e in relays[r].rows ==> e in l.locked)
    && (forall r :: r in relays ==> relays[r].rows != [])
    && (forall r, i :: r in relays && 0 <= i < |relays[r].rows| ==>
          (relays[r].rows[i] in l.sent <==> i < relays[r].sent))
    && (forall e :: e in outbox && !Locked(relays, e) ==> e !in l.locked)
    && (forall e :: e in l.relayed ==> e !in outbox)
  }

  ghost predicate RetriesClean(redis: set<Key>, schedulers: map<nat, Scheduler>, scheduled: set<Key>,
                               l: RetryLedger)
  {
    && (forall c :: c in schedulers ==> c == 0)
    && (forall c :: c in schedulers ==>
          && Distinct(schedulers[c].due)
          && (forall k :: k in schedulers[c].due ==> k in l.polled && k !in l.cancelled)
          && (forall i :: 0 <= i < |schedulers[c].due| ==>
                (schedulers[c].due[i] in l.republished <==> i == 0 && schedulers[c].published)))
    && (forall k :: k in redis && k in l.polled ==> 0 in schedulers && k in schedulers[0].due)
    && l.polled <= scheduled && l.republished <= l.polled && l.cancelled <= l.republished
    && (forall k :: k in redis ==> k !in l.cancelled)
    && (forall k :: k in l.republished && k !in l.cancelled ==> 0 in schedulers && k in schedulers[0].due)
  }

  ghost predicate RecordsClean(log: map<Pos, Message>, parts: seq<Part>, tasks: map<Pos, Task>, l: RecordLedger) {
    && |parts| >= 1
    && (forall pos :: pos in log && pos.part < |parts| ==>
          (pos.offset < parts[pos.part].next <==> log[pos] in l.fetched))
    && (forall p, x: nat :: 0 <= p < |parts| && x in parts[p].wm.inFlight ==> Pos(p, x) in tasks)
    && (forall p :: 0 <= p < |parts| ==> parts[p].start == 0)
    && l.resolved <= l.fetched && l.finished <= l.fetched
    && (forall m :: m in l.fetched ==> m in log.Values)
    && (forall pos :: pos in tasks && pos in log ==>
          log[pos] !in l.finished && (log[pos] in l.resolved <==> !tasks[pos].pc.Resolving?))
  }

  /** How far an attempt may have come while its task stands at a program point. */
  function Rank(pc: Pc): nat {
    match pc
    case Resolving => 0
    case Checking => 0
    case Posting => 1
    case Inserting(_) => 2
    case Scheduling => 3
    case Burying => 3
    case Unscheduling => 4
  }

  ghost predicate NotYet(l: KeyLedger, k: Key, rank: nat) {
    && (rank <= 0 ==> k !in l.checked)
    && (rank <= 1 ==> k !in l.posted)
    && (rank <= 2 ==> k !in l.inserted)
    && (rank <= 3 ==> k !in l.rescheduled && k !in l.buried)
    && k !in l.unscheduled
  }

  function TaskKey(m: Message, ep: Uuid): Key
    requires !m.Poison?
  {
    Key(Pair(EventOf(m), ep), AttemptOf(m))
  }

  ghost predicate TaskClean(m: Message, t: Task, l: KeyLedger) {
    !m.Poison? ==>
      && (forall j :: t.index < j < |t.targets| ==> NotYet(l, TaskKey(m, t.targets[j]), 0))
      && (t.index < |t.targets| ==> NotYet(l, TaskKey(m, t.targets[t.index]), Rank(t.pc)))
  }

  ghost predicate KeysClean(log: map<Pos, Message>, tasks: map<Pos, Task>, resolved: set<Message>,
                            scheduled: set<Key>, l: KeyLedger)
  {
    && (forall k :: NotYet(l, k, 0) || MessageOf(k) in resolved)
    && (forall pos :: pos in tasks && pos in log ==> TaskClean(log[pos], tasks[pos], l))
    && (forall k: Key :: k in scheduled <==> k.attempt >= 1 && Key(k.pair, k.attempt - 1) in l.rescheduled)
  }

  /** The task has written a failure row for its current attempt. */
  ghost predicate TaskFailed(attempts: map<Key, Status>, m: Message, t: Task) {
    !m.Poison? && t.index < |t.targets| && Rank(t.pc) >= 3 ==>
      TaskKey(m, t.targets[t.index]) in attempts && attempts[TaskKey(m, t.targets[t.index])] != Success
  }

  /** A task holds a 2xx for this pair that it has not written yet. */
  ghost predicate SuccessInHand(log: map<Pos, Message>, tasks: map<Pos, Task>, q: Pair) {
    exists pos :: pos in tasks && pos in log && !log[pos].Poison? && tasks[pos].index < |tasks[pos].targets|
      && tasks[pos].pc.Inserting? && StatusOf(tasks[pos].pc.outcome) == Success
      && q == Pair(EventOf(log[pos]), tasks[pos].targets[tasks[pos].index])
  }

  ghost predicate OutcomesClean(attempts: map<Key, Status>, dlq: set<Pair>, log: map<Pos, Message>,
                                tasks: map<Pos, Task>, acked: set<Pair>, dlqed: set<Pair>, posts: multiset<Key>,
                                l: KeyLedger)
  {
    && (forall k :: k in attempts ==> k in l.inserted)
    && (forall k :: k in attempts && attempts[k] == Success ==> k !in l.buried && k !in l.rescheduled)
    && (forall k :: k in l.rescheduled ==> k !in l.buried)
    && (forall k :: k in l.buried ==> k.pair in dlq)
    && (forall q :: q in dlq ==> exists n: nat :: Key(q, n) in l.buried)
    && dlqed <= dlq
    && (forall q :: q in acked ==> HasSuccess(attempts, q) || SuccessInHand(log, tasks, q))
    && (forall k: Key :: posts[k] == if k in l.posted then 1 else 0)
    && (forall pos :: pos in tasks && pos in log ==> TaskFailed(attempts, log[pos], tasks[pos]))
  }

  ghost predicate CleanInv(s: State, l: Ledger) {
    && Inv(s)
    && s.hist.disturbed == {}
    && LogClean(s.kafka.log, l.rows.sent, l.retries.republished)
    && RowsClean(s.db.events, s.db.outbox, s.live.relays, l.rows)
    && RetriesClean(s.redis, s.live.schedulers, s.hist.scheduled, l.retries)
    && RecordsClean(s.kafka.log, s.kafka.parts, s.live.tasks, l.records)
    && KeysClean(s.kafka.log, s.live.tasks, l.records.resolved, s.hist.scheduled, l.keys)
    && OutcomesClean(s.db.attempts, s.db.dlq, s.kafka.log, s.live.tasks, s.hist.acked, s.hist.dlqed, s.hist.posts,
                     l.keys)
  }
}
