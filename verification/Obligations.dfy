/** What a pair is owed from some point of a run on: as long as it has no verdict, a
    retry entry or a record nobody has started carries its next attempt. */
module Obligations {
  import opened Domain
  import opened Watermarks
  import opened Protocol
  import opened Invariants
  import opened PipelineSteps
  import opened Safety
  import opened Absorb
  import opened Deeds
  import opened NoLoss

  /** What happened to the pair since then: answered, dropped, and the attempts
      scheduled. */
  datatype Since = Since(answered: bool, dropped: bool, scheduled: set<nat>)

  ghost function Later(s: State, a: Action, q: Pair, since: Since): Since {
    Since(since.answered || Does(s, a, q, Acknowledges),
          since.dropped || Does(s, a, q, Drops),
          if WorksOn(s, a, q) && a.taskStep.Schedule? then since.scheduled + {AttemptOf(s.kafka.log[a.pos]) + 1}
          else since.scheduled)
  }

  /** The pair has its verdict: by an event since then, or in the tables. */
  ghost predicate Settles(s: State, q: Pair, since: Since) {
    since.answered || since.dropped || q in s.db.dlq || HasSuccess(s.db.attempts, q)
  }

  /** The message is in a record outside `base`. */
  ghost predicate InNewRecord(log: map<Pos, Message>, base: set<Pos>, m: Message) {
    exists pos :: pos in log && pos !in base && log[pos] == m
  }

  /** A scheduled attempt is in the retry store or in a new record. */
  ghost predicate RetriesLive(log: map<Pos, Message>, redis: set<Key>, base: set<Pos>, q: Pair, ok: bool, n: set<nat>) {
    forall i :: i in n ==> ok || Key(q, i) in redis || InNewRecord(log, base, Targeted(Key(q, i)))
  }

  /** A scheduler about to cancel a retry of the pair has put it into a new record. */
  ghost predicate SchedulersLive(log: map<Pos, Message>, schedulers: map<nat, Scheduler>, base: set<Pos>, q: Pair,
                                 ok: bool)
  {
    forall c :: c in schedulers && schedulers[c].published && schedulers[c].due != [] ==>
      ok || schedulers[c].due[0].pair != q || InNewRecord(log, base, Targeted(schedulers[c].due[0]))
  }

  /** A new record that is done with has led to the next attempt. */
  ghost predicate CoveredLive(log: map<Pos, Message>, parts: seq<Part>, base: set<Pos>, q: Pair, ok: bool,
                              n: set<nat>)
  {
    forall pos :: pos in log && pos !in base && Covered(parts, pos) && About(log[pos], q) ==>
      ok || AttemptOf(log[pos]) + 1 in n
  }

  ghost predicate TaskLive(m: Message, t: Task, q: Pair, ok: bool, n: set<nat>) {
    !t.pc.Resolving? && !ok ==>
      && q.endpoint in t.targets
      && (forall i :: 0 <= i < t.index && i < |t.targets| && t.targets[i] == q.endpoint ==> AttemptOf(m) + 1 in n)
      && (t.index < |t.targets| && t.targets[t.index] == q.endpoint && t.pc.Inserting? ==>
            StatusOf(t.pc.outcome) != Success)
  }

  /** So has a task on a new record that is past its target. */
  ghost predicate TasksLive(log: map<Pos, Message>, tasks: map<Pos, Task>, base: set<Pos>, q: Pair, ok: bool,
                            n: set<nat>)
  {
    forall pos :: pos in tasks && pos in log && pos !in base && About(log[pos], q) ==>
      TaskLive(log[pos], tasks[pos], q, ok, n)
  }

  predicate Cancelling(m: Message, t: Task, q: Pair) {
    && !m.Poison? && EventOf(m) == q.event
    && t.pc.Unscheduling? && t.index < |t.targets| && t.targets[t.index] == q.endpoint
  }

  /** No task is about to cancel a retry of the pair unless the pair has its verdict. The
      handler of an attempt 0 cancels an entry that is never there. */
  ghost predicate CancelsSafe(log: map<Pos, Message>, tasks: map<Pos, Task>, base: set<Pos>, q: Pair, ok: bool) {
    forall pos :: pos in tasks && pos in log && Cancelling(log[pos], tasks[pos], q) ==>
      ok || (pos in base && AttemptOf(log[pos]) == 0)
  }

  ghost predicate Live(s: State, q: Pair, base: set<Pos>, ok: bool, n: set<nat>) {
    && base <= s.kafka.log.Keys
    && RetriesLive(s.kafka.log, s.redis, base, q, ok, n)
    && SchedulersLive(s.kafka.log, s.live.schedulers, base, q, ok)
    && CoveredLive(s.kafka.log, s.kafka.parts, base, q, ok, n)
    && TasksLive(s.kafka.log, s.live.tasks, base, q, ok, n)
    && CancelsSafe(s.kafka.log, s.live.tasks, base, q, ok)
  }

  ghost predicate Owed(s: State, q: Pair, base: set<Pos>, since: Since) {
    && Live(s, q, base, Settles(s, q, since), since.scheduled)
    && forall n :: n in since.scheduled ==> n >= 1 && Key(q, n) in s.hist.scheduled
  }

  lemma {:induction false} LiveGrows(s: State, q: Pair, base: set<Pos>, ok: bool, n: set<nat>, ok': bool, n': set<nat>)
    requires Live(s, q, base, ok, n) && (ok ==> ok')
    requires n <= n' && (n' == n || ok' || (forall i :: i in n' && i !in n ==> Key(q, i) in s.redis))
    ensures Live(s, q, base, ok', n')
  {
    hide InNewRecord, Covered;
  }

  // ---------- steps outside the tasks ----------

  /** A record is appended, and nothing else of interest moves. */
  lemma {:induction false} AppendLive(s: State, p: nat, m: Message, q: Pair, base: set<Pos>, ok: bool, n: set<nat>)
    requires Inv(s) && p < |s.kafka.parts| && Live(s, q, base, ok, n)
    ensures Live(Append(s, p, m), q, base, ok, n)
    ensures InNewRecord(Append(s, p, m).kafka.log, base, m)
  {
    hide Inv, TaskLive;
    LogsOfTasks(s);
    var t, pos := Append(s, p, m), Pos(p, s.kafka.parts[p].end);
    assert t.kafka.log[pos] == m;
    KeepsNewRecords(s.kafka.log, pos, m, base);
    EndIsNotCovered(s, p);
    assert forall x :: Covered(t.kafka.parts, x) <==> Covered(s.kafka.parts, x);
    hide InNewRecord, Covered;
  }

  lemma {:induction false} KeepsNewRecords(log: map<Pos, Message>, pos: Pos, m: Message, base: set<Pos>)
    requires pos !in log
    ensures forall x :: InNewRecord(log, base, x) ==> InNewRecord(log[pos := m], base, x)
  {
    forall x | InNewRecord(log, base, x) ensures InNewRecord(log[pos := m], base, x) {
      var y :| y in log && y !in base && log[y] == x;
      assert log[pos := m][y] == x;
    }
  }

  lemma {:induction false} EndIsNotCovered(s: State, p: nat)
    requires Inv(s) && p < |s.kafka.parts|
    ensures !Covered(s.kafka.parts, Pos(p, s.kafka.parts[p].end))
  {
    hide FinishedInv, LogInv, TasksInv, HandOffInv, SchedulersInv, OutboxInv, RelayCountInv, RowsInv, TaskRowsInv,
      ResultsInv, TaskOutcomeInv, CoveredInv, StableInv, TargetsInv;
    assert PartOk(s.kafka.parts[p]);
  }

  lemma {:induction false} OwedFrom(s: State, t: State, q: Pair, base: set<Pos>, since: Since)
    requires Owed(s, q, base, since) && Live(t, q, base, Settles(s, q, since), since.scheduled)
    requires RowsStay(s, t, q) && (q in s.db.dlq ==> q in t.db.dlq) && s.hist.scheduled <= t.hist.scheduled
    ensures Owed(t, q, base, since)
  {
    hide Live, HasSuccess, RowsStay;
    if HasSuccess(s.db.attempts, q) {
      SuccessStays(s, t, q);
    }
    LiveGrows(t, q, base, Settles(s, q, since), since.scheduled, Settles(t, q, since), since.scheduled);
  }

  lemma {:induction false} ApiLive(s: State, a: ApiStep, q: Pair, base: set<Pos>, since: Since)
    requires Inv(s) && ApiEnabled(s, a) && !Unburies(ByApi(a), q) && Owed(s, q, base, since)
    ensures Owed(StepApi(s, a), q, base, since)
  {
    hide Inv, Shrinks, KeyTaken, RetriesLive, SchedulersLive, CoveredLive, TasksLive, CancelsSafe, Settles, HasSuccess;
    ApiQuiet(s, a, q);
    match a {
      case Ingest(e, body) =>
      case SetEndpoint(ep, record) =>
      case DeleteEndpoint(ep) =>
      case Publish(p, e) => AppendLive(s, p, Fanout(e), q, base, Settles(s, q, since), since.scheduled);
      case DeleteDlq(pairs) =>
      case PublishPoison(p) => AppendLive(s, p, Poison, q, base, Settles(s, q, since), since.scheduled);
    }
    OwedFrom(s, StepApi(s, a), q, base, since);
  }

  lemma {:induction false} RelayLive(s: State, r: nat, a: RelayStep, q: Pair, base: set<Pos>, since: Since)
    requires Inv(s) && RelayEnabled(s, r, a) && Owed(s, q, base, since)
    ensures Owed(StepRelay(s, r, a), q, base, since)
  {
    hide Inv, Shrinks, Locked, Distinct, Elements, RetriesLive, SchedulersLive, CoveredLive, TasksLive, CancelsSafe,
      Settles, HasSuccess;
    RelayQuiet(s, r, a, q);
    if a.Send? {
      AppendLive(s, a.part, Fanout(s.live.relays[r].rows[s.live.relays[r].sent]), q, base, Settles(s, q, since),
                 since.scheduled);
    }
    OwedFrom(s, StepRelay(s, r, a), q, base, since);
  }

  lemma {:induction false} SchedulerLive(s: State, c: nat, a: SchedulerStep, q: Pair, base: set<Pos>, since: Since)
    requires Inv(s) && SchedulerEnabled(s, c, a) && Owed(s, q, base, since)
    ensures Owed(StepScheduler(s, c, a), q, base, since)
  {
    hide Inv, Shrinks, Distinct, CoveredLive, TasksLive, CancelsSafe, Settles, HasSuccess, InNewRecord;
    SchedulerQuiet(s, c, a, q);
    if a.Republish? {
      AppendLive(s, a.part, Targeted(s.live.schedulers[c].due[0]), q, base, Settles(s, q, since), since.scheduled);
    }
    OwedFrom(s, StepScheduler(s, c, a), q, base, since);
  }

  lemma {:induction false} RestartCovers(s: State, p: nat)
    requires Inv(s) && p < |s.kafka.parts| && s.kafka.parts[p].committed >= 0
    ensures forall x :: Covered(StepRestart(s, p).kafka.parts, x) ==> Covered(s.kafka.parts, x)
  {
    hide FinishedInv, LogInv, TasksInv, HandOffInv, SchedulersInv, OutboxInv, RelayCountInv, RowsInv, TaskRowsInv,
      ResultsInv, TaskOutcomeInv, CoveredInv, StableInv, TargetsInv;
    assert PartOk(s.kafka.parts[p]);
  }

  lemma {:induction false} BrokerLive(s: State, a: BrokerStep, q: Pair, base: set<Pos>, since: Since)
    requires Inv(s) && BrokerEnabled(s, a) && Owed(s, q, base, since)
    ensures Owed(StepBroker(s, a), q, base, since)
  {
    hide Inv, Shrinks, Started, RetriesLive, SchedulersLive, Settles, HasSuccess, TaskLive;
    BrokerQuiet(s, a, q);
    var t := StepBroker(s, a);
    if a.Restart? {
      RestartCovers(s, a.part);
    } else {
      assert forall x :: Covered(t.kafka.parts, x) ==> Covered(s.kafka.parts, x);
    }
    ResolvingOwesNothing(q, Settles(s, q, since), since.scheduled);
    hide Covered;
    OwedFrom(s, t, q, base, since);
  }

  lemma {:induction false} ResolvingOwesNothing(q: Pair, ok: bool, n: set<nat>)
    ensures forall m :: TaskLive(m, Task([], 0, Resolving), q, ok, n)
  {
  }

  // ---------- steps of tasks ----------

  lemma {:induction false} PutTaskLive(s: State, t: State, pos: Pos, task: Task, q: Pair, base: set<Pos>, ok: bool,
                                       n: set<nat>)
    requires Live(s, q, base, ok, n) && pos in s.kafka.log
    requires t.kafka == s.kafka && t.live == s.live.(tasks := s.live.tasks[pos := task])
    requires RetriesLive(t.kafka.log, t.redis, base, q, ok, n)
    requires About(s.kafka.log[pos], q) && pos !in base ==> TaskLive(s.kafka.log[pos], task, q, ok, n)
    requires Cancelling(s.kafka.log[pos], task, q) ==> ok || (pos in base && AttemptOf(s.kafka.log[pos]) == 0)
    ensures Live(t, q, base, ok, n)
  {
    hide RetriesLive, SchedulersLive, CoveredLive, TaskLive, Cancelling;
  }

  lemma {:induction false} DropTaskLive(s: State, t: State, pos: Pos, q: Pair, base: set<Pos>, ok: bool, n: set<nat>)
    requires Live(s, q, base, ok, n)
    requires t.kafka.log == s.kafka.log && t.live == s.live.(tasks := s.live.tasks - {pos}) && t.redis == s.redis
    requires CoveredLive(t.kafka.log, t.kafka.parts, base, q, ok, n)
    ensures Live(t, q, base, ok, n)
  {
    hide RetriesLive, SchedulersLive, CoveredLive, TaskLive, Cancelling;
  }

  /** The new state is assembled: the verdict only ever gets truer. */
  lemma {:induction false} OwedLater(s: State, t: State, pos: Pos, a: TaskStep, q: Pair, base: set<Pos>, since: Since)
    requires Owed(s, q, base, since) && TaskEnabled(s, pos, a)
    requires var since' := Later(s, ByTask(pos, a), q, since);
             Live(t, q, base, Settles(t, q, since'), since'.scheduled)
    requires s.hist.scheduled <= t.hist.scheduled
    requires WorksOn(s, ByTask(pos, a), q) && a.Schedule? ==>
               Key(q, AttemptOf(s.kafka.log[pos]) + 1) in t.hist.scheduled
    ensures Owed(t, q, base, Later(s, ByTask(pos, a), q, since))
  {
    hide Live, Settles, TaskEnabled;
  }

  lemma {:induction false} MineIsLive(s: State, pos: Pos, q: Pair, base: set<Pos>, ok: bool, n: set<nat>)
    requires Live(s, q, base, ok, n) && pos in s.live.tasks && pos in s.kafka.log
    ensures About(s.kafka.log[pos], q) && pos !in base ==> TaskLive(s.kafka.log[pos], s.live.tasks[pos], q, ok, n)
    ensures Cancelling(s.kafka.log[pos], s.live.tasks[pos], q) ==>
              ok || (pos in base && AttemptOf(s.kafka.log[pos]) == 0)
  {
    hide RetriesLive, SchedulersLive, CoveredLive, TaskLive, Cancelling;
  }

  lemma {:induction false} ResolveLive(s: State, pos: Pos, targets: seq<Uuid>, q: Pair, base: set<Pos>, since: Since)
    requires Inv(s) && TaskEnabled(s, pos, Resolve(targets)) && Owed(s, q, base, since)
    ensures Owed(StepTask(s, pos, Resolve(targets)), q, base, Later(s, ByTask(pos, Resolve(targets)), q, since))
  {
    hide Inv, Live, TargetSet, Distinct, DroppedBy, HasSuccess;
    var a := Resolve(targets);
    var t, since' := StepTask(s, pos, a), Later(s, ByTask(pos, a), q, since);
    var ok, ok' := Settles(s, q, since), Settles(t, q, since');
    LiveGrows(s, q, base, ok, since.scheduled, ok', since.scheduled);
    var m, task := s.kafka.log[pos], Task(targets, 0, Checking);
    if About(m, q) && q.endpoint !in targets {
      assert q.endpoint !in Elements(targets);
      assert Does(s, ByTask(pos, a), q, Drops);
    }
    assert About(m, q) ==> TaskLive(m, task, q, ok', since.scheduled);
    StillLive(s, q, base, ok', since.scheduled);
    PutTaskLive(s, t, pos, task, q, base, ok', since.scheduled);
    OwedLater(s, t, pos, a, q, base, since);
  }

  lemma {:induction false} StillLive(s: State, q: Pair, base: set<Pos>, ok: bool, n: set<nat>)
    requires Live(s, q, base, ok, n)
    ensures RetriesLive(s.kafka.log, s.redis, base, q, ok, n)
    ensures CoveredLive(s.kafka.log, s.kafka.parts, base, q, ok, n)
  {
    hide RetriesLive, SchedulersLive, CoveredLive, TasksLive, CancelsSafe;
  }

  /** A step inside a delivery that leaves the retry store alone. */
  lemma {:induction false} DeliveryLive(s: State, pos: Pos, a: TaskStep, task: Task, q: Pair, base: set<Pos>,
                                        since: Since)
    requires TaskEnabled(s, pos, a) && Owed(s, q, base, since)
    requires pos in s.live.tasks && pos in s.kafka.log
    requires var t := StepTask(s, pos, a);
             && t.kafka == s.kafka && t.live == s.live.(tasks := s.live.tasks[pos := task]) && t.redis == s.redis
             && t.hist.scheduled == s.hist.scheduled
    requires var t, since' := StepTask(s, pos, a), Later(s, ByTask(pos, a), q, since);
             && since'.scheduled == since.scheduled
             && (Settles(s, q, since) ==> Settles(t, q, since'))
             && (About(s.kafka.log[pos], q)
                 && TaskLive(s.kafka.log[pos], s.live.tasks[pos], q, Settles(s, q, since), since.scheduled) ==>
                   TaskLive(s.kafka.log[pos], task, q, Settles(t, q, since'), since.scheduled))
             && (Cancelling(s.kafka.log[pos], task, q) ==> Settles(t, q, since'))
    ensures Owed(StepTask(s, pos, a), q, base, Later(s, ByTask(pos, a), q, since))
  {
    hide Live, TaskEnabled, StepTask, Settles, TaskLive, Cancelling, Does, WorksOn;
    var t, since' := StepTask(s, pos, a), Later(s, ByTask(pos, a), q, since);
    var ok, ok', n := Settles(s, q, since), Settles(t, q, since'), since.scheduled;
    LiveGrows(s, q, base, ok, n, ok', n);
    MineIsLive(s, pos, q, base, ok, n);
    StillLive(s, q, base, ok', n);
    PutTaskLive(s, t, pos, task, q, base, ok', n);
    ScheduledAgain(s, pos, a, q, since);
    OwedLater(s, t, pos, a, q, base, since);
  }

  lemma {:induction false} ScheduledAgain(s: State, pos: Pos, a: TaskStep, q: Pair, since: Since)
    requires forall n :: n in since.scheduled ==> Key(q, n) in s.hist.scheduled
    requires Later(s, ByTask(pos, a), q, since).scheduled == since.scheduled
    ensures WorksOn(s, ByTask(pos, a), q) && a.Schedule? ==> Key(q, AttemptOf(s.kafka.log[pos]) + 1) in s.hist.scheduled
  {
  }

  lemma {:induction false} SettlesStays(s: State, pos: Pos, a: TaskStep, q: Pair, since: Since)
    requires TaskEnabled(s, pos, a) && Settles(s, q, since)
    ensures Settles(StepTask(s, pos, a), q, Later(s, ByTask(pos, a), q, since))
  {
    TaskRowsStay(s, pos, a, q);
    if HasSuccess(s.db.attempts, q) {
      SuccessStays(s, StepTask(s, pos, a), q);
    }
    hide TaskEnabled, StepTask, HasSuccess, RowsStay, Does, WorksOn;
  }

  lemma {:induction false} TaskRowsStay(s: State, pos: Pos, a: TaskStep, q: Pair)
    requires TaskEnabled(s, pos, a)
    ensures RowsStay(s, StepTask(s, pos, a), q) && s.db.dlq <= StepTask(s, pos, a).db.dlq
  {
    hide HasSuccess, TargetSet, DroppedBy, Distinct, Elements, StatusOf, GivesUp, Finished, ToCommit;
  }

  lemma {:induction false} CheckLive(s: State, pos: Pos, q: Pair, base: set<Pos>, since: Since)
    requires TaskEnabled(s, pos, Check) && Owed(s, q, base, since)
    ensures Owed(StepTask(s, pos, Check), q, base, Later(s, ByTask(pos, Check), q, since))
  {
    hide Owed, HasSuccess;
    if Settles(s, q, since) { SettlesStays(s, pos, Check, q, since); }
    DeliveryLive(s, pos, Check, StepTask(s, pos, Check).live.tasks[pos], q, base, since);
  }

  lemma {:induction false} PostLive(s: State, pos: Pos, o: Outcome, q: Pair, base: set<Pos>, since: Since)
    requires TaskEnabled(s, pos, Post(o)) && Owed(s, q, base, since)
    ensures Owed(StepTask(s, pos, Post(o)), q, base, Later(s, ByTask(pos, Post(o)), q, since))
  {
    hide Owed, HasSuccess;
    if Settles(s, q, since) { SettlesStays(s, pos, Post(o), q, since); }
    DeliveryLive(s, pos, Post(o), s.live.tasks[pos].(pc := Inserting(o)), q, base, since);
  }

  lemma {:induction false} InsertLive(s: State, pos: Pos, q: Pair, base: set<Pos>, since: Since)
    requires TaskEnabled(s, pos, Insert) && Owed(s, q, base, since)
    ensures Owed(StepTask(s, pos, Insert), q, base, Later(s, ByTask(pos, Insert), q, since))
  {
    hide Owed, HasSuccess, StatusOf, GivesUp, InsertRow;
    if Settles(s, q, since) { SettlesStays(s, pos, Insert, q, since); }
    DeliveryLive(s, pos, Insert, StepTask(s, pos, Insert).live.tasks[pos], q, base, since);
  }

  lemma {:induction false} BuryLive(s: State, pos: Pos, q: Pair, base: set<Pos>, since: Since)
    requires TaskEnabled(s, pos, Bury) && Owed(s, q, base, since)
    ensures Owed(StepTask(s, pos, Bury), q, base, Later(s, ByTask(pos, Bury), q, since))
  {
    hide Owed, HasSuccess, StatusOf;
    if Settles(s, q, since) { SettlesStays(s, pos, Bury, q, since); }
    DeliveryLive(s, pos, Bury, s.live.tasks[pos].(pc := Unscheduling), q, base, since);
  }

  lemma {:induction false} ScheduleLive(s: State, pos: Pos, q: Pair, base: set<Pos>, since: Since)
    requires TaskEnabled(s, pos, Schedule) && Owed(s, q, base, since)
    ensures Owed(StepTask(s, pos, Schedule), q, base, Later(s, ByTask(pos, Schedule), q, since))
  {
    var t, since' := StepTask(s, pos, Schedule), Later(s, ByTask(pos, Schedule), q, since);
    var ok, ok' := Settles(s, q, since), Settles(t, q, since');
    if ok { SettlesStays(s, pos, Schedule, q, since); }
    var s1 := s.(redis := t.redis);
    MoreRetriesLive(s, t.redis, q, base, ok, since.scheduled);
    hide Live, HasSuccess, Settles;
    LiveGrows(s1, q, base, ok, since.scheduled, ok', since'.scheduled);
    MineIsLive(s1, pos, q, base, ok, since.scheduled);
    StillLive(s1, q, base, ok', since'.scheduled);
    PutTaskLive(s1, t, pos, t.live.tasks[pos], q, base, ok', since'.scheduled);
    OwedLater(s, t, pos, Schedule, q, base, since);
  }

  lemma {:induction false} MoreRetriesLive(s: State, redis: set<Key>, q: Pair, base: set<Pos>, ok: bool, n: set<nat>)
    requires Live(s, q, base, ok, n) && s.redis <= redis
    ensures Live(s.(redis := redis), q, base, ok, n)
  {
    hide SchedulersLive, CoveredLive, TasksLive, CancelsSafe, InNewRecord;
  }

  /** A cancel of the DLQ handler removes no retry the pair still needs. */
  lemma {:induction false} UnscheduleLive(s: State, pos: Pos, works: bool, q: Pair, base: set<Pos>, since: Since)
    requires TaskEnabled(s, pos, Unschedule(works)) && Owed(s, q, base, since)
    ensures Owed(StepTask(s, pos, Unschedule(works)), q, base, Later(s, ByTask(pos, Unschedule(works)), q, since))
  {
    var a := Unschedule(works);
    var t, since' := StepTask(s, pos, a), Later(s, ByTask(pos, a), q, since);
    var ok, ok', n := Settles(s, q, since), Settles(t, q, since'), since.scheduled;
    if ok { SettlesStays(s, pos, a, q, since); }
    hide Live, HasSuccess, Settles, InNewRecord;
    LiveGrows(s, q, base, ok, n, ok', n);
    MineIsLive(s, pos, q, base, ok, n);
    StillLive(s, q, base, ok', n);
    PutTaskLive(s, t, pos, t.live.tasks[pos], q, base, ok', n);
    OwedLater(s, t, pos, a, q, base, since);
  }

  lemma {:induction false} NotAnOrphan(s: State, pos: Pos, q: Pair)
    requires Inv(s) && pos in s.kafka.log && About(s.kafka.log[pos], q)
    ensures EventOf(s.kafka.log[pos]) in s.db.events
  {
    hide Inv;
    KeyIsScheduled(s, pos);
    if s.kafka.log[pos].Targeted? {
      ScheduledEvents(s, s.kafka.log[pos].key);
    }
  }

  lemma {:induction false} FinishLive(s: State, pos: Pos, q: Pair, base: set<Pos>, since: Since)
    requires Inv(s) && TaskEnabled(s, pos, Finish) && Owed(s, q, base, since)
    ensures Owed(StepTask(s, pos, Finish), q, base, Later(s, ByTask(pos, Finish), q, since))
  {
    hide Inv, HasSuccess, Finished, ToCommit, InNewRecord;
    var t, since' := StepTask(s, pos, Finish), Later(s, ByTask(pos, Finish), q, since);
    var ok, n := Settles(s, q, since), since.scheduled;
    assert Settles(t, q, since') == ok && since'.scheduled == n;
    if About(s.kafka.log[pos], q) {
      NotAnOrphan(s, pos, q);
    }
    forall x | Covered(t.kafka.parts, x) ensures Covered(s.kafka.parts, x) || x == pos {
    }
    MineIsLive(s, pos, q, base, ok, n);
    StillLive(s, q, base, ok, n);
    hide Covered;
    assert CoveredLive(t.kafka.log, t.kafka.parts, base, q, ok, n);
    hide Live, Settles;
    DropTaskLive(s, t, pos, q, base, ok, n);
    OwedLater(s, t, pos, Finish, q, base, since);
  }

  lemma {:induction false} FailLive(s: State, pos: Pos, q: Pair, base: set<Pos>, since: Since)
    requires TaskEnabled(s, pos, Fail) && Owed(s, q, base, since)
    ensures Owed(StepTask(s, pos, Fail), q, base, Later(s, ByTask(pos, Fail), q, since))
  {
    var t, since' := StepTask(s, pos, Fail), Later(s, ByTask(pos, Fail), q, since);
    var ok, n := Settles(s, q, since), since.scheduled;
    hide HasSuccess, InNewRecord;
    assert Settles(t, q, since') == ok && since'.scheduled == n;
    hide Live, Settles;
    StillLive(s, q, base, ok, n);
    DropTaskLive(s, t, pos, q, base, ok, n);
    OwedLater(s, t, pos, Fail, q, base, since);
  }

  lemma {:induction false} StepLive(s: State, a: Action, q: Pair, base: set<Pos>, since: Since)
    requires Inv(s) && Enabled(s, a) && !Unburies(a, q) && Owed(s, q, base, since)
    ensures Owed(Step(s, a), q, base, Later(s, a, q, since))
  {
    hide Inv, Owed, ApiEnabled, RelayEnabled, SchedulerEnabled, TaskEnabled, BrokerEnabled,
      StepApi, StepRelay, StepScheduler, StepTask, StepBroker;
    match a {
      case ByApi(x) => ApiLive(s, x, q, base, since);
      case ByRelay(r, x) => RelayLive(s, r, x, q, base, since);
      case ByScheduler(c, x) => SchedulerLive(s, c, x, q, base, since);
      case ByBroker(x) => BrokerLive(s, x, q, base, since);
      case ByTask(pos, x) =>
        hide Later, Unburies;
        match x {
          case Resolve(targets) => ResolveLive(s, pos, targets, q, base, since);
          case Check => CheckLive(s, pos, q, base, since);
          case Post(o) => PostLive(s, pos, o, q, base, since);
          case Insert => InsertLive(s, pos, q, base, since);
          case Schedule => ScheduleLive(s, pos, q, base, since);
          case Bury => BuryLive(s, pos, q, base, since);
          case Unschedule(works) => UnscheduleLive(s, pos, works, q, base, since);
          case Finish => FinishLive(s, pos, q, base, since);
          case Fail => FailLive(s, pos, q, base, since);
        }
    }
  }

  // ---------- runs ----------

  ghost predicate Noted(s: State, acts: seq<Action>, q: Pair, before: Since, after: Since) {
    && (after.answered ==> before.answered || Ever(s, acts, q, Acknowledges))
    && (after.dropped ==> before.dropped || Ever(s, acts, q, Drops))
  }

  lemma {:induction false} RunLive(s: State, acts: seq<Action>, t: State, q: Pair, base: set<Pos>, since: Since)
    returns (since': Since)
    requires Inv(s) && Leads(s, acts, t) && Owed(s, q, base, since) && forall a :: a in acts ==> !Unburies(a, q)
    ensures Inv(t) && Owed(t, q, base, since') && Noted(s, acts, q, since, since')
    decreases |acts|
  {
    hide Inv, Enabled, Step, Owed, Unburies, Does, WorksOn;
    since' := since;
    if acts != [] {
      StepPreserves(s, acts[0]);
      StepLive(s, acts[0], q, base, since);
      since' := RunLive(Step(s, acts[0]), acts[1..], t, q, base, Later(s, acts[0], q, since));
    }
  }

  /** The records a worker has taken up: finished with, or being processed. */
  ghost function TakenUp(s: State): set<Pos> {
    set pos | pos in s.kafka.log && (Covered(s.kafka.parts, pos) || pos in s.live.tasks)
  }

  /** Nobody is about to remove a retry of the pair without cause: no DLQ handler of an
      attempt that was scheduled stands before its cancel, and a scheduler between publish
      and cancel has published a record nobody has taken up yet; unless a success row
      settles the pair anyway. Whether the pair has a DLQ row does not matter, so this can
      be asked before a replay removes it. */
  ghost predicate Calm(s: State, q: Pair) {
    && CancelsSafe(s.kafka.log, s.live.tasks, TakenUp(s), q, HasSuccess(s.db.attempts, q))
    && SchedulersLive(s.kafka.log, s.live.schedulers, TakenUp(s), q, HasSuccess(s.db.attempts, q))
  }

  lemma {:induction false} NothingOwedYet(s: State, q: Pair)
    requires Calm(s, q) || q in s.db.dlq
    ensures Owed(s, q, TakenUp(s), Since(false, false, {}))
  {
    hide HasSuccess, Covered, InNewRecord, TaskLive, Cancelling;
  }

  /** Nothing is left to do for the pair: no retry, and every record about it is behind
      the start of its epoch or finished. */
  ghost predicate DoneFor(s: State, q: Pair) {
    && (forall n: nat :: Key(q, n) !in s.redis)
    && forall pos :: pos in s.kafka.log && About(s.kafka.log[pos], q) ==> Covered(s.kafka.parts, pos)
  }

  lemma {:induction false} NewRecordSettles(s: State, q: Pair, base: set<Pos>, ok: bool, n: set<nat>, pos: Pos)
    requires DoneFor(s, q) && Live(s, q, base, ok, n)
    requires pos in s.kafka.log && pos !in base && About(s.kafka.log[pos], q)
    ensures ok || AttemptOf(s.kafka.log[pos]) + 1 in n
  {
    hide RetriesLive, SchedulersLive, TasksLive, CancelsSafe, Covered;
    assert Covered(s.kafka.parts, pos);
  }

  lemma {:induction false} RetryIsInRecord(s: State, q: Pair, base: set<Pos>, ok: bool, n: set<nat>, i: nat)
    returns (pos: Pos)
    requires DoneFor(s, q) && Live(s, q, base, ok, n) && i in n && !ok
    ensures pos in s.kafka.log && pos !in base && s.kafka.log[pos] == Targeted(Key(q, i))
  {
    hide CoveredLive, SchedulersLive, TasksLive, CancelsSafe, Covered;
    assert InNewRecord(s.kafka.log, base, Targeted(Key(q, i)));
    pos :| pos in s.kafka.log && pos !in base && s.kafka.log[pos] == Targeted(Key(q, i));
  }

  /** The chain of attempts ends, because attempt numbers are bounded. */
  lemma {:induction false} ChainSettles(s: State, q: Pair, base: set<Pos>, since: Since, i: nat)
    requires Inv(s) && DoneFor(s, q) && Owed(s, q, base, since) && i in since.scheduled
    ensures Settles(s, q, since)
    decreases s.max - i
  {
    hide Inv, DoneFor, Settles, Live;
    HandOffFacts(s, Key(q, i));
    if !Settles(s, q, since) {
      var pos := RetryIsInRecord(s, q, base, Settles(s, q, since), since.scheduled, i);
      NewRecordSettles(s, q, base, Settles(s, q, since), since.scheduled, pos);
      HandOffFacts(s, Key(q, i + 1));
      ChainSettles(s, q, base, since, i + 1);
    }
  }

  /** The pair has its verdict: some step of the run got a 2xx or found that it is no
      target, or it has a row that says so. */
  ghost predicate Served(s: State, acts: seq<Action>, t: State, q: Pair) {
    || Ever(s, acts, q, Acknowledges) || Ever(s, acts, q, Drops)
    || q in t.db.dlq || HasSuccess(t.db.attempts, q)
  }

  /** From any reachable state that is calm for the pair or still has its DLQ row, be it after a replay, a crash or
      years of deliveries: a record about it that nobody has taken up yet, in the topic
      already or appended later, is not lost. When nothing is left to do for the pair it
      has its verdict, provided nobody removes its DLQ row meanwhile. */
  lemma {:induction false} CalmReplayIsServed(s: State, acts: seq<Action>, t: State, q: Pair, pos: Pos)
    requires Reachable(s) && (Calm(s, q) || q in s.db.dlq) && Leads(s, acts, t) && DoneFor(t, q)
    requires forall a :: a in acts ==> !Unburies(a, q)
    requires pos in t.kafka.log && pos !in TakenUp(s) && About(t.kafka.log[pos], q)
    ensures Served(s, acts, t, q)
  {
    hide Reachable, Calm, Leads, DoneFor, TakenUp, Inv, Unburies, HasSuccess, Live, Ever;
    ReachableInv(s);
    NothingOwedYet(s, q);
    var since := RunLive(s, acts, t, q, TakenUp(s), Since(false, false, {}));
    NewRecordSettles(t, q, TakenUp(s), Settles(t, q, since), since.scheduled, pos);
    if !Settles(t, q, since) {
      ChainSettles(t, q, TakenUp(s), since, AttemptOf(t.kafka.log[pos]) + 1);
    }
  }
}
