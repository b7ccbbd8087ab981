/** Clean runs end, and they end with exactly one verdict per target. */
module CleanOutcome {
  import opened Domain
  import opened Watermarks
  import opened Protocol
  import opened Invariants
  import opened Updates
  import opened PipelineSteps
  import opened CleanRuns
  import opened CleanProofs
  import opened CleanSteps

  // ---------- how much work has been noted ----------

  ghost function RowSize(l: RowLedger): nat {
    |l.locked| + |l.sent| + |l.relayed|
  }

  ghost function RecordSize(l: RecordLedger): nat {
    |l.fetched| + |l.resolved| + |l.finished|
  }

  ghost function RetrySize(l: RetryLedger): nat {
    |l.polled| + |l.republished| + |l.cancelled|
  }

  ghost function KeySize(l: KeyLedger): nat {
    |l.checked| + |l.posted| + |l.inserted| + |l.rescheduled| + |l.buried| + |l.unscheduled|
  }

  ghost function Size(l: Ledger): nat {
    RowSize(l.rows) + RecordSize(l.records) + RetrySize(l.retries) + KeySize(l.keys)
  }

  // ---------- only targets are worked on ----------

  ghost predicate Target(endpoints: map<Uuid, Endpoint>, events: map<Uuid, Event>, q: Pair) {
    && q.endpoint in endpoints && q.event in events
    && endpoints[q.endpoint].enabled && events[q.event].eventType in endpoints[q.endpoint].eventTypes
  }

  ghost predicate PairsClean(endpoints: map<Uuid, Endpoint>, events: map<Uuid, Event>, log: map<Pos, Message>,
                             tasks: map<Pos, Task>, l: KeyLedger)
  {
    && (forall k :: NotYet(l, k, 0) || Target(endpoints, events, k.pair))
    && (forall pos, ep :: pos in tasks && pos in log && !log[pos].Poison? && ep in tasks[pos].targets ==>
          Target(endpoints, events, Pair(EventOf(log[pos]), ep)))
  }

  ghost predicate FullInv(s: State, l: Ledger) {
    CleanInv(s, l) && PairsClean(s.db.endpoints, s.db.events, s.kafka.log, s.live.tasks, l.keys)
  }

  /** Steps of ingestion and of the broker need not add to the ledger. */
  predicate IsWork(a: Action) {
    a.ByRelay? || a.ByScheduler? || a.ByTask? || (a.ByBroker? && a.brokerStep.Fetch?)
  }

  /** The step keeps the invariant, and work grows the ledger. */
  ghost predicate GoodStep(s: State, a: Action, l: Ledger) {
    && Enabled(s, a)
    && FullInv(Step(s, a), Note(s, a, l))
    && Size(Note(s, a, l)) >= Size(l) + (if IsWork(a) then 1 else 0)
  }

  ghost predicate InsideDelivery(s: State, pos: Pos, a: TaskStep) {
    Delivering(s, pos) && TaskEnabled(s, pos, a) && !a.Resolve? && !a.Finish? && !a.Fail?
  }

  ghost predicate GoodKeyStep(s: State, pos: Pos, a: TaskStep, l: Ledger) {
    && TaskEnabled(s, pos, a)
    && CleanInv(StepTask(s, pos, a), l.(keys := NoteKey(s, pos, a, l.keys)))
    && KeySize(NoteKey(s, pos, a, l.keys)) == KeySize(l.keys) + 1
  }

  lemma {:induction false} PairsIngest(endpoints: map<Uuid, Endpoint>, events: map<Uuid, Event>, log: map<Pos, Message>,
                    tasks: map<Pos, Task>, l: KeyLedger, e: Uuid, body: Event)
    requires PairsClean(endpoints, events, log, tasks, l) && e !in events
    ensures PairsClean(endpoints, events[e := body], log, tasks, l)
  {
    hide NotYet, Matches;
    assert forall q :: Target(endpoints, events, q) ==> Target(endpoints, events[e := body], q);
  }

  lemma {:induction false} PairsAppend(endpoints: map<Uuid, Endpoint>, events: map<Uuid, Event>, log: map<Pos, Message>,
                    tasks: map<Pos, Task>, l: KeyLedger, pos: Pos, m: Message)
    requires PairsClean(endpoints, events, log, tasks, l) && pos !in tasks
    ensures PairsClean(endpoints, events, log[pos := m], tasks, l)
  {
    hide NotYet, Target;
  }

  lemma {:induction false} PairsSetTask(endpoints: map<Uuid, Endpoint>, events: map<Uuid, Event>,
                                        log: map<Pos, Message>, tasks: map<Pos, Task>, l: KeyLedger, pos: Pos,
                                        t: Task)
    requires PairsClean(endpoints, events, log, tasks, l)
    requires pos in log && !log[pos].Poison? ==>
               forall ep :: ep in t.targets ==> Target(endpoints, events, Pair(EventOf(log[pos]), ep))
    ensures PairsClean(endpoints, events, log, tasks[pos := t], l)
  {
    hide NotYet, Target;
  }

  lemma {:induction false} PairsKey(s: State, l: KeyLedger, l': KeyLedger, pos: Pos, t: Task)
    requires PairsClean(s.db.endpoints, s.db.events, s.kafka.log, s.live.tasks, l)
    requires Delivering(s, pos) && OthersKept(l, l', CurrentKey(s, pos)) && t.targets == s.live.tasks[pos].targets
    ensures PairsClean(s.db.endpoints, s.db.events, s.kafka.log, s.live.tasks[pos := t], l')
  {
    hide NotYet, Target;
    assert s.live.tasks[pos].targets[s.live.tasks[pos].index] in s.live.tasks[pos].targets;
  }

  lemma {:induction false} PairsRemove(endpoints: map<Uuid, Endpoint>, events: map<Uuid, Event>, log: map<Pos, Message>,
                    tasks: map<Pos, Task>, l: KeyLedger, pos: Pos)
    requires PairsClean(endpoints, events, log, tasks, l)
    ensures PairsClean(endpoints, events, log, tasks - {pos}, l)
  {
    hide NotYet, Target;
  }

  lemma {:induction false} PairsResolve(s: State, l: Ledger, pos: Pos, targets: seq<Uuid>)
    requires CleanInv(s, l) && TaskEnabled(s, pos, Resolve(targets))
    requires PairsClean(s.db.endpoints, s.db.events, s.kafka.log, s.live.tasks, l.keys)
    ensures forall ep :: ep in targets ==> Target(s.db.endpoints, s.db.events, Pair(EventOf(s.kafka.log[pos]), ep))
  {
    hide Inv, LogClean, RowsClean, RetriesClean, RecordsClean, KeysClean, OutcomesClean, TargetSet;
    TargetsAreKnown(s, pos, targets);
    var m := s.kafka.log[pos];
    if m.Targeted? {
      ScheduledIff(s, l);
      KeyIsScheduled(s, pos);
      var before := Key(m.key.pair, m.key.attempt - 1);
      assert !NotYet(l.keys, before, 0);
      assert Target(s.db.endpoints, s.db.events, before.pair);
    }
  }

  // ---------- one clean step ----------

  lemma {:induction false} ResolveIs(s: State, pos: Pos, targets: seq<Uuid>)
    requires pos in s.live.tasks && pos in s.kafka.log && !s.kafka.log[pos].Poison?
    ensures var t := StepResolve(s, pos, targets);
            t.live.tasks == s.live.tasks[pos := Task(targets, 0, Checking)] && t.db == s.db && t.kafka == s.kafka
  {
  }

  lemma {:induction false} FinishIs(s: State, pos: Pos)
    requires pos.part < |s.kafka.parts|
    ensures var t := StepFinish(s, pos);
            t.live.tasks == s.live.tasks - {pos} && t.db == s.db && t.kafka.log == s.kafka.log
  {
  }

  /** Every step inside a delivery replaces one task, with the same targets. */
  lemma {:induction false} KeyStepIs(s: State, pos: Pos, a: TaskStep)
    requires Delivering(s, pos) && TaskEnabled(s, pos, a) && !a.Resolve? && !a.Finish? && !a.Fail?
    ensures var t := StepTask(s, pos, a);
            && pos in t.live.tasks && t.live.tasks == s.live.tasks[pos := t.live.tasks[pos]]
            && t.live.tasks[pos].targets == s.live.tasks[pos].targets
            && t.db.endpoints == s.db.endpoints && t.db.events == s.db.events && t.kafka == s.kafka
  {
    hide HasSuccess, StatusOf, GivesUp, InsertRow;
    match a {
      case Check =>
      case Post(o) =>
      case Insert =>
      case Schedule =>
      case Bury =>
      case Unschedule(ok) =>
    }
  }

  lemma {:induction false} KeyStepKeepsInv(s: State, l: Ledger, pos: Pos, a: TaskStep)
    requires CleanInv(s, l) && InsideDelivery(s, pos, a)
    ensures GoodKeyStep(s, pos, a, l)
  {
    hide CleanInv, StepCheck, StepPost, StepInsert, StepSchedule, StepBury, StepUnschedule, Delivering, CurrentPair,
      TargetSet, CurrentKey;
    match a {
      case Check => CheckClean(s, l, pos);
      case Post(o) => PostClean(s, l, pos, o);
      case Insert => InsertClean(s, l, pos);
      case Schedule => ScheduleClean(s, l, pos);
      case Bury => BuryClean(s, l, pos);
      case Unschedule(ok) => UnscheduleClean(s, l, pos, ok);
    }
  }

  lemma {:induction false} KeyStepClean(s: State, l: Ledger, pos: Pos, a: TaskStep)
    requires FullInv(s, l) && InsideDelivery(s, pos, a)
    ensures GoodStep(s, ByTask(pos, a), l)
  {
    hide CleanInv, PairsClean, TaskEnabled, StepTask, NotYet, OthersKept, NoteKey, KeySize, RowSize, RecordSize,
      RetrySize, Delivering, CurrentKey;
    KeyStepKeepsInv(s, l, pos, a);
    KeyStepIs(s, pos, a);
    NoteOneKey(s, pos, a, l.keys);
    PairsKey(s, l.keys, NoteKey(s, pos, a, l.keys), pos, StepTask(s, pos, a).live.tasks[pos]);
  }

  lemma {:induction false} ResolveStepClean(s: State, l: Ledger, pos: Pos, targets: seq<Uuid>)
    requires FullInv(s, l) && TaskEnabled(s, pos, Resolve(targets))
    ensures GoodStep(s, ByTask(pos, Resolve(targets)), l)
  {
    hide CleanInv, PairsClean, TargetSet, StepResolve, KeySize, RowSize, RetrySize, Target;
    ResolveClean(s, l, pos, targets);
    PairsResolve(s, l, pos, targets);
    ResolveIs(s, pos, targets);
    PairsSetTask(s.db.endpoints, s.db.events, s.kafka.log, s.live.tasks, l.keys, pos, Task(targets, 0, Checking));
  }

  lemma {:induction false} FinishStepClean(s: State, l: Ledger, pos: Pos)
    requires FullInv(s, l) && TaskEnabled(s, pos, Finish)
    ensures GoodStep(s, ByTask(pos, Finish), l)
  {
    hide CleanInv, PairsClean, StepFinish, KeySize, RowSize, RetrySize;
    FinishClean(s, l, pos);
    FinishIs(s, pos);
    PairsRemove(s.db.endpoints, s.db.events, s.kafka.log, s.live.tasks, l.keys, pos);
  }

  lemma {:induction false} TaskDelivers(s: State, pos: Pos, a: TaskStep)
    requires TaskEnabled(s, pos, a) && !a.Resolve? && !a.Finish? && !a.Fail?
    ensures InsideDelivery(s, pos, a)
  {
    hide Delivering, CurrentPair, TargetSet;
  }

  lemma {:induction false} TaskStepClean(s: State, l: Ledger, pos: Pos, a: TaskStep)
    requires FullInv(s, l) && TaskEnabled(s, pos, a) && !a.Fail?
    ensures GoodStep(s, ByTask(pos, a), l)
  {
    hide FullInv, TaskEnabled, GoodStep, InsideDelivery;
    if a.Resolve? {
      ResolveStepClean(s, l, pos, a.targets);
    } else if a.Finish? {
      FinishStepClean(s, l, pos);
    } else {
      TaskDelivers(s, pos, a);
      KeyStepClean(s, l, pos, a);
    }
  }

  lemma {:induction false} RelayStepClean(s: State, l: Ledger, r: nat, a: RelayStep)
    requires FullInv(s, l) && RelayEnabled(s, r, a) && !a.Abort?
    ensures GoodStep(s, ByRelay(r, a), l)
  {
    hide CleanInv, PairsClean, KeySize, RecordSize, RetrySize, Target, Locked, NotYet;
    match a {
      case Lock(rows) => LockClean(s, l, r, rows);
      case Send(p) =>
        SendClean(s, l, r, p);
        AppendPairs(s, l, p, Fanout(s.live.relays[r].rows[s.live.relays[r].sent]));
      case CommitRows => CommitRowsClean(s, l, r);
    }
  }

  lemma {:induction false} AppendPairs(s: State, l: Ledger, p: nat, m: Message)
    requires FullInv(s, l) && p < |s.kafka.parts|
    ensures PairsClean(s.db.endpoints, s.db.events, s.kafka.log[Pos(p, s.kafka.parts[p].end) := m], s.live.tasks,
                       l.keys)
  {
    hide CleanInv, PairsClean;
    CleanIsInv(s, l);
    EndIsFree(s, p);
    PairsAppend(s.db.endpoints, s.db.events, s.kafka.log, s.live.tasks, l.keys, Pos(p, s.kafka.parts[p].end), m);
  }

  lemma {:induction false} CleanIsInv(s: State, l: Ledger)
    requires CleanInv(s, l)
    ensures Inv(s)
  {
    InvOf(s, l);
  }

  lemma {:induction false} SchedulerStepClean(s: State, l: Ledger, a: SchedulerStep)
    requires FullInv(s, l) && SchedulerEnabled(s, 0, a) && !a.Crash?
    ensures GoodStep(s, ByScheduler(0, a), l)
  {
    hide CleanInv, PairsClean, KeySize, RecordSize, RowSize, Target, NotYet;
    match a {
      case Poll(due) => PollClean(s, l, due);
      case Republish(p) =>
        RepublishClean(s, l, p);
        AppendPairs(s, l, p, Targeted(s.live.schedulers[0].due[0]));
      case Cancel => CancelClean(s, l);
    }
  }

  lemma {:induction false} BrokerStepClean(s: State, l: Ledger, a: BrokerStep)
    requires FullInv(s, l) && BrokerEnabled(s, a) && !a.Restart?
    ensures GoodStep(s, ByBroker(a), l)
  {
    hide CleanInv, PairsClean, KeySize, RowSize, RetrySize, Target, NotYet, Started;
    match a {
      case Fetch(p) =>
        FetchClean(s, l, p);
        var pos := Pos(p, s.kafka.parts[p].next);
        PairsSetTask(s.db.endpoints, s.db.events, s.kafka.log, s.live.tasks, l.keys, pos, Task([], 0, Resolving));
      case Arrive(c) => ArriveClean(s, l, c);
      case Lose(c) => LoseClean(s, l, c);
    }
  }

  lemma {:induction false} IngestStepClean(s: State, l: Ledger, e: Uuid, body: Event)
    requires FullInv(s, l) && e !in s.db.events
    ensures GoodStep(s, ByApi(Ingest(e, body)), l)
  {
    hide CleanInv, PairsClean, Size, KeyTaken;
    IngestClean(s, l, e, body);
    PairsIngest(s.db.endpoints, s.db.events, s.kafka.log, s.live.tasks, l.keys, e, body);
  }

  lemma {:induction false} CleanStep(s: State, l: Ledger, a: Action)
    requires FullInv(s, l) && Enabled(s, a) && Clean(a)
    ensures GoodStep(s, a, l)
  {
    hide FullInv, GoodStep, RelayEnabled, SchedulerEnabled, TaskEnabled, BrokerEnabled;
    match a {
      case ByApi(x) => IngestStepClean(s, l, x.event, x.body);
      case ByRelay(r, x) => RelayStepClean(s, l, r, x);
      case ByScheduler(c, x) => SchedulerStepClean(s, l, x);
      case ByTask(pos, x) => TaskStepClean(s, l, pos, x);
      case ByBroker(x) => BrokerStepClean(s, l, x);
    }
  }
}
