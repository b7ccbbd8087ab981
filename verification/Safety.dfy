/** What holds in every reachable state, over every interleaving and every crash. */
module Safety {
  import opened Domain
  import opened Protocol
  import opened Frames
  import opened Invariants
  import opened DeliverySteps
  import opened PipelineSteps
  import opened ControlSteps

  lemma {:induction false} InitInv(s: State)
    requires Init(s)
    ensures Inv(s)
  {
  }

  lemma {:induction false} ApiPreserves(s: State, a: ApiStep)
    requires Inv(s) && ApiEnabled(s, a)
    ensures Inv(StepApi(s, a))
  {
    hide Inv, StepIngest, StepSetEndpoint, StepDeleteEndpoint, Append;
    match a {
      case Ingest(e, body) => IngestPreserves(s, e, body);
      case SetEndpoint(ep, record) => SetEndpointPreserves(s, ep, record);
      case DeleteEndpoint(ep) => DeleteEndpointPreserves(s, ep);
      case Publish(p, e) => PublishPreserves(s, p, Fanout(e));
      case DeleteDlq(pairs) => DeleteDlqPreserves(s, pairs);
      case PublishPoison(p) => PublishPreserves(s, p, Poison);
    }
  }

  lemma {:induction false} RelayPreserves(s: State, r: nat, a: RelayStep)
    requires Inv(s) && RelayEnabled(s, r, a)
    ensures Inv(StepRelay(s, r, a))
  {
    hide Inv, Locked, StepRelaySend, StepRelayCommit, StepRelayAbort;
    match a {
      case Lock(rows) => RelayLockPreserves(s, r, rows);
      case Send(p) => RelaySendPreserves(s, r, p);
      case CommitRows => RelayCommitPreserves(s, r);
      case Abort => RelayAbortPreserves(s, r);
    }
  }

  lemma {:induction false} SchedulerPreserves(s: State, c: nat, a: SchedulerStep)
    requires Inv(s) && SchedulerEnabled(s, c, a)
    ensures Inv(StepScheduler(s, c, a))
  {
    hide Inv, StepRepublish, StepCancelRepublished;
    match a {
      case Poll(due) => PollPreserves(s, c, due);
      case Republish(p) => RepublishPreserves(s, c, p);
      case Cancel => CancelPreserves(s, c);
      case Crash => SchedulerCrashPreserves(s, c);
    }
  }

  lemma {:induction false} TaskPreserves(s: State, pos: Pos, a: TaskStep)
    requires Inv(s) && TaskEnabled(s, pos, a)
    ensures Inv(StepTask(s, pos, a))
  {
    hide Inv, TargetSet, StepResolve, StepCheck, StepPost, StepInsert, StepSchedule, StepBury, StepUnschedule,
      StepFinish;
    match a {
      case Resolve(targets) => ResolvePreserves(s, pos, targets);
      case Check => CheckPreserves(s, pos);
      case Post(o) => PostPreserves(s, pos, o);
      case Insert => InsertPreserves(s, pos);
      case Schedule => SchedulePreserves(s, pos);
      case Bury => BuryPreserves(s, pos);
      case Unschedule(ok) => UnschedulePreserves(s, pos, ok);
      case Finish => FinishPreserves(s, pos);
      case Fail => FailPreserves(s, pos);
    }
  }

  lemma {:induction false} BrokerPreserves(s: State, a: BrokerStep)
    requires Inv(s) && BrokerEnabled(s, a)
    ensures Inv(StepBroker(s, a))
  {
    hide Inv, StepFetch, StepArrive, StepRestart;
    match a {
      case Fetch(p) => FetchPreserves(s, p);
      case Arrive(c) => CommitArrivesPreserves(s, c);
      case Lose(c) => CommitLostPreserves(s, c);
      case Restart(p) => RestartPreserves(s, p);
    }
  }

  lemma {:induction false} StepPreserves(s: State, a: Action)
    requires Inv(s) && Enabled(s, a)
    ensures Inv(Step(s, a))
  {
    hide Inv, ApiEnabled, RelayEnabled, SchedulerEnabled, TaskEnabled, BrokerEnabled, StepApi, StepRelay, StepScheduler,
      StepTask, StepBroker;
    match a {
      case ByApi(x) => ApiPreserves(s, x);
      case ByRelay(r, x) => RelayPreserves(s, r, x);
      case ByScheduler(c, x) => SchedulerPreserves(s, c, x);
      case ByTask(pos, x) => TaskPreserves(s, pos, x);
      case ByBroker(x) => BrokerPreserves(s, x);
    }
  }

  lemma {:induction false} LeadsInv(s: State, acts: seq<Action>, t: State)
    requires Inv(s) && Leads(s, acts, t)
    ensures Inv(t)
    decreases |acts|
  {
    hide Inv, Enabled, Step;
    if acts != [] {
      StepPreserves(s, acts[0]);
      LeadsInv(Step(s, acts[0]), acts[1..], t);
    }
  }

  lemma {:induction false} IsReachable(s: State, acts: seq<Action>, t: State)
    requires Init(s) && Leads(s, acts, t)
    ensures Reachable(t)
  {
    hide Init, Leads;
  }

  lemma {:induction false} ReachableInv(t: State)
    requires Reachable(t)
    ensures Inv(t)
  {
    hide Inv, Init, Leads;
    var s, acts :| Init(s) && Leads(s, acts, t);
    InitInv(s);
    LeadsInv(s, acts, t);
  }

  /** Tasks work on records of the log; the next record goes to a free place. */
  lemma {:induction false} LogsOfTasks(s: State)
    requires Inv(s)
    ensures forall pos :: pos in s.live.tasks ==> pos in s.kafka.log
    ensures forall p :: 0 <= p < |s.kafka.parts| ==> Pos(p, s.kafka.parts[p].end) !in s.kafka.log
  {
    hide PartsInv, FinishedInv, HandOffInv, SchedulersInv, OutboxInv, RelayCountInv, RowsInv, TaskRowsInv, ResultsInv,
      TaskOutcomeInv, CoveredInv, StableInv, TargetsInv, TaskShape;
  }

  // ---------- commit safety ----------

  /** Only a finishing task adds to the history of finished records. */
  lemma {:induction false} FinishedWhen(s: State, a: Action)
    requires Enabled(s, a)
    ensures Step(s, a).hist.finished <= s.hist.finished + (if a.ByTask? && a.taskStep.Finish? then {a.pos} else {})
  {
    hide ApiEnabled, RelayEnabled, SchedulerEnabled, TaskEnabled, BrokerEnabled, StepApi, StepRelay, StepScheduler,
      StepTask, StepBroker, SameSetup, SameRelay, SameLog, SameResults;
    match a {
      case ByApi(x) => ApiFrame(s, x);
      case ByRelay(r, x) => RelayFrame(s, r, x);
      case ByScheduler(c, x) => SchedulerFrame(s, c, x);
      case ByTask(pos, x) => TaskFrame(s, pos, x);
      case ByBroker(x) => BrokerFrame(s, x);
    }
  }

  lemma {:induction false} FinishedByTask(s: State, acts: seq<Action>, t: State, pos: Pos)
    requires Leads(s, acts, t) && pos in t.hist.finished && pos !in s.hist.finished
    ensures ByTask(pos, Finish) in acts
    decreases |acts|
  {
    hide Enabled, Step;
    if acts != [] {
      FinishedWhen(s, acts[0]);
      if pos !in Step(s, acts[0]).hist.finished {
        FinishedByTask(Step(s, acts[0]), acts[1..], t, pos);
      }
    }
  }

  lemma {:induction false} PartFacts(s: State, p: nat, x: nat)
    requires Inv(s) && p < |s.kafka.parts| && x < s.kafka.parts[p].committed
    ensures Pos(p, x) in s.hist.finished
  {
    hide LogInv, TasksInv, HandOffInv, SchedulersInv, OutboxInv, RelayCountInv, RowsInv, TaskRowsInv, ResultsInv,
      TaskOutcomeInv, CoveredInv, StableInv, TargetsInv;
    assert PartOk(s.kafka.parts[p]);
  }

  /** Commits may be lost, reordered and repeated by restarts: still, every offset
      below the broker's position was finished by some task of the run. A record
      that failed or was cancelled and never finished is fetched again. */
  lemma {:induction false} CommitSafety(s: State, acts: seq<Action>, t: State, p: nat, x: nat)
    requires Init(s) && Leads(s, acts, t) && p < |t.kafka.parts| && x < t.kafka.parts[p].committed
    ensures ByTask(Pos(p, x), Finish) in acts
  {
    hide Inv, Leads;
    InitInv(s);
    LeadsInv(s, acts, t);
    PartFacts(t, p, x);
    FinishedByTask(s, acts, t, Pos(p, x));
  }

  // ---------- the retry hand-off ----------

  /** An attempt ever scheduled is in the retry store, or its message is in the log:
      no cancel, of a scheduler or of the DLQ handler, removes it too early. */
  lemma {:induction false} RetryHandOff(t: State, k: Key)
    requires Reachable(t) && k in t.hist.scheduled
    ensures k in t.redis || Targeted(k) in t.kafka.log.Values
    ensures 1 <= k.attempt < t.max && k.pair.event in t.db.events
  {
    hide Reachable;
    ReachableInv(t);
    hide PartsInv, FinishedInv, LogInv, TasksInv, SchedulersInv, OutboxInv, RelayCountInv, RowsInv, TaskRowsInv,
      ResultsInv, TaskOutcomeInv, CoveredInv, StableInv, TargetsInv;
  }

  // ---------- the outbox ----------

  /** No ingested event is stranded; two relays never hold the same row; an event is
      published at most once more than the batches that held it were rolled back. */
  lemma {:induction false} OutboxConservation(t: State)
    requires Reachable(t)
    ensures forall e :: e in t.db.events ==> e in t.db.outbox || Fanout(e) in t.kafka.log.Values
    ensures DisjointRows(t.live.relays)
    ensures forall e: Uuid :: t.hist.relayed[e] <= 1 + t.hist.rolledBack[e]
  {
    hide Reachable;
    ReachableInv(t);
    hide PartsInv, FinishedInv, LogInv, TasksInv, SchedulersInv, HandOffInv, RowsInv, TaskRowsInv, ResultsInv,
      TaskOutcomeInv, CoveredInv, StableInv, TargetsInv, InTransit, RelayOk;
  }

  // ---------- the audit trail ----------

  /** An attempt row implies all lower-numbered rows of its pair, and its number is
      below the limit; endpoint deletion takes all rows of the pair at once. */
  lemma {:induction false} AuditTrail(t: State, k: Key)
    requires Reachable(t) && k in t.db.attempts
    ensures k.attempt < t.max
    ensures forall m: nat :: m < k.attempt ==> Key(k.pair, m) in t.db.attempts
  {
    hide Reachable;
    ReachableInv(t);
    hide PartsInv, FinishedInv, LogInv, TasksInv, SchedulersInv, HandOffInv, OutboxInv, RelayCountInv, TaskRowsInv,
      ResultsInv, TaskOutcomeInv, CoveredInv, StableInv, TargetsInv;
  }

  lemma {:induction false} KeysBelow(q: Pair, n: nat)
    ensures |set m: nat | m < n :: Key(q, m)| == n
  {
    if n > 0 {
      KeysBelow(q, n - 1);
      assert (set m: nat | m < n :: Key(q, m)) == (set m: nat | m < n - 1 :: Key(q, m)) + {Key(q, n - 1)};
    }
  }

  /** A pair never has more than `max_retry_attempts` rows. */
  lemma {:induction false} AtMostMaxRows(t: State, q: Pair)
    requires Reachable(t)
    ensures |set k | k in t.db.attempts && k.pair == q| <= t.max
  {
    hide Reachable;
    var rows := set k | k in t.db.attempts && k.pair == q;
    var all := set m: nat | m < t.max :: Key(q, m);
    forall k | k in rows ensures k in all {
      AuditTrail(t, k);
    }
    KeysBelow(q, t.max);
    SubsetCard(rows, all);
  }

  lemma {:induction false} SubsetCard<T>(a: set<T>, b: set<T>)
    requires a <= b
    ensures |a| <= |b|
  {
    if a != {} {
      var x :| x in a;
      SubsetCard(a - {x}, b - {x});
    }
  }
}
