/** What `get_event` says once nothing is left to do, after any run: which endpoints
    still count as retrying, and why. */
module StatusAtRest {
  import opened Domain
  import Watermarks
  import opened Protocol
  import opened Frames
  import opened Invariants
  import opened Safety
  import opened NoLoss
  import opened Deeds
  import opened Recording
  import opened EventStatus
  import opened TerminalStatus

  /** The action creates, changes or deletes the endpoint. */
  predicate Edits(a: Action, ep: Uuid) {
    a.ByApi? && ((a.api.SetEndpoint? || a.api.DeleteEndpoint?) && a.api.endpoint == ep)
  }

  // ---------- rows come from resolved records ----------

  ghost predicate TasksResolved(s: State, q: Pair) {
    forall pos :: pos in s.live.tasks && pos in s.kafka.log && q.endpoint in s.live.tasks[pos].targets ==>
      s.kafka.log[pos].Poison? || EventOf(s.kafka.log[pos]) != q.event || Resolved(s, q)
  }

  ghost predicate RowsResolved(s: State, q: Pair) {
    forall k :: k in s.db.attempts && k.pair == q ==> Resolved(s, q)
  }

  /** The tasks only go, or start without targets, and no row is added. */
  ghost predicate NothingNew(s: State, t: State) {
    && (forall pos :: pos in t.live.tasks && t.live.tasks[pos].targets != [] ==>
          && pos in s.live.tasks && t.live.tasks[pos].targets == s.live.tasks[pos].targets
          && pos in s.kafka.log && pos in t.kafka.log && t.kafka.log[pos] == s.kafka.log[pos])
    && (forall k :: k in t.db.attempts ==> k in s.db.attempts)
  }

  lemma {:induction false} NothingNewKeeps(s: State, t: State, q: Pair)
    requires TasksResolved(s, q) && RowsResolved(s, q) && NothingNew(s, t) && (Resolved(s, q) ==> Resolved(t, q))
    ensures TasksResolved(t, q) && RowsResolved(t, q)
  {
    hide Resolved;
  }

  lemma {:induction false} ApiAddsNothing(s: State, a: ApiStep)
    requires Inv(s) && ApiEnabled(s, a)
    ensures NothingNew(s, StepApi(s, a))
  {
    hide Inv, KeyTaken;
    LogsOfTasks(s);
  }

  lemma {:induction false} RelayAddsNothing(s: State, r: nat, a: RelayStep)
    requires Inv(s) && RelayEnabled(s, r, a)
    ensures NothingNew(s, StepRelay(s, r, a))
  {
    hide Inv, Locked, Distinct, Elements;
    LogsOfTasks(s);
  }

  lemma {:induction false} SchedulerAddsNothing(s: State, c: nat, a: SchedulerStep)
    requires Inv(s) && SchedulerEnabled(s, c, a)
    ensures NothingNew(s, StepScheduler(s, c, a))
  {
    hide Inv, Distinct;
    LogsOfTasks(s);
  }

  lemma {:induction false} BrokerAddsNothing(s: State, a: BrokerStep)
    requires Inv(s) && BrokerEnabled(s, a)
    ensures NothingNew(s, StepBroker(s, a))
  {
    hide Inv, Watermarks.Started;
    LogsOfTasks(s);
  }

  lemma {:induction false} OthersAddNothing(s: State, a: Action)
    requires Inv(s) && Enabled(s, a) && !a.ByTask?
    ensures NothingNew(s, Step(s, a))
  {
    hide Inv, NothingNew, ApiEnabled, RelayEnabled, SchedulerEnabled, BrokerEnabled, StepApi, StepRelay, StepScheduler,
      StepBroker;
    match a {
      case ByApi(x) => ApiAddsNothing(s, x);
      case ByRelay(r, x) => RelayAddsNothing(s, r, x);
      case ByScheduler(c, x) => SchedulerAddsNothing(s, c, x);
      case ByBroker(x) => BrokerAddsNothing(s, x);
    }
  }

  lemma {:induction false} TaskKeepsResolved(s: State, pos: Pos, a: TaskStep, q: Pair)
    requires TaskEnabled(s, pos, a) && TasksResolved(s, q) && RowsResolved(s, q)
    requires var t := StepTask(s, pos, a);
             && (Resolved(s, q) ==> Resolved(t, q))
             && (Does(s, ByTask(pos, a), q, Targets) ==> Resolved(t, q))
    ensures TasksResolved(StepTask(s, pos, a), q) && RowsResolved(StepTask(s, pos, a), q)
  {
    hide Resolved, HasSuccess, TargetSet, DroppedBy, Distinct, Elements, StatusOf, GivesUp, Watermarks.Finished,
      Watermarks.ToCommit;
    match a {
      case Resolve(targets) =>
      case Check =>
      case Post(o) =>
      case Insert =>
      case Schedule =>
      case Bury =>
      case Unschedule(ok) =>
      case Finish =>
      case Fail =>
    }
  }

  lemma {:induction false} StepKeepsResolved(s: State, a: Action, q: Pair)
    requires Inv(s) && Enabled(s, a) && TasksResolved(s, q) && RowsResolved(s, q)
    ensures TasksResolved(Step(s, a), q) && RowsResolved(Step(s, a), q)
  {
    hide Inv, TasksResolved, RowsResolved, NothingNew, Resolved, Does, ApiEnabled, RelayEnabled, SchedulerEnabled,
      TaskEnabled, BrokerEnabled, StepApi, StepRelay, StepScheduler, StepTask, StepBroker;
    StepRemembers(s, a, q, Targets);
    if a.ByTask? {
      TaskKeepsResolved(s, a.pos, a.taskStep, q);
    } else {
      OthersAddNothing(s, a);
      NothingNewKeeps(s, Step(s, a), q);
    }
  }

  lemma {:induction false} RunKeepsResolved(s: State, acts: seq<Action>, t: State, q: Pair)
    requires Inv(s) && Leads(s, acts, t) && TasksResolved(s, q) && RowsResolved(s, q)
    ensures RowsResolved(t, q)
    decreases |acts|
  {
    hide Inv, Enabled, Step, TasksResolved, RowsResolved;
    if acts != [] {
      StepPreserves(s, acts[0]);
      StepKeepsResolved(s, acts[0], q);
      RunKeepsResolved(Step(s, acts[0]), acts[1..], t, q);
    }
  }

  // ---------- endpoints nobody edits ----------

  lemma {:induction false} StepDisturbs(s: State, a: Action, ep: Uuid)
    requires Enabled(s, a) && !Edits(a, ep) && ep !in s.hist.disturbed
    ensures ep !in Step(s, a).hist.disturbed
  {
    hide RelayEnabled, SchedulerEnabled, TaskEnabled, BrokerEnabled, StepRelay, StepScheduler, StepTask, StepBroker,
      SameWorker, SameRelay, SameResults, SameRetries, SameLog;
    match a {
      case ByApi(x) => hide KeyTaken;
      case ByRelay(r, x) => RelayFrame(s, r, x);
      case ByScheduler(c, x) => SchedulerFrame(s, c, x);
      case ByTask(pos, x) => TaskFrame(s, pos, x);
      case ByBroker(x) => BrokerFrame(s, x);
    }
  }

  lemma {:induction false} RunDisturbs(s: State, acts: seq<Action>, t: State, ep: Uuid)
    requires Leads(s, acts, t) && ep !in s.hist.disturbed && forall a :: a in acts ==> !Edits(a, ep)
    ensures ep !in t.hist.disturbed
    decreases |acts|
  {
    hide Enabled, Step, Edits;
    if acts != [] {
      StepDisturbs(s, acts[0], ep);
      RunDisturbs(Step(s, acts[0]), acts[1..], t, ep);
    }
  }

  lemma {:induction false} DroppedIsDisturbed(s: State, q: Pair)
    requires Inv(s) && q in s.hist.dropped
    ensures q.endpoint in s.hist.disturbed
  {
    hide PartsInv, FinishedInv, LogInv, TasksInv, HandOffInv, SchedulersInv, OutboxInv, RelayCountInv, RowsInv,
      TaskRowsInv, ResultsInv, TaskOutcomeInv, CoveredInv, TargetsInv;
  }

  lemma {:induction false} TablesAreRemembered(s: State, q: Pair)
    requires Inv(s)
    ensures s.db.dlq <= s.hist.dlqed
  {
    hide PartsInv, FinishedInv, LogInv, TasksInv, HandOffInv, SchedulersInv, OutboxInv, RelayCountInv, RowsInv,
      TaskRowsInv, TaskOutcomeInv, CoveredInv, StableInv, TargetsInv;
  }

  lemma {:induction false} NothingYet(s: State, q: Pair)
    requires Init(s)
    ensures TasksResolved(s, q) && RowsResolved(s, q) && BuriedInTable(s, q)
    ensures s.hist.disturbed == {}
  {
  }

  // ---------- dead letters that are still there ----------

  /** Some step of the run dead-lettered the pair, and none after it removed the row. */
  ghost predicate StillBuried(s: State, acts: seq<Action>, q: Pair)
    decreases |acts|
  {
    && acts != [] && Enabled(s, acts[0])
    && ((Does(s, acts[0], q, DeadLetters) && Keeping(acts[1..], q)) || StillBuried(Step(s, acts[0]), acts[1..], q))
  }

  lemma {:induction false} TaskDlq(s: State, pos: Pos, a: TaskStep, q: Pair)
    requires TaskEnabled(s, pos, a)
    ensures q in StepTask(s, pos, a).db.dlq <==> q in s.db.dlq || Does(s, ByTask(pos, a), q, DeadLetters)
  {
    hide HasSuccess, TargetSet, DroppedBy, Distinct, Elements, StatusOf, GivesUp, InsertRow, Watermarks.Finished,
      Watermarks.ToCommit;
  }

  lemma {:induction false} StepDlq(s: State, a: Action, q: Pair)
    requires Enabled(s, a)
    ensures q in Step(s, a).db.dlq <==> (q in s.db.dlq && !Unburies(a, q)) || Does(s, a, q, DeadLetters)
  {
    hide RelayEnabled, SchedulerEnabled, TaskEnabled, BrokerEnabled, StepRelay, StepScheduler, StepTask, StepBroker,
      SameWorker, SameSetup, SameRelay, SameRetries, SameLog;
    match a {
      case ByApi(x) => hide KeyTaken;
      case ByRelay(r, x) => RelayFrame(s, r, x);
      case ByScheduler(c, x) => SchedulerFrame(s, c, x);
      case ByTask(pos, x) => TaskDlq(s, pos, x, q);
      case ByBroker(x) => BrokerFrame(s, x);
    }
  }

  /** A DLQ row is the trace of a dead-lettering that no later step removed. */
  lemma {:induction false} RunDlq(s: State, acts: seq<Action>, t: State, q: Pair)
    requires Leads(s, acts, t)
    ensures q in t.db.dlq <==> (q in s.db.dlq && Keeping(acts, q)) || StillBuried(s, acts, q)
    decreases |acts|
  {
    hide Enabled, Step, Does, Unburies;
    if acts != [] {
      StepDlq(s, acts[0], q);
      RunDlq(Step(s, acts[0]), acts[1..], t, q);
      assert forall a :: a in acts <==> a == acts[0] || a in acts[1..];
    }
  }

  // ---------- which endpoints count as retrying ----------

  /** A row of the pair means that a record was resolved to it: when all is drained it was
      answered, dead-lettered or dropped. */
  lemma {:induction false} RowsAreSettled(s: State, acts: seq<Action>, t: State, q: Pair)
    requires Init(s) && Leads(s, acts, t) && Drained(t)
    requires exists k :: k in t.db.attempts && k.pair == q
    ensures q in t.hist.acked || q in t.hist.dlqed || q in t.hist.dropped
  {
    hide Init, Inv, Leads, Drained, TasksResolved, BuriedInTable;
    InitInv(s);
    LeadsInv(s, acts, t);
    NothingYet(s, q);
    RunKeepsResolved(s, acts, t, q);
    var pos :| pos in t.hist.resolved && q.endpoint in t.hist.resolved[pos] && pos in t.kafka.log
               && !t.kafka.log[pos].Poison? && EventOf(t.kafka.log[pos]) == q.event;
    ResolvedSettles(t, pos, q.endpoint);
  }

  /** An endpoint counts as retrying exactly if it has a row, no 2xx of the run was ever
      recorded for it, and no dead-lettering of the run is left. When all is drained it
      was then answered, dead-lettered or dropped all the same. */
  lemma {:induction false} RetryingAtRest(s: State, acts: seq<Action>, t: State, e: Uuid, rows: seq<Row>, ep: Uuid)
    requires Init(s) && Leads(s, acts, t) && RowsOf(t, e, rows) && ByApi(DeleteEndpoint(ep)) !in acts
    ensures IsRetrying(rows, ep) <==>
              HasRow(rows, ep) && !EverRecords(s, acts, Pair(e, ep)) && !StillBuried(s, acts, Pair(e, ep))
    ensures IsRetrying(rows, ep) && Drained(t) ==>
              || Ever(s, acts, Pair(e, ep), Acknowledges) || Ever(s, acts, Pair(e, ep), DeadLetters)
              || Ever(s, acts, Pair(e, ep), Drops)
  {
    var q := Pair(e, ep);
    RowsMean(t, e, rows, ep);
    NothingBuried(s, q);
    hide Init, Leads, Drained, Ever, EverRecords, StillBuried, Keeping, RowsOf, HasRow, HasSuccess;
    SuccessIsRecordedIff(s, acts, t, q);
    HistoriesAreTrue(s, acts, t, q);
    RunDlq(s, acts, t, q);
    if IsRetrying(rows, ep) && Drained(t) {
      var n: nat :| Key(q, n) in t.db.attempts;
      assert Key(q, n).pair == q;
      RowsAreSettled(s, acts, t, q);
    }
  }

  lemma {:induction false} NothingBuried(s: State, q: Pair)
    requires Init(s)
    ensures q !in s.db.dlq
  {
  }

  /** The cause that keeps an endpoint retrying. */
  ghost predicate LeftRetrying(s: State, acts: seq<Action>, q: Pair, rows: seq<Row>) {
    HasRow(rows, q.endpoint) && !EverRecords(s, acts, q) && !StillBuried(s, acts, q)
  }

  /** So the status of an event says that something is being retried exactly if some
      endpoint is left like that; at rest too. */
  lemma {:induction false} StatusSaysRetrying(s: State, acts: seq<Action>, t: State, e: Uuid, rows: seq<Row>)
    requires Init(s) && Leads(s, acts, t) && RowsOf(t, e, rows)
    requires forall ep :: ByApi(DeleteEndpoint(ep)) !in acts
    ensures DeriveStatus(rows) == Retrying || DeriveStatus(rows) == PartiallyRetrying <==>
              exists ep :: LeftRetrying(s, acts, Pair(e, ep), rows)
  {
    hide Init, Leads, RowsOf, DeriveStatus, IsRetrying, HasRow, Ever, EverRecords, StillBuried;
    StatusMeans(rows);
    forall ep ensures IsRetrying(rows, ep) <==> LeftRetrying(s, acts, Pair(e, ep), rows) {
      RetryingAtRest(s, acts, t, e, rows, ep);
    }
  }

  lemma {:induction false} BuriedForGood(s: State, acts: seq<Action>, t: State, q: Pair)
    requires Init(s) && Leads(s, acts, t) && Keeping(acts, q)
    ensures StillBuried(s, acts, q) <==> Ever(s, acts, q, DeadLetters)
  {
    NothingYet(s, q);
    NothingBuried(s, q);
    hide Init, Inv, Leads, Ever, StillBuried, Unburies, BuriedInTable, TasksResolved, RowsResolved;
    InitInv(s);
    LeadsInv(s, acts, t);
    HistoriesAreTrue(s, acts, t, q);
    RunDlq(s, acts, t, q);
    RunKeepsBuried(s, acts, t, q);
    TablesAreRemembered(t, q);
    DeadLetteredIsInTable(t, q);
  }

  lemma {:induction false} DeadLetteredIsInTable(s: State, q: Pair)
    requires BuriedInTable(s, q)
    ensures q in s.hist.dlqed ==> q in s.db.dlq
  {
  }

  lemma {:induction false} NotDropped(s: State, acts: seq<Action>, t: State, q: Pair)
    requires Init(s) && Leads(s, acts, t) && forall a :: a in acts ==> !Edits(a, q.endpoint)
    ensures q !in t.hist.dropped
  {
    NothingYet(s, q);
    hide Init, Inv, Leads, Edits, TasksResolved, RowsResolved, BuriedInTable;
    InitInv(s);
    LeadsInv(s, acts, t);
    RunDisturbs(s, acts, t, q.endpoint);
    if q in t.hist.dropped {
      DroppedIsDisturbed(t, q);
    }
  }

  /** Where nobody edits the endpoint or removes the DLQ row, it was answered: at rest it
      counts as retrying exactly if the run got a 2xx that it never recorded, and never
      dead-lettered the pair. */
  lemma {:induction false} RetryingUndisturbed(s: State, acts: seq<Action>, t: State, e: Uuid, rows: seq<Row>,
                                               ep: Uuid)
    requires Init(s) && Leads(s, acts, t) && Drained(t) && RowsOf(t, e, rows)
    requires forall a :: a in acts ==> !Edits(a, ep) && !Unburies(a, Pair(e, ep))
    ensures IsRetrying(rows, ep) <==>
              && HasRow(rows, ep)
              && Ever(s, acts, Pair(e, ep), Acknowledges) && !EverRecords(s, acts, Pair(e, ep))
              && !Ever(s, acts, Pair(e, ep), DeadLetters)
  {
    var q := Pair(e, ep);
    assert Edits(ByApi(DeleteEndpoint(ep)), ep);
    RowsMean(t, e, rows, ep);
    hide Init, Leads, Drained, Ever, EverRecords, StillBuried, Edits, Unburies, RowsOf, HasRow, HasSuccess;
    RetryingAtRest(s, acts, t, e, rows, ep);
    BuriedForGood(s, acts, t, q);
    if IsRetrying(rows, ep) {
      var n: nat :| Key(q, n) in t.db.attempts;
      assert Key(q, n).pair == q;
      RowsAreSettled(s, acts, t, q);
      NotDropped(s, acts, t, q);
      HistoriesAreTrue(s, acts, t, q);
    }
  }
}
