/** At most one success row per pair, and no row after it: for any number of
    concurrent workers, over crashes, redeliveries, duplicates and replays. */
module SuccessLast {
  import opened Domain
  import opened Watermarks
  import opened Protocol
  import opened Invariants
  import opened DeliverySteps
  import opened Safety

  /** A success row is the highest-numbered row of its pair. */
  ghost predicate SuccessIsLast(attempts: map<Key, Status>) {
    forall k, x :: k in attempts && attempts[k] == Success && x in attempts && x.pair == k.pair ==>
      x.attempt <= k.attempt
  }

  /** All earlier attempts of the pair have rows, and none of them is a success. */
  ghost predicate FailedBefore(attempts: map<Key, Status>, k: Key) {
    forall m: nat :: m < k.attempt ==> Key(k.pair, m) in attempts && attempts[Key(k.pair, m)] != Success
  }

  /** Between its check and its insert, a delivery knows that all earlier attempts
      failed, unless its endpoint is gone. */
  ghost predicate Informed(s: State, pos: Pos) {
    Delivering(s, pos) && (s.live.tasks[pos].pc.Posting? || s.live.tasks[pos].pc.Inserting?) ==>
      && CurrentPair(s, pos).endpoint in s.hist.known
      && (CurrentPair(s, pos).endpoint in s.db.endpoints ==> FailedBefore(s.db.attempts, CurrentKey(s, pos)))
  }

  ghost predicate LastInv(s: State) {
    SuccessIsLast(s.db.attempts) && forall pos :: Informed(s, pos)
  }

  /** The endpoints are the same, or one that never existed was added. */
  ghost predicate OnlyNewEndpoints(s: State, t: State) {
    s.hist.known <= t.hist.known && forall ep :: ep in t.db.endpoints ==> ep in s.db.endpoints || ep !in s.hist.known
  }

  /** Rows go only with their endpoint, and none is added or changed. */
  ghost predicate OnlyDeletedRows(s: State, t: State) {
    && (forall k :: k in t.db.attempts ==> k in s.db.attempts && t.db.attempts[k] == s.db.attempts[k])
    && (forall k :: k in s.db.attempts && k.pair.endpoint in t.db.endpoints ==> k in t.db.attempts)
  }

  ghost predicate SameTask(s: State, t: State, pos: Pos) {
    && pos in s.live.tasks && pos in t.live.tasks && t.live.tasks[pos] == s.live.tasks[pos]
    && pos in s.kafka.log && pos in t.kafka.log && t.kafka.log[pos] == s.kafka.log[pos]
  }

  lemma {:induction false} TaskInformed(s: State, t: State, pos: Pos)
    requires LastInv(s) && OnlyNewEndpoints(s, t) && OnlyDeletedRows(s, t) && SameTask(s, t, pos)
    ensures Informed(t, pos)
  {
    assert Informed(s, pos);
  }

  lemma {:induction false} IdleIsInformed(s: State, pos: Pos)
    requires pos in s.live.tasks ==> s.live.tasks[pos].pc.Resolving?
    ensures Informed(s, pos)
  {
  }

  /** Steps that add no row, and leave alone or stop the running deliveries. */
  lemma {:induction false} OthersKeep(s: State, t: State)
    requires LastInv(s) && OnlyNewEndpoints(s, t) && OnlyDeletedRows(s, t)
    requires forall pos :: pos in t.live.tasks ==> SameTask(s, t, pos) || t.live.tasks[pos].pc.Resolving?
    ensures LastInv(t)
  {
    hide Informed, OnlyNewEndpoints;
    assert SuccessIsLast(t.db.attempts);
    hide OnlyDeletedRows, SuccessIsLast;
    forall pos ensures Informed(t, pos) {
      if pos in t.live.tasks && SameTask(s, t, pos) {
        TaskInformed(s, t, pos);
      } else {
        IdleIsInformed(t, pos);
      }
    }
  }

  lemma {:induction false} ApiKeeps(s: State, a: ApiStep)
    requires Inv(s) && LastInv(s) && ApiEnabled(s, a)
    ensures LastInv(StepApi(s, a))
  {
    hide Inv, LastInv, KeyTaken;
    LogsOfTasks(s);
    OthersKeep(s, StepApi(s, a));
  }

  lemma {:induction false} RelayKeeps(s: State, r: nat, a: RelayStep)
    requires Inv(s) && LastInv(s) && RelayEnabled(s, r, a)
    ensures LastInv(StepRelay(s, r, a))
  {
    hide Inv, LastInv, Locked, Distinct, Elements;
    LogsOfTasks(s);
    OthersKeep(s, StepRelay(s, r, a));
  }

  lemma {:induction false} SchedulerKeeps(s: State, c: nat, a: SchedulerStep)
    requires Inv(s) && LastInv(s) && SchedulerEnabled(s, c, a)
    ensures LastInv(StepScheduler(s, c, a))
  {
    hide Inv, LastInv, Distinct;
    LogsOfTasks(s);
    OthersKeep(s, StepScheduler(s, c, a));
  }

  lemma {:induction false} BrokerKeeps(s: State, a: BrokerStep)
    requires Inv(s) && LastInv(s) && BrokerEnabled(s, a)
    ensures LastInv(StepBroker(s, a))
  {
    hide Inv, LastInv, Started;
    LogsOfTasks(s);
    OthersKeep(s, StepBroker(s, a));
  }

  lemma {:induction false} RowsHaveNoHoles(s: State)
    requires Inv(s)
    ensures forall x :: x in s.db.attempts ==> RowsBelow(s.db.attempts, x)
  {
    hide PartsInv, FinishedInv, LogInv, TasksInv, HandOffInv, SchedulersInv, OutboxInv, RelayCountInv, TaskRowsInv,
      ResultsInv, TaskOutcomeInv, CoveredInv, StableInv, TargetsInv, RowsBelow;
  }

  /** A new row has the number after the last one, and follows no success. */
  lemma {:induction false} InsertKeepsLast(attempts: map<Key, Status>, k: Key, status: Status)
    requires SuccessIsLast(attempts) && FailedBefore(attempts, k)
    requires forall x :: x in attempts ==> RowsBelow(attempts, x)
    ensures SuccessIsLast(InsertRow(attempts, k, status))
  {
    forall x | x in attempts && x.pair == k.pair && k !in attempts
      ensures x.attempt < k.attempt && attempts[x] != Success
    {
      assert RowsBelow(attempts, x);
      assert k == Key(x.pair, k.attempt);
      assert x == Key(k.pair, x.attempt);
    }
  }

  lemma {:induction false} RowsOnlyGrow(attempts: map<Key, Status>, k: Key, x: Key, status: Status)
    requires FailedBefore(attempts, k)
    ensures FailedBefore(InsertRow(attempts, x, status), k)
  {
  }

  lemma {:induction false} InsertKeeps(s: State, pos: Pos)
    requires TaskEnabled(s, pos, Insert) && Inv(s) && LastInv(s)
    ensures LastInv(StepTask(s, pos, Insert))
  {
    hide Inv, StatusOf, GivesUp, FailedBefore, InsertRow, SuccessIsLast, RowsBelow;
    var t := StepInsert(s, pos);
    var o := s.live.tasks[pos].pc.outcome;
    RowsHaveNoHoles(s);
    assert Informed(s, pos);
    InsertKeepsLast(s.db.attempts, CurrentKey(s, pos), StatusOf(o));
    forall x ensures Informed(t, x) {
      assert Informed(s, x);
      if x != pos && Delivering(t, x) && CurrentPair(s, x).endpoint in s.db.endpoints
        && (s.live.tasks[x].pc.Posting? || s.live.tasks[x].pc.Inserting?)
      {
        RowsOnlyGrow(s.db.attempts, CurrentKey(s, x), CurrentKey(s, pos), StatusOf(o));
      }
    }
  }

  lemma {:induction false} CheckKeeps(s: State, pos: Pos)
    requires TaskEnabled(s, pos, Check) && Inv(s) && LastInv(s)
    ensures LastInv(StepTask(s, pos, Check))
  {
    hide Inv, SuccessIsLast;
    CurrentKeyFacts(s, pos);
    var t := StepCheck(s, pos);
    forall x ensures Informed(t, x) {
      assert Informed(s, x);
    }
  }

  /** Steps of a task that touch no row. */
  lemma {:induction false} PlainKeeps(s: State, pos: Pos, a: TaskStep)
    requires Inv(s) && LastInv(s) && TaskEnabled(s, pos, a) && !a.Insert? && !a.Check?
    ensures LastInv(StepTask(s, pos, a))
  {
    hide Inv, SuccessIsLast, FailedBefore, TargetSet, DroppedBy, Distinct, Elements, StatusOf, Finished, ToCommit;
    var t := StepTask(s, pos, a);
    forall x ensures Informed(t, x) {
      assert Informed(s, x);
    }
  }

  lemma {:induction false} StepKeepsLast(s: State, a: Action)
    requires Inv(s) && LastInv(s) && Enabled(s, a)
    ensures LastInv(Step(s, a))
  {
    hide LastInv, Inv, ApiEnabled, RelayEnabled, SchedulerEnabled, TaskEnabled, BrokerEnabled, StepApi, StepRelay,
      StepScheduler, StepTask, StepBroker;
    match a {
      case ByApi(x) => ApiKeeps(s, x);
      case ByRelay(r, x) => RelayKeeps(s, r, x);
      case ByScheduler(c, x) => SchedulerKeeps(s, c, x);
      case ByTask(pos, x) =>
        if x.Insert? {
          InsertKeeps(s, pos);
        } else if x.Check? {
          CheckKeeps(s, pos);
        } else {
          PlainKeeps(s, pos, x);
        }
      case ByBroker(x) => BrokerKeeps(s, x);
    }
  }

  lemma {:induction false} LeadsLast(s: State, acts: seq<Action>, t: State)
    requires Inv(s) && LastInv(s) && Leads(s, acts, t)
    ensures LastInv(t)
    decreases |acts|
  {
    hide LastInv, Inv, Enabled, Step;
    if acts != [] {
      StepPreserves(s, acts[0]);
      StepKeepsLast(s, acts[0]);
      LeadsLast(Step(s, acts[0]), acts[1..], t);
    }
  }

  /** In every reachable state a pair has at most one success row, and no row with a
      higher number; so also for a single worker that takes one record at a time. */
  lemma {:induction false} SuccessRowIsLast(t: State, k: Key, x: Key)
    requires Reachable(t)
    requires k in t.db.attempts && t.db.attempts[k] == Success && x in t.db.attempts && x.pair == k.pair
    ensures x.attempt <= k.attempt
    ensures x != k ==> t.db.attempts[x] != Success
  {
    hide Leads, Inv, Informed;
    var s, acts :| Init(s) && Leads(s, acts, t);
    InitInv(s);
    forall pos ensures Informed(s, pos) {
      IdleIsInformed(s, pos);
    }
    LeadsLast(s, acts, t);
  }
}
