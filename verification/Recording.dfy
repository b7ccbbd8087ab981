/** When a 2xx becomes a success row, and why a replay of a dead letter never does. */
module Recording {
  import opened Domain
  import opened Watermarks
  import opened Protocol
  import opened Invariants
  import opened DeliverySteps
  import opened Safety
  import opened Absorb
  import opened Deeds
  import opened SuccessLast

  /** The insert of a 2xx for the pair, under a number that has no row yet. */
  ghost predicate Records(s: State, a: Action, q: Pair) {
    && WorksOn(s, a, q) && a.taskStep.Insert? && s.live.tasks[a.pos].pc.Inserting?
    && s.live.tasks[a.pos].pc.outcome.Response? && 200 <= s.live.tasks[a.pos].pc.outcome.code <= 299
    && CurrentKey(s, a.pos) !in s.db.attempts
  }

  ghost predicate EverRecords(s: State, acts: seq<Action>, q: Pair)
    decreases |acts|
  {
    && acts != [] && Enabled(s, acts[0])
    && (Records(s, acts[0], q) || EverRecords(Step(s, acts[0]), acts[1..], q))
  }

  lemma {:induction false} TaskRecords(s: State, pos: Pos, a: TaskStep, q: Pair)
    requires TaskEnabled(s, pos, a)
    ensures RowsStay(s, StepTask(s, pos, a), q)
    ensures HasSuccess(StepTask(s, pos, a).db.attempts, q) <==>
              HasSuccess(s.db.attempts, q) || Records(s, ByTask(pos, a), q)
  {
    hide TargetSet, DroppedBy, Distinct, Elements, GivesUp, Finished, ToCommit;
    if a.Insert? {
      var k, o := CurrentKey(s, pos), s.live.tasks[pos].pc.outcome;
      assert k == Key(k.pair, k.attempt);
      if k !in s.db.attempts && StatusOf(o) == Success {
        assert StepTask(s, pos, a).db.attempts[Key(k.pair, k.attempt)] == Success;
      }
      if HasSuccess(s.db.attempts, q) {
        SuccessStays(s, StepTask(s, pos, a), q);
      }
    } else {
      assert StepTask(s, pos, a).db.attempts == s.db.attempts;
    }
  }

  lemma {:induction false} StepRecords(s: State, a: Action, q: Pair)
    requires Inv(s) && Enabled(s, a) && a != ByApi(DeleteEndpoint(q.endpoint))
    ensures RowsStay(s, Step(s, a), q)
    ensures HasSuccess(Step(s, a).db.attempts, q) <==> HasSuccess(s.db.attempts, q) || Records(s, a, q)
  {
    hide Inv, Shrinks, ApiEnabled, RelayEnabled, SchedulerEnabled, TaskEnabled, BrokerEnabled, StepApi, StepRelay,
      StepScheduler, StepTask, StepBroker;
    match a {
      case ByApi(x) => ApiQuiet(s, x, q);
      case ByRelay(r, x) => RelayQuiet(s, r, x, q);
      case ByScheduler(c, x) => SchedulerQuiet(s, c, x, q);
      case ByTask(pos, x) => TaskRecords(s, pos, x, q);
      case ByBroker(x) => BrokerQuiet(s, x, q);
    }
  }

  lemma {:induction false} RunRecords(s: State, acts: seq<Action>, t: State, q: Pair)
    requires Inv(s) && Leads(s, acts, t) && ByApi(DeleteEndpoint(q.endpoint)) !in acts
    ensures HasSuccess(t.db.attempts, q) <==> HasSuccess(s.db.attempts, q) || EverRecords(s, acts, q)
    ensures RowsStay(s, t, q)
    decreases |acts|
  {
    hide Inv, Enabled, Step, HasSuccess, Records;
    if acts != [] {
      StepPreserves(s, acts[0]);
      StepRecords(s, acts[0], q);
      RunRecords(Step(s, acts[0]), acts[1..], t, q);
    }
  }

  lemma {:induction false} NoRowsAtFirst(s: State, q: Pair)
    requires Init(s)
    ensures !HasSuccess(s.db.attempts, q)
  {
  }

  /** A run leaves a success row for a pair exactly if it inserts a 2xx under an attempt
      number that has no row; a 2xx whose number has one is not recorded. */
  lemma {:induction false} SuccessIsRecordedIff(s: State, acts: seq<Action>, t: State, q: Pair)
    requires Init(s) && Leads(s, acts, t) && ByApi(DeleteEndpoint(q.endpoint)) !in acts
    ensures HasSuccess(t.db.attempts, q) <==> EverRecords(s, acts, q)
  {
    hide Leads, HasSuccess, Inv, EverRecords;
    InitInv(s);
    RunRecords(s, acts, t, q);
    NoRowsAtFirst(s, q);
  }

  // ---------- replays ----------

  ghost predicate BuriedHasFirstRow(s: State, q: Pair) {
    q in s.hist.dlqed ==> Key(q, 0) in s.db.attempts
  }

  lemma {:induction false} BuryingHasRows(s: State, a: Action, q: Pair)
    requires Inv(s) && Enabled(s, a) && Does(s, a, q, DeadLetters)
    ensures Key(q, 0) in s.db.attempts
  {
    hide Inv, RowsBelow, TaskShape, TaskOutcome, StepTask;
    TaskFacts(s, a.pos);
    RowsHaveNoHoles(s);
    var k := CurrentKey(s, a.pos);
    assert k in s.db.attempts && RowsBelow(s.db.attempts, k);
    LowestRow(s.db.attempts, k);
  }

  lemma {:induction false} LowestRow(attempts: map<Key, Status>, k: Key)
    requires k in attempts && RowsBelow(attempts, k)
    ensures Key(k.pair, 0) in attempts
  {
    assert k == Key(k.pair, k.attempt);
  }

  lemma {:induction false} BuriedKeepsFirstRow(s: State, acts: seq<Action>, t: State, q: Pair)
    requires Inv(s) && Leads(s, acts, t) && ByApi(DeleteEndpoint(q.endpoint)) !in acts
    requires BuriedHasFirstRow(s, q)
    ensures BuriedHasFirstRow(t, q)
    decreases |acts|
  {
    hide Inv, Enabled, Step, Does;
    if acts != [] {
      var a := acts[0];
      StepPreserves(s, a);
      StepRecords(s, a, q);
      StepRemembers(s, a, q, DeadLetters);
      if Does(s, a, q, DeadLetters) {
        BuryingHasRows(s, a, q);
      }
      BuriedKeepsFirstRow(Step(s, a), acts[1..], t, q);
    }
  }

  /** A replay publishes a message without attempt number. Whatever was ever
      dead-lettered has a row for attempt 0, so the result of a replayed delivery, a 2xx
      included, changes no table: the pair keeps the status its old rows give it. */
  lemma {:induction false} ReplayIsNotRecorded(s: State, acts: seq<Action>, t: State, pos: Pos)
    requires Init(s) && Leads(s, acts, t) && TaskEnabled(t, pos, Insert) && t.kafka.log[pos].Fanout?
    requires CurrentPair(t, pos) in t.hist.dlqed
    requires ByApi(DeleteEndpoint(CurrentPair(t, pos).endpoint)) !in acts
    ensures StepTask(t, pos, Insert).db == t.db
  {
    hide Leads, Inv, GivesUp, StatusOf;
    InitInv(s);
    BuriedKeepsFirstRow(s, acts, t, CurrentPair(t, pos));
  }
}
