/** The histories mean what they say: a run's steps, not the ghost fields, are what the
    main results are about. */
module Deeds {
  import opened Domain
  import opened Watermarks
  import opened Protocol
  import opened Frames
  import opened Invariants
  import opened Safety
  import opened NoLoss

  /** What a step can do for a pair: resolve a record to it, answer it with a 2xx,
      dead-letter it, or find that it is no target. */
  datatype Deed = Targets | Acknowledges | DeadLetters | Drops

  /** The message is meant for the pair. */
  predicate About(m: Message, q: Pair) {
    !m.Poison? && EventOf(m) == q.event && (m.Targeted? ==> m.key.pair == q)
  }

  ghost predicate Resolves(s: State, a: Action, event: Uuid) {
    && a.ByTask? && a.taskStep.Resolve? && a.pos in s.kafka.log && !s.kafka.log[a.pos].Poison?
    && EventOf(s.kafka.log[a.pos]) == event && event in s.db.events
  }

  ghost predicate WorksOn(s: State, a: Action, q: Pair) {
    a.ByTask? && Delivering(s, a.pos) && CurrentPair(s, a.pos) == q
  }

  ghost predicate Does(s: State, a: Action, q: Pair, d: Deed) {
    match d
    case Targets => Resolves(s, a, q.event) && q.endpoint in a.taskStep.targets
    case Acknowledges =>
      WorksOn(s, a, q) && a.taskStep.Post? && a.taskStep.outcome.Response? && 200 <= a.taskStep.outcome.code <= 299
    case DeadLetters => WorksOn(s, a, q) && a.taskStep.Bury?
    case Drops =>
      && Resolves(s, a, q.event) && About(s.kafka.log[a.pos], q)
      && q.endpoint !in TargetSet(s, s.kafka.log[a.pos])
  }

  /** Some step of the run did it. */
  ghost predicate Ever(s: State, acts: seq<Action>, q: Pair, d: Deed)
    decreases |acts|
  {
    && acts != [] && Enabled(s, acts[0])
    && (Does(s, acts[0], q, d) || Ever(Step(s, acts[0]), acts[1..], q, d))
  }

  ghost predicate Resolved(s: State, q: Pair) {
    exists pos :: pos in s.hist.resolved && q.endpoint in s.hist.resolved[pos] && pos in s.kafka.log
                  && !s.kafka.log[pos].Poison? && EventOf(s.kafka.log[pos]) == q.event
  }

  /** What the state remembers of the deeds. */
  ghost predicate Remembered(s: State, q: Pair, d: Deed) {
    match d
    case Targets => Resolved(s, q)
    case Acknowledges => q in s.hist.acked
    case DeadLetters => q in s.hist.dlqed
    case Drops => q in s.hist.dropped
  }

  lemma {:induction false} LogKept(s: State, t: State, q: Pair)
    requires t.hist.resolved == s.hist.resolved
    requires forall pos :: pos in s.kafka.log ==> pos in t.kafka.log && t.kafka.log[pos] == s.kafka.log[pos]
    ensures Resolved(s, q) ==> Resolved(t, q)
  {
  }

  lemma {:induction false} LogGrows(s: State, a: Action)
    requires Inv(s) && Enabled(s, a)
    ensures forall pos :: pos in s.kafka.log ==>
              pos in Step(s, a).kafka.log && Step(s, a).kafka.log[pos] == s.kafka.log[pos]
  {
    hide Inv, KeyTaken, Locked, Distinct, Elements, TaskEnabled, StepTask, SameSetup, SameRelay, BrokerEnabled,
      StepBroker;
    LogsOfTasks(s);
    match a {
      case ByApi(x) =>
      case ByRelay(r, x) =>
      case ByScheduler(c, x) =>
      case ByTask(pos, x) => TaskFrame(s, pos, x);
      case ByBroker(x) => BrokerFrame(s, x);
    }
  }

  /** A retry was never resolved to another endpoint than its own. */
  ghost predicate OwnTargets(s: State, pos: Pos) {
    pos in s.hist.resolved && pos in s.kafka.log && s.kafka.log[pos].Targeted? ==>
      s.hist.resolved[pos] <= {s.kafka.log[pos].key.pair.endpoint}
  }

  lemma {:induction false} RetriesResolveToTheirOwn(s: State, pos: Pos)
    requires Inv(s)
    ensures OwnTargets(s, pos)
  {
    hide PartsInv, FinishedInv, LogInv, TasksInv, HandOffInv, SchedulersInv, OutboxInv, RelayCountInv, RowsInv,
      TaskRowsInv, ResultsInv, TaskOutcomeInv, CoveredInv, TargetsInv, Stable, Matches;
  }

  /** A task remembers what it does, and nothing it did not do. */
  lemma {:induction false} TaskRemembers(s: State, pos: Pos, a: TaskStep, q: Pair, d: Deed)
    requires TaskEnabled(s, pos, a) && OwnTargets(s, pos)
    ensures var t := StepTask(s, pos, a);
            && (Remembered(s, q, d) || (d != Drops && Does(s, ByTask(pos, a), q, d)) ==> Remembered(t, q, d))
            && (d != Targets && Remembered(t, q, d) ==> Remembered(s, q, d) || Does(s, ByTask(pos, a), q, d))
  {
    hide HasSuccess, TargetsOf, TargetSet, Distinct, GivesUp, InsertRow, Finished, ToCommit;
    match a {
      case Resolve(targets) =>
        assert Elements(targets) == TargetSet(s, s.kafka.log[pos]);
      case Check =>
      case Post(o) =>
      case Insert =>
      case Schedule =>
      case Bury =>
      case Unschedule(ok) =>
      case Finish =>
      case Fail =>
    }
  }

  lemma {:induction false} OthersRemember(s: State, a: Action, q: Pair, d: Deed)
    requires Inv(s) && Enabled(s, a) && !a.ByTask?
    ensures Remembered(s, q, d) ==> Remembered(Step(s, a), q, d)
    ensures d != Targets && Remembered(Step(s, a), q, d) ==> Remembered(s, q, d)
  {
    hide Inv, ApiEnabled, RelayEnabled, SchedulerEnabled, BrokerEnabled, StepApi, StepRelay, StepScheduler, StepBroker,
      SameSetup, SameRelay, SameResults, SameRetries, SameLog, Resolved;
    LogGrows(s, a);
    match a {
      case ByApi(x) => ApiFrame(s, x);
      case ByRelay(r, x) => RelayFrame(s, r, x);
      case ByScheduler(c, x) => SchedulerFrame(s, c, x);
      case ByBroker(x) => BrokerFrame(s, x);
    }
    LogKept(s, Step(s, a), q);
  }

  lemma {:induction false} StepRemembers(s: State, a: Action, q: Pair, d: Deed)
    requires Inv(s) && Enabled(s, a)
    ensures Remembered(s, q, d) || (d != Drops && Does(s, a, q, d)) ==> Remembered(Step(s, a), q, d)
    ensures d != Targets && Remembered(Step(s, a), q, d) ==> Remembered(s, q, d) || Does(s, a, q, d)
  {
    hide Inv, Remembered, ApiEnabled, RelayEnabled, SchedulerEnabled, TaskEnabled, BrokerEnabled, StepApi, StepRelay,
      StepScheduler, StepTask, StepBroker;
    if a.ByTask? {
      RetriesResolveToTheirOwn(s, a.pos);
      TaskRemembers(s, a.pos, a.taskStep, q, d);
    } else {
      OthersRemember(s, a, q, d);
    }
  }

  lemma {:induction false} DeedsAreRemembered(s: State, acts: seq<Action>, t: State, q: Pair, d: Deed)
    requires Inv(s) && Leads(s, acts, t) && d != Drops && (Remembered(s, q, d) || Ever(s, acts, q, d))
    ensures Remembered(t, q, d)
    decreases |acts|
  {
    hide Inv, Enabled, Step, Remembered, Does;
    if acts != [] {
      StepPreserves(s, acts[0]);
      StepRemembers(s, acts[0], q, d);
      DeedsAreRemembered(Step(s, acts[0]), acts[1..], t, q, d);
    }
  }

  lemma {:induction false} MemoriesAreDeeds(s: State, acts: seq<Action>, t: State, q: Pair, d: Deed)
    requires Inv(s) && Leads(s, acts, t) && d != Targets && Remembered(t, q, d)
    ensures Remembered(s, q, d) || Ever(s, acts, q, d)
    decreases |acts|
  {
    hide Inv, Enabled, Step, Remembered, Does;
    if acts != [] {
      StepPreserves(s, acts[0]);
      MemoriesAreDeeds(Step(s, acts[0]), acts[1..], t, q, d);
      StepRemembers(s, acts[0], q, d);
    }
  }

  lemma {:induction false} NothingRememberedAtFirst(s: State, q: Pair, d: Deed)
    requires Init(s)
    ensures !Remembered(s, q, d)
  {
  }

  /** A pair is in the history of acknowledged pairs exactly if some step of the run
      POSTed for it and got a 2xx; likewise for dead letters. */
  lemma {:induction false} HistoriesAreTrue(s: State, acts: seq<Action>, t: State, q: Pair)
    requires Init(s) && Leads(s, acts, t)
    ensures q in t.hist.acked <==> Ever(s, acts, q, Acknowledges)
    ensures q in t.hist.dlqed <==> Ever(s, acts, q, DeadLetters)
    ensures q in t.hist.dropped ==> Ever(s, acts, q, Drops)
  {
    hide Init, Inv, Leads, Ever;
    InitInv(s);
    NothingRememberedAtFirst(s, q, Acknowledges);
    NothingRememberedAtFirst(s, q, DeadLetters);
    NothingRememberedAtFirst(s, q, Drops);
    if q in t.hist.acked { MemoriesAreDeeds(s, acts, t, q, Acknowledges); }
    if q in t.hist.dlqed { MemoriesAreDeeds(s, acts, t, q, DeadLetters); }
    if q in t.hist.dropped { MemoriesAreDeeds(s, acts, t, q, Drops); }
    if Ever(s, acts, q, Acknowledges) { DeedsAreRemembered(s, acts, t, q, Acknowledges); }
    if Ever(s, acts, q, DeadLetters) { DeedsAreRemembered(s, acts, t, q, DeadLetters); }
  }

  /** No loss, in terms of the run alone: if some step resolved a record to an
      endpoint, then by the time everything is drained some step of the run got a 2xx
      from it, or dead-lettered the pair, or found that it is no target any more. */
  lemma {:induction false} EveryTargetIsServed(s: State, acts: seq<Action>, t: State, q: Pair)
    requires Init(s) && Leads(s, acts, t) && Drained(t) && Ever(s, acts, q, Targets)
    ensures Ever(s, acts, q, Acknowledges) || Ever(s, acts, q, DeadLetters) || Ever(s, acts, q, Drops)
  {
    hide Init, Inv, Leads, Ever, Drained;
    InitInv(s);
    LeadsInv(s, acts, t);
    HistoriesAreTrue(s, acts, t, q);
    DeedsAreRemembered(s, acts, t, q, Targets);
    var pos :| pos in t.hist.resolved && q.endpoint in t.hist.resolved[pos] && pos in t.kafka.log
               && !t.kafka.log[pos].Poison? && EventOf(t.kafka.log[pos]) == q.event;
    ResolvedSettles(t, pos, q.endpoint);
  }

  // ---------- the verdict is in the tables ----------

  /** The action removes the pair's DLQ row: a replay or an operator deletes it, or its
      endpoint goes. */
  predicate Unburies(a: Action, q: Pair) {
    a.ByApi? && (a.api == DeleteEndpoint(q.endpoint) || (a.api.DeleteDlq? && q in a.api.pairs))
  }

  ghost predicate Keeping(acts: seq<Action>, q: Pair) {
    forall a :: a in acts ==> !Unburies(a, q)
  }

  ghost predicate BuriedInTable(s: State, q: Pair) {
    q in s.hist.dlqed ==> q in s.db.dlq
  }

  lemma {:induction false} TaskKeepsBuried(s: State, pos: Pos, a: TaskStep, q: Pair)
    requires TaskEnabled(s, pos, a) && BuriedInTable(s, q)
    ensures BuriedInTable(StepTask(s, pos, a), q)
  {
    hide HasSuccess, TargetsOf, TargetSet, Distinct, Elements, DroppedBy, StatusOf, GivesUp, InsertRow, Finished,
      ToCommit;
  }

  lemma {:induction false} StepKeepsBuried(s: State, a: Action, q: Pair)
    requires Enabled(s, a) && BuriedInTable(s, q) && !Unburies(a, q)
    ensures BuriedInTable(Step(s, a), q)
  {
    hide ApiEnabled, RelayEnabled, SchedulerEnabled, TaskEnabled, BrokerEnabled,
      StepRelay, StepScheduler, StepTask, StepBroker, SameSetup, SameRelay, SameRetries, SameLog;
    match a {
      case ByApi(x) =>
        hide KeyTaken;
        ApiFrame(s, x);
      case ByRelay(r, x) => RelayFrame(s, r, x);
      case ByScheduler(c, x) => SchedulerFrame(s, c, x);
      case ByTask(pos, x) => TaskKeepsBuried(s, pos, x, q);
      case ByBroker(x) => BrokerFrame(s, x);
    }
  }

  lemma {:induction false} RunKeepsBuried(s: State, acts: seq<Action>, t: State, q: Pair)
    requires Leads(s, acts, t) && BuriedInTable(s, q) && forall a :: a in acts ==> !Unburies(a, q)
    ensures BuriedInTable(t, q)
    decreases |acts|
  {
    hide Enabled, Step, BuriedInTable, Unburies;
    if acts != [] {
      StepKeepsBuried(s, acts[0], q);
      RunKeepsBuried(Step(s, acts[0]), acts[1..], t, q);
    }
  }

  /** As long as nobody removes the pair's DLQ row, a target that was not answered and
      not dropped is in the DLQ table when everything is drained. */
  lemma {:induction false} EveryTargetIsInTheTables(s: State, acts: seq<Action>, t: State, q: Pair)
    requires Init(s) && Leads(s, acts, t) && Drained(t) && Ever(s, acts, q, Targets)
    requires forall a :: a in acts ==> !Unburies(a, q)
    ensures Ever(s, acts, q, Acknowledges) || q in t.db.dlq || Ever(s, acts, q, Drops)
  {
    hide Init, Inv, Leads, Ever, Drained, Unburies;
    EveryTargetIsServed(s, acts, t, q);
    if Ever(s, acts, q, DeadLetters) {
      HistoriesAreTrue(s, acts, t, q);
      NothingRememberedAtFirst(s, q, DeadLetters);
      RunKeepsBuried(s, acts, t, q);
    }
  }
}
