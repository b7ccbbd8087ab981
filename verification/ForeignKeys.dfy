/** Rows and records refer to what exists. */
module ForeignKeys {
  import opened Domain
  import opened Watermarks
  import opened Protocol
  import opened Frames
  import opened Invariants
  import opened DeliverySteps
  import opened PipelineSteps
  import opened Safety

  /** Attempt, DLQ and outbox rows refer to existing events and endpoints. */
  ghost predicate References(db: Db) {
    && (forall k :: k in db.attempts ==> k.pair.event in db.events && k.pair.endpoint in db.endpoints)
    && (forall q :: q in db.dlq ==> q.event in db.events && q.endpoint in db.endpoints)
    && db.outbox <= db.events.Keys
  }

  lemma {:induction false} TaskKeepsReferences(s: State, pos: Pos, a: TaskStep)
    requires TaskEnabled(s, pos, a) && References(s.db)
    requires pos in s.live.tasks && pos in s.kafka.log ==>
               TaskShape(s.max, s.db.events, s.kafka.log[pos], s.live.tasks[pos])
    ensures References(StepTask(s, pos, a).db)
  {
    hide HasSuccess, TargetSet, DroppedBy, Distinct, Elements, StatusOf, GivesUp, Finished, ToCommit;
    match a {
      case Insert =>
      case Bury =>
      case _ => assert StepTask(s, pos, a).db == s.db;
    }
  }

  lemma {:induction false} StepKeepsReferences(s: State, a: Action)
    requires Inv(s) && Enabled(s, a) && References(s.db)
    ensures References(Step(s, a).db)
  {
    hide Inv, SchedulerEnabled, TaskEnabled, BrokerEnabled, StepScheduler, StepTask, StepBroker, SameWorker,
      SameRetries, KeyTaken, Locked, Distinct, Elements, TaskShape, TaskRows,
      TaskOutcome;
    match a {
      case ByApi(x) =>
      case ByRelay(r, x) =>
      case ByScheduler(c, x) => SchedulerFrame(s, c, x);
      case ByTask(pos, x) =>
        if pos in s.live.tasks {
          TaskFacts(s, pos);
        }
        TaskKeepsReferences(s, pos, x);
      case ByBroker(x) => BrokerFrame(s, x);
    }
  }

  lemma {:induction false} LeadsReferences(s: State, acts: seq<Action>, t: State)
    requires Inv(s) && Leads(s, acts, t) && References(s.db)
    ensures References(t.db)
    decreases |acts|
  {
    hide Inv, Enabled, Step, References;
    if acts != [] {
      StepKeepsReferences(s, acts[0]);
      StepPreserves(s, acts[0]);
      LeadsReferences(Step(s, acts[0]), acts[1..], t);
    }
  }

  /** However API calls and deliveries interleave, no row outlives its endpoint: a deletion
      takes the rows of both result tables with it, and what a task still writes for it fails.
      No record outruns its event: the worker's branch for orphans is never taken. */
  lemma {:induction false} RowsReferToWhatExists(t: State)
    requires Reachable(t)
    ensures References(t.db)
    ensures forall pos :: pos in t.kafka.log && !t.kafka.log[pos].Poison? ==> EventOf(t.kafka.log[pos]) in t.db.events
  {
    hide Inv, Leads, References, Init;
    var s, acts :| Init(s) && Leads(s, acts, t);
    InitReferences(s);
    LeadsReferences(s, acts, t);
    LeadsInv(s, acts, t);
    forall pos | pos in t.kafka.log && !t.kafka.log[pos].Poison? ensures EventOf(t.kafka.log[pos]) in t.db.events {
      KeyIsScheduled(t, pos);
      if t.kafka.log[pos].Targeted? {
        ScheduledEvents(t, t.kafka.log[pos].key);
      }
    }
  }

  lemma {:induction false} InitReferences(s: State)
    requires Init(s)
    ensures Inv(s) && References(s.db)
  {
    InitInv(s);
    hide Inv;
  }
}
