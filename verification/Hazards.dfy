/** What can happen at any moment: no theorem about runs rests on a step that is not
    possible, and failures destroy nothing that is durable. */
module Hazards {
  import opened Domain
  import opened Protocol
  import opened Invariants
  import opened DeliverySteps
  import opened PipelineSteps
  import opened Safety
  import opened ForeignKeys

  /** What survives a crash, and what has happened. */
  ghost predicate SameDurable(s: State, t: State) {
    && t.db == s.db && t.redis == s.redis && t.kafka.log == s.kafka.log
    && t.hist == s.hist.(rolledBack := t.hist.rolledBack)
    && |t.kafka.parts| == |s.kafka.parts|
    && forall p :: 0 <= p < |s.kafka.parts| ==> t.kafka.parts[p].committed == s.kafka.parts[p].committed
  }

  /** A step that is possible and leaves everything durable as it is. */
  ghost predicate Harmless(s: State, a: Action) {
    Enabled(s, a) && SameDurable(s, Step(s, a))
  }

  /** The request can arrive now, and the broker takes its position even if it lies below. */
  ghost predicate Taken(s: State, c: Commit) {
    && Enabled(s, ByBroker(Arrive(c)))
    && c.part < |Step(s, ByBroker(Arrive(c))).kafka.parts|
    && Step(s, ByBroker(Arrive(c))).kafka.parts[c.part].committed == c.position
  }

  /** Nothing is spared from failing: in every reachable state each task, relay, scheduler
      and process can fail, each commit request be lost or arrive at any time, each POST have
      any outcome and each cancel of the DLQ handler go through or not; and failing destroys
      nothing durable. */
  lemma {:induction false} AnythingCanFail(t: State)
    requires Reachable(t)
    ensures forall pos :: pos in t.live.tasks ==> Harmless(t, ByTask(pos, Fail))
    ensures forall r :: r in t.live.relays ==> Harmless(t, ByRelay(r, Abort))
    ensures forall c :: c in t.live.schedulers ==> Harmless(t, ByScheduler(c, Crash))
    ensures forall c :: c in t.kafka.pending ==> Harmless(t, ByBroker(Lose(c))) && Taken(t, c)
    ensures forall p :: 0 <= p < |t.kafka.parts| ==> Harmless(t, ByBroker(BrokerStep.Restart(p)))
    ensures forall pos, o :: Delivering(t, pos) && t.live.tasks[pos].pc.Posting? ==> Enabled(t, ByTask(pos, Post(o)))
    ensures forall pos, ok :: Delivering(t, pos) && t.live.tasks[pos].pc.Unscheduling? ==>
              Enabled(t, ByTask(pos, Unschedule(ok)))
  {
    hide Reachable, Inv, SameDurable, Harmless, Taken;
    ReachableInv(t);
    PendingHasPart(t);
    forall pos | pos in t.live.tasks ensures Harmless(t, ByTask(pos, Fail)) {
      FailIsHarmless(t, pos);
    }
    forall r | r in t.live.relays ensures Harmless(t, ByRelay(r, Abort)) {
      AbortIsHarmless(t, r);
    }
    forall c | c in t.live.schedulers ensures Harmless(t, ByScheduler(c, Crash)) {
      CrashIsHarmless(t, c);
    }
    forall c | c in t.kafka.pending ensures Harmless(t, ByBroker(Lose(c))) && Taken(t, c) {
      LossIsHarmless(t, c);
    }
    forall p | 0 <= p < |t.kafka.parts| ensures Harmless(t, ByBroker(BrokerStep.Restart(p))) {
      CommittedNotNegative(t, p);
      RestartIsHarmless(t, p);
    }
  }

  lemma {:induction false} FailIsHarmless(s: State, pos: Pos)
    requires pos in s.live.tasks
    ensures Harmless(s, ByTask(pos, Fail))
  {
  }

  lemma {:induction false} AbortIsHarmless(s: State, r: nat)
    requires r in s.live.relays
    ensures Harmless(s, ByRelay(r, Abort))
  {
  }

  lemma {:induction false} CrashIsHarmless(s: State, c: nat)
    requires c in s.live.schedulers
    ensures Harmless(s, ByScheduler(c, Crash))
  {
  }

  lemma {:induction false} LossIsHarmless(s: State, c: Commit)
    requires c in s.kafka.pending && c.part < |s.kafka.parts|
    ensures Harmless(s, ByBroker(Lose(c))) && Taken(s, c)
  {
  }

  lemma {:induction false} RestartIsHarmless(s: State, p: nat)
    requires p < |s.kafka.parts| && s.kafka.parts[p].committed >= 0
    ensures Harmless(s, ByBroker(BrokerStep.Restart(p)))
  {
  }

  /** No operator and no producer is kept waiting: in every state any endpoint can be created
      under a fresh identifier, changed to anything or deleted, any DLQ rows removed, any event
      replayed, and a record that cannot be parsed written to any partition. */
  lemma {:induction false} AnythingCanBeCalled(s: State)
    ensures forall e, body :: e !in s.db.events ==> Enabled(s, ByApi(Ingest(e, body)))
    ensures forall e, body: Event :: e !in s.db.events && !KeyTaken(s.db.events, body.idempotencyKey) ==>
              Step(s, ByApi(Ingest(e, body))).db ==
              s.db.(events := s.db.events[e := body], outbox := s.db.outbox + {e})
    ensures forall ep, record :: ep in s.db.endpoints || ep !in s.hist.known ==>
              && Enabled(s, ByApi(SetEndpoint(ep, record)))
              && Step(s, ByApi(SetEndpoint(ep, record))).db == s.db.(endpoints := s.db.endpoints[ep := record])
    ensures forall ep :: ep in s.db.endpoints ==>
              && Enabled(s, ByApi(DeleteEndpoint(ep)))
              && Step(s, ByApi(DeleteEndpoint(ep))).db.endpoints == s.db.endpoints - {ep}
    ensures forall pairs :: Enabled(s, ByApi(DeleteDlq(pairs)))
    ensures forall p: nat, e :: p < |s.kafka.parts| && e in s.db.events ==> Enabled(s, ByApi(ApiStep.Publish(p, e)))
    ensures forall p: nat :: p < |s.kafka.parts| ==> Enabled(s, ByApi(PublishPoison(p)))
  {
  }

  /** Any number of relays and schedulers can run side by side, take whatever is free or
      due, and publish to any partition. */
  lemma {:induction false} AnyoneCanPublish(s: State, n: nat, rows: seq<Uuid>, due: seq<Key>, p: nat)
    requires p < |s.kafka.parts| && 1 <= |rows| <= 100 && 1 <= |due| <= 100 && Distinct(rows) && Distinct(due)
    ensures n !in s.live.relays && (forall e :: e in rows ==> e in s.db.outbox && !Locked(s.live.relays, e)) ==>
              Enabled(s, ByRelay(n, Lock(rows)))
    ensures n !in s.live.schedulers && (forall k :: k in due ==> k in s.redis) ==>
              Enabled(s, ByScheduler(n, Poll(due)))
    ensures n in s.live.relays && s.live.relays[n].sent < |s.live.relays[n].rows| ==>
              Enabled(s, ByRelay(n, Send(p)))
    ensures n in s.live.schedulers && s.live.schedulers[n].due != [] && !s.live.schedulers[n].published ==>
              Enabled(s, ByScheduler(n, SchedulerStep.Republish(p)))
  {
  }

  /** The next steps of a task, as its record and its place say: resolve to the targets in
      any order, finish, or go on with the delivery to the current target, with any outcome
      of the POST; only the two inserts need the endpoint to be there still. */
  ghost predicate GoesOn(s: State, pos: Pos)
    requires pos in s.live.tasks && pos in s.kafka.log
  {
    var m, task := s.kafka.log[pos], s.live.tasks[pos];
    if task.pc.Resolving? && !m.Poison? then
      EventOf(m) in s.db.events &&
      forall targets: seq<Uuid> :: Distinct(targets) && Elements(targets) == TargetSet(s, m) ==>
        Enabled(s, ByTask(pos, Resolve(targets)))
    else if task.pc.Resolving? || task.index >= |task.targets| then Enabled(s, ByTask(pos, Finish))
    else
      match task.pc
      case Checking => Enabled(s, ByTask(pos, Check))
      case Posting => forall o :: Enabled(s, ByTask(pos, Post(o)))
      case Inserting(_) => task.targets[task.index] in s.db.endpoints ==> Enabled(s, ByTask(pos, Insert))
      case Scheduling => Enabled(s, ByTask(pos, Schedule))
      case Burying => task.targets[task.index] in s.db.endpoints ==> Enabled(s, ByTask(pos, Bury))
      case Unscheduling => forall ok :: Enabled(s, ByTask(pos, Unschedule(ok)))
  }

  /** No task ever waits for another one, and no fetch for any task: workers interleave as
      they like. */
  lemma {:induction false} NobodyWaits(t: State)
    requires Reachable(t)
    ensures forall pos :: pos in t.live.tasks ==> pos in t.kafka.log && GoesOn(t, pos)
    ensures forall p: nat :: p < |t.kafka.parts| && t.kafka.parts[p].next < t.kafka.parts[p].end ==>
              Enabled(t, ByBroker(Fetch(p)))
  {
    hide Reachable, Inv, GoesOn, TaskShape, TaskRows, TaskOutcome, PartOk, References;
    ReachableInv(t);
    forall pos | pos in t.live.tasks ensures pos in t.kafka.log && GoesOn(t, pos) {
      TaskFacts(t, pos);
      InFlightNotCovered(t, pos);
      RowsReferToWhatExists(t);
      TaskGoesOn(t, pos);
    }
  }

  lemma {:induction false} TaskGoesOn(s: State, pos: Pos)
    requires pos in s.live.tasks && pos in s.kafka.log && pos.part < |s.kafka.parts|
    requires TaskShape(s.max, s.db.events, s.kafka.log[pos], s.live.tasks[pos])
    requires !s.kafka.log[pos].Poison? ==> EventOf(s.kafka.log[pos]) in s.db.events
    ensures GoesOn(s, pos)
  {
    hide Distinct, TargetSet;
  }

  lemma {:induction false} CommittedNotNegative(s: State, p: nat)
    requires Inv(s) && p < |s.kafka.parts|
    ensures s.kafka.parts[p].committed >= 0
  {
    hide FinishedInv, LogInv, TasksInv, HandOffInv, SchedulersInv, OutboxInv, RelayCountInv, RowsInv, TaskRowsInv,
      ResultsInv, TaskOutcomeInv, CoveredInv, StableInv, TargetsInv;
    assert PartOk(s.kafka.parts[p]);
  }

  lemma {:induction false} PendingHasPart(s: State)
    requires Inv(s)
    ensures forall c :: c in s.kafka.pending ==> c.part < |s.kafka.parts|
  {
    hide FinishedInv, LogInv, TasksInv, HandOffInv, SchedulersInv, OutboxInv, RelayCountInv, RowsInv, TaskRowsInv,
      ResultsInv, TaskOutcomeInv, CoveredInv, StableInv, TargetsInv;
  }
}
