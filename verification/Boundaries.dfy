/** Three runs that mark where stronger claims are false. */
module Boundaries {
  import opened Domain
  import opened Watermarks
  import opened Protocol
  import opened DeliveryWorker
  import opened WorkerRuns
  import opened Driving
  import opened Safety
  import opened NoLoss
  import opened Deeds
  import opened Obligations
  import opened LostReplays
  import opened EventStatus
  import opened TerminalStatus

  const E: Uuid := 1
  const EP: Uuid := 2
  const Q := Pair(E, EP)
  const BODY := Event("order.created", "key-1")
  const RECORD := Endpoint(true, {"order.created"})

  /** One endpoint, one partition, nothing else. */
  function Start(max: nat): State {
    State(max,
          Db(map[EP := RECORD], map[], {}, map[], {}),
          Kafka(map[], [FRESH_PART], {}),
          {},
          Live(map[], map[], map[]),
          History({EP}, {}, {}, map[], {}, {}, {}, {}, multiset{}, multiset{}, multiset{}))
  }

  /** One partition with these records, the first `next` of them fetched and those in
      `done` finished; these tasks; these tables. */
  ghost predicate Looks(s: State, max: nat, log: seq<Message>, next: nat, done: set<int>, tasks: map<Pos, Task>,
                        fx: Effects)
  {
    && s.max == max && s.live == Live(tasks, map[], map[])
    && s.db == Db(map[EP := RECORD], map[E := BODY], {}, fx.attempts, fx.dlq)
    && EffectsOf(s) == fx
    && |s.kafka.parts| == 1 && s.kafka.parts[0].end == |log| && s.kafka.parts[0].next == next
    && s.kafka.parts[0].committed == 0 && s.kafka.parts[0].start == 0 && s.kafka.parts[0].done == done
    && (forall pos :: pos in s.kafka.log <==> pos.part == 0 && pos.offset < |log|)
    && (forall i: nat :: i < |log| ==> Pos(0, i) in s.kafka.log && s.kafka.log[Pos(0, i)] == log[i])
  }

  /** The same between two records. */
  ghost predicate Idle(s: State, max: nat, log: seq<Message>, next: nat, done: set<int>, fx: Effects) {
    Looks(s, max, log, next, done, map[], fx)
  }

  const NO_EFFECTS := Effects(map[], {}, {}, multiset{}, {})

  /** Ingest the event and relay it. */
  lemma {:induction false} Ingested(max: nat) returns (acts: seq<Action>, t: State)
    requires max >= 1
    ensures Init(Start(max)) && Leads(Start(max), acts, t)
    ensures Idle(t, max, [Fanout(E)], 0, {}, NO_EFFECTS)
  {
    hide Leads;
    var s := Start(max);
    NoAction(s);
    var s1 := StepIngest(s, E, BODY);
    LeadsOn(s, [], s, ByApi(Ingest(E, BODY)));
    assert E in s1.db.outbox && !Locked(s1.live.relays, E);
    var s2 := StepRelay(s1, 0, Lock([E]));
    LeadsOn(s, [] + [ByApi(Ingest(E, BODY))], s1, ByRelay(0, Lock([E])));
    var s3 := StepRelaySend(s2, 0, 0);
    LeadsOn(s, [] + [ByApi(Ingest(E, BODY))] + [ByRelay(0, Lock([E]))], s2, ByRelay(0, Send(0)));
    t := StepRelayCommit(s3, 0);
    LeadsOn(s, [] + [ByApi(Ingest(E, BODY))] + [ByRelay(0, Lock([E]))] + [ByRelay(0, Send(0))], s3,
            ByRelay(0, CommitRows));
    acts := [] + [ByApi(Ingest(E, BODY))] + [ByRelay(0, Lock([E]))] + [ByRelay(0, Send(0))] + [ByRelay(0, CommitRows)];
  }

  /** No step after the first ones is a call of the API. */
  ghost predicate NoCalls(before: seq<Action>, acts: seq<Action>) {
    forall a :: a in acts ==> a in before || !a.ByApi?
  }

  /** Fetch the next record. */
  lemma {:induction false} Fetched(s: State, before: seq<Action>, u: State, max: nat, log: seq<Message>, next: nat,
                                   done: set<int>, tasks: map<Pos, Task>, fx: Effects)
    returns (acts: seq<Action>, t: State)
    requires Leads(s, before, u) && Looks(u, max, log, next, done, tasks, fx) && next < |log|
    ensures Leads(s, acts, t) && NoCalls(before, acts)
    ensures Looks(t, max, log, next + 1, done, tasks[Pos(0, next) := Task([], 0, Resolving)], fx)
  {
    hide Leads;
    t := StepFetch(u, 0);
    LeadsOn(s, before, u, ByBroker(Fetch(0)));
    acts := before + [ByBroker(Fetch(0))];
  }

  ghost predicate ForQ(m: Message) {
    m == Fanout(E) || exists n: nat :: m == Targeted(Key(Q, n))
  }

  /** The one endpoint is the target. */
  lemma {:induction false} CanResolve(u: State, max: nat, log: seq<Message>, next: nat, done: set<int>,
                                      tasks: map<Pos, Task>, fx: Effects, i: nat)
    requires Looks(u, max, log, next, done, tasks, fx) && i < |log| && ForQ(log[i])
    requires Pos(0, i) in tasks && tasks[Pos(0, i)].pc == Resolving
    ensures TaskEnabled(u, Pos(0, i), Resolve([EP])) && u.kafka.log[Pos(0, i)] == log[i] && EventOf(log[i]) == E
  {
    assert u.kafka.log[Pos(0, i)] == log[i];
    assert TargetSet(u, log[i]) == {EP};
    assert Elements([EP]) == {EP};
  }

  /** Fetch the next record and deliver it, whatever else is running. */
  lemma {:induction false} Processed(s: State, before: seq<Action>, u: State, max: nat, log: seq<Message>, next: nat,
                                     done: set<int>, tasks: map<Pos, Task>, fx: Effects, w: World)
    returns (acts: seq<Action>, t: State)
    requires Leads(s, before, u) && Looks(u, max, log, next, done, tasks, fx) && next < |log| && ForQ(log[next])
    requires Pos(0, next) !in tasks
    ensures Leads(s, acts, t) && NoCalls(before, acts)
    ensures Looks(t, max, log, next + 1, done + {next}, tasks, Deliver(fx, Key(Q, AttemptOf(log[next])), w, max))
  {
    hide Leads, Deliver, ForQ, TaskEnabled;
    var pos := Pos(0, next);
    var a, v := Fetched(s, before, u, max, log, next, done, tasks, fx);
    var running := tasks[pos := Task([], 0, Resolving)];
    CanResolve(v, max, log, next + 1, done, running, fx, next);
    var b;
    b, t := RecordRun(v, pos, [EP], w);
    assert [EP][..0] == [];
    assert DeliverAll(fx, E, [EP], AttemptOf(log[next]), w, max) == Deliver(fx, Key(Q, AttemptOf(log[next])), w, max);
    assert running - {pos} == tasks;
    LeadsThrough(s, a, v, b, t);
    acts := a + b;
  }

  /** Replay: publish the event again and delete the DLQ row. */
  lemma {:induction false} Replayed(s: State, before: seq<Action>, u: State, max: nat, log: seq<Message>, next: nat,
                                    done: set<int>, tasks: map<Pos, Task>, fx: Effects)
    returns (acts: seq<Action>, t: State)
    requires Leads(s, before, u) && Looks(u, max, log, next, done, tasks, fx)
    ensures Leads(s, acts, t)
    ensures Looks(t, max, log + [Fanout(E)], next, done, tasks, fx.(dlq := fx.dlq - {Q}))
  {
    hide Leads;
    var v := Append(u, 0, Fanout(E));
    LeadsOn(s, before, u, ByApi(Publish(0, E)));
    t := v.(db := v.db.(dlq := v.db.dlq - {Q}));
    LeadsOn(s, before + [ByApi(Publish(0, E))], v, ByApi(DeleteDlq({Q})));
    acts := before + [ByApi(Publish(0, E))] + [ByApi(DeleteDlq({Q}))];
  }

  /** The worker dies with its commit still under way, and starts over. */
  lemma {:induction false} Restarted(s: State, before: seq<Action>, u: State, max: nat, log: seq<Message>, next: nat,
                                     done: set<int>, fx: Effects)
    returns (acts: seq<Action>, t: State)
    requires Leads(s, before, u) && Idle(u, max, log, next, done, fx)
    ensures Leads(s, acts, t)
    ensures Idle(t, max, log, 0, {}, fx)
  {
    hide Leads;
    t := StepRestart(u, 0);
    LeadsOn(s, before, u, ByBroker(Restart(0)));
    acts := before + [ByBroker(Restart(0))];
  }

  /** The scheduler takes the retry from the store to the topic. */
  lemma {:induction false} Retried(s: State, before: seq<Action>, u: State, max: nat, log: seq<Message>, next: nat,
                                   done: set<int>, fx: Effects, k: Key)
    returns (acts: seq<Action>, t: State)
    requires Leads(s, before, u) && Idle(u, max, log, next, done, fx) && k in fx.redis
    ensures Leads(s, acts, t)
    ensures Idle(t, max, log + [Targeted(k)], next, done, fx.(redis := fx.redis - {k}))
  {
    hide Leads;
    var a, b, c := ByScheduler(0, Poll([k])), ByScheduler(0, Republish(0)), ByScheduler(0, Cancel);
    var v := u.(live := u.live.(schedulers := u.live.schedulers[0 := Scheduler([k], false)]));
    LeadsOn(s, before, u, a);
    var x := StepRepublish(v, 0, 0);
    LeadsOn(s, before + [a], v, b);
    t := StepCancelRepublished(x, 0);
    LeadsOn(s, before + [a] + [b], x, c);
    acts := before + [a] + [b] + [c];
  }

  // ---------- a replay that is never recorded ----------

  const BURIED := Effects(map[Key(Q, 0) := Failure], {Q}, {}, multiset{Key(Q, 0)}, {})
  const REPLAYED := Effects(map[Key(Q, 0) := Failure], {}, {}, multiset{Key(Q, 0), Key(Q, 0)}, {Q})

  lemma {:induction false} FirstFails()
    ensures Deliver(NO_EFFECTS, Key(Q, 0), Says(EP, Response(500)), 1) == BURIED
  {
    assert !HasSuccess(NO_EFFECTS.attempts, Q);
    assert NO_EFFECTS.redis - {Key(Q, 0)} == {};
    assert Says(EP, Response(500)).Answer(EP) == Response(500);
  }

  lemma {:induction false} ReplaySucceeds()
    ensures Deliver(BURIED.(dlq := BURIED.dlq - {Q}), Key(Q, 0), Says(EP, Response(200)), 1) == REPLAYED
  {
    assert !HasSuccess(BURIED.attempts, Q);
    assert BURIED.dlq - {Q} == {};
    assert Says(EP, Response(200)).Answer(EP) == Response(200);
  }

  lemma {:induction false} EndsRetrying(t: State)
    requires Idle(t, 1, [Fanout(E), Fanout(E)], 2, {0, 1}, REPLAYED)
    ensures Drained(t) && t.live.tasks == map[] && Q in t.hist.acked
    ensures RowsOf(t, E, [AttemptRow(EP, Failure)])
  {
    var rows := [AttemptRow(EP, Failure)];
    forall ep: Uuid, status ensures AttemptRow(ep, status) in rows <==>
        exists n: nat :: Key(Pair(E, ep), n) in t.db.attempts && t.db.attempts[Key(Pair(E, ep), n)] == status
    {
      if ep == EP && status == Failure {
        assert t.db.attempts[Key(Pair(E, EP), 0)] == Failure;
      }
    }
  }

  lemma {:induction false} OneFailureIsRetrying()
    ensures DeriveStatus([AttemptRow(EP, Failure)]) == Retrying
  {
    var rows := [AttemptRow(EP, Failure)];
    assert GroupBy(rows) == map[EP := Group(Some(false), false)];
    assert RetryingIn(GroupBy(rows)) == {EP};
    assert SucceededIn(GroupBy(rows)) == {} && ExhaustedIn(GroupBy(rows)) == {};
  }

  /** A replayed dead letter is answered with a 2xx, nothing is left to do, and
      `get_event` says `retrying` for ever: the row of attempt 0 was already there. */
  lemma {:induction false} ReplayedSuccessStaysRetrying() returns (acts: seq<Action>, t: State)
    ensures Init(Start(1)) && Leads(Start(1), acts, t)
    ensures Drained(t) && t.live.tasks == map[] && Q in t.hist.acked
    ensures RowsOf(t, E, [AttemptRow(EP, Failure)])
    ensures DeriveStatus([AttemptRow(EP, Failure)]) == Retrying
  {
    hide Leads, Init, Looks, Deliver, Drained, RowsOf, DeriveStatus;
    acts, t := Ingested(1);
    acts, t := Processed(Start(1), acts, t, 1, [Fanout(E)], 0, {}, map[], NO_EFFECTS, Says(EP, Response(500)));
    FirstFails();
    assert {} + {0} == {0} && {0} + {1} == {0, 1} && [Fanout(E)] + [Fanout(E)] == [Fanout(E), Fanout(E)];
    acts, t := Replayed(Start(1), acts, t, 1, [Fanout(E)], 1, {0}, map[], BURIED);
    acts, t := Processed(Start(1), acts, t, 1, [Fanout(E), Fanout(E)], 1, {0}, map[], BURIED.(dlq := BURIED.dlq - {Q}),
                         Says(EP, Response(200)));
    ReplaySucceeds();
    EndsRetrying(t);
    OneFailureIsRetrying();
  }

  // ---------- a pair with both verdicts ----------

  const SCHEDULED := Effects(map[Key(Q, 0) := Failure], {}, {Key(Q, 1)}, multiset{Key(Q, 0)}, {})
  const RACED := Effects(map[Key(Q, 0) := Failure], {Q}, {Key(Q, 1)}, multiset{Key(Q, 0), Key(Q, 0)}, {})

  lemma {:induction false} FirstIsScheduled()
    ensures Deliver(NO_EFFECTS, Key(Q, 0), Says(EP, Response(500)), 3) == SCHEDULED
  {
    assert !HasSuccess(NO_EFFECTS.attempts, Q);
    assert Says(EP, Response(500)).Answer(EP) == Response(500);
  }

  lemma {:induction false} RedeliveryIsBuried()
    ensures Deliver(SCHEDULED, Key(Q, 0), Says(EP, Response(400)), 3) == RACED
  {
    assert !HasSuccess(SCHEDULED.attempts, Q);
    assert {Key(Q, 1)} - {Key(Q, 0)} == {Key(Q, 1)};
    assert Says(EP, Response(400)).Answer(EP) == Response(400);
  }

  lemma {:induction false} RetrySucceeds(fx: Effects)
    requires fx == RACED.(redis := RACED.redis - {Key(Q, 1)})
    ensures var gx := Deliver(fx, Key(Q, 1), Says(EP, Response(200)), 3);
            HasSuccess(gx.attempts, Q) && Q in gx.dlq
  {
    assert !HasSuccess(fx.attempts, Q);
    assert Says(EP, Response(200)).Answer(EP) == Response(200);
    assert Deliver(fx, Key(Q, 1), Says(EP, Response(200)), 3).attempts[Key(Q, 1)] == Success;
  }

  lemma {:induction false} EffectsAreTables(t: State, log: seq<Message>, next: nat, done: set<int>, fx: Effects)
    requires Idle(t, 3, log, next, done, fx)
    ensures t.db.attempts == fx.attempts && t.db.dlq == fx.dlq
  {
  }

  /** One worker, one record at a time and one crash: the first delivery fails and
      schedules a retry, its redelivery fails for good and is dead-lettered, the retry
      succeeds. The pair ends with a success row and a DLQ row. */
  lemma {:induction false} BothVerdicts() returns (acts: seq<Action>, t: State)
    ensures Init(Start(3)) && Leads(Start(3), acts, t)
    ensures HasSuccess(t.db.attempts, Q) && Q in t.db.dlq
  {
    hide Leads, Init, Looks, Deliver, HasSuccess;
    acts, t := Ingested(3);
    acts, t := Processed(Start(3), acts, t, 3, [Fanout(E)], 0, {}, map[], NO_EFFECTS, Says(EP, Response(500)));
    FirstIsScheduled();
    acts, t := Restarted(Start(3), acts, t, 3, [Fanout(E)], 1, {} + {0}, SCHEDULED);
    acts, t := Processed(Start(3), acts, t, 3, [Fanout(E)], 0, {}, map[], SCHEDULED, Says(EP, Response(400)));
    RedeliveryIsBuried();
    acts, t := Retried(Start(3), acts, t, 3, [Fanout(E)], 1, {} + {0}, RACED, Key(Q, 1));
    var fx := RACED.(redis := RACED.redis - {Key(Q, 1)});
    acts, t := Processed(Start(3), acts, t, 3, [Fanout(E)] + [Targeted(Key(Q, 1))], 1, {} + {0}, map[], fx,
                         Says(EP, Response(200)));
    RetrySucceeds(fx);
    EffectsAreTables(t, [Fanout(E)] + [Targeted(Key(Q, 1))], 2, {} + {0} + {1},
                     Deliver(fx, Key(Q, 1), Says(EP, Response(200)), 3));
  }

  // ---------- a replay that is lost ----------

  /** A record of the pair is fetched and processed up to the point where the DLQ
      handler has committed its row and is about to cancel the retry. */
  lemma {:induction false} BuriedHalf(u: State, max: nat, log: seq<Message>, next: nat, done: set<int>,
                                      tasks: map<Pos, Task>, fx: Effects, i: nat, o: Outcome)
    returns (acts: seq<Action>, t: State)
    requires Looks(u, max, log, next, done, tasks, fx) && i < |log| && ForQ(log[i])
    requires Pos(0, i) in tasks && tasks[Pos(0, i)] == Task([], 0, Resolving)
    requires !HasSuccess(fx.attempts, Q) && StatusOf(o) != Success && GivesUp(o, AttemptOf(log[i]), max)
    ensures Leads(u, acts, t)
    ensures var k := Key(Q, AttemptOf(log[i]));
            Looks(t, max, log, next, done, tasks[Pos(0, i) := Task([EP], 0, Unscheduling)],
                  Inserted(Posted(fx, k, o), k, o).(dlq := fx.dlq + {Q}))
  {
    hide Leads, ByTaskOnly, ForQ, HasSuccess, StatusOf, GivesUp, TaskEnabled, StepTask, Posted, Inserted;
    var pos := Pos(0, i);
    var k := Key(Q, AttemptOf(log[i]));
    CanResolve(u, max, log, next, done, tasks, fx, i);
    ResolvedStage(u, pos, Says(EP, o), [EP]);
    var v := StepTask(u, pos, Resolve([EP]));
    t, acts := HalfFrom(v, pos, fx, k, o);
    LeadsThrough(u, [ByTask(pos, Resolve([EP]))], v, acts, t);
    acts := [ByTask(pos, Resolve([EP]))] + acts;
    DlqIsKept(fx, k, o);
  }

  lemma {:induction false} DlqIsKept(fx: Effects, k: Key, o: Outcome)
    ensures Inserted(Posted(fx, k, o), k, o).dlq == fx.dlq
  {
  }

  lemma {:induction false} HalfFrom(v: State, pos: Pos, fx: Effects, k: Key, o: Outcome)
    returns (t: State, acts: seq<Action>)
    requires pos in v.live.tasks && v.live.tasks[pos] == Task([EP], 0, Checking)
    requires pos in v.kafka.log && !v.kafka.log[pos].Poison? && EventOf(v.kafka.log[pos]) == E
    requires EffectsOf(v) == fx && k == Key(Q, AttemptOf(v.kafka.log[pos])) && EP in v.db.endpoints
    requires !HasSuccess(fx.attempts, Q) && StatusOf(o) != Success && GivesUp(o, k.attempt, v.max)
    ensures Leads(v, acts, t) && OnlyTaskMoved(v, t, pos, Task([EP], 0, Unscheduling))
    ensures EffectsOf(t) == Inserted(Posted(fx, k, o), k, o).(dlq := Inserted(Posted(fx, k, o), k, o).dlq + {Q})
  {
    hide Leads, ByTaskOnly, HasSuccess, StatusOf, GivesUp, TaskEnabled, StepTask, Posted, Inserted;
    assert InWorld(Post(o), Says(EP, o)) by {
      assert Says(EP, o).http[EP] == o;
    }
    StartAt(v, pos, Says(EP, o));
    CheckStage(v, [], v, pos, Says(EP, o), fx);
    acts, t := [] + [ByTask(pos, Check)], StepTask(v, pos, Check);
    PostStage(v, acts, t, pos, Says(EP, o), fx, o);
    acts, t := acts + [ByTask(pos, Post(o))], StepTask(t, pos, Post(o));
    InsertStage(v, acts, t, pos, Says(EP, o), Posted(fx, k, o), o);
    acts, t := acts + [ByTask(pos, Insert)], StepTask(t, pos, Insert);
    BuryStage(v, acts, t, pos, Says(EP, o), Inserted(Posted(fx, k, o), k, o));
    acts, t := acts + [ByTask(pos, Bury)], StepTask(t, pos, Bury);
  }

  /** The cancel of the DLQ handler, and the end of its record. */
  lemma {:induction false} Ended(s: State, before: seq<Action>, u: State, max: nat, log: seq<Message>, next: nat,
                                 done: set<int>, tasks: map<Pos, Task>, fx: Effects, i: nat)
    returns (acts: seq<Action>, t: State)
    requires Leads(s, before, u) && Looks(u, max, log, next, done, tasks, fx) && i < |log| && ForQ(log[i])
    requires Pos(0, i) in tasks && tasks[Pos(0, i)] == Task([EP], 0, Unscheduling)
    ensures Leads(s, acts, t) && NoCalls(before, acts)
    ensures Looks(t, max, log, next, done + {i}, tasks - {Pos(0, i)},
                  fx.(redis := fx.redis - {Key(Q, AttemptOf(log[i]))}))
  {
    hide Leads, Finished, ToCommit;
    var pos := Pos(0, i);
    assert u.kafka.log[pos] == log[i];
    var v := StepUnschedule(u, pos, true);
    LeadsOn(s, before, u, ByTask(pos, Unschedule(true)));
    t := StepFinish(v, pos);
    LeadsOn(s, before + [ByTask(pos, Unschedule(true))], v, ByTask(pos, Finish));
    acts := before + [ByTask(pos, Unschedule(true))] + [ByTask(pos, Finish)];
  }

  const RETRY := Targeted(Key(Q, 1))
  const ATTEMPTED := Effects(map[Key(Q, 0) := Failure], {}, {}, multiset{Key(Q, 0)}, {})
  const EXHAUSTED := Effects(map[Key(Q, 0) := Failure, Key(Q, 1) := Failure], {Q}, {},
                             multiset{Key(Q, 0), Key(Q, 1)}, {})
  const RESCHEDULED := Effects(map[Key(Q, 0) := Failure, Key(Q, 1) := Failure], {}, {Key(Q, 1)},
                               multiset{Key(Q, 0), Key(Q, 0), Key(Q, 1)}, {})

  lemma {:induction false} LostEffects()
    ensures Deliver(NO_EFFECTS, Key(Q, 0), Says(EP, Response(500)), 2) == SCHEDULED
    ensures SCHEDULED.(redis := SCHEDULED.redis - {Key(Q, 1)}) == ATTEMPTED
    ensures !HasSuccess(ATTEMPTED.attempts, Q)
    ensures Inserted(Posted(ATTEMPTED, Key(Q, 1), Response(500)), Key(Q, 1), Response(500)).(
            dlq := ATTEMPTED.dlq + {Q}) == EXHAUSTED
    ensures Deliver(EXHAUSTED.(dlq := EXHAUSTED.dlq - {Q}), Key(Q, 0), Says(EP, Response(500)), 2) == RESCHEDULED
  {
    assert !HasSuccess(NO_EFFECTS.attempts, Q) && !HasSuccess(EXHAUSTED.attempts, Q);
    assert Says(EP, Response(500)).Answer(EP) == Response(500);
    assert {Key(Q, 1)} - {Key(Q, 1)} == {};
    assert {Q} - {Q} == {};
  }

  lemma {:induction false} EndsLost(t: State, log: seq<Message>, tasks: map<Pos, Task>)
    requires log == [Fanout(E)] + [RETRY] + [Fanout(E)] && tasks == map[]
    requires Looks(t, 2, log, 3, {0} + {2} + {1}, tasks,
                   RESCHEDULED.(redis := RESCHEDULED.redis - {Key(Q, 1)}))
    ensures Drained(t) && t.live.tasks == map[] && t.db.endpoints == map[EP := RECORD]
    ensures !HasSuccess(t.db.attempts, Q) && Q !in t.hist.acked && Q !in t.db.dlq
  {
    assert {Key(Q, 1)} - {Key(Q, 1)} == {};
  }

  lemma {:induction false} NotCalm(u: State, log: seq<Message>, tasks: map<Pos, Task>)
    requires log == [Fanout(E)] + [RETRY] + [Fanout(E)] && tasks == map[Pos(0, 1) := Task([EP], 0, Unscheduling)]
    requires Looks(u, 2, log, 2, {0}, tasks, EXHAUSTED.(dlq := EXHAUSTED.dlq - {Q}))
    requires Reachable(u)
    ensures !Calm(u, Q) && Lonely(u, Q, Pos(0, 2), Pos(0, 1))
  {
    hide Reachable;
    assert log[1] == RETRY && log[2] == Fanout(E);
    assert u.kafka.log[Pos(0, 1)] == RETRY;
    assert Cancelling(u.kafka.log[Pos(0, 1)], u.live.tasks[Pos(0, 1)], Q);
    assert !HasSuccess(EXHAUSTED.attempts, Q);
    assert {Q} - {Q} == {};
  }

  /** The last attempt is dead-lettered; before its task cancels the retry entry of that
      attempt, an operator replays the dead letter. That is state `u`, which is not calm.
      The replay fails and schedules the same attempt number again; then the cancel
      removes it. Nothing is left to do, the endpoint is enabled and was never touched,
      nobody removed a DLQ row since, and the pair has neither a 2xx nor a DLQ row. */
  lemma {:induction false} ReplayLost() returns (before: seq<Action>, u: State, acts: seq<Action>, t: State)
    ensures Init(Start(2)) && Leads(Start(2), before, u) && !Calm(u, Q) && Lonely(u, Q, Pos(0, 2), Pos(0, 1))
    ensures Leads(u, acts, t) && forall a :: a in acts ==> !Unburies(a, Q)
    ensures Drained(t) && t.live.tasks == map[] && t.db.endpoints == map[EP := RECORD]
    ensures !HasSuccess(t.db.attempts, Q) && Q !in t.hist.acked && Q !in t.db.dlq
  {
    hide Leads, Init, Looks, Deliver, HasSuccess, Posted, Inserted, Drained, Calm, Lonely, Reachable;
    LostEffects();
    var s, pos := Start(2), Pos(0, 1);
    before, t := Ingested(2);
    before, t := Processed(s, before, t, 2, [Fanout(E)], 0, {}, map[], NO_EFFECTS, Says(EP, Response(500)));
    assert {} + {0} == {0};
    before, t := Retried(s, before, t, 2, [Fanout(E)], 1, {0}, SCHEDULED, Key(Q, 1));
    var log := [Fanout(E)] + [RETRY];
    before, t := Fetched(s, before, t, 2, log, 1, {0}, map[], ATTEMPTED);
    var half, v := BuriedHalf(t, 2, log, 2, {0}, map[][pos := Task([], 0, Resolving)], ATTEMPTED, 1, Response(500));
    LeadsThrough(s, before, t, half, v);
    var running := map[][pos := Task([], 0, Resolving)][pos := Task([EP], 0, Unscheduling)];
    before, u := Replayed(s, before + half, v, 2, log, 2, {0}, running, EXHAUSTED);
    log := log + [Fanout(E)];
    IsReachable(s, before, u);
    NotCalm(u, log, running);
    NoAction(u);
    acts, t := Processed(u, [], u, 2, log, 2, {0}, running, EXHAUSTED.(dlq := EXHAUSTED.dlq - {Q}),
                         Says(EP, Response(500)));
    acts, t := Ended(u, acts, t, 2, log, 3, {0} + {2}, running, RESCHEDULED, 1);
    EndsLost(t, log, running - {pos});
  }
}
