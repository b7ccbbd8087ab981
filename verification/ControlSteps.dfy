/** The steps of the API and of the outbox relay keep the invariant. */
module ControlSteps {
  import opened Domain
  import opened Protocol
  import opened Invariants
  import opened Updates

  // ---------- ingestion ----------

  lemma {:induction false} IngestFlow(max: nat, events: map<Uuid, Event>, redis: set<Key>, log: map<Pos, Message>,
                                      scheduled: set<Key>, tasks: map<Pos, Task>, e: Uuid, body: Event)
    requires HandOffInv(max, events, redis, log, scheduled) && TasksInv(max, events, log, tasks) && e !in events
    ensures HandOffInv(max, events[e := body], redis, log, scheduled)
    ensures TasksInv(max, events[e := body], log, tasks)
  {
  }

  lemma {:induction false} IngestOutbox(events: map<Uuid, Event>, outbox: set<Uuid>, log: map<Pos, Message>,
                                        relays: map<nat, Relay>, relayed: multiset<Uuid>, rolledBack: multiset<Uuid>,
                                        e: Uuid, body: Event)
    requires OutboxInv(events, outbox, log, relays) && e !in events
    requires RelayCountInv(events, outbox, relays, relayed, rolledBack)
    ensures OutboxInv(events[e := body], outbox + {e}, log, relays)
    ensures RelayCountInv(events[e := body], outbox + {e}, relays, relayed, rolledBack)
  {
    forall r | r in relays ensures RelayOk(outbox + {e}, log, relays[r]) {
      assert RelayOk(outbox, log, relays[r]);
    }
  }

  lemma {:induction false} IngestStable(endpoints: map<Uuid, Endpoint>, known: set<Uuid>, disturbed: set<Uuid>,
                     events: map<Uuid, Event>, log: map<Pos, Message>, resolved: map<Pos, set<Uuid>>,
                     scheduled: set<Key>, dropped: set<Pair>, e: Uuid, body: Event)
    requires StableInv(endpoints, known, disturbed, events, log, resolved, scheduled, dropped) && e !in events
    ensures StableInv(endpoints, known, disturbed, events[e := body], log, resolved, scheduled, dropped)
  {
    hide Matches, Stable;
  }

  lemma {:induction false} IngestPreserves(s: State, e: Uuid, body: Event)
    requires Inv(s) && e !in s.db.events
    ensures Inv(StepIngest(s, e, body))
  {
    hide PartsInv, FinishedInv, LogInv, TasksInv, HandOffInv, SchedulersInv, OutboxInv, RelayCountInv, RowsInv,
      TaskRowsInv, ResultsInv, TaskOutcomeInv, CoveredInv, StableInv, TargetsInv;
    IngestFlow(s.max, s.db.events, s.redis, s.kafka.log, s.hist.scheduled, s.live.tasks, e, body);
    IngestOutbox(s.db.events, s.db.outbox, s.kafka.log, s.live.relays, s.hist.relayed, s.hist.rolledBack, e, body);
    IngestStable(s.db.endpoints, s.hist.known, s.hist.disturbed, s.db.events, s.kafka.log, s.hist.resolved,
                 s.hist.scheduled, s.hist.dropped, e, body);
  }

  // ---------- endpoints ----------

  lemma {:induction false} SetEndpointRows(s: State, ep: Uuid, record: Endpoint)
    requires RowsInv(s.max, s.db.endpoints, s.hist.known, s.db.attempts, s.hist.scheduled)
    requires TaskRowsInv(s.db.endpoints, s.hist.known, s.db.attempts, s.kafka.log, s.live.tasks)
    requires ep in s.db.endpoints || ep !in s.hist.known
    ensures var s' := StepSetEndpoint(s, ep, record);
            && RowsInv(s'.max, s'.db.endpoints, s'.hist.known, s'.db.attempts, s'.hist.scheduled)
            && TaskRowsInv(s'.db.endpoints, s'.hist.known, s'.db.attempts, s'.kafka.log, s'.live.tasks)
  {
    hide RowsBelow;
    var s' := StepSetEndpoint(s, ep, record);
    forall pos | pos in s'.live.tasks && pos in s'.kafka.log
      ensures TaskRows(s'.db.endpoints, s'.hist.known, s'.db.attempts, s'.kafka.log[pos], s'.live.tasks[pos])
    {
      assert TaskRows(s.db.endpoints, s.hist.known, s.db.attempts, s.kafka.log[pos], s.live.tasks[pos]);
    }
  }

  lemma {:induction false} DisturbStable(endpoints: map<Uuid, Endpoint>, known: set<Uuid>, disturbed: set<Uuid>,
                      events: map<Uuid, Event>, log: map<Pos, Message>, resolved: map<Pos, set<Uuid>>,
                      scheduled: set<Key>, dropped: set<Pair>, tasks: map<Pos, Task>,
                      endpoints': map<Uuid, Endpoint>, known': set<Uuid>, ep: Uuid)
    requires StableInv(endpoints, known, disturbed, events, log, resolved, scheduled, dropped)
    requires TargetsInv(endpoints, disturbed, tasks)
    requires known <= known'
    requires forall x :: x != ep ==> (x in endpoints <==> x in endpoints')
    requires forall x :: x != ep && x in endpoints ==> endpoints'[x] == endpoints[x]
    ensures StableInv(endpoints', known', disturbed + {ep}, events, log, resolved, scheduled, dropped)
    ensures TargetsInv(endpoints', disturbed + {ep}, tasks)
  {
    hide Matches;
  }

  lemma {:induction false} SetEndpointPreserves(s: State, ep: Uuid, record: Endpoint)
    requires Inv(s) && (ep in s.db.endpoints || ep !in s.hist.known)
    ensures Inv(StepSetEndpoint(s, ep, record))
  {
    hide PartsInv, FinishedInv, LogInv, TasksInv, HandOffInv, SchedulersInv, OutboxInv, RelayCountInv, RowsInv,
      TaskRowsInv, ResultsInv, TaskOutcomeInv, CoveredInv, StableInv, TargetsInv;
    SetEndpointRows(s, ep, record);
    DisturbStable(s.db.endpoints, s.hist.known, s.hist.disturbed, s.db.events, s.kafka.log, s.hist.resolved,
                  s.hist.scheduled, s.hist.dropped, s.live.tasks,
                  s.db.endpoints[ep := record], s.hist.known + {ep}, ep);
  }

  lemma {:induction false} DeleteEndpointRows(s: State, ep: Uuid)
    requires RowsInv(s.max, s.db.endpoints, s.hist.known, s.db.attempts, s.hist.scheduled)
    requires TaskRowsInv(s.db.endpoints, s.hist.known, s.db.attempts, s.kafka.log, s.live.tasks)
    requires ResultsInv(s.db.attempts, s.db.dlq, s.hist.acked, s.hist.dlqed)
    ensures var s' := StepDeleteEndpoint(s, ep);
            && RowsInv(s'.max, s'.db.endpoints, s'.hist.known, s'.db.attempts, s'.hist.scheduled)
            && TaskRowsInv(s'.db.endpoints, s'.hist.known, s'.db.attempts, s'.kafka.log, s'.live.tasks)
            && ResultsInv(s'.db.attempts, s'.db.dlq, s'.hist.acked, s'.hist.dlqed)
  {
    var s' := StepDeleteEndpoint(s, ep);
    assert forall k :: RowsBelow(s.db.attempts, k) && k.pair.endpoint != ep ==> RowsBelow(s'.db.attempts, k);
    hide RowsBelow;
    forall pos | pos in s'.live.tasks && pos in s'.kafka.log
      ensures TaskRows(s'.db.endpoints, s'.hist.known, s'.db.attempts, s'.kafka.log[pos], s'.live.tasks[pos])
    {
      assert TaskRows(s.db.endpoints, s.hist.known, s.db.attempts, s.kafka.log[pos], s.live.tasks[pos]);
    }
  }

  lemma {:induction false} DeleteEndpointPreserves(s: State, ep: Uuid)
    requires Inv(s)
    ensures Inv(StepDeleteEndpoint(s, ep))
  {
    hide PartsInv, FinishedInv, LogInv, TasksInv, HandOffInv, SchedulersInv, OutboxInv, RelayCountInv, RowsInv,
      TaskRowsInv, ResultsInv, TaskOutcomeInv, CoveredInv, StableInv, TargetsInv;
    DeleteEndpointRows(s, ep);
    DisturbStable(s.db.endpoints, s.hist.known, s.hist.disturbed, s.db.events, s.kafka.log, s.hist.resolved,
                  s.hist.scheduled, s.hist.dropped, s.live.tasks,
                  s.db.endpoints - {ep}, s.hist.known, ep);
  }

  lemma {:induction false} DeleteDlqPreserves(s: State, pairs: set<Pair>)
    requires Inv(s)
    ensures Inv(s.(db := s.db.(dlq := s.db.dlq - pairs)))
  {
    hide PartsInv, FinishedInv, LogInv, TasksInv, HandOffInv, SchedulersInv, OutboxInv, RelayCountInv, RowsInv,
      TaskRowsInv, TaskOutcomeInv, CoveredInv, StableInv, TargetsInv;
  }

  // ---------- publishing ----------

  lemma {:induction false} PublishPreserves(s: State, p: nat, m: Message)
    requires Inv(s) && p < |s.kafka.parts|
    requires m.Poison? || (m.Fanout? && m.event in s.db.events)
    ensures Inv(Append(s, p, m))
  {
    hide Inv;
    AppendInv(s, p, m);
  }

  // ---------- the outbox relay ----------

  lemma {:induction false} OutboxFacts(s: State)
    requires Inv(s)
    ensures OutboxInv(s.db.events, s.db.outbox, s.kafka.log, s.live.relays)
    ensures RelayCountInv(s.db.events, s.db.outbox, s.live.relays, s.hist.relayed, s.hist.rolledBack)
  {
    hide PartsInv, FinishedInv, LogInv, TasksInv, HandOffInv, SchedulersInv, OutboxInv, RelayCountInv, RowsInv,
      TaskRowsInv, ResultsInv, TaskOutcomeInv, CoveredInv, StableInv, TargetsInv;
  }

  lemma {:induction false} SetOutbox(s: State, outbox: set<Uuid>, relays: map<nat, Relay>, relayed: multiset<Uuid>,
                  rolledBack: multiset<Uuid>)
    requires Inv(s) && OutboxInv(s.db.events, outbox, s.kafka.log, relays)
    requires RelayCountInv(s.db.events, outbox, relays, relayed, rolledBack)
    ensures Inv(s.(db := s.db.(outbox := outbox), live := s.live.(relays := relays),
                   hist := s.hist.(relayed := relayed, rolledBack := rolledBack)))
  {
    hide PartsInv, FinishedInv, LogInv, TasksInv, HandOffInv, SchedulersInv, OutboxInv, RelayCountInv, RowsInv,
      TaskRowsInv, ResultsInv, TaskOutcomeInv, CoveredInv, StableInv, TargetsInv;
  }

  lemma {:induction false} LockOutbox(events: map<Uuid, Event>, outbox: set<Uuid>, log: map<Pos, Message>,
                                      relays: map<nat, Relay>, relayed: multiset<Uuid>, rolledBack: multiset<Uuid>,
                                      r: nat, rows: seq<Uuid>)
    requires OutboxInv(events, outbox, log, relays)
    requires RelayCountInv(events, outbox, relays, relayed, rolledBack)
    requires r !in relays && Distinct(rows) && forall e :: e in rows ==> e in outbox && !Locked(relays, e)
    ensures OutboxInv(events, outbox, log, relays[r := Relay(rows, 0)])
    ensures RelayCountInv(events, outbox, relays[r := Relay(rows, 0)], relayed, rolledBack)
  {
    var relays' := relays[r := Relay(rows, 0)];
    assert RelayOk(outbox, log, Relay(rows, 0));
    forall e | InTransit(relays, e) ensures InTransit(relays', e) {
      var q :| q in relays && relays[q].sent <= |relays[q].rows| && e in relays[q].rows[..relays[q].sent];
      assert relays'[q] == relays[q];
    }
    hide RelayOk, InTransit;
  }

  lemma {:induction false} SendTransit(relays: map<nat, Relay>, r: nat)
    requires DisjointRows(relays)
    requires r in relays && relays[r].sent < |relays[r].rows| && Distinct(relays[r].rows)
    ensures var e := relays[r].rows[relays[r].sent];
            var relays' := relays[r := relays[r].(sent := relays[r].sent + 1)];
            InTransit(relays', e) && forall x :: InTransit(relays, x) ==> InTransit(relays', x) && x != e
  {
    var sent := relays[r].sent;
    var e := relays[r].rows[sent];
    var relays' := relays[r := relays[r].(sent := sent + 1)];
    assert relays'[r].rows[..sent + 1][sent] == e;
    forall x | InTransit(relays, x) ensures InTransit(relays', x) && x != e {
      var q :| q in relays && relays[q].sent <= |relays[q].rows| && x in relays[q].rows[..relays[q].sent];
      assert x in relays[q].rows;
      if q == r {
        var i :| 0 <= i < sent && relays[r].rows[i] == x;
        assert relays'[r].rows[..sent + 1][i] == x;
      } else {
        assert relays'[q] == relays[q];
      }
    }
  }

  lemma {:induction false} SendRows(events: map<Uuid, Event>, outbox: set<Uuid>, log: map<Pos, Message>,
                                    relays: map<nat, Relay>, r: nat)
    requires OutboxInv(events, outbox, log, relays)
    requires r in relays && relays[r].sent < |relays[r].rows|
    requires Fanout(relays[r].rows[relays[r].sent]) in log.Values
    ensures OutboxInv(events, outbox, log, relays[r := relays[r].(sent := relays[r].sent + 1)])
  {
    var relays' := relays[r := relays[r].(sent := relays[r].sent + 1)];
    assert RelayOk(outbox, log, relays[r]);
    assert RelayOk(outbox, log, relays'[r]);
    hide RelayOk;
  }

  lemma {:induction false} SendOutbox(events: map<Uuid, Event>, outbox: set<Uuid>, log: map<Pos, Message>,
                                      relays: map<nat, Relay>, relayed: multiset<Uuid>, rolledBack: multiset<Uuid>,
                                      r: nat)
    requires OutboxInv(events, outbox, log, relays)
    requires RelayCountInv(events, outbox, relays, relayed, rolledBack)
    requires r in relays && relays[r].sent < |relays[r].rows|
    requires Fanout(relays[r].rows[relays[r].sent]) in log.Values
    ensures var relays' := relays[r := relays[r].(sent := relays[r].sent + 1)];
            && OutboxInv(events, outbox, log, relays')
            && RelayCountInv(events, outbox, relays', relayed + multiset{relays[r].rows[relays[r].sent]}, rolledBack)
  {
    hide InTransit;
    SendRows(events, outbox, log, relays, r);
    assert RelayOk(outbox, log, relays[r]);
    SendTransit(relays, r);
  }

  lemma {:induction false} CommitOutbox(events: map<Uuid, Event>, outbox: set<Uuid>, log: map<Pos, Message>,
                                        relays: map<nat, Relay>, relayed: multiset<Uuid>, rolledBack: multiset<Uuid>,
                                        r: nat)
    requires OutboxInv(events, outbox, log, relays)
    requires RelayCountInv(events, outbox, relays, relayed, rolledBack)
    requires r in relays && relays[r].sent == |relays[r].rows|
    ensures OutboxInv(events, outbox - Elements(relays[r].rows), log, relays - {r})
    ensures RelayCountInv(events, outbox - Elements(relays[r].rows), relays - {r}, relayed, rolledBack)
  {
    var outbox' := outbox - Elements(relays[r].rows);
    var relays' := relays - {r};
    assert RelayOk(outbox, log, relays[r]);
    forall e | e in events ensures e in outbox' || Fanout(e) in log.Values {
      if e in relays[r].rows {
        var i :| 0 <= i < |relays[r].rows| && relays[r].rows[i] == e;
      }
    }
    forall q | q in relays' ensures RelayOk(outbox', log, relays'[q]) {
      assert RelayOk(outbox, log, relays[q]);
    }
    forall e | InTransit(relays, e) && e in outbox' ensures InTransit(relays', e) {
      var q :| q in relays && relays[q].sent <= |relays[q].rows| && e in relays[q].rows[..relays[q].sent];
      assert e in relays[q].rows && q in relays';
    }
    assert outbox <= events.Keys;
    hide RelayOk, InTransit;
  }

  lemma {:induction false} AbortOutbox(events: map<Uuid, Event>, outbox: set<Uuid>, log: map<Pos, Message>,
                                       relays: map<nat, Relay>, relayed: multiset<Uuid>, rolledBack: multiset<Uuid>,
                                       r: nat)
    requires OutboxInv(events, outbox, log, relays)
    requires RelayCountInv(events, outbox, relays, relayed, rolledBack)
    requires r in relays
    ensures OutboxInv(events, outbox, log, relays - {r})
    ensures RelayCountInv(events, outbox, relays - {r}, relayed, rolledBack + multiset(relays[r].rows))
  {
    var relays' := relays - {r};
    forall e | InTransit(relays, e) && e !in relays[r].rows ensures InTransit(relays', e) {
      var q :| q in relays && relays[q].sent <= |relays[q].rows| && e in relays[q].rows[..relays[q].sent];
      assert e in relays[q].rows && q in relays';
    }
    hide RelayOk, InTransit;
  }

  lemma {:induction false} RelayLockPreserves(s: State, r: nat, rows: seq<Uuid>)
    requires Inv(s)
    requires r !in s.live.relays && Distinct(rows)
    requires forall e :: e in rows ==> e in s.db.outbox && !Locked(s.live.relays, e)
    ensures Inv(s.(live := s.live.(relays := s.live.relays[r := Relay(rows, 0)])))
  {
    hide Inv, OutboxInv, RelayCountInv;
    OutboxFacts(s);
    LockOutbox(s.db.events, s.db.outbox, s.kafka.log, s.live.relays, s.hist.relayed, s.hist.rolledBack, r, rows);
    SetOutbox(s, s.db.outbox, s.live.relays[r := Relay(rows, 0)], s.hist.relayed, s.hist.rolledBack);
  }

  lemma {:induction false} RowIsEvent(s: State, r: nat)
    requires Inv(s) && r in s.live.relays
    ensures forall e :: e in s.live.relays[r].rows ==> e in s.db.events
  {
    hide PartsInv, FinishedInv, LogInv, TasksInv, HandOffInv, SchedulersInv, RelayCountInv, RowsInv, TaskRowsInv,
      ResultsInv, TaskOutcomeInv, CoveredInv, StableInv, TargetsInv;
    assert RelayOk(s.db.outbox, s.kafka.log, s.live.relays[r]);
  }

  lemma {:induction false} RelaySendPreserves(s: State, r: nat, p: nat)
    requires Inv(s) && r in s.live.relays && s.live.relays[r].sent < |s.live.relays[r].rows| && p < |s.kafka.parts|
    ensures Inv(StepRelaySend(s, r, p))
  {
    hide Inv, OutboxInv, RelayCountInv;
    var e := s.live.relays[r].rows[s.live.relays[r].sent];
    RowIsEvent(s, r);
    AppendInv(s, p, Fanout(e));
    var s1 := Append(s, p, Fanout(e));
    OutboxFacts(s1);
    SendOutbox(s1.db.events, s1.db.outbox, s1.kafka.log, s1.live.relays, s1.hist.relayed, s1.hist.rolledBack, r);
    var relays := s.live.relays[r := s.live.relays[r].(sent := s.live.relays[r].sent + 1)];
    SetOutbox(s1, s1.db.outbox, relays, s1.hist.relayed + multiset{e}, s1.hist.rolledBack);
    assert StepRelaySend(s, r, p) == s1.(db := s1.db.(outbox := s1.db.outbox), live := s1.live.(relays := relays),
                                         hist := s1.hist.(relayed := s1.hist.relayed + multiset{e},
                                                          rolledBack := s1.hist.rolledBack));
  }

  lemma {:induction false} RelayCommitPreserves(s: State, r: nat)
    requires Inv(s) && r in s.live.relays && s.live.relays[r].sent == |s.live.relays[r].rows|
    ensures Inv(StepRelayCommit(s, r))
  {
    hide Inv, OutboxInv, RelayCountInv;
    OutboxFacts(s);
    CommitOutbox(s.db.events, s.db.outbox, s.kafka.log, s.live.relays, s.hist.relayed, s.hist.rolledBack, r);
    SetOutbox(s, s.db.outbox - Elements(s.live.relays[r].rows), s.live.relays - {r}, s.hist.relayed, s.hist.rolledBack);
  }

  lemma {:induction false} RelayAbortPreserves(s: State, r: nat)
    requires Inv(s) && r in s.live.relays
    ensures Inv(StepRelayAbort(s, r))
  {
    hide Inv, OutboxInv, RelayCountInv;
    OutboxFacts(s);
    AbortOutbox(s.db.events, s.db.outbox, s.kafka.log, s.live.relays, s.hist.relayed, s.hist.rolledBack, r);
    SetOutbox(s, s.db.outbox, s.live.relays - {r}, s.hist.relayed, s.hist.rolledBack + multiset(s.live.relays[r].rows));
  }
}
