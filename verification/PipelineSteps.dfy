/** The steps of the consumer loop, the API, the relay and the scheduler keep the
    invariant. */
module PipelineSteps {
  import opened Domain
  import opened Watermarks
  import opened Protocol
  import opened Invariants
  import opened Updates
  import opened DeliverySteps

  // ---------- the consumer loop ----------

  lemma {:induction false} StartedOk(part: Part)
    requires PartOk(part) && part.next < part.end
    ensures var part' := part.(next := part.next + 1, wm := Started(part.wm, part.next));
            PartOk(part') && forall c :: SafePosition(part, c) ==> SafePosition(part', c)
  {
  }

  /** Finishing an offset in flight: the request `done` makes, if any, is safe. */
  lemma {:induction false} FinishedOk(part: Part, o: int)
    requires PartOk(part) && o in part.wm.inFlight
    ensures var part' := part.(wm := Finished(part.wm, o), done := part.done + {o});
            && PartOk(part')
            && (ToCommit(part.wm, o).Some? ==> SafePosition(part', ToCommit(part.wm, o).value + 1))
            && (forall c :: SafePosition(part, c) ==> SafePosition(part', c))
            && part'.wm.inFlight == part.wm.inFlight - {o}
  {
    var w1 := part.wm.(inFlight := part.wm.inFlight - {o});
    if w1.inFlight != {} {
      var m := Min(w1.inFlight);
      assert m in part.wm.inFlight;
    }
  }

  lemma {:induction false} CoveredShrinks(log: map<Pos, Message>, parts: seq<Part>, parts': seq<Part>,
                                          resolved: map<Pos, set<Uuid>>, scheduled: set<Key>, acked: set<Pair>,
                                          dlqed: set<Pair>, dropped: set<Pair>)
    requires CoveredInv(log, parts, resolved, scheduled, acked, dlqed, dropped)
    requires forall pos :: Covered(parts', pos) ==> Covered(parts, pos)
    ensures CoveredInv(log, parts', resolved, scheduled, acked, dlqed, dropped)
  {
    hide Covered, RecordHandled;
  }

  lemma {:induction false} FetchParts(s: State, p: nat)
    requires PartsInv(s.kafka.parts, s.kafka.pending) && LogInv(s.kafka.log, s.kafka.parts, s.live.tasks)
    requires p < |s.kafka.parts| && s.kafka.parts[p].next < s.kafka.parts[p].end
    ensures PartsInv(StepFetch(s, p).kafka.parts, s.kafka.pending)
  {
    hide SafePosition, PartOk, Started;
    StartedOk(s.kafka.parts[p]);
  }

  lemma {:induction false} FetchLog(s: State, p: nat)
    requires PartsInv(s.kafka.parts, s.kafka.pending) && LogInv(s.kafka.log, s.kafka.parts, s.live.tasks)
    requires p < |s.kafka.parts| && s.kafka.parts[p].next < s.kafka.parts[p].end
    ensures var s' := StepFetch(s, p);
            && LogInv(s'.kafka.log, s'.kafka.parts, s'.live.tasks)
            && (FinishedInv(s.kafka.parts, s.hist.finished) ==> FinishedInv(s'.kafka.parts, s'.hist.finished))
            && (forall pos :: Covered(s'.kafka.parts, pos) ==> Covered(s.kafka.parts, pos))
            && Pos(p, s.kafka.parts[p].next) in s.kafka.log && Pos(p, s.kafka.parts[p].next) !in s.live.tasks
  {
    hide SafePosition;
    assert PartOk(s.kafka.parts[p]);
  }

  lemma {:induction false} PutTask(max: nat, events: map<Uuid, Event>, endpoints: map<Uuid, Endpoint>, known: set<Uuid>,
                disturbed: set<Uuid>, attempts: map<Key, Status>, log: map<Pos, Message>, tasks: map<Pos, Task>,
                pos: Pos, t: Task)
    requires pos in log
    requires TasksInv(max, events, log, tasks) && TaskRowsInv(endpoints, known, attempts, log, tasks)
    requires TargetsInv(endpoints, disturbed, tasks)
    requires TaskShape(max, events, log[pos], t) && TaskRows(endpoints, known, attempts, log[pos], t)
    requires forall ep :: ep in t.targets ==> ep in endpoints && endpoints[ep].enabled
    ensures var tasks' := tasks[pos := t];
            && TasksInv(max, events, log, tasks') && TaskRowsInv(endpoints, known, attempts, log, tasks')
            && TargetsInv(endpoints, disturbed, tasks')
  {
    hide TaskShape, TaskRows;
  }

  lemma {:induction false} FetchedTask(s: State, pos: Pos)
    requires pos in s.kafka.log
    requires TaskOutcomeInv(s.kafka.log, s.live.tasks, s.hist.resolved, s.hist.scheduled, s.hist.acked, s.hist.dlqed,
                            s.hist.dropped)
    ensures var t := Task([], 0, Resolving);
            && TaskShape(s.max, s.db.events, s.kafka.log[pos], t)
            && TaskRows(s.db.endpoints, s.hist.known, s.db.attempts, s.kafka.log[pos], t)
            && TaskOutcomeInv(s.kafka.log, s.live.tasks[pos := t], s.hist.resolved, s.hist.scheduled, s.hist.acked,
                              s.hist.dlqed, s.hist.dropped)
  {
    assert TaskOutcome(s.hist.resolved, s.hist.scheduled, s.hist.acked, s.hist.dlqed, s.hist.dropped, pos,
                       s.kafka.log[pos], Task([], 0, Resolving));
    hide TaskOutcome;
  }

  lemma {:induction false} FetchPreserves(s: State, p: nat)
    requires Inv(s) && p < |s.kafka.parts| && s.kafka.parts[p].next < s.kafka.parts[p].end
    ensures Inv(StepFetch(s, p))
  {
    hide PartsInv, FinishedInv, LogInv, TasksInv, HandOffInv, SchedulersInv, OutboxInv, RelayCountInv, RowsInv,
      TaskRowsInv, ResultsInv, TaskOutcomeInv, CoveredInv, StableInv, TargetsInv;
    FetchParts(s, p);
    FetchLog(s, p);
    CoveredShrinks(s.kafka.log, s.kafka.parts, StepFetch(s, p).kafka.parts, s.hist.resolved, s.hist.scheduled,
                   s.hist.acked, s.hist.dlqed, s.hist.dropped);
    var pos := Pos(p, s.kafka.parts[p].next);
    FetchedTask(s, pos);
    PutTask(s.max, s.db.events, s.db.endpoints, s.hist.known, s.hist.disturbed, s.db.attempts, s.kafka.log,
            s.live.tasks, pos,
            Task([], 0, Resolving));
  }

  // ---------- resolving the targets ----------

  lemma {:induction false} ResolveOutcome(s: State, pos: Pos, targets: seq<Uuid>)
    requires TaskOutcomeInv(s.kafka.log, s.live.tasks, s.hist.resolved, s.hist.scheduled, s.hist.acked, s.hist.dlqed,
                            s.hist.dropped)
    requires CoveredInv(s.kafka.log, s.kafka.parts, s.hist.resolved, s.hist.scheduled, s.hist.acked, s.hist.dlqed,
                        s.hist.dropped)
    requires pos in s.live.tasks && pos in s.kafka.log && !s.kafka.log[pos].Poison? && !Covered(s.kafka.parts, pos)
    ensures var s' := StepResolve(s, pos, targets);
            && TaskOutcomeInv(s'.kafka.log, s'.live.tasks, s'.hist.resolved, s'.hist.scheduled, s'.hist.acked,
                              s'.hist.dlqed, s'.hist.dropped)
            && CoveredInv(s'.kafka.log, s'.kafka.parts, s'.hist.resolved, s'.hist.scheduled, s'.hist.acked,
                          s'.hist.dlqed, s'.hist.dropped)
  {
    var s' := StepResolve(s, pos, targets);
    GrowOutcomes(s.kafka.log, s.kafka.parts, s.live.tasks, s.hist.resolved, s.hist.scheduled, s.hist.acked,
                 s.hist.dlqed, s.hist.dropped,
                 s.hist.scheduled, s.hist.acked, s.hist.dlqed, s'.hist.dropped);
    hide Covered, Handled;
    forall x | x in s'.live.tasks && x in s'.kafka.log
      ensures TaskOutcome(s'.hist.resolved, s'.hist.scheduled, s'.hist.acked, s'.hist.dlqed, s'.hist.dropped, x,
                          s'.kafka.log[x], s'.live.tasks[x])
    {
      if x == pos {
        ResolvedOutcome(s, pos, targets);
      } else {
        assert TaskOutcome(s.hist.resolved, s.hist.scheduled, s.hist.acked, s.hist.dlqed, s'.hist.dropped, x,
                           s.kafka.log[x], s.live.tasks[x]);
      }
    }
    forall x | x in s'.kafka.log && Covered(s'.kafka.parts, x)
      ensures RecordHandled(s'.hist.resolved, s'.hist.scheduled, s'.hist.acked, s'.hist.dlqed, s'.hist.dropped, x,
                            s'.kafka.log[x])
    {
      assert RecordHandled(s.hist.resolved, s.hist.scheduled, s.hist.acked, s.hist.dlqed, s'.hist.dropped, x,
                           s.kafka.log[x]);
    }
  }

  lemma {:induction false} ResolvedOutcome(s: State, pos: Pos, targets: seq<Uuid>)
    requires pos in s.live.tasks && pos in s.kafka.log && !s.kafka.log[pos].Poison?
    ensures var s' := StepResolve(s, pos, targets);
            TaskOutcome(s'.hist.resolved, s'.hist.scheduled, s'.hist.acked, s'.hist.dlqed, s'.hist.dropped, pos,
                        s.kafka.log[pos], s'.live.tasks[pos])
  {
    var s' := StepResolve(s, pos, targets);
    var m := s.kafka.log[pos];
    forall ep | ep in s'.hist.resolved[pos] ensures ep in targets || Pair(EventOf(m), ep) in s'.hist.dropped {
      if ep !in targets {
        assert Pair(EventOf(m), ep) in DroppedBy(s, pos, targets);
      }
    }
    if m.Targeted? && m.key.pair.endpoint !in targets {
      assert Pair(EventOf(m), m.key.pair.endpoint) in DroppedBy(s, pos, targets);
    }
  }

  lemma {:induction false} TargetsAreKnown(s: State, pos: Pos, targets: seq<Uuid>)
    requires Inv(s) && pos in s.kafka.log && !s.kafka.log[pos].Poison? && EventOf(s.kafka.log[pos]) in s.db.events
    requires Elements(targets) == TargetSet(s, s.kafka.log[pos])
    ensures forall ep :: ep in targets ==> ep in s.db.endpoints && s.db.endpoints[ep].enabled && ep in s.hist.known
    ensures forall ep :: ep in targets && s.kafka.log[pos].Fanout? ==>
              Matches(s.db.endpoints[ep], s.db.events[EventOf(s.kafka.log[pos])])
    ensures forall ep :: ep in targets && s.kafka.log[pos].Targeted? ==> ep == s.kafka.log[pos].key.pair.endpoint
  {
    hide PartsInv, FinishedInv, LogInv, TasksInv, HandOffInv, SchedulersInv, OutboxInv, RelayCountInv, TaskRowsInv,
      ResultsInv, TaskOutcomeInv, CoveredInv, StableInv, TargetsInv, RowsBelow, Matches;
    forall ep | ep in targets
      ensures ep in s.db.endpoints && s.db.endpoints[ep].enabled && ep in s.hist.known
      ensures s.kafka.log[pos].Fanout? ==> Matches(s.db.endpoints[ep], s.db.events[EventOf(s.kafka.log[pos])])
      ensures s.kafka.log[pos].Targeted? ==> ep == s.kafka.log[pos].key.pair.endpoint
    {
      assert ep in Elements(targets);
      if s.kafka.log[pos].Fanout? {
        assert Matches(s.db.endpoints[ep], s.db.events[EventOf(s.kafka.log[pos])]);
        MatchesMeansEnabled(s.db.endpoints[ep], s.db.events[EventOf(s.kafka.log[pos])]);
      }
    }
  }

  lemma {:induction false} FanoutTargets(s: State, pos: Pos, targets: seq<Uuid>)
    requires pos in s.kafka.log && !s.kafka.log[pos].Poison? && EventOf(s.kafka.log[pos]) in s.db.events
    requires Elements(targets) == TargetSet(s, s.kafka.log[pos])
    ensures s.kafka.log[pos].Fanout? ==> forall ep :: ep in s.db.endpoints ==>
              (ep in Elements(targets) <==> Matches(s.db.endpoints[ep], s.db.events[EventOf(s.kafka.log[pos])]))
  {
    hide Matches;
  }

  lemma {:induction false} MatchesMeansEnabled(endpoint: Endpoint, event: Event)
    requires Matches(endpoint, event)
    ensures endpoint.enabled
  {
  }

  /** Resolution never drops a pair of an endpoint nobody has touched. */
  lemma {:induction false} DropsAreDisturbed(s: State, pos: Pos, targets: seq<Uuid>)
    requires StableInv(s.db.endpoints, s.hist.known, s.hist.disturbed, s.db.events, s.kafka.log, s.hist.resolved,
                       s.hist.scheduled, s.hist.dropped)
    requires pos in s.kafka.log && !s.kafka.log[pos].Poison? && EventOf(s.kafka.log[pos]) in s.db.events
    requires s.kafka.log[pos].Targeted? ==> s.kafka.log[pos].key in s.hist.scheduled
    requires Elements(targets) == TargetSet(s, s.kafka.log[pos])
    ensures forall q :: q in DroppedBy(s, pos, targets) ==> q.endpoint in s.hist.disturbed
  {
    hide Matches;
    var m := s.kafka.log[pos];
    var live := TargetSet(s, m);
    forall q | q in DroppedBy(s, pos, targets) ensures q.endpoint in s.hist.disturbed {
      assert q.endpoint !in Elements(targets);
      assert q.endpoint !in live;
    }
  }

  lemma {:induction false} ResolveStable(endpoints: map<Uuid, Endpoint>, known: set<Uuid>, disturbed: set<Uuid>,
                      events: map<Uuid, Event>, log: map<Pos, Message>, resolved: map<Pos, set<Uuid>>,
                      scheduled: set<Key>, dropped: set<Pair>, pos: Pos, added: set<Uuid>, drops: set<Pair>)
    requires StableInv(endpoints, known, disturbed, events, log, resolved, scheduled, dropped)
    requires pos in log && !log[pos].Poison? && EventOf(log[pos]) in events
    requires forall ep :: ep in added ==> ep in endpoints && endpoints[ep].enabled && ep in known
    requires log[pos].Fanout? ==> forall ep :: ep in endpoints ==>
               (ep in added <==> Matches(endpoints[ep], events[EventOf(log[pos])]))
    requires log[pos].Targeted? ==> forall ep :: ep in added ==> ep == log[pos].key.pair.endpoint
    requires forall q :: q in drops ==> q.endpoint in disturbed
    ensures StableInv(endpoints, known, disturbed, events, log,
                      resolved[pos := (if pos in resolved then resolved[pos] else {}) + added], scheduled,
                      dropped + drops)
  {
    hide Matches;
  }

  lemma {:induction false} ResolvePreserves(s: State, pos: Pos, targets: seq<Uuid>)
    requires Inv(s)
    requires pos in s.live.tasks && pos in s.kafka.log && !s.kafka.log[pos].Poison?
    requires EventOf(s.kafka.log[pos]) in s.db.events
    requires Distinct(targets) && Elements(targets) == TargetSet(s, s.kafka.log[pos])
    ensures Inv(StepResolve(s, pos, targets))
  {
    hide PartsInv, FinishedInv, LogInv, TasksInv, HandOffInv, SchedulersInv, OutboxInv, RelayCountInv, RowsInv,
      TaskRowsInv, ResultsInv, TaskOutcomeInv, CoveredInv, StableInv, TargetsInv, TargetSet, Matches;
    TargetsAreKnown(s, pos, targets);
    InFlightNotCovered(s, pos);
    KeyIsScheduled(s, pos);
    ResolveOutcome(s, pos, targets);
    DropsAreDisturbed(s, pos, targets);
    FanoutTargets(s, pos, targets);
    ResolveStable(s.db.endpoints, s.hist.known, s.hist.disturbed, s.db.events, s.kafka.log, s.hist.resolved,
                  s.hist.scheduled, s.hist.dropped,
                  pos, Elements(targets), DroppedBy(s, pos, targets));
    ResolveTask(s, pos, targets);
  }

  lemma {:induction false} ResolveTask(s: State, pos: Pos, targets: seq<Uuid>)
    requires Inv(s)
    requires pos in s.live.tasks && pos in s.kafka.log && !s.kafka.log[pos].Poison?
    requires EventOf(s.kafka.log[pos]) in s.db.events
    requires Distinct(targets)
    requires forall ep :: ep in targets ==> ep in s.db.endpoints && s.db.endpoints[ep].enabled && ep in s.hist.known
    requires forall ep :: ep in targets && s.kafka.log[pos].Targeted? ==> ep == s.kafka.log[pos].key.pair.endpoint
    ensures var tasks' := s.live.tasks[pos := Task(targets, 0, Checking)];
            && LogInv(s.kafka.log, s.kafka.parts, tasks')
            && TasksInv(s.max, s.db.events, s.kafka.log, tasks')
            && TaskRowsInv(s.db.endpoints, s.hist.known, s.db.attempts, s.kafka.log, tasks')
            && TargetsInv(s.db.endpoints, s.hist.disturbed, tasks')
  {
    hide PartsInv, FinishedInv, HandOffInv, SchedulersInv, OutboxInv, RelayCountInv, RowsInv, ResultsInv,
      TaskOutcomeInv, CoveredInv, StableInv, TaskShape, TaskRows, TasksInv, TaskRowsInv, TargetsInv;
    var t := Task(targets, 0, Checking);
    ResolvedTaskOk(s, pos, targets);
    PutTask(s.max, s.db.events, s.db.endpoints, s.hist.known, s.hist.disturbed, s.db.attempts, s.kafka.log,
            s.live.tasks, pos, t);
  }

  lemma {:induction false} ResolvedTaskOk(s: State, pos: Pos, targets: seq<Uuid>)
    requires pos in s.kafka.log && !s.kafka.log[pos].Poison? && EventOf(s.kafka.log[pos]) in s.db.events
    requires Distinct(targets)
    requires forall ep :: ep in targets ==> ep in s.hist.known
    requires forall ep :: ep in targets && s.kafka.log[pos].Targeted? ==> ep == s.kafka.log[pos].key.pair.endpoint
    ensures TaskShape(s.max, s.db.events, s.kafka.log[pos], Task(targets, 0, Checking))
    ensures TaskRows(s.db.endpoints, s.hist.known, s.db.attempts, s.kafka.log[pos], Task(targets, 0, Checking))
  {
  }

  lemma {:induction false} InFlightNotCovered(s: State, pos: Pos)
    requires Inv(s) && pos in s.live.tasks
    ensures pos.part < |s.kafka.parts| && PartOk(s.kafka.parts[pos.part])
    ensures pos.offset in s.kafka.parts[pos.part].wm.inFlight
    ensures !Covered(s.kafka.parts, pos)
  {
    hide FinishedInv, TasksInv, HandOffInv, SchedulersInv, OutboxInv, RelayCountInv, RowsInv, TaskRowsInv, ResultsInv,
      TaskOutcomeInv, CoveredInv, StableInv, TargetsInv;
  }

  lemma {:induction false} KeyIsScheduled(s: State, pos: Pos)
    requires Inv(s) && pos in s.kafka.log
    ensures MessageOk(s.db.events, s.hist.scheduled, s.kafka.log[pos])
  {
    hide PartsInv, FinishedInv, LogInv, TasksInv, SchedulersInv, OutboxInv, RelayCountInv, RowsInv, TaskRowsInv,
      ResultsInv, TaskOutcomeInv, CoveredInv, StableInv, TargetsInv;
    assert s.kafka.log[pos] in s.kafka.log.Values;
  }

  // ---------- finishing, failing, committing, restarting ----------

  lemma {:induction false} FinishParts(s: State, pos: Pos)
    requires PartsInv(s.kafka.parts, s.kafka.pending) && LogInv(s.kafka.log, s.kafka.parts, s.live.tasks)
    requires pos in s.live.tasks
    ensures pos.part < |s.kafka.parts|
    ensures PartsInv(StepFinish(s, pos).kafka.parts, StepFinish(s, pos).kafka.pending)
  {
    hide SafePosition, Finished, ToCommit, PartOk;
    FinishedOk(s.kafka.parts[pos.part], pos.offset);
  }

  lemma {:induction false} FinishLog(s: State, pos: Pos)
    requires PartsInv(s.kafka.parts, s.kafka.pending) && LogInv(s.kafka.log, s.kafka.parts, s.live.tasks)
    requires pos in s.live.tasks
    ensures pos.part < |s.kafka.parts|
    ensures var s' := StepFinish(s, pos);
            && LogInv(s'.kafka.log, s'.kafka.parts, s'.live.tasks)
            && (FinishedInv(s.kafka.parts, s.hist.finished) ==> FinishedInv(s'.kafka.parts, s'.hist.finished))
            && (forall x :: Covered(s'.kafka.parts, x) ==> x == pos || Covered(s.kafka.parts, x))
  {
    hide SafePosition, Finished, ToCommit, PartOk;
    FinishedOk(s.kafka.parts[pos.part], pos.offset);
  }

  /** A task that reached the end of its targets has handled its record. */
  lemma {:induction false} FinishedRecord(s: State, pos: Pos)
    requires pos in s.live.tasks && pos in s.kafka.log
    requires MessageOk(s.db.events, s.hist.scheduled, s.kafka.log[pos])
    requires TaskOutcome(s.hist.resolved, s.hist.scheduled, s.hist.acked, s.hist.dlqed, s.hist.dropped, pos,
                         s.kafka.log[pos], s.live.tasks[pos])
    requires if s.live.tasks[pos].pc.Resolving?
             then s.kafka.log[pos].Poison? || EventOf(s.kafka.log[pos]) !in s.db.events
             else s.live.tasks[pos].index == |s.live.tasks[pos].targets|
    requires s.kafka.log[pos].Targeted? ==> s.kafka.log[pos].key.pair.event in s.db.events
    ensures RecordHandled(s.hist.resolved, s.hist.scheduled, s.hist.acked, s.hist.dlqed, s.hist.dropped, pos,
                          s.kafka.log[pos])
  {
  }

  lemma {:induction false} FinishCovered(s: State, pos: Pos)
    requires CoveredInv(s.kafka.log, s.kafka.parts, s.hist.resolved, s.hist.scheduled, s.hist.acked, s.hist.dlqed,
                        s.hist.dropped)
    requires pos in s.kafka.log && pos.part < |s.kafka.parts|
    requires RecordHandled(s.hist.resolved, s.hist.scheduled, s.hist.acked, s.hist.dlqed, s.hist.dropped, pos,
                           s.kafka.log[pos])
    requires forall x :: Covered(StepFinish(s, pos).kafka.parts, x) ==> x == pos || Covered(s.kafka.parts, x)
    ensures CoveredInv(s.kafka.log, StepFinish(s, pos).kafka.parts, s.hist.resolved, s.hist.scheduled, s.hist.acked,
                       s.hist.dlqed, s.hist.dropped)
  {
    hide RecordHandled, Covered;
  }

  lemma {:induction false} ScheduledEvents(s: State, k: Key)
    requires Inv(s) && k in s.hist.scheduled
    ensures k.pair.event in s.db.events
  {
    hide PartsInv, FinishedInv, LogInv, TasksInv, SchedulersInv, OutboxInv, RelayCountInv, RowsInv, TaskRowsInv,
      ResultsInv, TaskOutcomeInv, CoveredInv, StableInv, TargetsInv;
  }

  lemma {:induction false} FinishPreserves(s: State, pos: Pos)
    requires Inv(s) && pos in s.live.tasks && pos in s.kafka.log && pos.part < |s.kafka.parts|
    requires if s.live.tasks[pos].pc.Resolving?
             then s.kafka.log[pos].Poison? || EventOf(s.kafka.log[pos]) !in s.db.events
             else s.live.tasks[pos].index == |s.live.tasks[pos].targets|
    ensures Inv(StepFinish(s, pos))
  {
    hide PartsInv, FinishedInv, LogInv, TasksInv, HandOffInv, SchedulersInv, OutboxInv, RelayCountInv, RowsInv,
      TaskRowsInv, ResultsInv, TaskOutcomeInv, CoveredInv, StableInv, TargetsInv, RecordHandled, TaskOutcome, TaskShape,
      TaskRows, Covered, Finished, ToCommit;
    FinishParts(s, pos);
    FinishLog(s, pos);
    TaskFacts(s, pos);
    KeyIsScheduled(s, pos);
    if s.kafka.log[pos].Targeted? {
      ScheduledEvents(s, s.kafka.log[pos].key);
    }
    FinishedRecord(s, pos);
    FinishCovered(s, pos);
    RemoveTaskInv(s, pos);
  }

  lemma {:induction false} FailPreserves(s: State, pos: Pos)
    requires Inv(s)
    ensures Inv(s.(live := s.live.(tasks := s.live.tasks - {pos})))
  {
    RemoveTaskInv(s, pos);
  }

  lemma {:induction false} ArriveParts(s: State, c: Commit)
    requires PartsInv(s.kafka.parts, s.kafka.pending) && LogInv(s.kafka.log, s.kafka.parts, s.live.tasks)
    requires c in s.kafka.pending
    ensures c.part < |s.kafka.parts|
    ensures var parts' := s.kafka.parts[c.part := s.kafka.parts[c.part].(committed := c.position)];
            && PartsInv(parts', s.kafka.pending - {c}) && LogInv(s.kafka.log, parts', s.live.tasks)
            && (FinishedInv(s.kafka.parts, s.hist.finished) ==> FinishedInv(parts', s.hist.finished))
            && (forall x :: Covered(parts', x) ==> Covered(s.kafka.parts, x))
  {
  }

  lemma {:induction false} CommitArrivesPreserves(s: State, c: Commit)
    requires Inv(s) && c in s.kafka.pending && c.part < |s.kafka.parts|
    ensures Inv(StepArrive(s, c))
  {
    hide PartsInv, FinishedInv, LogInv, TasksInv, HandOffInv, SchedulersInv, OutboxInv, RelayCountInv, RowsInv,
      TaskRowsInv, ResultsInv, TaskOutcomeInv, CoveredInv, StableInv, TargetsInv;
    ArriveParts(s, c);
    CoveredShrinks(s.kafka.log, s.kafka.parts, s.kafka.parts[c.part := s.kafka.parts[c.part].(committed := c.position)],
                   s.hist.resolved, s.hist.scheduled, s.hist.acked, s.hist.dlqed, s.hist.dropped);
  }

  lemma {:induction false} CommitLostPreserves(s: State, c: Commit)
    requires Inv(s)
    ensures Inv(s.(kafka := s.kafka.(pending := s.kafka.pending - {c})))
  {
    hide FinishedInv, LogInv, TasksInv, HandOffInv, SchedulersInv, OutboxInv, RelayCountInv, RowsInv, TaskRowsInv,
      ResultsInv, TaskOutcomeInv, CoveredInv, StableInv, TargetsInv;
  }

  lemma {:induction false} RestartParts(s: State, p: nat)
    requires PartsInv(s.kafka.parts, s.kafka.pending) && LogInv(s.kafka.log, s.kafka.parts, s.live.tasks)
    requires p < |s.kafka.parts| && s.kafka.parts[p].committed >= 0
    ensures var s' := StepRestart(s, p);
            && PartsInv(s'.kafka.parts, s'.kafka.pending) && LogInv(s'.kafka.log, s'.kafka.parts, s'.live.tasks)
            && (FinishedInv(s.kafka.parts, s.hist.finished) ==> FinishedInv(s'.kafka.parts, s'.hist.finished))
            && (forall x :: Covered(s'.kafka.parts, x) ==> Covered(s.kafka.parts, x))
  {
    assert PartOk(s.kafka.parts[p]);
    var part' := StepRestart(s, p).kafka.parts[p];
    assert PartOk(part');
  }

  lemma {:induction false} RestartTasks(s: State, p: nat)
    requires Inv(s) && p < |s.kafka.parts| && s.kafka.parts[p].committed >= 0
    ensures var tasks' := StepRestart(s, p).live.tasks;
            && TasksInv(s.max, s.db.events, s.kafka.log, tasks')
            && TaskRowsInv(s.db.endpoints, s.hist.known, s.db.attempts, s.kafka.log, tasks')
            && TaskOutcomeInv(s.kafka.log, tasks', s.hist.resolved, s.hist.scheduled, s.hist.acked, s.hist.dlqed,
                              s.hist.dropped)
            && TargetsInv(s.db.endpoints, s.hist.disturbed, tasks')
  {
    hide PartsInv, FinishedInv, LogInv, HandOffInv, SchedulersInv, OutboxInv, RelayCountInv, RowsInv, ResultsInv,
      CoveredInv, StableInv, TaskShape, TaskRows, TaskOutcome;
  }

  lemma {:induction false} RestartPreserves(s: State, p: nat)
    requires Inv(s) && p < |s.kafka.parts| && s.kafka.parts[p].committed >= 0
    ensures Inv(StepRestart(s, p))
  {
    hide PartsInv, FinishedInv, LogInv, TasksInv, HandOffInv, SchedulersInv, OutboxInv, RelayCountInv, RowsInv,
      TaskRowsInv, ResultsInv, TaskOutcomeInv, CoveredInv, StableInv, TargetsInv, Covered;
    RestartParts(s, p);
    RestartTasks(s, p);
    CoveredShrinks(s.kafka.log, s.kafka.parts, StepRestart(s, p).kafka.parts, s.hist.resolved, s.hist.scheduled,
                   s.hist.acked, s.hist.dlqed, s.hist.dropped);
  }

  // ---------- the scheduler ----------

  lemma {:induction false} SetScheduler(s: State, schedulers: map<nat, Scheduler>)
    requires Inv(s) && SchedulersInv(s.kafka.log, schedulers, s.hist.scheduled)
    ensures Inv(s.(live := s.live.(schedulers := schedulers)))
  {
    hide PartsInv, FinishedInv, LogInv, TasksInv, HandOffInv, SchedulersInv, OutboxInv, RelayCountInv, RowsInv,
      TaskRowsInv, ResultsInv, TaskOutcomeInv, CoveredInv, StableInv, TargetsInv;
  }

  lemma {:induction false} SchedulerFacts(s: State)
    requires Inv(s)
    ensures SchedulersInv(s.kafka.log, s.live.schedulers, s.hist.scheduled) && s.redis <= s.hist.scheduled
  {
    hide PartsInv, FinishedInv, LogInv, TasksInv, SchedulersInv, OutboxInv, RelayCountInv, RowsInv, TaskRowsInv,
      ResultsInv, TaskOutcomeInv, CoveredInv, StableInv, TargetsInv;
  }

  lemma {:induction false} PollPreserves(s: State, c: nat, due: seq<Key>)
    requires Inv(s) && due != [] && forall k :: k in due ==> k in s.redis
    ensures Inv(s.(live := s.live.(schedulers := s.live.schedulers[c := Scheduler(due, false)])))
  {
    hide Inv;
    SchedulerFacts(s);
    SetScheduler(s, s.live.schedulers[c := Scheduler(due, false)]);
  }

  lemma {:induction false} RepublishPreserves(s: State, c: nat, p: nat)
    requires Inv(s) && c in s.live.schedulers && s.live.schedulers[c].due != [] && p < |s.kafka.parts|
    ensures Inv(StepRepublish(s, c, p))
  {
    hide Inv;
    SchedulerFacts(s);
    var m := Targeted(s.live.schedulers[c].due[0]);
    AppendInv(s, p, m);
    var s1 := Append(s, p, m);
    SchedulerFacts(s1);
    var schedulers := s.live.schedulers[c := s.live.schedulers[c].(published := true)];
    SetScheduler(s1, schedulers);
    assert StepRepublish(s, c, p) == s1.(live := s1.live.(schedulers := schedulers));
  }

  lemma {:induction false} CancelPreserves(s: State, c: nat)
    requires Inv(s) && c in s.live.schedulers && s.live.schedulers[c].due != [] && s.live.schedulers[c].published
    ensures Inv(StepCancelRepublished(s, c))
  {
    hide Inv;
    SchedulerFacts(s);
    var k := s.live.schedulers[c].due[0];
    UnscheduleInv(s, k);
    var s1 := s.(redis := s.redis - {k});
    var schedulers := StepCancelRepublished(s, c).live.schedulers;
    assert SchedulersInv(s.kafka.log, schedulers, s.hist.scheduled);
    SetScheduler(s1, schedulers);
    assert StepCancelRepublished(s, c) == s1.(live := s1.live.(schedulers := schedulers));
  }

  lemma {:induction false} SchedulerCrashPreserves(s: State, c: nat)
    requires Inv(s)
    ensures Inv(s.(live := s.live.(schedulers := s.live.schedulers - {c})))
  {
    hide Inv;
    SchedulerFacts(s);
    SetScheduler(s, s.live.schedulers - {c});
  }

  /** Targets can be listed. */
  lemma {:induction false} SomeOrder(xs: set<Uuid>) returns (order: seq<Uuid>)
    ensures Distinct(order) && Elements(order) == xs
  {
    if xs == {} {
      order := [];
    } else {
      var x := Pick(xs);
      var rest := SomeOrder(xs - {x});
      order := [x] + rest;
      assert forall y :: y in rest <==> y in Elements(rest);
      assert forall y :: y in order <==> y == x || y in rest;
      assert forall y :: y in Elements(order) <==> y in xs;
    }
  }
}
