/** When a pair can get both a success row and a DLQ row: the exact conditions on a
    reachable state, over all runs that do not remove its DLQ row. */
module BothRows {
  import opened Domain
  import opened Watermarks
  import opened Protocol
  import opened Frames
  import opened Invariants
  import opened DeliverySteps
  import opened PipelineSteps
  import opened Safety
  import opened Absorb
  import opened Deeds
  import opened SuccessLast
  import opened Recording
  import opened DeliveryWorker
  import opened WorkerRuns
  import opened WorkerLaws
  import opened Driving

  ghost predicate Both(s: State, q: Pair) {
    HasSuccess(s.db.attempts, q) && q in s.db.dlq
  }

  /** Some run that does not remove the pair's DLQ row leads to both rows. */
  ghost predicate CanGetBoth(s: State, q: Pair) {
    exists acts, t :: Leads(s, acts, t) && Keeping(acts, q) && Both(t, q)
  }

  /** Some attempt number below the limit has no row. */
  ghost predicate FreeNumber(s: State, q: Pair) {
    exists n: nat :: n < s.max && Key(q, n) !in s.db.attempts
  }

  /** The task can still end in the dead letter queue, whatever the pair's rows say. */
  ghost predicate Doomed(s: State, q: Pair, pos: Pos) {
    && Delivering(s, pos) && CurrentPair(s, pos) == q
    && match s.live.tasks[pos].pc
       case Posting => true
       case Burying => true
       case Inserting(o) =>
         || ((o.Response? || o.Unreadable?) && 400 <= o.code <= 499 && o.code != 429)
         || (!(o.Response? && 200 <= o.code <= 299) && CurrentKey(s, pos).attempt + 1 >= s.max)
       case _ => false
  }

  ghost predicate SomeDoomed(s: State, q: Pair) {
    exists pos :: Doomed(s, q, pos)
  }

  // ---------- constants of a run ----------

  lemma {:induction false} StepConstants(s: State, a: Action)
    requires Enabled(s, a)
    ensures Step(s, a).max == s.max && |Step(s, a).kafka.parts| == |s.kafka.parts|
    ensures s.db.events.Keys <= Step(s, a).db.events.Keys
  {
    hide TaskEnabled, StepTask, BrokerEnabled, StepBroker, KeyTaken, Locked, Distinct, Elements, SameRelay, SameResults,
      SameRetries, SameWorker;
    match a {
      case ByApi(x) =>
      case ByRelay(r, x) =>
      case ByScheduler(c, x) =>
      case ByTask(pos, x) => TaskFrame(s, pos, x);
      case ByBroker(x) => BrokerFrame(s, x);
    }
  }

  lemma {:induction false} RunConstants(s: State, acts: seq<Action>, t: State)
    requires Leads(s, acts, t)
    ensures t.max == s.max && |t.kafka.parts| == |s.kafka.parts| && s.db.events.Keys <= t.db.events.Keys
    decreases |acts|
  {
    hide Enabled, Step;
    if acts != [] {
      StepConstants(s, acts[0]);
      RunConstants(Step(s, acts[0]), acts[1..], t);
    }
  }

  /** A dead letter belongs to an event and an endpoint that are there. */
  ghost predicate DlqKnown(s: State) {
    forall q :: q in s.db.dlq ==> q.event in s.db.events && q.endpoint in s.db.endpoints
  }

  lemma {:induction false} StepKeepsDlqKnown(s: State, a: Action)
    requires Inv(s) && Enabled(s, a) && DlqKnown(s)
    ensures DlqKnown(Step(s, a))
  {
    hide Inv, RelayEnabled, SchedulerEnabled, TaskEnabled, BrokerEnabled, StepRelay, StepScheduler, StepTask,
      StepBroker, SameRelay, SameRetries, SameWorker, SameLog;
    StepConstants(s, a);
    match a {
      case ByApi(x) => hide KeyTaken;
      case ByRelay(r, x) => RelayFrame(s, r, x);
      case ByScheduler(c, x) => SchedulerFrame(s, c, x);
      case ByTask(pos, x) =>
        TaskFrame(s, pos, x);
        TaskDlq(s, pos, x);
      case ByBroker(x) => BrokerFrame(s, x);
    }
  }

  lemma {:induction false} TaskDlq(s: State, pos: Pos, a: TaskStep)
    requires Inv(s) && TaskEnabled(s, pos, a)
    ensures forall q :: q in StepTask(s, pos, a).db.dlq && q !in s.db.dlq ==>
              q.event in s.db.events && q.endpoint in s.db.endpoints
  {
    hide Inv, HasSuccess, TargetSet, DroppedBy, Distinct, Elements, StatusOf, GivesUp, InsertRow, Finished, ToCommit;
    if a.Bury? {
      CurrentKeyFacts(s, pos);
    }
  }

  lemma {:induction false} RunKeepsDlqKnown(s: State, acts: seq<Action>, t: State)
    requires Inv(s) && Leads(s, acts, t) && DlqKnown(s)
    ensures DlqKnown(t)
    decreases |acts|
  {
    hide Inv, Enabled, Step, DlqKnown;
    if acts != [] {
      StepPreserves(s, acts[0]);
      StepKeepsDlqKnown(s, acts[0]);
      RunKeepsDlqKnown(Step(s, acts[0]), acts[1..], t);
    }
  }

  lemma {:induction false} ReachableFacts(s: State)
    requires Reachable(s)
    ensures Inv(s) && DlqKnown(s) && |s.kafka.parts| >= 1
  {
    hide Inv, Leads;
    var i, acts :| Init(i) && Leads(i, acts, s);
    InitInv(i);
    LeadsInv(i, acts, s);
    RunConstants(i, acts, s);
    RunKeepsDlqKnown(i, acts, s);
  }

  lemma {:induction false} RowFacts(s: State)
    requires Inv(s)
    ensures forall k :: k in s.db.attempts ==> k.attempt < s.max && k.pair.endpoint in s.db.endpoints
  {
    hide PartsInv, FinishedInv, LogInv, TasksInv, HandOffInv, SchedulersInv, OutboxInv, RelayCountInv, TaskRowsInv,
      ResultsInv, TaskOutcomeInv, CoveredInv, StableInv, TargetsInv, RowsBelow;
  }

  // ---------- without a free number there is never a success row ----------

  lemma {:induction false} SuccessNeedsFreeNumber(s: State, acts: seq<Action>, t: State, q: Pair)
    requires Inv(s) && Leads(s, acts, t) && Keeping(acts, q)
    requires !HasSuccess(s.db.attempts, q) && HasSuccess(t.db.attempts, q)
    ensures FreeNumber(s, q)
  {
    assert ByApi(DeleteEndpoint(q.endpoint)) !in acts by {
      assert Unburies(ByApi(DeleteEndpoint(q.endpoint)), q);
    }
    hide Inv, Leads, EverRecords;
    LeadsInv(s, acts, t);
    RunRecords(s, acts, t, q);
    RunConstants(s, acts, t);
    RowFacts(t);
    var n: nat :| Key(q, n) in t.db.attempts && t.db.attempts[Key(q, n)] == Success;
    assert Key(q, n) !in s.db.attempts;
  }

  // ---------- with a free number there is a run to a success row ----------

  lemma {:induction false} DeliverFails(fx: Effects, q: Pair, i: nat, max: nat)
    requires !HasSuccess(fx.attempts, q) && i + 1 < max
    ensures var gx := Deliver(fx, Key(q, i), Says(q.endpoint, Response(500)), max);
            && !HasSuccess(gx.attempts, q) && Key(q, i + 1) in gx.redis && gx.dlq == fx.dlq
            && gx.redis == fx.redis + {Key(q, i + 1)}
            && forall n: nat :: n != i && Key(q, n) !in fx.attempts ==> Key(q, n) !in gx.attempts
  {
    assert Says(q.endpoint, Response(500)).Answer(q.endpoint) == Response(500);
  }

  lemma {:induction false} DeliverSucceeds(fx: Effects, q: Pair, n: nat, max: nat)
    requires !HasSuccess(fx.attempts, q) && Key(q, n) !in fx.attempts
    ensures var gx := Deliver(fx, Key(q, n), Says(q.endpoint, Response(200)), max);
            HasSuccess(gx.attempts, q) && gx.dlq == fx.dlq
  {
    assert Says(q.endpoint, Response(200)).Answer(q.endpoint) == Response(200);
    assert Deliver(fx, Key(q, n), Says(q.endpoint, Response(200)), max).attempts[Key(q, n)] == Success;
  }

  /** Attempt `i` waits in the store, and number `n` is still free. */
  ghost predicate Trying(s: State, q: Pair, i: nat, n: nat) {
    && Inv(s) && |s.kafka.parts| >= 1 && i <= n < s.max
    && q.endpoint in s.db.endpoints && s.db.endpoints[q.endpoint].enabled
    && Key(q, i) in s.redis && Key(q, n) !in s.db.attempts && !HasSuccess(s.db.attempts, q)
  }

  ghost predicate NoCall(acts: seq<Action>) {
    forall a :: a in acts ==> !a.ByApi?
  }

  lemma {:induction false} TameMakesNoCall(acts: seq<Action>, w: World)
    requires Tame(acts, w)
    ensures NoCall(acts)
  {
  }

  /** Attempts before the free number fail, that one succeeds. */
  lemma {:induction false} TryUpTo(s: State, q: Pair, i: nat, n: nat) returns (acts: seq<Action>, t: State)
    requires Trying(s, q, i, n)
    ensures Leads(s, acts, t) && NoCall(acts) && Inv(t) && Onwards(s, t)
    ensures HasSuccess(t.db.attempts, q) && s.db.dlq <= t.db.dlq
    decreases n - i
  {
    hide Leads, Inv, Deliver, HasSuccess;
    var w := Says(q.endpoint, Response(if i == n then 200 else 500));
    var a, u, pos := Retry(s, Key(q, i), 0, w);
    TameMakesNoCall(a, w);
    var fx := EffectsOf(s).(redis := s.redis - {Key(q, i)});
    if i == n {
      DeliverSucceeds(fx, q, n, s.max);
      acts, t := a, u;
    } else {
      DeliverFails(fx, q, i, s.max);
      var b;
      b, t := TryUpTo(u, q, i + 1, n);
      LeadsThrough(s, a, u, b, t);
      acts := a + b;
      OnwardsTwice(s, u, t);
    }
  }

  /** The endpoint is a target of the event, whose new record nobody has fetched; nothing
      else has changed. */
  ghost predicate IsAnnounced(s: State, t: State, q: Pair, pos: Pos) {
    && pos !in s.kafka.log && t.kafka.log == s.kafka.log[pos := Fanout(q.event)]
    && pos.part < |t.kafka.parts| && pos.offset >= t.kafka.parts[pos.part].next
    && EffectsOf(t) == EffectsOf(s) && t.max == s.max && |t.kafka.parts| == |s.kafka.parts| && t.live == s.live
    && t.db.events == s.db.events && q.event in t.db.events
    && q.endpoint in t.db.endpoints && t.db.endpoints[q.endpoint].enabled
    && t.db.events[q.event].eventType in t.db.endpoints[q.endpoint].eventTypes
  }

  /** Enable the endpoint for the event and publish the event. */
  lemma {:induction false} Announced(s: State, q: Pair, p: nat) returns (acts: seq<Action>, t: State, pos: Pos)
    requires Inv(s) && p < |s.kafka.parts| && q.event in s.db.events && q.endpoint in s.db.endpoints
    ensures Leads(s, acts, t) && Keeping(acts, q) && Inv(t) && IsAnnounced(s, t, q, pos)
  {
    hide Leads, Inv;
    var x := ByApi(SetEndpoint(q.endpoint, Endpoint(true, {s.db.events[q.event].eventType})));
    var y := ByApi(ApiStep.Publish(p, q.event));
    NoAction(s);
    LeadsOn(s, [], s, x);
    var u := Step(s, x);
    LeadsOn(s, [] + [x], u, y);
    t := Step(u, y);
    acts := [] + [x] + [y];
    LeadsInv(s, acts, t);
    EndIsNext(s, p);
    pos := Pos(p, s.kafka.parts[p].end);
  }

  lemma {:induction false} TargetsInclude(s: State, q: Pair)
    requires q.event in s.db.events && q.endpoint in s.db.endpoints
    requires Matches(s.db.endpoints[q.endpoint], s.db.events[q.event])
    ensures q.endpoint in TargetSet(s, Fanout(q.event))
  {
  }

  lemma {:induction false} SameForMeans(fx: Effects, gx: Effects, q: Pair)
    requires SameFor(fx, gx, q)
    ensures HasSuccess(fx.attempts, q) <==> HasSuccess(gx.attempts, q)
    ensures q in fx.dlq <==> q in gx.dlq
    ensures forall n: nat :: Key(q, n) in fx.attempts <==> Key(q, n) in gx.attempts
    ensures forall n: nat :: Key(q, n) in fx.redis <==> Key(q, n) in gx.redis
  {
    SuccessIsDetermined(fx, gx, q);
  }

  /** Tasks and records are as they were; there may be more of them. */
  ghost predicate StillRunning(s: State, t: State) {
    && (forall x :: x in s.live.tasks ==> x in t.live.tasks && t.live.tasks[x] == s.live.tasks[x])
    && (forall x :: x in s.kafka.log ==> x in t.kafka.log && t.kafka.log[x] == s.kafka.log[x])
  }

  /** From any state in which the event and the endpoint exist: if a number is free, some
      run without removal of a DLQ row leads to a success row; running tasks go on as
      they are. */
  lemma {:induction false} SuccessRun(s: State, q: Pair, n: nat) returns (acts: seq<Action>, t: State)
    requires Inv(s) && |s.kafka.parts| >= 1 && q.event in s.db.events && q.endpoint in s.db.endpoints
    requires !HasSuccess(s.db.attempts, q) && n < s.max && Key(q, n) !in s.db.attempts
    ensures Leads(s, acts, t) && Keeping(acts, q) && Inv(t)
    ensures HasSuccess(t.db.attempts, q) && (q in s.db.dlq ==> q in t.db.dlq)
    ensures q.endpoint in t.db.endpoints && t.max == s.max
    ensures StillRunning(s, t)
  {
    hide Leads, Inv, Deliver, DeliverAll, HasSuccess, SameFor, Matches, TargetSet, Distinct;
    var a, u, pos := Announced(s, q, 0);
    var w := Says(q.endpoint, Response(if n == 0 then 200 else 500));
    var b, v, targets := Process(u, pos, w);
    TargetsInclude(u, q);
    assert q.endpoint in targets <==> q.endpoint in Elements(targets);
    RecordPairByPair(EffectsOf(u), q.event, targets, 0, w, u.max, q);
    SameForMeans(Deliver(EffectsOf(u), Key(q, 0), w, u.max), EffectsOf(v), q);
    TameMakesNoCall(b, w);
    LeadsThrough(s, a, u, b, v);
    acts, t := a + b, v;
    if n == 0 {
      DeliverSucceeds(EffectsOf(u), q, 0, u.max);
    } else {
      DeliverFails(EffectsOf(u), q, 0, u.max);
      var c;
      c, t := TryUpTo(v, q, 1, n);
      LeadsThrough(s, acts, v, c, t);
      acts := acts + c;
    }
  }

  // ---------- a doomed task can bury the pair ----------

  lemma {:induction false} AtNow(s: State, pos: Pos, w: World)
    requires pos in s.live.tasks
    ensures At(s, [], s, pos, w, s.live.tasks[pos].pc, EffectsOf(s))
  {
    hide Leads;
    StartStage(s, pos, w);
    assert s.live.tasks[pos].(pc := s.live.tasks[pos].pc) == s.live.tasks[pos];
  }

  lemma {:induction false} Behind(s: State, acts: seq<Action>, t: State, pos: Pos, w: World, pc: Pc, fx: Effects)
    requires pos in s.live.tasks && At(s, acts, t, pos, w, pc, fx)
    ensures Leads(s, acts, t) && NoCall(acts) && t.db.dlq == fx.dlq && t.db.attempts == fx.attempts
  {
    hide Leads;
  }

  /** It is answered with a 4xx if it has not been answered yet, and dead-letters. */
  lemma {:induction false} BuryRun(s: State, q: Pair, pos: Pos) returns (acts: seq<Action>, t: State)
    requires Doomed(s, q, pos) && q.endpoint in s.db.endpoints
    ensures Leads(s, acts, t) && NoCall(acts)
    ensures q in t.db.dlq && (HasSuccess(s.db.attempts, q) ==> HasSuccess(t.db.attempts, q))
  {
    hide Leads, At, StepTask, TaskEnabled, HasSuccess, InsertRow;
    var w, k, fx := Says(q.endpoint, Response(400)), CurrentKey(s, pos), EffectsOf(s);
    AtNow(s, pos, w);
    var o := if s.live.tasks[pos].pc.Inserting? then s.live.tasks[pos].pc.outcome else Response(400);
    acts, t := [], s;
    if s.live.tasks[pos].pc.Posting? {
      assert InWorld(Post(o), w) by {
        assert w.http[q.endpoint] == o;
      }
      PostStage(s, acts, t, pos, w, fx, o);
      acts, t := acts + [ByTask(pos, Post(o))], StepTask(t, pos, Post(o));
      fx := Posted(fx, k, o);
    }
    if !s.live.tasks[pos].pc.Burying? {
      InsertStage(s, acts, t, pos, w, fx, o);
      acts, t := acts + [ByTask(pos, Insert)], StepTask(t, pos, Insert);
      fx := Inserted(fx, k, o);
    }
    BuryStage(s, acts, t, pos, w, fx);
    acts, t := acts + [ByTask(pos, Bury)], StepTask(t, pos, Bury);
    Behind(s, acts, t, pos, w, Unscheduling, fx.(dlq := fx.dlq + {q}));
    RowsOnlyAdded(s.db.attempts, k, o, q);
  }

  lemma {:induction false} RowsOnlyAdded(attempts: map<Key, Status>, k: Key, o: Outcome, q: Pair)
    ensures HasSuccess(attempts, q) ==> HasSuccess(InsertRow(attempts, k, StatusOf(o)), q)
  {
  }

  // ---------- without a doomed task a success row stays alone ----------

  ghost predicate Spared(s: State, q: Pair) {
    HasSuccess(s.db.attempts, q) && q !in s.db.dlq && !SomeDoomed(s, q)
  }

  /** The tasks are the same, or fresh, or fewer. */
  ghost predicate TasksStay(s: State, t: State) {
    t.max == s.max && forall pos :: pos in t.live.tasks ==> SameTask(s, t, pos) || t.live.tasks[pos].pc.Resolving?
  }

  lemma {:induction false} OthersStay(s: State, a: Action)
    requires Inv(s) && Enabled(s, a) && !a.ByTask?
    ensures TasksStay(s, Step(s, a))
  {
    hide Inv, KeyTaken, Locked, Distinct, Elements, Started;
    LogsOfTasks(s);
  }

  lemma {:induction false} OthersSpare(s: State, a: Action, q: Pair)
    requires Inv(s) && Enabled(s, a) && !a.ByTask? && !Unburies(a, q) && Spared(s, q)
    ensures Spared(Step(s, a), q)
  {
    assert a != ByApi(DeleteEndpoint(q.endpoint));
    hide Inv, Shrinks, HasSuccess, ApiEnabled, RelayEnabled, SchedulerEnabled, BrokerEnabled, StepApi, StepRelay,
      StepScheduler, StepBroker, TasksStay;
    OthersStay(s, a);
    StepAbsorbed(s, a, q);
    if pos :| Doomed(Step(s, a), q, pos) {
      StaysDoomed(s, Step(s, a), q, pos);
    }
  }

  lemma {:induction false} StaysDoomed(s: State, t: State, q: Pair, pos: Pos)
    requires TasksStay(s, t) && Doomed(t, q, pos)
    ensures Doomed(s, q, pos)
  {
  }

  lemma {:induction false} OtherTasksStay(s: State, pos: Pos, a: TaskStep, q: Pair, x: Pos)
    requires TaskEnabled(s, pos, a) && x != pos && Doomed(StepTask(s, pos, a), q, x)
    ensures Doomed(s, q, x)
  {
    hide HasSuccess, TargetSet, DroppedBy, Distinct, Elements, StatusOf, GivesUp, InsertRow, Finished, ToCommit;
  }

  /** With the success row there no check lets a delivery through, and no delivery that
      is through can give up. */
  lemma {:induction false} OwnTaskSpares(s: State, pos: Pos, a: TaskStep, q: Pair)
    requires TaskEnabled(s, pos, a) && HasSuccess(s.db.attempts, q) && !Doomed(s, q, pos)
    ensures !Doomed(StepTask(s, pos, a), q, pos)
  {
    hide HasSuccess, TargetSet, DroppedBy, Distinct, Elements, InsertRow, Finished, ToCommit;
    match a {
      case Resolve(targets) =>
      case Check =>
      case Post(o) =>
      case Insert =>
      case Schedule =>
      case Bury =>
      case Unschedule(ok) =>
      case Finish =>
      case Fail =>
    }
  }

  lemma {:induction false} OnlyDoomedBury(s: State, pos: Pos, a: TaskStep, q: Pair)
    requires TaskEnabled(s, pos, a) && q !in s.db.dlq && q in StepTask(s, pos, a).db.dlq
    ensures Doomed(s, q, pos)
  {
    hide HasSuccess, TargetSet, DroppedBy, Distinct, Elements, StatusOf, GivesUp, InsertRow, Finished, ToCommit;
  }

  lemma {:induction false} TaskSpares(s: State, pos: Pos, a: TaskStep, q: Pair)
    requires Inv(s) && TaskEnabled(s, pos, a) && Spared(s, q)
    ensures Spared(StepTask(s, pos, a), q)
  {
    hide Inv, HasSuccess, Doomed, TaskEnabled, StepTask, Quiet, Shrinks, RowsStay, PastCheck;
    assert !Doomed(s, q, pos);
    TaskQuiet(s, pos, a, q);
    var t := StepTask(s, pos, a);
    SuccessStays(s, t, q);
    if q in t.db.dlq {
      OnlyDoomedBury(s, pos, a, q);
    }
    forall x ensures !Doomed(t, q, x) {
      if x == pos {
        OwnTaskSpares(s, pos, a, q);
      } else if Doomed(t, q, x) {
        OtherTasksStay(s, pos, a, q, x);
      }
    }
  }

  lemma {:induction false} RunSpares(s: State, acts: seq<Action>, t: State, q: Pair)
    requires Inv(s) && Leads(s, acts, t) && Keeping(acts, q) && Spared(s, q)
    ensures Spared(t, q)
    decreases |acts|
  {
    hide Inv, Enabled, Step, Spared, Unburies;
    if acts != [] {
      StepPreserves(s, acts[0]);
      if acts[0].ByTask? {
        TaskSparesStep(s, acts[0], q);
      } else {
        OthersSpare(s, acts[0], q);
      }
      RunSpares(Step(s, acts[0]), acts[1..], t, q);
    }
  }

  lemma {:induction false} TaskSparesStep(s: State, a: Action, q: Pair)
    requires Inv(s) && Enabled(s, a) && a.ByTask? && Spared(s, q)
    ensures Spared(Step(s, a), q)
  {
    hide Inv, Spared, TaskEnabled, StepTask;
    TaskSpares(s, a.pos, a.taskStep, q);
  }

  // ---------- the exact conditions ----------

  /** A dead letter can still get a success row exactly if an attempt number is free. */
  lemma {:induction false} BothFromDeadLetter(s: State, q: Pair)
    requires Reachable(s) && q in s.db.dlq && !HasSuccess(s.db.attempts, q)
    ensures CanGetBoth(s, q) <==> FreeNumber(s, q)
  {
    hide Inv, Leads, HasSuccess, Reachable, Keeping;
    ReachableFacts(s);
    if CanGetBoth(s, q) {
      var acts, t :| Leads(s, acts, t) && Keeping(acts, q) && Both(t, q);
      SuccessNeedsFreeNumber(s, acts, t, q);
    }
    if n: nat :| n < s.max && Key(q, n) !in s.db.attempts {
      var acts, t := SuccessRun(s, q, n);
      assert Both(t, q);
    }
  }

  /** An answered pair can still be dead-lettered exactly if a task for it is past the
      check and not bound to leave it alone. */
  lemma {:induction false} BothFromSuccess(s: State, q: Pair)
    requires Reachable(s) && HasSuccess(s.db.attempts, q) && q !in s.db.dlq
    ensures CanGetBoth(s, q) <==> SomeDoomed(s, q)
  {
    assert q.endpoint in s.db.endpoints by {
      ReachableFacts(s);
      RowFacts(s);
      var n: nat :| Key(q, n) in s.db.attempts && s.db.attempts[Key(q, n)] == Success;
    }
    hide Inv, Leads, HasSuccess, Reachable, Doomed;
    ReachableFacts(s);
    if !SomeDoomed(s, q) && CanGetBoth(s, q) {
      var acts, t :| Leads(s, acts, t) && Keeping(acts, q) && Both(t, q);
      RunSpares(s, acts, t, q);
      assert false;
    }
    if pos :| Doomed(s, q, pos) {
      var acts, t := BuryRun(s, q, pos);
      assert Keeping(acts, q) && Both(t, q);
    }
  }

  // ---------- from neither row ----------

  /** The targets can be listed with this one first. */
  lemma {:induction false} OrderWith(targets: set<Uuid>, ep: Uuid) returns (order: seq<Uuid>)
    requires ep in targets
    ensures Distinct(order) && Elements(order) == targets && |order| > 0 && order[0] == ep
  {
    var rest := SomeOrder(targets - {ep});
    order := [ep] + rest;
    assert forall x :: x in rest <==> x in Elements(rest);
    assert forall x :: x in Elements(order) <==> x == ep || x in Elements(rest);
    forall i | 1 <= i < |order| ensures order[i] != ep {
      assert order[i] == rest[i - 1] && rest[i - 1] in rest;
    }
  }

  /** A task can be brought to its POST for the pair. */
  lemma {:induction false} PostingRun(s: State, q: Pair) returns (acts: seq<Action>, t: State, pos: Pos)
    requires Inv(s) && |s.kafka.parts| >= 1 && q.event in s.db.events && q.endpoint in s.db.endpoints
    requires !HasSuccess(s.db.attempts, q)
    ensures Leads(s, acts, t) && Keeping(acts, q) && Inv(t) && Doomed(t, q, pos)
    ensures EffectsOf(t) == EffectsOf(s) && t.max == s.max && |t.kafka.parts| == |s.kafka.parts|
    ensures q.event in t.db.events && q.endpoint in t.db.endpoints && t.live.tasks[pos].pc == Posting
  {
    hide Leads, Inv, HasSuccess, Matches, TargetSet, Distinct, Elements;
    var a, u;
    a, u, pos := Announced(s, q, 0);
    TasksAreFetched(u, pos.part);
    var b, v := FetchTo(u, pos.part, pos.offset);
    LeadsThrough(s, a, u, b, v);
    TargetsInclude(u, q);
    SameTargets(u, v, Fanout(q.event));
    assert v.kafka.log[pos] == Fanout(q.event);
    var order := OrderWith(TargetSet(v, Fanout(q.event)), q.endpoint);
    var x := StepTask(v, pos, Resolve(order));
    LeadsOn(s, a + b, v, ByTask(pos, Resolve(order)));
    t := StepTask(x, pos, Check);
    LeadsOn(s, a + b + [ByTask(pos, Resolve(order))], x, ByTask(pos, Check));
    acts := a + b + [ByTask(pos, Resolve(order))] + [ByTask(pos, Check)];
    LeadsInv(s, acts, t);
  }

  /** A pair with neither row can get both exactly if an attempt number is free. */
  lemma {:induction false} BothFromNothing(s: State, q: Pair)
    requires Reachable(s) && q !in s.db.dlq && !HasSuccess(s.db.attempts, q)
    requires q.event in s.db.events && q.endpoint in s.db.endpoints
    ensures CanGetBoth(s, q) <==> FreeNumber(s, q)
  {
    hide Inv, Leads, HasSuccess, Reachable, Keeping;
    ReachableFacts(s);
    if CanGetBoth(s, q) {
      var acts, t :| Leads(s, acts, t) && Keeping(acts, q) && Both(t, q);
      SuccessNeedsFreeNumber(s, acts, t, q);
    }
    if n: nat :| n < s.max && Key(q, n) !in s.db.attempts {
      var a, u, pos := PostingRun(s, q);
      var b, v := SuccessRun(u, q, n);
      var c, t := BuryRun(v, q, pos);
      LeadsThrough(s, a, u, b, v);
      LeadsThrough(s, a + b, v, c, t);
      KeepingTogether(a, b, c, q);
      assert Both(t, q);
    }
  }

  lemma {:induction false} KeepingTogether(a: seq<Action>, b: seq<Action>, c: seq<Action>, q: Pair)
    requires Keeping(a, q) && Keeping(b, q) && NoCall(c)
    ensures Keeping(a + b + c, q)
  {
  }

  /** All cases together: from a reachable state some run that does not remove the DLQ
      row leads to both rows exactly if there is a success row or a number for one, and
      a DLQ row, a task bound for one, or no success row to stop the next delivery. */
  lemma {:induction false} BothIff(s: State, q: Pair)
    requires Reachable(s) && q.event in s.db.events && q.endpoint in s.db.endpoints
    ensures CanGetBoth(s, q) <==>
              && (HasSuccess(s.db.attempts, q) || FreeNumber(s, q))
              && (!HasSuccess(s.db.attempts, q) || q in s.db.dlq || SomeDoomed(s, q))
  {
    hide HasSuccess, Reachable, SomeDoomed, FreeNumber;
    if HasSuccess(s.db.attempts, q) && q in s.db.dlq {
      NoAction(s);
      assert Leads(s, [], s) && Keeping([], q) && Both(s, q);
    } else if HasSuccess(s.db.attempts, q) {
      BothFromSuccess(s, q);
    } else if q in s.db.dlq {
      BothFromDeadLetter(s, q);
    } else {
      BothFromNothing(s, q);
    }
  }
}
