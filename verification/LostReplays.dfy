/** The converse of the service of replays: if the state is not calm for a pair that has
    nothing else under way, some run loses the replay. */
module LostReplays {
  import opened Domain
  import opened Watermarks
  import opened Protocol
  import opened Frames
  import opened Invariants
  import opened DeliverySteps
  import opened PipelineSteps
  import opened Safety
  import opened Deeds
  import opened DeliveryWorker
  import opened WorkerRuns
  import opened WorkerLaws
  import opened Driving
  import opened Obligations
  import opened BothRows

  // ---------- runs that serve nobody ----------

  ghost predicate NoAnswer(acts: seq<Action>) {
    forall a :: a in acts ==> (a.ByTask? && a.taskStep.Post? ==> StatusOf(a.taskStep.outcome) != Success)
  }

  lemma {:induction false} NoAnswerAcknowledgesNobody(s: State, acts: seq<Action>, q: Pair)
    requires NoAnswer(acts)
    ensures !Ever(s, acts, q, Acknowledges)
    decreases |acts|
  {
    hide Enabled, Step;
    if acts != [] && Enabled(s, acts[0]) {
      NoAnswerAcknowledgesNobody(Step(s, acts[0]), acts[1..], q);
    }
  }

  lemma {:induction false} FailingWorld(acts: seq<Action>, ep: Uuid, code: nat)
    requires Tame(acts, Says(ep, Response(code))) && !(200 <= code < 300)
    ensures NoAnswer(acts) && NoCall(acts)
  {
    var http := Says(ep, Response(code)).http;
    forall o | o in http.Values ensures o == Response(code) {
      var x :| x in http && http[x] == o;
    }
  }

  /** The endpoint is a target of the event. */
  ghost predicate IsTargetOf(s: State, q: Pair) {
    && q.event in s.db.events && q.endpoint in s.db.endpoints && s.db.endpoints[q.endpoint].enabled
    && s.db.events[q.event].eventType in s.db.endpoints[q.endpoint].eventTypes
  }

  lemma {:induction false} StepKeepsTarget(s: State, a: Action, q: Pair)
    requires Enabled(s, a) && !a.ByApi? && IsTargetOf(s, q)
    ensures IsTargetOf(Step(s, a), q) && !Does(s, a, q, Drops)
  {
    hide RelayEnabled, SchedulerEnabled, TaskEnabled, BrokerEnabled, StepRelay, StepScheduler, StepTask, StepBroker,
      SameWorker, SameRelay, SameResults, SameRetries, SameLog;
    match a {
      case ByRelay(r, x) => RelayFrame(s, r, x);
      case ByScheduler(c, x) => SchedulerFrame(s, c, x);
      case ByTask(pos, x) => TaskFrame(s, pos, x);
      case ByBroker(x) => BrokerFrame(s, x);
    }
  }

  lemma {:induction false} TargetIsNotDropped(s: State, acts: seq<Action>, q: Pair)
    requires NoCall(acts) && IsTargetOf(s, q)
    ensures !Ever(s, acts, q, Drops)
    decreases |acts|
  {
    hide Enabled, Step, Does, IsTargetOf;
    if acts != [] && Enabled(s, acts[0]) {
      StepKeepsTarget(s, acts[0], q);
      TargetIsNotDropped(Step(s, acts[0]), acts[1..], q);
    }
  }

  // ---------- failing deliveries ----------

  /** Attempt `i` waits in the store as the pair's only retry; all records about the pair
      but those in `open` are done with; there is no verdict. */
  ghost predicate Falling(s: State, q: Pair, i: nat, open: set<Pos>) {
    && Inv(s) && |s.kafka.parts| >= 1 && IsTargetOf(s, q)
    && !HasSuccess(s.db.attempts, q) && q !in s.db.dlq
    && (forall n: nat :: Key(q, n) in s.redis <==> n == i)
    && (forall pos :: pos in s.kafka.log && About(s.kafka.log[pos], q) ==>
          Covered(s.kafka.parts, pos) || pos in open)
  }

  /** The attempts fail one after the other up to the given number. */
  lemma {:induction false} FallTo(s: State, q: Pair, i: nat, n: nat, open: set<Pos>)
    returns (acts: seq<Action>, t: State)
    requires Falling(s, q, i, open) && i <= n < s.max
    ensures Leads(s, acts, t) && NoAnswer(acts) && NoCall(acts) && Onwards(s, t) && Falling(t, q, n, open)
    decreases n - i
  {
    hide Leads, Inv, Deliver, HasSuccess, Covered, Matches;
    if i == n {
      NoAction(s);
      acts, t := [], s;
    } else {
      var w := Says(q.endpoint, Response(500));
      assert s.db.endpoints[q.endpoint].enabled by {
        TargetIsEnabled(s, q);
      }
      var a, u, pos := Retry(s, Key(q, i), 0, w);
      FailingWorld(a, q.endpoint, 500);
      DeliverFails(EffectsOf(s).(redis := s.redis - {Key(q, i)}), q, i, s.max);
      assert Falling(u, q, i + 1, open);
      var b;
      b, t := FallTo(u, q, i + 1, n, open);
      LeadsThrough(s, a, u, b, t);
      OnwardsTwice(s, u, t);
      acts := a + b;
    }
  }

  lemma {:induction false} TargetIsEnabled(s: State, q: Pair)
    requires IsTargetOf(s, q)
    ensures s.db.endpoints[q.endpoint].enabled
  {
  }

  /** The replay itself fails: attempt 1 waits in the store. */
  lemma {:induction false} ReplayFails(s: State, q: Pair, pos: Pos, open: set<Pos>)
    returns (acts: seq<Action>, t: State)
    requires Inv(s) && |s.kafka.parts| >= 1 && IsTargetOf(s, q) && 1 < s.max
    requires !HasSuccess(s.db.attempts, q) && q !in s.db.dlq && forall n: nat :: Key(q, n) !in s.redis
    requires pos in s.kafka.log && s.kafka.log[pos] == Fanout(q.event)
    requires pos.part < |s.kafka.parts| && pos.offset >= s.kafka.parts[pos.part].next
    requires forall x :: x in s.kafka.log && About(s.kafka.log[x], q) ==>
               Covered(s.kafka.parts, x) || x in open || x == pos
    ensures Leads(s, acts, t) && NoAnswer(acts) && NoCall(acts) && Onwards(s, t) && Falling(t, q, 1, open)
  {
    hide Leads, Inv, Deliver, DeliverAll, HasSuccess, SameFor, Matches, TargetSet, Distinct, Covered;
    var w := Says(q.endpoint, Response(500));
    var targets;
    acts, t, targets := Process(s, pos, w);
    FailingWorld(acts, q.endpoint, 500);
    TargetsInclude(s, q);
    assert q.endpoint in targets <==> q.endpoint in Elements(targets);
    RecordPairByPair(EffectsOf(s), q.event, targets, 0, w, s.max, q);
    SameForMeans(Deliver(EffectsOf(s), Key(q, 0), w, s.max), EffectsOf(t), q);
    DeliverFails(EffectsOf(s), q, 0, s.max);
  }

  // ---------- the cancel that comes too late ----------

  /** The record is done with and the retry entry is gone. */
  ghost predicate HasEnded(s: State, t: State, pos: Pos, k: Key) {
    && t.db == s.db && t.redis == s.redis - {k} && t.max == s.max && t.kafka.log == s.kafka.log
    && (forall x :: Covered(t.kafka.parts, x) <==> Covered(s.kafka.parts, x) || x == pos)
  }

  /** A DLQ handler of a retry cancels, and its record is done with. */
  lemma {:induction false} HandlerEnds(s: State, q: Pair, pos: Pos, n: nat) returns (acts: seq<Action>, t: State)
    requires Inv(s) && pos in s.live.tasks && pos in s.kafka.log && s.kafka.log[pos] == Targeted(Key(q, n))
    requires Cancelling(s.kafka.log[pos], s.live.tasks[pos], q)
    ensures Leads(s, acts, t) && NoAnswer(acts) && NoCall(acts) && Inv(t)
    ensures HasEnded(s, t, pos, Key(q, n))
  {
    hide Inv, Leads, Finished, ToCommit, TaskOutcome, TaskRows;
    TaskFacts(s, pos);
    LogsOfTasks(s);
    LastTarget(s.live.tasks[pos], q.endpoint);
    TaskIsInPart(s, pos);
    var x, y := ByTask(pos, Unschedule(true)), ByTask(pos, Finish);
    NoAction(s);
    LeadsOn(s, [], s, x);
    var u := StepUnschedule(s, pos, true);
    LeadsOn(s, [] + [x], u, y);
    t := StepFinish(u, pos);
    acts := [] + [x] + [y];
    LeadsInv(s, acts, t);
  }

  lemma {:induction false} LastTarget(t: Task, ep: Uuid)
    requires Distinct(t.targets) && t.index < |t.targets| && forall x :: x in t.targets ==> x == ep
    ensures t.index + 1 == |t.targets|
  {
    forall i | 0 <= i < |t.targets| ensures t.targets[i] == ep {
      assert t.targets[i] in t.targets;
    }
    if |t.targets| > 1 {
      TwiceIsNotDistinct(t.targets, ep);
      assert false;
    }
  }

  lemma {:induction false} TaskIsInPart(s: State, pos: Pos)
    requires Inv(s) && pos in s.live.tasks
    ensures pos.part < |s.kafka.parts| && !Covered(s.kafka.parts, pos)
    ensures pos.offset < s.kafka.parts[pos.part].next
  {
    hide FinishedInv, TasksInv, HandOffInv, SchedulersInv, OutboxInv, RelayCountInv, RowsInv, TaskRowsInv, ResultsInv,
      TaskOutcomeInv, CoveredInv, StableInv, TargetsInv;
    assert PartOk(s.kafka.parts[pos.part]);
  }

  // ---------- exactly when a replay is served ----------

  /** `pos0` is a replay nobody has fetched; the pair has no verdict and no retry; every
      other record about it is done with, unless its DLQ handler is about to cancel the
      retry entry of `pos1`. */
  ghost predicate Lonely(s: State, q: Pair, pos0: Pos, pos1: Pos) {
    && Reachable(s) && q.endpoint in s.db.endpoints
    && q !in s.db.dlq && !HasSuccess(s.db.attempts, q) && (forall n: nat :: Key(q, n) !in s.redis)
    && pos0 in s.kafka.log && s.kafka.log[pos0] == Fanout(q.event)
    && pos0.part < |s.kafka.parts| && pos0.offset >= s.kafka.parts[pos0.part].next
    && (forall pos :: pos in s.kafka.log && About(s.kafka.log[pos], q) ==>
          Covered(s.kafka.parts, pos) || pos == pos0 || Handling(s, q, pos, pos1))
  }

  ghost predicate Handling(s: State, q: Pair, pos: Pos, pos1: Pos) {
    && pos == pos1 && pos in s.kafka.log && s.kafka.log[pos].Targeted?
    && pos in s.live.tasks && Cancelling(s.kafka.log[pos], s.live.tasks[pos], q)
  }

  /** Whatever run follows: when nothing is left to do for the pair, it has its verdict,
      provided nobody removes its DLQ row meanwhile. */
  ghost predicate AlwaysServed(s: State, q: Pair) {
    forall acts, t :: Leads(s, acts, t) && Keeping(acts, q) && DoneFor(t, q) ==> Served(s, acts, t, q)
  }

  /** A run loses the pair. */
  ghost predicate Loses(s: State, acts: seq<Action>, t: State, q: Pair) {
    Leads(s, acts, t) && Keeping(acts, q) && DoneFor(t, q) && !Served(s, acts, t, q)
  }

  /** The state that differs in the endpoint only. */
  ghost predicate SameButEndpoint(s: State, t: State) {
    && t.db == s.db.(endpoints := t.db.endpoints) && t.kafka == s.kafka && t.redis == s.redis && t.live == s.live
    && t.max == s.max
  }

  /** Before anything else the endpoint is made a target, if it is not one already. */
  lemma {:induction false} MadeTarget(s: State, q: Pair) returns (pre: seq<Action>, t: State)
    requires Inv(s) && q.event in s.db.events && q.endpoint in s.db.endpoints
    ensures Leads(s, pre, t) && Inv(t) && IsTargetOf(t, q) && SameButEndpoint(s, t)
    ensures Keeping(pre, q) && NothingFor(s, pre, q) && (IsTargetOf(s, q) ==> pre == [])
  {
    hide Inv, Enabled, Step, Leads, Does;
    if IsTargetOf(s, q) {
      NoAction(s);
      pre, t := [], s;
    } else {
      var a := ByApi(SetEndpoint(q.endpoint, Endpoint(true, {s.db.events[q.event].eventType})));
      t := EndpointSet(s, a, q);
      pre := [a];
      OneStep(s, a, t, q);
    }
  }

  lemma {:induction false} OneStep(s: State, a: Action, t: State, q: Pair)
    requires Enabled(s, a) && t == Step(s, a)
    ensures Leads(s, [a], t)
    ensures forall d :: !Does(s, a, q, d) ==> !Ever(s, [a], q, d)
  {
    hide Enabled, Step, Does;
    assert [a][1..] == [];
    assert Leads(t, [], t);
    assert forall d :: !Ever(t, [], q, d);
  }

  /** The run neither gets a 2xx for the pair nor drops it. */
  ghost predicate NothingFor(s: State, acts: seq<Action>, q: Pair) {
    !Ever(s, acts, q, Acknowledges) && !Ever(s, acts, q, Drops)
  }

  lemma {:induction false} EndpointSet(s: State, a: Action, q: Pair) returns (t: State)
    requires Inv(s) && q.event in s.db.events && q.endpoint in s.db.endpoints
    requires a == ByApi(SetEndpoint(q.endpoint, Endpoint(true, {s.db.events[q.event].eventType})))
    ensures Enabled(s, a) && t == Step(s, a) && Inv(t) && IsTargetOf(t, q) && SameButEndpoint(s, t)
    ensures !Does(s, a, q, Acknowledges) && !Does(s, a, q, Drops)
  {
    hide Inv;
    t := Step(s, a);
    StepPreserves(s, a);
  }

  /** What happens in two runs after each other happens in one of them. */
  lemma {:induction false} EverThrough(s: State, a: seq<Action>, u: State, b: seq<Action>, q: Pair, d: Deed)
    requires Leads(s, a, u)
    ensures Ever(s, a + b, q, d) <==> Ever(s, a, q, d) || Ever(u, b, q, d)
    decreases |a|
  {
    hide Enabled, Step, Does;
    if a == [] {
      assert a + b == b;
    } else {
      EverThrough(Step(s, a[0]), a[1..], u, b, q, d);
      assert (a + b)[0] == a[0] && (a + b)[1..] == a[1..] + b;
    }
  }

  lemma {:induction false} LosesAfter(s: State, pre: seq<Action>, u: State, acts: seq<Action>, t: State, q: Pair)
    requires Leads(s, pre, u) && Keeping(pre, q) && NothingFor(s, pre, q)
    requires Leads(u, acts, t) && NoAnswer(acts) && NoCall(acts) && IsTargetOf(u, q)
    requires DoneFor(t, q) && q !in t.db.dlq && !HasSuccess(t.db.attempts, q)
    ensures Loses(s, pre + acts, t, q)
  {
    hide Leads, Ever, DoneFor, HasSuccess, IsTargetOf, Unburies;
    LeadsThrough(s, pre, u, acts, t);
    EverThrough(s, pre, u, acts, q, Acknowledges);
    EverThrough(s, pre, u, acts, q, Drops);
    NoAnswerAcknowledgesNobody(u, acts, q);
    TargetIsNotDropped(u, acts, q);
    NoCallKeeps(acts, q);
  }

  lemma {:induction false} NoCallKeeps(acts: seq<Action>, q: Pair)
    requires NoCall(acts)
    ensures Keeping(acts, q)
  {
  }

  lemma {:induction false} DoneAtLast(t: State, u: State, q: Pair, n: nat, open: set<Pos>)
    requires Falling(t, q, n, open) && u.db == t.db && u.redis == t.redis - {Key(q, n)} && u.kafka.log == t.kafka.log
    requires forall x :: Covered(t.kafka.parts, x) || x in open ==> Covered(u.kafka.parts, x)
    ensures DoneFor(u, q) && q !in u.db.dlq && !HasSuccess(u.db.attempts, q)
  {
    hide Inv, HasSuccess, Covered, IsTargetOf;
  }

  /** The pair has no verdict and no retry, and nothing but the replay and the records in
      `open` is under way for it. */
  ghost predicate Exposed(s: State, q: Pair, pos0: Pos, open: set<Pos>) {
    && Inv(s) && |s.kafka.parts| >= 1 && IsTargetOf(s, q)
    && !HasSuccess(s.db.attempts, q) && q !in s.db.dlq && (forall m: nat :: Key(q, m) !in s.redis)
    && pos0 in s.kafka.log && s.kafka.log[pos0] == Fanout(q.event)
    && pos0.part < |s.kafka.parts| && pos0.offset >= s.kafka.parts[pos0.part].next
    && (forall x :: x in s.kafka.log && About(s.kafka.log[x], q) ==>
          Covered(s.kafka.parts, x) || x in open || x == pos0)
  }

  /** The replay and its retries fail up to attempt `n`. */
  lemma {:induction false} FallFrom(s: State, q: Pair, pos0: Pos, open: set<Pos>, n: nat)
    returns (acts: seq<Action>, t: State)
    requires Exposed(s, q, pos0, open) && 1 <= n < s.max
    ensures Leads(s, acts, t) && NoAnswer(acts) && NoCall(acts) && Onwards(s, t) && Falling(t, q, n, open)
  {
    hide Inv, Leads, HasSuccess, Covered, IsTargetOf, Falling;
    var b, v := ReplayFails(s, q, pos0, open);
    var d;
    d, t := FallTo(v, q, 1, n, open);
    LeadsThrough(s, b, v, d, t);
    OnwardsTwice(s, v, t);
    acts := b + d;
  }

  lemma {:induction false} FallingInv(s: State, q: Pair, n: nat, open: set<Pos>)
    requires Falling(s, q, n, open)
    ensures Inv(s)
  {
    hide Inv;
  }

  /** A handler of attempt `n` stands before its cancel: the replay and its retries fail
      up to that number, and the cancel takes the last retry away. */
  lemma {:induction false} HandlerLoses(s: State, q: Pair, pos0: Pos, pos1: Pos, n: nat)
    returns (acts: seq<Action>, t: State)
    requires Exposed(s, q, pos0, {pos1}) && 1 <= n < s.max
    requires pos1 in s.live.tasks && pos1 in s.kafka.log && s.kafka.log[pos1] == Targeted(Key(q, n))
    requires Cancelling(s.kafka.log[pos1], s.live.tasks[pos1], q)
    ensures Leads(s, acts, t) && NoAnswer(acts) && NoCall(acts)
    ensures DoneFor(t, q) && q !in t.db.dlq && !HasSuccess(t.db.attempts, q)
  {
    hide Inv, Leads, HasSuccess, Covered, Exposed, Falling, DoneFor, Cancelling;
    var b, x := FallFrom(s, q, pos0, {pos1}, n);
    FallingInv(x, q, n, {pos1});
    var d;
    d, t := HandlerEnds(x, q, pos1, n);
    DoneAtLast(x, t, q, n, {pos1});
    LeadsThrough(s, b, x, d, t);
    acts := b + d;
  }

  /** A scheduler that has published attempt `n` stands before its cancel, and the record
      it published is done with. */
  lemma {:induction false} SchedulerLoses(s: State, q: Pair, pos0: Pos, c: nat, n: nat)
    returns (acts: seq<Action>, t: State)
    requires Exposed(s, q, pos0, {}) && 1 <= n < s.max
    requires c in s.live.schedulers && s.live.schedulers[c].published && s.live.schedulers[c].due != []
    requires s.live.schedulers[c].due[0] == Key(q, n)
    ensures Leads(s, acts, t) && NoAnswer(acts) && NoCall(acts)
    ensures DoneFor(t, q) && q !in t.db.dlq && !HasSuccess(t.db.attempts, q)
  {
    hide Inv, Leads, HasSuccess, Covered, Exposed, Falling, DoneFor;
    var b, x := FallFrom(s, q, pos0, {}, n);
    t := StepCancelRepublished(x, c);
    LeadsOn(s, b, x, ByScheduler(c, Cancel));
    acts := b + [ByScheduler(c, Cancel)];
    DoneAtLast(x, t, q, n, {});
  }

  // ---------- why a state is not calm ----------

  /** A DLQ handler of a retry of the pair stands before its cancel. */
  ghost predicate HandlerAt(s: State, q: Pair, pos: Pos, n: nat) {
    && pos in s.live.tasks && pos in s.kafka.log && s.kafka.log[pos] == Targeted(Key(q, n))
    && Cancelling(s.kafka.log[pos], s.live.tasks[pos], q)
  }

  /** A scheduler stands between publish and cancel of a retry of the pair. */
  ghost predicate SchedulerAt(s: State, q: Pair, c: nat, n: nat) {
    && c in s.live.schedulers && s.live.schedulers[c].published && s.live.schedulers[c].due != []
    && s.live.schedulers[c].due[0] == Key(q, n)
  }

  lemma {:induction false} NotCalmBecause(s: State, q: Pair)
    requires Inv(s) && !Calm(s, q)
    ensures (exists pos, n: nat :: HandlerAt(s, q, pos, n)) || (exists c, n: nat :: SchedulerAt(s, q, c, n))
  {
    hide Inv, HasSuccess, InNewRecord, Covered;
    if pos :| pos in s.live.tasks && pos in s.kafka.log && Cancelling(s.kafka.log[pos], s.live.tasks[pos], q)
              && !(pos in TakenUp(s) && AttemptOf(s.kafka.log[pos]) == 0)
    {
      HandlerIsOfRetry(s, q, pos);
      assert HandlerAt(s, q, pos, s.kafka.log[pos].key.attempt);
    } else {
      var c :| c in s.live.schedulers && s.live.schedulers[c].published && s.live.schedulers[c].due != []
               && s.live.schedulers[c].due[0].pair == q;
      var k := s.live.schedulers[c].due[0];
      assert k == Key(q, k.attempt);
      assert SchedulerAt(s, q, c, k.attempt);
    }
  }

  lemma {:induction false} HandlerIsOfRetry(s: State, q: Pair, pos: Pos)
    requires Inv(s) && pos in s.live.tasks && pos in s.kafka.log && AttemptOf(s.kafka.log[pos]) != 0
    requires Cancelling(s.kafka.log[pos], s.live.tasks[pos], q)
    ensures s.kafka.log[pos].Targeted? && s.kafka.log[pos].key.pair == q
  {
    hide Inv, TaskRows, TaskOutcome, Distinct;
    TaskFacts(s, pos);
    assert s.live.tasks[pos].targets[s.live.tasks[pos].index] in s.live.tasks[pos].targets;
  }

  lemma {:induction false} HandlerNumber(s: State, q: Pair, pos: Pos, n: nat)
    requires Inv(s) && HandlerAt(s, q, pos, n)
    ensures 1 <= n < s.max && !Covered(s.kafka.parts, pos)
  {
    hide Inv, Covered;
    KeyIsScheduled(s, pos);
    ScheduledNumber(s, Key(q, n));
    TaskIsInPart(s, pos);
  }

  lemma {:induction false} ScheduledNumber(s: State, k: Key)
    requires Inv(s) && k in s.hist.scheduled
    ensures 1 <= k.attempt < s.max
  {
    hide PartsInv, FinishedInv, LogInv, TasksInv, SchedulersInv, OutboxInv, RelayCountInv, RowsInv, TaskRowsInv,
      ResultsInv, TaskOutcomeInv, CoveredInv, StableInv, TargetsInv;
  }

  lemma {:induction false} SchedulerNumber(s: State, q: Pair, c: nat, n: nat)
    requires Inv(s) && SchedulerAt(s, q, c, n)
    ensures 1 <= n < s.max
  {
    hide Inv;
    SchedulerFacts(s);
    assert s.live.schedulers[c].due[0] in s.live.schedulers[c].due;
    ScheduledNumber(s, Key(q, n));
  }

  // ---------- the theorem ----------

  lemma {:induction false} LonelyIsExposed(s: State, q: Pair, pos0: Pos, pos1: Pos, u: State)
    requires Lonely(s, q, pos0, pos1) && Inv(u) && |s.kafka.parts| >= 1 && IsTargetOf(u, q)
    requires SameButEndpoint(s, u)
    ensures Exposed(u, q, pos0, {pos1})
    ensures !(exists n: nat :: HandlerAt(s, q, pos1, n)) ==> Exposed(u, q, pos0, {})
  {
    hide Inv, HasSuccess, Covered, IsTargetOf, Reachable, Cancelling;
    forall x | x in s.kafka.log && About(s.kafka.log[x], q) && Handling(s, q, x, pos1)
      ensures HandlerAt(s, q, pos1, s.kafka.log[x].key.attempt)
    {
      assert s.kafka.log[x].key == Key(q, s.kafka.log[x].key.attempt);
    }
  }

  lemma {:induction false} SameProcesses(s: State, u: State, q: Pair)
    requires u.kafka == s.kafka && u.live == s.live
    ensures forall pos, n: nat :: HandlerAt(s, q, pos, n) ==> HandlerAt(u, q, pos, n)
    ensures forall c, n: nat :: SchedulerAt(s, q, c, n) ==> SchedulerAt(u, q, c, n)
  {
  }

  lemma {:induction false} HandlerIsTheOther(s: State, q: Pair, pos0: Pos, pos1: Pos, pos: Pos, n: nat)
    requires Lonely(s, q, pos0, pos1) && HandlerAt(s, q, pos, n) && !Covered(s.kafka.parts, pos)
    ensures pos == pos1
  {
    hide Reachable, HasSuccess, Covered, Cancelling;
  }

  /** If the state is not calm, some run loses the pair; it does without a call of the
      API if the endpoint is a target already. */
  lemma {:induction false} NotCalmLoses(s: State, q: Pair, pos0: Pos, pos1: Pos) returns (acts: seq<Action>, t: State)
    requires Lonely(s, q, pos0, pos1) && !Calm(s, q)
    ensures Loses(s, acts, t, q) && (IsTargetOf(s, q) ==> NoCall(acts))
  {
    hide Inv, Leads, Reachable, HasSuccess, Covered, IsTargetOf, DlqKnown, DoneFor, Loses, Calm, HandlerAt, SchedulerAt,
      Exposed, Handling, NothingFor, Keeping;
    ReachableFacts(s);
    NotAnOrphan(s, pos0, q);
    NotCalmBecause(s, q);
    var pre, u := MadeTarget(s, q);
    LonelyIsExposed(s, q, pos0, pos1, u);
    SameProcesses(s, u, q);
    var b;
    if n: nat, pos :| HandlerAt(s, q, pos, n) {
      HandlerNumber(s, q, pos, n);
      HandlerIsTheOther(s, q, pos0, pos1, pos, n);
      b, t := HandlerCuts(u, q, pos0, pos1, n);
    } else {
      var c, n: nat :| SchedulerAt(s, q, c, n);
      SchedulerNumber(s, q, c, n);
      b, t := SchedulerCuts(u, q, pos0, c, n);
    }
    acts := pre + b;
    LosesAfter(s, pre, u, b, t, q);
  }

  lemma {:induction false} HandlerCuts(s: State, q: Pair, pos0: Pos, pos1: Pos, n: nat)
    returns (acts: seq<Action>, t: State)
    requires Exposed(s, q, pos0, {pos1}) && 1 <= n < s.max && HandlerAt(s, q, pos1, n)
    ensures Leads(s, acts, t) && NoAnswer(acts) && NoCall(acts)
    ensures DoneFor(t, q) && q !in t.db.dlq && !HasSuccess(t.db.attempts, q)
  {
    hide Leads, Exposed, HasSuccess, DoneFor, Cancelling;
    acts, t := HandlerLoses(s, q, pos0, pos1, n);
  }

  lemma {:induction false} SchedulerCuts(s: State, q: Pair, pos0: Pos, c: nat, n: nat)
    returns (acts: seq<Action>, t: State)
    requires Exposed(s, q, pos0, {}) && 1 <= n < s.max && SchedulerAt(s, q, c, n)
    ensures Leads(s, acts, t) && NoAnswer(acts) && NoCall(acts)
    ensures DoneFor(t, q) && q !in t.db.dlq && !HasSuccess(t.db.attempts, q)
  {
    hide Leads, Exposed, HasSuccess, DoneFor;
    acts, t := SchedulerLoses(s, q, pos0, c, n);
  }

  lemma {:induction false} UnfetchedIsNotTakenUp(s: State, pos: Pos)
    requires Inv(s) && pos.part < |s.kafka.parts| && pos.offset >= s.kafka.parts[pos.part].next
    ensures pos !in TakenUp(s)
  {
    hide FinishedInv, TasksInv, HandOffInv, SchedulersInv, OutboxInv, RelayCountInv, RowsInv, TaskRowsInv, ResultsInv,
      TaskOutcomeInv, CoveredInv, StableInv, TargetsInv;
    assert PartOk(s.kafka.parts[pos.part]);
  }

  lemma {:induction false} RecordsStay(s: State, acts: seq<Action>, t: State, pos: Pos)
    requires Inv(s) && Leads(s, acts, t) && pos in s.kafka.log
    ensures pos in t.kafka.log && t.kafka.log[pos] == s.kafka.log[pos]
    decreases |acts|
  {
    hide Inv, Enabled, Step;
    if acts != [] {
      StepPreserves(s, acts[0]);
      LogGrows(s, acts[0]);
      RecordsStay(Step(s, acts[0]), acts[1..], t, pos);
    }
  }

  /** A replay of a pair with nothing else under way is served by every run exactly if
      the state is calm for the pair. */
  lemma {:induction false} ReplayIsServedIff(s: State, q: Pair, pos0: Pos, pos1: Pos)
    requires Lonely(s, q, pos0, pos1)
    ensures AlwaysServed(s, q) <==> Calm(s, q)
  {
    hide Inv, Leads, Reachable, HasSuccess, Covered, DoneFor, Served, Calm, TakenUp, Handling, Unburies, DlqKnown;
    ReachableFacts(s);
    if Calm(s, q) {
      UnfetchedIsNotTakenUp(s, pos0);
      forall acts, t | Leads(s, acts, t) && Keeping(acts, q) && DoneFor(t, q) ensures Served(s, acts, t, q) {
        RecordsStay(s, acts, t, pos0);
        CalmReplayIsServed(s, acts, t, q, pos0);
      }
    } else {
      var acts, t := NotCalmLoses(s, q, pos0, pos1);
      assert !AlwaysServed(s, q);
    }
  }
}
