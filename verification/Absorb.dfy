/** A success row absorbs its pair: a delivery that has not passed the idempotency
    check yet will do nothing for it. */
module Absorb {
  import opened Domain
  import opened Watermarks
  import opened Protocol
  import opened Invariants
  import opened Safety

  /** A task delivering to the pair that is past the idempotency check. */
  ghost predicate PastCheck(s: State, q: Pair, pos: Pos) {
    && Delivering(s, pos) && CurrentPair(s, pos) == q
    && !s.live.tasks[pos].pc.Resolving? && !s.live.tasks[pos].pc.Checking?
  }

  ghost predicate Shrinks(s: State, t: State, q: Pair) {
    forall pos :: PastCheck(t, q, pos) ==> PastCheck(s, q, pos)
  }

  ghost predicate NobodyPast(s: State, q: Pair) {
    forall pos :: !PastCheck(s, q, pos)
  }

  /** No row of the pair is changed or removed. */
  ghost predicate RowsStay(s: State, t: State, q: Pair) {
    forall k :: k in s.db.attempts && k.pair == q ==> k in t.db.attempts && t.db.attempts[k] == s.db.attempts[k]
  }

  /** Nothing is done for the pair: no POST, no new row, no dead letter, no retry. */
  ghost predicate Quiet(s: State, t: State, q: Pair) {
    && RowsStay(s, t, q)
    && (forall k: Key :: k.pair == q && k in t.db.attempts ==> k in s.db.attempts)
    && (forall k: Key :: k.pair == q ==> t.hist.posts[k] == s.hist.posts[k])
    && (q in t.db.dlq ==> q in s.db.dlq)
    && (forall k: Key :: k.pair == q && k in t.redis ==> k in s.redis)
    && (forall k: Key :: k.pair == q && k in t.hist.scheduled ==> k in s.hist.scheduled)
  }

  lemma {:induction false} SuccessStays(s: State, t: State, q: Pair)
    requires HasSuccess(s.db.attempts, q) && RowsStay(s, t, q)
    ensures HasSuccess(t.db.attempts, q)
  {
    var n: nat :| Key(q, n) in s.db.attempts && s.db.attempts[Key(q, n)] == Success;
    assert Key(q, n) in t.db.attempts;
  }

  lemma {:induction false} SameTasks(s: State, t: State, q: Pair)
    requires t.live.tasks == s.live.tasks
    requires forall pos :: pos in s.live.tasks ==>
               pos in s.kafka.log && pos in t.kafka.log && t.kafka.log[pos] == s.kafka.log[pos]
    ensures Shrinks(s, t, q)
  {
  }

  lemma {:induction false} ApiQuiet(s: State, a: ApiStep, q: Pair)
    requires Inv(s) && ApiEnabled(s, a) && a != DeleteEndpoint(q.endpoint)
    ensures Quiet(s, StepApi(s, a), q) && Shrinks(s, StepApi(s, a), q)
  {
    hide Inv, Shrinks, KeyTaken;
    LogsOfTasks(s);
    SameTasks(s, StepApi(s, a), q);
  }

  lemma {:induction false} RelayQuiet(s: State, r: nat, a: RelayStep, q: Pair)
    requires Inv(s) && RelayEnabled(s, r, a)
    ensures Quiet(s, StepRelay(s, r, a), q) && Shrinks(s, StepRelay(s, r, a), q)
  {
    hide Inv, Shrinks, Locked, Distinct, Elements;
    LogsOfTasks(s);
    SameTasks(s, StepRelay(s, r, a), q);
  }

  lemma {:induction false} SchedulerQuiet(s: State, c: nat, a: SchedulerStep, q: Pair)
    requires Inv(s) && SchedulerEnabled(s, c, a)
    ensures Quiet(s, StepScheduler(s, c, a), q) && Shrinks(s, StepScheduler(s, c, a), q)
  {
    hide Inv, Shrinks, Distinct;
    LogsOfTasks(s);
    SameTasks(s, StepScheduler(s, c, a), q);
  }

  lemma {:induction false} BrokerQuiet(s: State, a: BrokerStep, q: Pair)
    requires Inv(s) && BrokerEnabled(s, a)
    ensures Quiet(s, StepBroker(s, a), q) && Shrinks(s, StepBroker(s, a), q)
  {
    hide Inv, Started;
    LogsOfTasks(s);
  }

  /** A step of a task: it may only work for the pair if it was past the check. */
  lemma {:induction false} TaskQuiet(s: State, pos: Pos, a: TaskStep, q: Pair)
    requires Inv(s) && TaskEnabled(s, pos, a) && HasSuccess(s.db.attempts, q)
    ensures Shrinks(s, StepTask(s, pos, a), q) && RowsStay(s, StepTask(s, pos, a), q)
    ensures !PastCheck(s, q, pos) ==> Quiet(s, StepTask(s, pos, a), q)
  {
    hide Inv, HasSuccess, TargetSet, DroppedBy, Distinct, Elements, StatusOf, GivesUp, Finished, ToCommit;
    LogsOfTasks(s);
    match a {
      case Resolve(targets) =>
      case Check =>
      case Post(o) =>
      case Insert =>
      case Schedule =>
      case Bury =>
      case Unschedule(ok) =>
      case Finish =>
      case Fail =>
    }
  }

  /** What a task does for the pair, if anything, it does because it was past the
      check: the others, and everybody else, do nothing. */
  lemma {:induction false} StepAbsorbed(s: State, a: Action, q: Pair)
    requires Inv(s) && Enabled(s, a) && HasSuccess(s.db.attempts, q) && a != ByApi(DeleteEndpoint(q.endpoint))
    ensures HasSuccess(Step(s, a).db.attempts, q)
    ensures Shrinks(s, Step(s, a), q) && RowsStay(s, Step(s, a), q)
    ensures (a.ByTask? ==> !PastCheck(s, q, a.pos)) ==> Quiet(s, Step(s, a), q)
  {
    hide Inv, Shrinks, PastCheck, ApiEnabled, RelayEnabled, SchedulerEnabled, TaskEnabled, BrokerEnabled, StepApi,
      StepRelay, StepScheduler, StepTask, StepBroker, HasSuccess;
    match a {
      case ByApi(x) => ApiQuiet(s, x, q);
      case ByRelay(r, x) => RelayQuiet(s, r, x, q);
      case ByScheduler(c, x) => SchedulerQuiet(s, c, x, q);
      case ByTask(pos, x) => TaskQuiet(s, pos, x, q);
      case ByBroker(x) => BrokerQuiet(s, x, q);
    }
    SuccessStays(s, Step(s, a), q);
  }

  lemma {:induction false} QuietTwice(s: State, t: State, u: State, q: Pair)
    requires Quiet(s, t, q) && Quiet(t, u, q)
    ensures Quiet(s, u, q)
  {
  }

  lemma {:induction false} AbsorbedRun(s: State, acts: seq<Action>, t: State, q: Pair)
    requires Inv(s) && HasSuccess(s.db.attempts, q) && Leads(s, acts, t)
    requires ByApi(DeleteEndpoint(q.endpoint)) !in acts
    ensures Inv(t) && HasSuccess(t.db.attempts, q) && RowsStay(s, t, q) && Shrinks(s, t, q)
    ensures NobodyPast(s, q) ==> Quiet(s, t, q) && NobodyPast(t, q)
    decreases |acts|
  {
    hide Inv, HasSuccess, Enabled, Step, PastCheck;
    if acts != [] {
      StepPreserves(s, acts[0]);
      StepAbsorbed(s, acts[0], q);
      AbsorbedRun(Step(s, acts[0]), acts[1..], t, q);
      if NobodyPast(s, q) {
        QuietTwice(s, Step(s, acts[0]), t, q);
      }
    }
  }

  /** From the commit of a success row on, unless its endpoint is deleted: the row
      stays, and the deliveries that can still work for the pair are those already
      past the check, which only get fewer. Once there are none, no step of any run
      POSTs for the pair, adds a row, dead-letters it or schedules it again. */
  lemma {:induction false} SuccessAbsorbs(s: State, acts: seq<Action>, t: State, q: Pair)
    requires Reachable(s) && HasSuccess(s.db.attempts, q) && Leads(s, acts, t)
    requires ByApi(DeleteEndpoint(q.endpoint)) !in acts
    ensures HasSuccess(t.db.attempts, q) && RowsStay(s, t, q) && Shrinks(s, t, q)
    ensures NobodyPast(s, q) ==> Quiet(s, t, q) && NobodyPast(t, q)
  {
    hide Inv, HasSuccess, Leads, Reachable, Quiet, NobodyPast, Shrinks, RowsStay;
    ReachableInv(s);
    AbsorbedRun(s, acts, t, q);
  }

  /** A task that is not past the check when the success row is there, because it has not
      got to it or does not exist yet, never does anything for the pair. */
  lemma {:induction false} LateDeliveryDoesNothing(s: State, acts: seq<Action>, t: State, pos: Pos, x: TaskStep,
        q: Pair)
    requires Reachable(s) && HasSuccess(s.db.attempts, q) && Leads(s, acts, t)
    requires ByApi(DeleteEndpoint(q.endpoint)) !in acts
    requires !PastCheck(s, q, pos) && TaskEnabled(t, pos, x)
    ensures Quiet(t, StepTask(t, pos, x), q)
  {
    hide Inv, HasSuccess, Leads, Reachable, Quiet, PastCheck, TaskEnabled, StepTask, RowsStay;
    ReachableInv(s);
    AbsorbedRun(s, acts, t, q);
    TaskQuiet(t, pos, x, q);
  }
}
