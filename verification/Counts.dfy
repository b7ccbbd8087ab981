/** How often something happens in a run: the counting histories say exactly that, and the
    bounds on POSTs and publications are bounds on the steps of the run. */
module Counts {
  import opened Domain
  import opened Protocol
  import opened Frames
  import opened Invariants
  import opened Safety
  import opened CleanRuns
  import opened CleanOutcome
  import opened CleanTheorems

  /** POST an attempt, publish the outbox row of an event, roll back a batch that holds it. */
  datatype Counted = Posts(k: Key) | Publishes(event: Uuid) | RollsBack(event: Uuid)

  ghost predicate Counts(s: State, a: Action, c: Counted)
    requires Enabled(s, a)
  {
    match c
    case Posts(k) => a.ByTask? && a.taskStep.Post? && CurrentKey(s, a.pos) == k
    case Publishes(e) =>
      a.ByRelay? && a.relayStep.Send? && s.live.relays[a.relay].rows[s.live.relays[a.relay].sent] == e
    case RollsBack(e) => a.ByRelay? && a.relayStep.Abort? && e in s.live.relays[a.relay].rows
  }

  /** The number of steps of the run that do it. */
  ghost function Times(s: State, acts: seq<Action>, c: Counted): nat
    decreases |acts|
  {
    if acts == [] || !Enabled(s, acts[0]) then 0
    else (if Counts(s, acts[0], c) then 1 else 0) + Times(Step(s, acts[0]), acts[1..], c)
  }

  /** What the state remembers of it. */
  ghost function Noted(s: State, c: Counted): nat {
    match c
    case Posts(k) => s.hist.posts[k]
    case Publishes(e) => s.hist.relayed[e]
    case RollsBack(e) => s.hist.rolledBack[e]
  }

  lemma {:induction false} TaskNotes(s: State, pos: Pos, a: TaskStep, c: Counted)
    requires TaskEnabled(s, pos, a)
    ensures Noted(StepTask(s, pos, a), c) == Noted(s, c) + if Counts(s, ByTask(pos, a), c) then 1 else 0
  {
    hide HasSuccess, TargetSet, DroppedBy, Distinct, Elements, StatusOf, GivesUp, InsertRow;
  }

  lemma {:induction false} RelayNotes(s: State, r: nat, a: RelayStep, c: Counted)
    requires Inv(s) && RelayEnabled(s, r, a)
    ensures Noted(StepRelay(s, r, a), c) == Noted(s, c) + if Counts(s, ByRelay(r, a), c) then 1 else 0
  {
    if a.Abort? {
      DistinctRows(s, r);
      if c.RollsBack? {
        CountOfDistinct(s.live.relays[r].rows, c.event);
      }
    }
    hide Inv, Locked, Distinct, Elements;
  }

  lemma {:induction false} DistinctRows(s: State, r: nat)
    requires Inv(s) && r in s.live.relays
    ensures Distinct(s.live.relays[r].rows)
  {
    hide PartsInv, FinishedInv, LogInv, TasksInv, SchedulersInv, HandOffInv, RowsInv, RelayCountInv, TaskRowsInv,
      ResultsInv, TaskOutcomeInv, CoveredInv, StableInv, TargetsInv, Distinct;
    assert RelayOk(s.db.outbox, s.kafka.log, s.live.relays[r]);
  }

  lemma {:induction false} CountOfDistinct(rows: seq<Uuid>, e: Uuid)
    requires Distinct(rows)
    ensures multiset(rows)[e] == if e in rows then 1 else 0
  {
    if rows != [] {
      var last := |rows| - 1;
      CountOfDistinct(rows[..last], e);
      assert rows == rows[..last] + [rows[last]];
    }
  }

  lemma {:induction false} StepNotes(s: State, a: Action, c: Counted)
    requires Inv(s) && Enabled(s, a)
    ensures Noted(Step(s, a), c) == Noted(s, c) + if Counts(s, a, c) then 1 else 0
  {
    hide Inv, ApiEnabled, RelayEnabled, SchedulerEnabled, TaskEnabled, BrokerEnabled, StepApi, StepRelay, StepScheduler,
      StepTask, StepBroker, SameSetup, SameResults, SameRetries, SameLog;
    match a {
      case ByApi(x) => ApiFrame(s, x); ApiPublishesNothing(s, x);
      case ByRelay(r, x) => RelayNotes(s, r, x, c);
      case ByScheduler(n, x) => SchedulerFrame(s, n, x);
      case ByTask(pos, x) => TaskNotes(s, pos, x, c);
      case ByBroker(x) => BrokerFrame(s, x);
    }
  }

  lemma {:induction false} ApiPublishesNothing(s: State, a: ApiStep)
    requires ApiEnabled(s, a)
    ensures StepApi(s, a).hist.relayed == s.hist.relayed && StepApi(s, a).hist.rolledBack == s.hist.rolledBack
  {
    hide KeyTaken;
  }

  lemma {:induction false} LeadsNotes(s: State, acts: seq<Action>, t: State, c: Counted)
    requires Inv(s) && Leads(s, acts, t)
    ensures Noted(t, c) == Noted(s, c) + Times(s, acts, c)
    decreases |acts|
  {
    hide Inv, Enabled, Step, Noted, Counts;
    if acts != [] {
      StepNotes(s, acts[0], c);
      StepPreserves(s, acts[0]);
      LeadsNotes(Step(s, acts[0]), acts[1..], t, c);
    }
  }

  /** The counting histories of the state are the numbers of steps of the run. */
  lemma {:induction false} CountsAreTrue(s: State, acts: seq<Action>, t: State, c: Counted)
    requires Init(s) && Leads(s, acts, t)
    ensures Noted(t, c) == Times(s, acts, c)
  {
    hide Inv, Leads;
    InitInv(s);
    LeadsNotes(s, acts, t, c);
  }

  /** A run publishes the outbox row of an event at most once more often than it rolls back
      a batch that holds it. */
  lemma {:induction false} PublishedOnceAndPerRollback(s: State, acts: seq<Action>, t: State, e: Uuid)
    requires Init(s) && Leads(s, acts, t)
    ensures Times(s, acts, Publishes(e)) <= 1 + Times(s, acts, RollsBack(e))
  {
    hide Init, Leads, Times, Reachable;
    CountsAreTrue(s, acts, t, Publishes(e));
    CountsAreTrue(s, acts, t, RollsBack(e));
    IsReachable(s, acts, t);
    OutboxConservation(t);
  }

  /** A clean run POSTs an attempt at most once, and only attempts below the limit of enabled
      subscribers. */
  lemma {:induction false} PostedOnce(s: State, acts: seq<Action>, t: State, l: Ledger, k: Key)
    requires Init(s) && CleanLeads(s, EMPTY, acts, t, l)
    ensures Times(s, acts, Posts(k)) <= 1
    ensures Times(s, acts, Posts(k)) == 1 ==> k.attempt < t.max && Target(t.db.endpoints, t.db.events, k.pair)
  {
    InitClean(s);
    hide FullInv, CleanLeads, Init, Times, Target;
    CleanRunInv(s, EMPTY, acts, t, l);
    CountsAreTrue(s, acts, t, Posts(k));
    EveryAttemptPostsOnce(s, acts, t, l, k);
  }
}
