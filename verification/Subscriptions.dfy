/** Who is delivered to: exactly the enabled subscribers of an event, nobody else. */
module Subscriptions {
  import opened Domain
  import opened Watermarks
  import opened Protocol
  import opened Frames
  import opened Invariants
  import opened PipelineSteps
  import opened Safety
  import opened Deeds

  /** A record that names no endpoint is resolved to the enabled endpoints subscribed to the
      type of its event, a retry to its own endpoint if that is there and enabled. */
  lemma {:induction false} ResolvedExactly(s: State, pos: Pos, targets: seq<Uuid>, ep: Uuid)
    requires TaskEnabled(s, pos, Resolve(targets))
    ensures s.kafka.log[pos].Fanout? ==>
              (ep in targets <==>
                 && ep in s.db.endpoints && s.db.endpoints[ep].enabled
                 && s.db.events[s.kafka.log[pos].event].eventType in s.db.endpoints[ep].eventTypes)
    ensures s.kafka.log[pos].Targeted? ==>
              (ep in targets <==>
                 ep == s.kafka.log[pos].key.pair.endpoint && ep in s.db.endpoints && s.db.endpoints[ep].enabled)
  {
    hide Distinct;
    assert ep in targets <==> ep in Elements(targets);
  }

  /** The endpoint is disabled or has not subscribed to the event's type. */
  ghost predicate Unsubscribed(s: State, q: Pair) {
    && q.event in s.db.events && q.endpoint in s.db.endpoints
    && !(s.db.endpoints[q.endpoint].enabled
         && s.db.events[q.event].eventType in s.db.endpoints[q.endpoint].eventTypes)
  }

  ghost predicate NoTaskFor(s: State, q: Pair) {
    forall pos :: pos in s.live.tasks && pos in s.kafka.log && q.endpoint in s.live.tasks[pos].targets ==>
      s.kafka.log[pos].Poison? || EventOf(s.kafka.log[pos]) != q.event
  }

  /** Nothing was ever done for the pair, and nothing is under way for it. */
  ghost predicate Untouched(s: State, q: Pair) {
    && (forall n: nat :: s.hist.posts[Key(q, n)] == 0)
    && (forall n: nat :: Key(q, n) !in s.hist.scheduled && Key(q, n) !in s.db.attempts)
    && q !in s.db.dlq
    && NoTaskFor(s, q)
  }

  lemma {:induction false} ResolveKeepsUntouched(s: State, pos: Pos, targets: seq<Uuid>, q: Pair)
    requires TaskEnabled(s, pos, Resolve(targets)) && Untouched(s, q)
    requires q.event !in s.db.events || Unsubscribed(s, q)
    requires MessageOk(s.db.events, s.hist.scheduled, s.kafka.log[pos])
    ensures Untouched(StepTask(s, pos, Resolve(targets)), q)
  {
    ResolvedExactly(s, pos, targets, q.endpoint);
    hide TargetSet, DroppedBy, Elements, Distinct;
  }

  lemma {:induction false} DeliveringIsNotFor(s: State, pos: Pos, q: Pair)
    requires NoTaskFor(s, q) && Delivering(s, pos)
    ensures CurrentPair(s, pos) != q
  {
    assert s.live.tasks[pos].targets[s.live.tasks[pos].index] in s.live.tasks[pos].targets;
  }

  lemma {:induction false} TaskKeepsTargets(s: State, pos: Pos, a: TaskStep)
    requires TaskEnabled(s, pos, a) && !a.Resolve?
    ensures var t := StepTask(s, pos, a);
            && t.kafka.log == s.kafka.log
            && forall x :: x in t.live.tasks ==>
                 x in s.live.tasks && t.live.tasks[x].targets == s.live.tasks[x].targets
  {
    hide HasSuccess, TargetSet, DroppedBy, Distinct, StatusOf, GivesUp, InsertRow, Finished, ToCommit;
  }

  lemma {:induction false} TaskKeepsUntouched(s: State, pos: Pos, a: TaskStep, q: Pair)
    requires TaskEnabled(s, pos, a) && !a.Resolve? && Untouched(s, q)
    ensures Untouched(StepTask(s, pos, a), q)
  {
    if Delivering(s, pos) {
      DeliveringIsNotFor(s, pos, q);
    }
    TaskKeepsTargets(s, pos, a);
    assert NoTaskFor(StepTask(s, pos, a), q);
    hide NoTaskFor, HasSuccess, TargetSet, DroppedBy, Distinct, StatusOf, GivesUp, Finished, ToCommit;
  }

  /** Nothing was done for the pair, and its rows only went. */
  lemma {:induction false} QuietKeepsUntouched(s: State, t: State, q: Pair)
    requires Untouched(s, q)
    requires t.hist.posts == s.hist.posts && t.hist.scheduled == s.hist.scheduled
    requires t.db.attempts.Keys <= s.db.attempts.Keys && t.db.dlq <= s.db.dlq
    requires forall pos :: pos in t.live.tasks ==>
               t.live.tasks[pos].targets == [] || (pos in s.live.tasks && t.live.tasks[pos] == s.live.tasks[pos])
    requires forall pos :: pos in s.live.tasks ==>
               pos in s.kafka.log && pos in t.kafka.log && t.kafka.log[pos] == s.kafka.log[pos]
    ensures Untouched(t, q)
  {
  }

  lemma {:induction false} ApiOnlyRemoves(s: State, a: ApiStep)
    requires ApiEnabled(s, a)
    ensures StepApi(s, a).db.attempts.Keys <= s.db.attempts.Keys && StepApi(s, a).db.dlq <= s.db.dlq
  {
    hide KeyTaken;
  }

  lemma {:induction false} OthersKeepUntouched(s: State, a: Action, q: Pair)
    requires Inv(s) && Enabled(s, a) && !a.ByTask? && Untouched(s, q)
    ensures Untouched(Step(s, a), q)
  {
    LogGrows(s, a);
    LogsOfTasks(s);
    hide Inv, Untouched, ApiEnabled, RelayEnabled, SchedulerEnabled, BrokerEnabled, StepApi, StepRelay, StepScheduler,
      StepBroker, SameRelay, SameRetries, SameLog;
    match a {
      case ByApi(x) => ApiFrame(s, x); ApiOnlyRemoves(s, x);
      case ByRelay(r, x) => RelayFrame(s, r, x);
      case ByScheduler(c, x) => SchedulerFrame(s, c, x);
      case ByBroker(x) => BrokerFrame(s, x); BrokerDropsTasks(s, x);
    }
    QuietKeepsUntouched(s, Step(s, a), q);
  }

  /** A fetched record has no targets yet. */
  lemma {:induction false} BrokerDropsTasks(s: State, a: BrokerStep)
    requires BrokerEnabled(s, a)
    ensures forall pos :: pos in StepBroker(s, a).live.tasks ==>
              || StepBroker(s, a).live.tasks[pos].targets == []
              || (pos in s.live.tasks && StepBroker(s, a).live.tasks[pos] == s.live.tasks[pos])
  {
  }

  /** The call creates or updates the endpoint. */
  predicate Edits(a: Action, ep: Uuid) {
    a.ByApi? && a.api.SetEndpoint? && a.api.endpoint == ep
  }

  lemma {:induction false} RecordKept(s: State, a: Action, q: Pair)
    requires Enabled(s, a)
    ensures q.event in s.db.events ==>
              q.event in Step(s, a).db.events && Step(s, a).db.events[q.event] == s.db.events[q.event]
    ensures !Edits(a, q.endpoint) && q.endpoint in Step(s, a).db.endpoints ==>
              q.endpoint in s.db.endpoints && Step(s, a).db.endpoints[q.endpoint] == s.db.endpoints[q.endpoint]
  {
    hide RelayEnabled, SchedulerEnabled, TaskEnabled, BrokerEnabled, StepRelay, StepScheduler, StepTask, StepBroker,
      SameWorker, SameRelay, SameResults, SameRetries, SameLog, KeyTaken;
    match a {
      case ByApi(x) =>
      case ByRelay(r, x) => RelayFrame(s, r, x);
      case ByScheduler(c, x) => SchedulerFrame(s, c, x);
      case ByTask(pos, x) => TaskFrame(s, pos, x);
      case ByBroker(x) => BrokerFrame(s, x);
    }
  }

  /** What holds at the end of a run without edits held before. */
  lemma {:induction false} UnsubscribedBefore(s: State, acts: seq<Action>, t: State, q: Pair)
    requires Leads(s, acts, t) && q.event in s.db.events && Unsubscribed(t, q)
    requires forall a :: a in acts ==> !Edits(a, q.endpoint)
    ensures Unsubscribed(s, q)
    decreases |acts|
  {
    hide Enabled, Step;
    if acts != [] {
      RecordKept(s, acts[0], q);
      UnsubscribedBefore(Step(s, acts[0]), acts[1..], t, q);
    }
  }

  lemma {:induction false} EventsStay(s: State, acts: seq<Action>, t: State, q: Pair)
    requires Leads(s, acts, t) && q.event !in t.db.events
    ensures q.event !in s.db.events
    decreases |acts|
  {
    hide Enabled, Step;
    if acts != [] {
      RecordKept(s, acts[0], q);
      EventsStay(Step(s, acts[0]), acts[1..], t, q);
    }
  }

  lemma {:induction false} LeadsUntouched(s: State, acts: seq<Action>, t: State, q: Pair)
    requires Inv(s) && Leads(s, acts, t) && Untouched(s, q)
    requires q.event !in t.db.events || (Unsubscribed(t, q) && forall a :: a in acts ==> !Edits(a, q.endpoint))
    ensures Untouched(t, q)
    decreases |acts|
  {
    hide Inv, Enabled, Step, Untouched, Unsubscribed;
    if acts != [] {
      var a := acts[0];
      if q.event !in t.db.events {
        EventsStay(s, acts, t, q);
      } else if q.event in s.db.events {
        UnsubscribedBefore(s, acts, t, q);
      }
      StepKeepsUntouched(s, a, q);
      StepPreserves(s, a);
      LeadsUntouched(Step(s, a), acts[1..], t, q);
    }
  }

  lemma {:induction false} ResolvesFromLog(s: State, pos: Pos, targets: seq<Uuid>)
    requires TaskEnabled(s, pos, Resolve(targets))
    ensures pos in s.kafka.log
  {
  }

  lemma {:induction false} StepKeepsUntouched(s: State, a: Action, q: Pair)
    requires Inv(s) && Enabled(s, a) && Untouched(s, q)
    requires q.event !in s.db.events || Unsubscribed(s, q)
    ensures Untouched(Step(s, a), q)
  {
    hide Inv, Untouched, Unsubscribed, MessageOk, ApiEnabled, RelayEnabled, SchedulerEnabled, TaskEnabled,
      BrokerEnabled, StepApi, StepRelay, StepScheduler, StepTask, StepBroker;
    if a.ByTask? && a.taskStep.Resolve? {
      ResolvesFromLog(s, a.pos, a.taskStep.targets);
      KeyIsScheduled(s, a.pos);
      ResolveKeepsUntouched(s, a.pos, a.taskStep.targets, q);
    } else if a.ByTask? {
      TaskKeepsUntouched(s, a.pos, a.taskStep, q);
    } else {
      OthersKeepUntouched(s, a, q);
    }
  }

  /** An endpoint that is disabled or not subscribed to an event's type, and was not edited
      since before the event was ingested, is spared: however the run goes on, with replays,
      crashes and stray records, it is never POSTed to for the event, never scheduled for a
      retry and never gets a row. */
  lemma {:induction false} UnsubscribedIsSpared(s: State, acts: seq<Action>, t: State, e: Uuid, ep: Uuid)
    requires Reachable(s) && e !in s.db.events && Leads(s, acts, t)
    requires forall a :: a in acts ==> !(a.ByApi? && a.api.SetEndpoint? && a.api.endpoint == ep)
    requires e in t.db.events && ep in t.db.endpoints
    requires !t.db.endpoints[ep].enabled || t.db.events[e].eventType !in t.db.endpoints[ep].eventTypes
    ensures forall n: nat :: t.hist.posts[Key(Pair(e, ep), n)] == 0
    ensures forall n: nat :: Key(Pair(e, ep), n) !in t.hist.scheduled && Key(Pair(e, ep), n) !in t.db.attempts
    ensures Pair(e, ep) !in t.db.dlq
  {
    hide Inv, Leads, NoTaskFor;
    var q := Pair(e, ep);
    ReachableInv(s);
    var s0, before :| Init(s0) && Leads(s0, before, s);
    InitInv(s0);
    InitUntouched(s0, q);
    LeadsUntouched(s0, before, s, q);
    LeadsUntouched(s, acts, t, q);
  }

  lemma {:induction false} InitUntouched(s: State, q: Pair)
    requires Init(s)
    ensures Untouched(s, q) && s.db.events == map[]
  {
  }

  /** The call creates, updates or deletes the endpoint. */
  predicate Touches(a: Action, ep: Uuid) {
    a.ByApi? && ((a.api.SetEndpoint? && a.api.endpoint == ep) || (a.api.DeleteEndpoint? && a.api.endpoint == ep))
  }

  /** An endpoint counts as disturbed exactly if some call of the run touched it. */
  lemma {:induction false} DisturbedMeansTouched(s: State, acts: seq<Action>, t: State, ep: Uuid)
    requires Init(s) && Leads(s, acts, t)
    ensures ep in t.hist.disturbed <==> exists a :: a in acts && Touches(a, ep)
  {
    hide Leads, Touches;
    TouchesAreNoted(s, acts, t, ep);
  }

  lemma {:induction false} TouchesAreNoted(s: State, acts: seq<Action>, t: State, ep: Uuid)
    requires Leads(s, acts, t)
    ensures ep in t.hist.disturbed <==> ep in s.hist.disturbed || exists a :: a in acts && Touches(a, ep)
    decreases |acts|
  {
    hide Enabled, Step, Touches;
    if acts != [] {
      TouchIsNoted(s, acts[0], ep);
      TouchesAreNoted(Step(s, acts[0]), acts[1..], t, ep);
      assert forall a :: a in acts <==> a == acts[0] || a in acts[1..];
    }
  }

  lemma {:induction false} TouchIsNoted(s: State, a: Action, ep: Uuid)
    requires Enabled(s, a)
    ensures ep in Step(s, a).hist.disturbed <==> ep in s.hist.disturbed || Touches(a, ep)
  {
    hide RelayEnabled, SchedulerEnabled, TaskEnabled, BrokerEnabled, StepRelay, StepScheduler, StepTask, StepBroker,
      SameWorker, SameRelay, SameResults, SameRetries, SameLog, KeyTaken;
    match a {
      case ByApi(x) =>
      case ByRelay(r, x) => RelayFrame(s, r, x);
      case ByScheduler(c, x) => SchedulerFrame(s, c, x);
      case ByTask(pos, x) => TaskFrame(s, pos, x);
      case ByBroker(x) => BrokerFrame(s, x);
    }
  }

  /** In particular an endpoint nobody touched is only ever POSTed to for events whose type
      it subscribed to. */
  lemma {:induction false} UntouchedEndpointIsSpared(t: State, e: Uuid, ep: Uuid, n: nat)
    requires Reachable(t) && e in t.db.events && ep in t.db.endpoints && ep !in t.hist.disturbed
    requires t.hist.posts[Key(Pair(e, ep), n)] > 0
    ensures t.db.endpoints[ep].enabled && t.db.events[e].eventType in t.db.endpoints[ep].eventTypes
  {
    hide Leads;
    var s, acts :| Init(s) && Leads(s, acts, t);
    DisturbedMeansTouched(s, acts, t, ep);
    assert forall a: Action :: a in acts && a.ByApi? && a.api.SetEndpoint? && a.api.endpoint == ep ==> Touches(a, ep);
    NoSteps(s);
    if !(t.db.endpoints[ep].enabled && t.db.events[e].eventType in t.db.endpoints[ep].eventTypes) {
      UnsubscribedIsSpared(s, acts, t, e, ep);
    }
  }

  lemma {:induction false} NoSteps(s: State)
    requires Init(s)
    ensures Reachable(s) && s.db.events == map[]
  {
    assert Leads(s, [], s);
  }
}
