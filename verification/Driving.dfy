/** Runs that can be taken from any state: fetch up to a record and process it without
    interruption, or take a retry from the store through the topic to its delivery. */
module Driving {
  import opened Domain
  import opened Watermarks
  import opened Protocol
  import opened Invariants
  import opened PipelineSteps
  import opened Safety
  import opened DeliveryWorker
  import opened WorkerRuns

  /** Endpoints, events, schedulers, running tasks and records are as they were; there
      may be more tasks and more records. */
  ghost predicate Onwards(s: State, t: State) {
    && t.max == s.max && |t.kafka.parts| == |s.kafka.parts|
    && t.db.endpoints == s.db.endpoints && t.db.events == s.db.events && t.live.schedulers == s.live.schedulers
    && (forall x :: x in s.live.tasks ==> x in t.live.tasks && t.live.tasks[x] == s.live.tasks[x])
    && (forall x :: x in s.kafka.log ==> x in t.kafka.log && t.kafka.log[x] == s.kafka.log[x])
  }

  lemma {:induction false} OnwardsTwice(s: State, t: State, u: State)
    requires Onwards(s, t) && Onwards(t, u)
    ensures Onwards(s, u)
  {
  }

  /** No call of the API, and no other answers than those of this world. */
  ghost predicate Tame(acts: seq<Action>, w: World) {
    forall a :: a in acts ==> !a.ByApi? && (a.ByTask? ==> InWorld(a.taskStep, w))
  }

  // ---------- fetching ----------

  /** The records of the partition up to the offset have been fetched. */
  ghost predicate FetchedTo(s: State, t: State, p: nat, o: nat)
    requires p < |s.kafka.parts|
  {
    var first := s.kafka.parts[p].next;
    && t.max == s.max && t.db == s.db && t.redis == s.redis && t.hist == s.hist && t.kafka.log == s.kafka.log
    && |t.kafka.parts| == |s.kafka.parts| && t.live.schedulers == s.live.schedulers
    && (forall x :: Covered(t.kafka.parts, x) <==> Covered(s.kafka.parts, x))
    && (forall x: Pos :: x.part == p && first <= x.offset <= o ==>
          x in t.live.tasks && t.live.tasks[x] == Task([], 0, Resolving))
    && (forall x: Pos :: !(x.part == p && first <= x.offset <= o) && x in s.live.tasks ==>
          x in t.live.tasks && t.live.tasks[x] == s.live.tasks[x])
    && t.kafka.parts[p].next == o + 1 && t.kafka.parts[p].end == s.kafka.parts[p].end
  }

  lemma {:induction false} FetchTo(s: State, p: nat, o: nat) returns (acts: seq<Action>, t: State)
    requires p < |s.kafka.parts| && s.kafka.parts[p].next <= o < s.kafka.parts[p].end
    ensures Leads(s, acts, t) && FetchedTo(s, t, p, o)
    ensures forall a :: a in acts ==> a.ByBroker?
    decreases o
  {
    hide Leads, Started;
    if s.kafka.parts[p].next == o {
      NoAction(s);
      LeadsOn(s, [], s, ByBroker(Fetch(p)));
      acts, t := [] + [ByBroker(Fetch(p))], StepFetch(s, p);
    } else {
      var before, u := FetchTo(s, p, o - 1);
      LeadsOn(s, before, u, ByBroker(Fetch(p)));
      acts, t := before + [ByBroker(Fetch(p))], StepFetch(u, p);
      assert forall x :: Covered(t.kafka.parts, x) <==> Covered(u.kafka.parts, x);
    }
  }

  lemma {:induction false} NoAction(s: State)
    ensures Leads(s, [], s)
  {
  }

  lemma {:induction false} TasksAreFetched(s: State, p: nat)
    requires Inv(s) && p < |s.kafka.parts|
    ensures s.kafka.parts[p].next <= s.kafka.parts[p].end
    ensures forall x :: x in s.live.tasks && x.part == p ==> x.offset < s.kafka.parts[p].next
    ensures forall x :: x in s.kafka.log && x.part == p ==> x.offset < s.kafka.parts[p].end
  {
    hide FinishedInv, TasksInv, HandOffInv, SchedulersInv, OutboxInv, RelayCountInv, RowsInv, TaskRowsInv, ResultsInv,
      TaskOutcomeInv, CoveredInv, StableInv, TargetsInv;
    assert PartOk(s.kafka.parts[p]);
  }

  // ---------- a record ----------

  /** A record of a known event that was not fetched yet can be fetched and processed. */
  lemma {:induction false} Process(s: State, pos: Pos, w: World)
    returns (acts: seq<Action>, t: State, targets: seq<Uuid>)
    requires Inv(s) && pos in s.kafka.log && pos.part < |s.kafka.parts| && pos.offset >= s.kafka.parts[pos.part].next
    requires !s.kafka.log[pos].Poison? && EventOf(s.kafka.log[pos]) in s.db.events
    ensures Leads(s, acts, t) && Tame(acts, w) && Inv(t) && Onwards(s, t) && t.kafka.log == s.kafka.log
    ensures Distinct(targets) && Elements(targets) == TargetSet(s, s.kafka.log[pos])
    ensures EffectsOf(t) == DeliverAll(EffectsOf(s), EventOf(s.kafka.log[pos]), targets,
                                       AttemptOf(s.kafka.log[pos]), w, s.max)
    ensures forall x :: Covered(t.kafka.parts, x) <==> Covered(s.kafka.parts, x) || x == pos
  {
    hide Leads, Inv, TargetSet, Distinct, Elements, DeliverAll, Finished;
    TasksAreFetched(s, pos.part);
    var a, u := FetchTo(s, pos.part, pos.offset);
    targets := SomeOrder(TargetSet(s, s.kafka.log[pos]));
    SameTargets(s, u, s.kafka.log[pos]);
    var b;
    b, t := RecordRun(u, pos, targets, w);
    FinishedCovers(u, t, pos);
    LeadsThrough(s, a, u, b, t);
    acts := a + b;
    LeadsInv(s, acts, t);
  }

  lemma {:induction false} SameTargets(s: State, u: State, m: Message)
    requires u.db == s.db && !m.Poison? && EventOf(m) in s.db.events
    ensures TargetSet(u, m) == TargetSet(s, m)
  {
  }

  lemma {:induction false} FinishedCovers(u: State, t: State, pos: Pos)
    requires pos.part < |u.kafka.parts|
    requires t.kafka.parts == u.kafka.parts[pos.part := u.kafka.parts[pos.part].(
                                                 wm := Finished(u.kafka.parts[pos.part].wm, pos.offset),
                                                 done := u.kafka.parts[pos.part].done + {pos.offset})]
    ensures forall x :: Covered(t.kafka.parts, x) <==> Covered(u.kafka.parts, x) || x == pos
  {
    hide Finished;
  }

  // ---------- a retry ----------

  lemma {:induction false} FreshId(ids: set<nat>) returns (c: nat)
    ensures c !in ids && forall x :: x in ids ==> x < c
  {
    if ids == {} {
      c := 0;
    } else {
      var x := Pick(ids);
      var d := FreshId(ids - {x});
      assert forall y :: y in ids ==> y == x || y in ids - {x};
      c := if x < d then d else x + 1;
    }
  }

  /** A scheduler takes an entry of the retry store to the topic. */
  lemma {:induction false} Republished(s: State, k: Key, p: nat) returns (acts: seq<Action>, t: State)
    requires k in s.redis && p < |s.kafka.parts|
    ensures Leads(s, acts, t) && forall a :: a in acts ==> a.ByScheduler?
    ensures t == Append(s, p, Targeted(k)).(redis := s.redis - {k})
  {
    hide Leads;
    var c := FreshId(s.live.schedulers.Keys);
    var x, y, z := ByScheduler(c, Poll([k])), ByScheduler(c, SchedulerStep.Republish(p)), ByScheduler(c, Cancel);
    NoAction(s);
    LeadsOn(s, [], s, x);
    var u := StepScheduler(s, c, Poll([k]));
    LeadsOn(s, [] + [x], u, y);
    var v := StepRepublish(u, c, p);
    LeadsOn(s, [] + [x] + [y], v, z);
    t := StepCancelRepublished(v, c);
    acts := [] + [x] + [y] + [z];
    assert t.live.schedulers == s.live.schedulers;
  }

  lemma {:induction false} EndIsNext(s: State, p: nat)
    requires Inv(s) && p < |s.kafka.parts|
    ensures s.kafka.parts[p].next <= s.kafka.parts[p].end && Pos(p, s.kafka.parts[p].end) !in s.kafka.log
  {
    hide Inv;
    TasksAreFetched(s, p);
  }

  /** A retry of an enabled endpoint can be taken through the topic and delivered. */
  lemma {:induction false} Retry(s: State, k: Key, p: nat, w: World) returns (acts: seq<Action>, t: State, pos: Pos)
    requires Inv(s) && k in s.redis && p < |s.kafka.parts|
    requires k.pair.endpoint in s.db.endpoints && s.db.endpoints[k.pair.endpoint].enabled
    ensures Leads(s, acts, t) && Tame(acts, w) && Inv(t) && Onwards(s, t)
    ensures pos !in s.kafka.log && t.kafka.log == s.kafka.log[pos := Targeted(k)]
    ensures EffectsOf(t) == Deliver(EffectsOf(s).(redis := s.redis - {k}), k, w, s.max)
    ensures forall x :: Covered(t.kafka.parts, x) <==> Covered(s.kafka.parts, x) || x == pos
  {
    hide Leads, Inv, Deliver, Distinct;
    var a, u := Republished(s, k, p);
    LeadsInv(s, a, u);
    EndIsNext(s, p);
    pos := Pos(p, s.kafka.parts[p].end);
    assert u.kafka.log[pos] == Targeted(k);
    assert forall x :: Covered(u.kafka.parts, x) <==> Covered(s.kafka.parts, x);
    RetriesAreKnown(s, k);
    var b, targets;
    b, t, targets := Process(u, pos, w);
    OneTarget(targets, k.pair.endpoint);
    OneDelivery(EffectsOf(u), k, w, s.max);
    LeadsThrough(s, a, u, b, t);
    acts := a + b;
  }

  lemma {:induction false} RetriesAreKnown(s: State, k: Key)
    requires Inv(s) && k in s.redis
    ensures k in s.hist.scheduled && k.pair.event in s.db.events
  {
    hide Inv;
    SchedulerFacts(s);
    ScheduledEvents(s, k);
  }

  lemma {:induction false} TwiceIsNotDistinct(targets: seq<Uuid>, ep: Uuid)
    requires |targets| > 1 && forall i :: 0 <= i < |targets| ==> targets[i] == ep
    ensures !Distinct(targets)
  {
    assert targets[0] == targets[1];
  }

  lemma {:induction false} OneTarget(targets: seq<Uuid>, ep: Uuid)
    requires Distinct(targets) && Elements(targets) == {ep}
    ensures targets == [ep]
  {
    assert ep in Elements(targets) && ep in targets;
    forall i | 0 <= i < |targets| ensures targets[i] == ep {
      assert targets[i] in Elements(targets);
    }
    if |targets| > 1 {
      TwiceIsNotDistinct(targets, ep);
      assert false;
    }
  }

  lemma {:induction false} OneDelivery(fx: Effects, k: Key, w: World, max: nat)
    ensures DeliverAll(fx, k.pair.event, [k.pair.endpoint], k.attempt, w, max) == Deliver(fx, k, w, max)
  {
    hide Deliver;
    assert [k.pair.endpoint][..0] == [];
    assert Key(Pair(k.pair.event, k.pair.endpoint), k.attempt) == k;
  }
}
