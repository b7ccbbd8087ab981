/** The replay of a dead letter as the call makes it: publish the event, then delete the
    DLQ row, with other steps in between or without. */
module ReplayCalls {
  import opened Domain
  import opened Watermarks
  import opened Protocol
  import opened Invariants
  import opened PipelineSteps
  import opened Safety
  import opened Absorb
  import opened Deeds
  import opened Recording
  import opened DeliveryWorker
  import opened WorkerRuns
  import opened WorkerLaws
  import opened Driving
  import opened Obligations
  import opened BothRows
  import opened LostReplays

  function Publication(q: Pair, p: nat): Action {
    ByApi(ApiStep.Publish(p, q.event))
  }

  function Removal(pairs: set<Pair>): Action {
    ByApi(DeleteDlq(pairs))
  }

  /** A run can be taken apart. */
  lemma {:induction false} LeadsApart(s: State, a: seq<Action>, u: State, b: seq<Action>, t: State)
    requires Leads(s, a, u) && Leads(s, a + b, t)
    ensures Leads(u, b, t)
    decreases |a|
  {
    hide Enabled, Step;
    if a == [] {
      assert a + b == b;
    } else {
      assert (a + b)[0] == a[0] && (a + b)[1..] == a[1..] + b;
      LeadsApart(Step(s, a[0]), a[1..], u, b, t);
    }
  }

  lemma {:induction false} SuccessServes(s: State, acts: seq<Action>, t: State, q: Pair)
    requires Inv(s) && Leads(s, acts, t) && ByApi(DeleteEndpoint(q.endpoint)) !in acts && HasSuccess(s.db.attempts, q)
    ensures Served(s, acts, t, q)
  {
    hide Inv, Leads, Ever, EverRecords;
    RunRecords(s, acts, t, q);
  }

  // ---------- the publication and the removal next to each other ----------

  /** Nothing is under way for the dead letter but, perhaps, a DLQ handler before its
      cancel. */
  ghost predicate Replayable(s: State, q: Pair, p: nat, pos1: Pos) {
    && Reachable(s) && q in s.db.dlq && p < |s.kafka.parts| && (forall n: nat :: Key(q, n) !in s.redis)
    && (forall pos :: pos in s.kafka.log && About(s.kafka.log[pos], q) ==>
          Covered(s.kafka.parts, pos) || Handling(s, q, pos, pos1))
  }

  lemma {:induction false} ReplayedAtOnce(s: State, q: Pair, p: nat, pairs: set<Pair>) returns (u: State)
    requires Inv(s) && p < |s.kafka.parts| && q.event in s.db.events && q in pairs
    ensures Leads(s, [Publication(q, p), Removal(pairs)], u) && NothingFor(s, [Publication(q, p), Removal(pairs)], q)
    ensures u == Append(s, p, Fanout(q.event)).(db := s.db.(dlq := s.db.dlq - pairs)) && Inv(u)
  {
    hide Inv, Leads;
    var x, y := Publication(q, p), Removal(pairs);
    var v := Append(s, p, Fanout(q.event));
    OneStep(s, x, v, q);
    u := v.(db := v.db.(dlq := v.db.dlq - pairs));
    OneStep(v, y, u, q);
    LeadsThrough(s, [x], v, [y], u);
    EverThrough(s, [x], v, [y], q, Acknowledges);
    EverThrough(s, [x], v, [y], q, Drops);
    assert [x] + [y] == [x, y];
    LeadsInv(s, [x, y], u);
  }

  lemma {:induction false} CalmIsTheSame(s: State, q: Pair, p: nat, u: State)
    requires Inv(s) && p < |s.kafka.parts|
    requires u == Append(s, p, Fanout(q.event)).(db := u.db) && u.db.attempts == s.db.attempts
    ensures Calm(u, q) <==> Calm(s, q)
  {
    hide Inv, HasSuccess, Cancelling;
    LogsOfTasks(s);
    EndIsNotCovered(s, p);
    var pos := Pos(p, s.kafka.parts[p].end);
    assert forall x :: Covered(u.kafka.parts, x) <==> Covered(s.kafka.parts, x);
    hide Covered;
    assert TakenUp(u) == TakenUp(s);
    forall k: Key ensures InNewRecord(u.kafka.log, TakenUp(s), Targeted(k)) <==>
        InNewRecord(s.kafka.log, TakenUp(s), Targeted(k))
    {
      if InNewRecord(s.kafka.log, TakenUp(s), Targeted(k)) {
        var x :| x in s.kafka.log && x !in TakenUp(s) && s.kafka.log[x] == Targeted(k);
        assert u.kafka.log[x] == Targeted(k);
      }
    }
    hide InNewRecord;
  }

  lemma {:induction false} LonelyAfter(s: State, q: Pair, p: nat, pos1: Pos, pairs: set<Pair>, u: State)
    requires Replayable(s, q, p, pos1) && !HasSuccess(s.db.attempts, q) && q in pairs && Inv(s) && Reachable(u)
    requires q.endpoint in s.db.endpoints
    requires u == Append(s, p, Fanout(q.event)).(db := s.db.(dlq := s.db.dlq - pairs))
    ensures Lonely(u, q, Pos(p, s.kafka.parts[p].end), pos1)
  {
    hide Inv, HasSuccess, Cancelling, Reachable;
    LogsOfTasks(s);
    EndIsNext(s, p);
    assert forall x :: Covered(u.kafka.parts, x) <==> Covered(s.kafka.parts, x);
    hide Covered;
  }

  /** Every run that begins with the call serves the pair, once nothing is left to do for
      it, provided nobody removes its DLQ row again. */
  ghost predicate CallServes(s: State, q: Pair, call: seq<Action>) {
    forall acts, t :: Leads(s, call + acts, t) && Keeping(acts, q) && DoneFor(t, q) ==> Served(s, call + acts, t, q)
  }

  lemma {:induction false} ServedAfter(s: State, call: seq<Action>, u: State, acts: seq<Action>, t: State, q: Pair)
    requires Leads(s, call, u) && NothingFor(s, call, q)
    ensures Served(s, call + acts, t, q) <==> Served(u, acts, t, q)
  {
    hide Leads, Ever, HasSuccess;
    EverThrough(s, call, u, acts, q, Acknowledges);
    EverThrough(s, call, u, acts, q, Drops);
  }

  lemma {:induction false} CallServesIff(s: State, call: seq<Action>, u: State, q: Pair)
    requires Leads(s, call, u) && NothingFor(s, call, q)
    ensures CallServes(s, q, call) <==> AlwaysServed(u, q)
  {
    hide Leads, NothingFor, DoneFor, Served, Keeping;
    if AlwaysServed(u, q) {
      forall acts, t | Leads(s, call + acts, t) && Keeping(acts, q) && DoneFor(t, q)
        ensures Served(s, call + acts, t, q)
      {
        LeadsApart(s, call, u, acts, t);
        ServedAfter(s, call, u, acts, t, q);
      }
    }
    if CallServes(s, q, call) {
      forall acts, t | Leads(u, acts, t) && Keeping(acts, q) && DoneFor(t, q) ensures Served(u, acts, t, q) {
        LeadsThrough(s, call, u, acts, t);
        ServedAfter(s, call, u, acts, t, q);
      }
    }
  }

  lemma {:induction false} ReachableOn(s: State, acts: seq<Action>, t: State)
    requires Reachable(s) && Leads(s, acts, t)
    ensures Reachable(t)
  {
    hide Leads, Init;
    var i, before :| Init(i) && Leads(i, before, s);
    LeadsThrough(i, before, s, acts, t);
  }

  lemma {:induction false} SuccessCallServes(s: State, q: Pair, call: seq<Action>)
    requires Inv(s) && HasSuccess(s.db.attempts, q) && ByApi(DeleteEndpoint(q.endpoint)) !in call
    ensures CallServes(s, q, call)
  {
    hide Inv, HasSuccess, Leads, DoneFor, Served;
    forall acts, t | Leads(s, call + acts, t) && Keeping(acts, q) ensures Served(s, call + acts, t, q) {
      assert Unburies(ByApi(DeleteEndpoint(q.endpoint)), q);
      SuccessServes(s, call + acts, t, q);
    }
  }

  /** A replay whose publication and removal follow each other is served by every run
      exactly if the state before it is calm for the pair. */
  lemma {:induction false} ReplayAtOnceIsServedIff(s: State, q: Pair, p: nat, pos1: Pos, pairs: set<Pair>)
    requires Replayable(s, q, p, pos1) && q in pairs
    ensures CallServes(s, q, [Publication(q, p), Removal(pairs)]) <==> Calm(s, q)
  {
    ReachableFacts(s);
    var call := [Publication(q, p), Removal(pairs)];
    if HasSuccess(s.db.attempts, q) {
      SuccessCallServes(s, q, call);
    } else {
      hide Inv, HasSuccess, Leads, Reachable, CallServes, AlwaysServed, Calm, NothingFor, Lonely;
      var u := ReplayedAtOnce(s, q, p, pairs);
      ReachableOn(s, call, u);
      CallServesIff(s, call, u, q);
      CalmIsTheSame(s, q, p, u);
      LonelyAfter(s, q, p, pos1, pairs, u);
      ReplayIsServedIff(u, q, Pos(p, s.kafka.parts[p].end), pos1);
    }
  }

  // ---------- with other steps in between ----------

  /** The call with some steps between publication and removal, and what comes after. */
  function Spread(q: Pair, p: nat, mid: seq<Action>, pairs: set<Pair>, rest: seq<Action>): seq<Action> {
    [Publication(q, p)] + mid + [Removal(pairs)] + rest
  }

  /** Every such run serves the pair, once nothing is left to do for it, provided nobody
      else removes its DLQ row. */
  ghost predicate SpreadServes(s: State, q: Pair, p: nat) {
    forall mid, pairs, rest, t ::
      q in pairs && Keeping(mid, q) && Keeping(rest, q) && Leads(s, Spread(q, p, mid, pairs, rest), t) && DoneFor(t, q)
      ==> Served(s, Spread(q, p, mid, pairs, rest), t, q)
  }

  lemma {:induction false} DeliverGivesUp(fx: Effects, q: Pair, max: nat)
    requires !HasSuccess(fx.attempts, q)
    ensures var gx := Deliver(fx, Key(q, 0), Says(q.endpoint, Response(400)), max);
            !HasSuccess(gx.attempts, q) && gx.redis <= fx.redis
  {
    assert Says(q.endpoint, Response(400)).Answer(q.endpoint) == Response(400);
  }

  /** The record is processed between publication and removal: its delivery gives up, the
      DLQ row is there already, and then it goes. */
  lemma {:induction false} TakenUpInBetween(s: State, q: Pair, p: nat) returns (mid: seq<Action>, t: State)
    requires Inv(s) && |s.kafka.parts| >= 1 && p < |s.kafka.parts| && DoneFor(s, q) && !HasSuccess(s.db.attempts, q)
    requires q.event in s.db.events && q.endpoint in s.db.endpoints
    ensures Leads(s, [Publication(q, p)] + mid, t) && Keeping(mid, q) && NothingFor(s, [Publication(q, p)] + mid, q)
    ensures DoneFor(t, q) && !HasSuccess(t.db.attempts, q) && Inv(t)
  {
    hide Inv, Leads, HasSuccess, Deliver, DeliverAll, SameFor, Matches, TargetSet, Distinct, Ever, IsTargetOf, Keeping;
    var x := Publication(q, p);
    var u, pos := Append(s, p, Fanout(q.event)), Pos(p, s.kafka.parts[p].end);
    OneStep(s, x, u, q);
    LeadsInv(s, [x], u);
    EndIsNext(s, p);
    assert u.kafka.log[pos] == Fanout(q.event);
    assert forall y :: Covered(u.kafka.parts, y) <==> Covered(s.kafka.parts, y);
    var pre, v := MadeTarget(u, q);
    var b;
    b, t := GivenUp(v, q, pos);
    mid := pre + b;
    LeadsThrough(u, pre, v, b, t);
    LeadsThrough(s, [x], u, mid, t);
    NothingThrough(u, pre, v, b, q);
    NothingThrough(s, [x], u, mid, q);
    KeepingBoth(pre, b, q);
  }

  lemma {:induction false} NothingThrough(s: State, a: seq<Action>, u: State, b: seq<Action>, q: Pair)
    requires Leads(s, a, u) && NothingFor(s, a, q) && NothingFor(u, b, q)
    ensures NothingFor(s, a + b, q)
  {
    hide Leads, Ever;
    EverThrough(s, a, u, b, q, Acknowledges);
    EverThrough(s, a, u, b, q, Drops);
  }

  lemma {:induction false} KeepingBoth(a: seq<Action>, b: seq<Action>, q: Pair)
    requires Keeping(a, q) && NoCall(b)
    ensures Keeping(a + b, q)
  {
  }

  lemma {:induction false} GivenUp(s: State, q: Pair, pos: Pos) returns (acts: seq<Action>, t: State)
    requires Inv(s) && IsTargetOf(s, q) && !HasSuccess(s.db.attempts, q) && (forall n: nat :: Key(q, n) !in s.redis)
    requires pos in s.kafka.log && s.kafka.log[pos] == Fanout(q.event)
    requires pos.part < |s.kafka.parts| && pos.offset >= s.kafka.parts[pos.part].next
    requires forall x :: x in s.kafka.log && About(s.kafka.log[x], q) ==> Covered(s.kafka.parts, x) || x == pos
    ensures Leads(s, acts, t) && NoCall(acts) && NothingFor(s, acts, q) && Inv(t)
    ensures DoneFor(t, q) && !HasSuccess(t.db.attempts, q)
  {
    hide Leads, Inv, Deliver, DeliverAll, HasSuccess, SameFor, Matches, TargetSet, Distinct, Covered, Ever;
    var w := Says(q.endpoint, Response(400));
    var targets;
    acts, t, targets := Process(s, pos, w);
    FailingWorld(acts, q.endpoint, 400);
    NoAnswerAcknowledgesNobody(s, acts, q);
    TargetIsNotDropped(s, acts, q);
    TargetsInclude(s, q);
    assert q.endpoint in targets <==> q.endpoint in Elements(targets);
    RecordPairByPair(EffectsOf(s), q.event, targets, 0, w, s.max, q);
    SameForMeans(Deliver(EffectsOf(s), Key(q, 0), w, s.max), EffectsOf(t), q);
    DeliverGivesUp(EffectsOf(s), q, s.max);
  }

  lemma {:induction false} Removed(s: State, q: Pair) returns (t: State)
    requires DoneFor(s, q) && !HasSuccess(s.db.attempts, q)
    ensures Leads(s, [Removal({q})], t) && NothingFor(s, [Removal({q})], q)
    ensures DoneFor(t, q) && !HasSuccess(t.db.attempts, q) && q !in t.db.dlq
  {
    hide Leads, HasSuccess, Covered, Ever;
    t := s.(db := s.db.(dlq := s.db.dlq - {q}));
    OneStep(s, Removal({q}), t, q);
  }

  /** The run that loses the replay. */
  lemma {:induction false} SpreadLoses(s: State, q: Pair, p: nat) returns (mid: seq<Action>, t: State)
    requires Reachable(s) && q in s.db.dlq && DoneFor(s, q) && p < |s.kafka.parts| && !HasSuccess(s.db.attempts, q)
    ensures Keeping(mid, q) && Leads(s, Spread(q, p, mid, {q}, []), t) && DoneFor(t, q)
    ensures !Served(s, Spread(q, p, mid, {q}, []), t, q)
  {
    assert q.event in s.db.events && q.endpoint in s.db.endpoints by {
      ReachableFacts(s);
    }
    hide Inv, Leads, HasSuccess, Reachable, Ever, Keeping, DlqKnown, DoneFor, Publication, Removal;
    ReachableFacts(s);
    var u;
    mid, u := TakenUpInBetween(s, q, p);
    t := Removed(u, q);
    var before := [Publication(q, p)] + mid;
    LeadsThrough(s, before, u, [Removal({q})], t);
    NothingThrough(s, before, u, [Removal({q})], q);
    assert before + [Removal({q})] + [] == before + [Removal({q})];
  }

  /** With other steps in between, the replay of a dead letter with nothing else under way
      is served by every run exactly if the pair has a success row. */
  lemma {:induction false} SpreadReplayIsServedIff(s: State, q: Pair, p: nat)
    requires Reachable(s) && q in s.db.dlq && DoneFor(s, q) && p < |s.kafka.parts|
    ensures SpreadServes(s, q, p) <==> HasSuccess(s.db.attempts, q)
  {
    hide Inv, Leads, HasSuccess, Reachable, DoneFor, Served, DlqKnown;
    if HasSuccess(s.db.attempts, q) {
      ReachableFacts(s);
      forall mid, pairs, rest, t |
        q in pairs && Keeping(mid, q) && Keeping(rest, q) && Leads(s, Spread(q, p, mid, pairs, rest), t)
        ensures Served(s, Spread(q, p, mid, pairs, rest), t, q)
      {
        assert Unburies(ByApi(DeleteEndpoint(q.endpoint)), q);
        SuccessServes(s, Spread(q, p, mid, pairs, rest), t, q);
      }
    } else {
      var mid, t := SpreadLoses(s, q, p);
      assert Keeping([], q) && q in {q};
      assert !SpreadServes(s, q, p);
    }
  }
}
