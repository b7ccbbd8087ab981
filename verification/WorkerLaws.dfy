/** What one record does to the tables, pair by pair. */
module WorkerLaws {
  import opened Domain
  import opened Protocol
  import opened DeliveryWorker

  /** Nothing about the pair differs. */
  ghost predicate SameFor(fx: Effects, gx: Effects, q: Pair) {
    && (forall n: nat :: Key(q, n) in fx.attempts <==> Key(q, n) in gx.attempts)
    && (forall n: nat :: Key(q, n) in fx.attempts && Key(q, n) in gx.attempts ==>
          fx.attempts[Key(q, n)] == gx.attempts[Key(q, n)])
    && (q in fx.dlq <==> q in gx.dlq)
    && (forall n: nat :: Key(q, n) in fx.redis <==> Key(q, n) in gx.redis)
    && (forall n: nat :: fx.posts[Key(q, n)] == gx.posts[Key(q, n)])
    && (q in fx.acked <==> q in gx.acked)
  }

  lemma {:induction false} SameAsItself(fx: Effects, q: Pair)
    ensures SameFor(fx, fx, q)
  {
  }

  lemma {:induction false} SamePairByPair(fx: Effects, gx: Effects)
    requires forall q :: SameFor(fx, gx, q)
    ensures fx == gx
  {
    forall k: Key ensures (k in fx.attempts <==> k in gx.attempts) && (k in fx.redis <==> k in gx.redis)
      && (k in fx.attempts && k in gx.attempts ==> fx.attempts[k] == gx.attempts[k]) && fx.posts[k] == gx.posts[k]
    {
      assert SameFor(fx, gx, k.pair) && k == Key(k.pair, k.attempt);
    }
    assert fx.attempts == gx.attempts;
    forall q ensures (q in fx.dlq <==> q in gx.dlq) && (q in fx.acked <==> q in gx.acked) {
      assert SameFor(fx, gx, q);
    }
    assert fx.dlq == gx.dlq && fx.redis == gx.redis && fx.acked == gx.acked;
    assert fx.posts == gx.posts;
  }

  /** Every part of a delivery concerns its own pair only. */
  lemma {:induction false} PartsAreLocal(fx: Effects, k: Key, o: Outcome, w: World, q: Pair)
    requires q != k.pair
    ensures SameFor(fx, Posted(fx, k, o), q) && SameFor(fx, Inserted(fx, k, o), q) && SameFor(fx, Buried(fx, k, w), q)
    ensures SameFor(fx, fx.(redis := fx.redis + {Key(k.pair, k.attempt + 1)}), q)
  {
    hide StatusOf;
  }

  lemma {:induction false} SameTwice(fx: Effects, gx: Effects, hx: Effects, q: Pair)
    requires SameFor(fx, gx, q) && SameFor(gx, hx, q)
    ensures SameFor(fx, hx, q)
  {
  }

  /** A delivery concerns its own pair only. */
  lemma {:induction false} DeliverIsLocal(fx: Effects, k: Key, w: World, max: nat, q: Pair)
    requires q != k.pair
    ensures SameFor(fx, Deliver(fx, k, w, max), q)
  {
    SameAsItself(fx, q);
    hide SameFor, HasSuccess, StatusOf, GivesUp, World.Answer, Posted, Inserted, Buried;
    var o := w.Answer(k.pair.endpoint);
    var fx1 := Posted(fx, k, o);
    var fx2 := Inserted(fx1, k, o);
    PartsAreLocal(fx, k, o, w, q);
    PartsAreLocal(fx1, k, o, w, q);
    PartsAreLocal(fx2, k, o, w, q);
    SameTwice(fx, fx1, fx2, q);
    SameTwice(fx, fx2, Buried(fx2, k, w), q);
    SameTwice(fx, fx2, fx2.(redis := fx2.redis + {Key(k.pair, k.attempt + 1)}), q);
  }

  /** Every part of a delivery treats equal situations of its pair equally. */
  lemma {:induction false} PartsAreDetermined(fx: Effects, gx: Effects, k: Key, o: Outcome, w: World)
    requires SameFor(fx, gx, k.pair)
    ensures SameFor(Posted(fx, k, o), Posted(gx, k, o), k.pair)
    ensures SameFor(Inserted(fx, k, o), Inserted(gx, k, o), k.pair)
    ensures SameFor(Buried(fx, k, w), Buried(gx, k, w), k.pair)
    ensures var next := Key(k.pair, k.attempt + 1);
            SameFor(fx.(redis := fx.redis + {next}), gx.(redis := gx.redis + {next}), k.pair)
  {
    hide StatusOf;
    assert k == Key(k.pair, k.attempt);
  }

  lemma {:induction false} SuccessIsDetermined(fx: Effects, gx: Effects, q: Pair)
    requires SameFor(fx, gx, q)
    ensures HasSuccess(fx.attempts, q) <==> HasSuccess(gx.attempts, q)
  {
  }

  /** What a delivery does to its pair depends on nothing else. */
  lemma {:induction false} DeliverIsDetermined(fx: Effects, gx: Effects, k: Key, w: World, max: nat)
    requires SameFor(fx, gx, k.pair)
    ensures SameFor(Deliver(fx, k, w, max), Deliver(gx, k, w, max), k.pair)
  {
    hide SameFor, HasSuccess, StatusOf, GivesUp, World.Answer, Posted, Inserted, Buried;
    SuccessIsDetermined(fx, gx, k.pair);
    var o := w.Answer(k.pair.endpoint);
    PartsAreDetermined(fx, gx, k, o, w);
    PartsAreDetermined(Posted(fx, k, o), Posted(gx, k, o), k, o, w);
    PartsAreDetermined(Inserted(Posted(fx, k, o), k, o), Inserted(Posted(gx, k, o), k, o), k, o, w);
  }

  /** The record does to each target what a delivery to it alone would do, and to any
      other pair nothing. */
  lemma {:induction false} RecordPairByPair(fx: Effects, event: Uuid, targets: seq<Uuid>, n: nat, w: World,
                                            max: nat, q: Pair)
    requires Distinct(targets)
    ensures q.event == event && q.endpoint in targets ==>
              SameFor(Deliver(fx, Key(q, n), w, max), DeliverAll(fx, event, targets, n, w, max), q)
    ensures !(q.event == event && q.endpoint in targets) ==>
              SameFor(fx, DeliverAll(fx, event, targets, n, w, max), q)
    decreases |targets|
  {
    hide SameFor, Deliver;
    if targets == [] {
      SameAsItself(fx, q);
    } else {
      var last := |targets| - 1;
      var rest := targets[..last];
      var gx := DeliverAll(fx, event, rest, n, w, max);
      var k := Key(Pair(event, targets[last]), n);
      assert targets == rest + [targets[last]];
      assert targets[last] !in rest;
      RecordPairByPair(fx, event, rest, n, w, max, q);
      if q == k.pair {
        DeliverIsDetermined(fx, gx, k, w, max);
      } else {
        DeliverIsLocal(gx, k, w, max, q);
        if q.event == event && q.endpoint in rest {
          SameTwice(Deliver(fx, Key(q, n), w, max), gx, Deliver(gx, k, w, max), q);
        } else {
          SameTwice(fx, gx, Deliver(gx, k, w, max), q);
        }
      }
    }
  }

  lemma {:induction false} SameBothWays(fx: Effects, gx: Effects, hx: Effects, q: Pair)
    requires SameFor(hx, fx, q) && SameFor(hx, gx, q)
    ensures SameFor(fx, gx, q)
  {
  }

  /** The order in which the endpoints table yields the targets makes no difference. */
  lemma {:induction false} OrderDoesNotMatter(fx: Effects, event: Uuid, xs: seq<Uuid>, ys: seq<Uuid>, n: nat,
                                              w: World, max: nat)
    requires Distinct(xs) && Distinct(ys) && Elements(xs) == Elements(ys)
    ensures DeliverAll(fx, event, xs, n, w, max) == DeliverAll(fx, event, ys, n, w, max)
  {
    hide SameFor, Deliver, DeliverAll;
    forall q ensures SameFor(DeliverAll(fx, event, xs, n, w, max), DeliverAll(fx, event, ys, n, w, max), q) {
      RecordPairByPair(fx, event, xs, n, w, max, q);
      RecordPairByPair(fx, event, ys, n, w, max, q);
      assert q.endpoint in xs <==> q.endpoint in Elements(xs);
      assert q.endpoint in ys <==> q.endpoint in Elements(ys);
      var hx := if q.event == event && q.endpoint in xs then Deliver(fx, Key(q, n), w, max) else fx;
      SameBothWays(DeliverAll(fx, event, xs, n, w, max), DeliverAll(fx, event, ys, n, w, max), hx, q);
    }
    SamePairByPair(DeliverAll(fx, event, xs, n, w, max), DeliverAll(fx, event, ys, n, w, max));
  }

  // ---------- the verdict ----------

  /** A record does this to each of its targets: one without a success row is POSTed to
      once and then answered, dead-lettered or scheduled again, as its answer says; one with
      a success row is left alone. */
  lemma {:induction false} RecordVerdicts(fx: Effects, event: Uuid, targets: seq<Uuid>, n: nat, w: World, max: nat,
                                          ep: Uuid)
    requires Distinct(targets) && ep in targets
    ensures var q, gx := Pair(event, ep), DeliverAll(fx, event, targets, n, w, max);
            var k, o := Key(q, n), w.Answer(ep);
            var good := o.Response? && 200 <= o.code <= 299;
            var last := n + 1 >= max
                        || ((o.Response? || o.Unreadable?) && 400 <= o.code <= 499 && o.code != 429);
            if HasSuccess(fx.attempts, q) then SameFor(fx, gx, q)
            else
              && gx.posts[k] == fx.posts[k] + 1
              && k in gx.attempts
              && (k !in fx.attempts ==>
                    gx.attempts[k] == if good then Success else if o.TimedOut? then Timeout else Failure)
              && (q in gx.acked <==> q in fx.acked || good)
              && (HasSuccess(gx.attempts, q) <==> good && k !in fx.attempts)
              && (q in gx.dlq <==> q in fx.dlq || (!good && last))
              && (Key(q, n + 1) in gx.redis <==> Key(q, n + 1) in fx.redis || (!good && !last))
  {
    var q, gx := Pair(event, ep), DeliverAll(fx, event, targets, n, w, max);
    var k := Key(q, n);
    hide DeliverAll, Deliver, World.Answer, Distinct;
    RecordPairByPair(fx, event, targets, n, w, max, q);
    DeliveryVerdict(fx, k, w, max);
    var hx := Deliver(fx, k, w, max);
    assert HasSuccess(hx.attempts, q) <==> HasSuccess(gx.attempts, q);
    if !HasSuccess(fx.attempts, q) && k in gx.attempts && k !in fx.attempts && gx.attempts[k] == Success {
      assert HasSuccess(gx.attempts, q);
    }
  }

  /** Redelivery of a record whose targets all have success rows does nothing. */
  lemma {:induction false} RedeliveryIsSilent(fx: Effects, event: Uuid, targets: seq<Uuid>, n: nat, w: World, max: nat)
    requires forall ep :: ep in targets ==> HasSuccess(fx.attempts, Pair(event, ep))
    ensures DeliverAll(fx, event, targets, n, w, max) == fx
    decreases |targets|
  {
    hide HasSuccess;
    if targets != [] {
      RedeliveryIsSilent(fx, event, targets[..|targets| - 1], n, w, max);
      assert targets[|targets| - 1] in targets;
    }
  }
}
