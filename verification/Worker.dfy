/** The delivery worker in the form of the code: one record after the other, no crash
    in between, over the tables and the retry store it updates in place. */
module DeliveryWorker {
  import opened Domain
  import opened Protocol

  /** What a delivery can change. `posts` is the trace of HTTP requests, `acked` says
      which pairs were ever answered with a 2xx. */
  datatype Effects = Effects(
    attempts: map<Key, Status>, dlq: set<Pair>, redis: set<Key>, posts: multiset<Key>, acked: set<Pair>)

  /** The POST of an attempt, as the outside sees it. */
  function Posted(fx: Effects, k: Key, o: Outcome): Effects {
    fx.(posts := fx.posts + multiset{k}, acked := if StatusOf(o) == Success then fx.acked + {k.pair} else fx.acked)
  }

  function Inserted(fx: Effects, k: Key, o: Outcome): Effects {
    fx.(attempts := InsertRow(fx.attempts, k, StatusOf(o)))
  }

  /** What the outside answers: the outcome of a POST per endpoint, and whether the
      best-effort cancel of the DLQ handler goes through. */
  datatype World = World(http: map<Uuid, Outcome>, cancelWorks: bool) {
    function Answer(ep: Uuid): Outcome {
      if ep in http then http[ep] else TransportError
    }
  }

  /** The endpoint gives this answer to every POST. */
  function Says(ep: Uuid, o: Outcome): World {
    World(map[ep := o], true)
  }

  function Buried(fx: Effects, k: Key, w: World): Effects {
    fx.(dlq := fx.dlq + {k.pair}, redis := if w.cancelWorks then fx.redis - {k} else fx.redis)
  }

  /** One call of `_deliver_to_endpoint`. */
  ghost function Deliver(fx: Effects, k: Key, w: World, max: nat): Effects {
    if HasSuccess(fx.attempts, k.pair) then fx
    else
      var o := w.Answer(k.pair.endpoint);
      var fx1 := Inserted(Posted(fx, k, o), k, o);
      if StatusOf(o) == Success then fx1
      else if GivesUp(o, k.attempt, max) then Buried(fx1, k, w)
      else fx1.(redis := fx1.redis + {Key(k.pair, k.attempt + 1)})
  }

  /** From `fx` to `gx` by one delivery that makes its POST, in terms of the answer `o`: the
      row is inserted unless the number is taken; a status of 200 to 299 whose body was read
      is the success; without one, a status of 400 to 499 other than 429 or the last attempt
      goes to the DLQ, and anything else schedules the next attempt. */
  ghost predicate Verdict(fx: Effects, gx: Effects, k: Key, o: Outcome, cancelWorks: bool, max: nat) {
    var good := o.Response? && 200 <= o.code <= 299;
    var refused := (o.Response? || o.Unreadable?) && 400 <= o.code <= 499 && o.code != 429;
    var last := refused || k.attempt + 1 >= max;
    && gx.posts == fx.posts + multiset{k}
    && gx.acked == (if good then fx.acked + {k.pair} else fx.acked)
    && gx.attempts.Keys == fx.attempts.Keys + {k}
    && (forall j :: j in fx.attempts ==> gx.attempts[j] == fx.attempts[j])
    && (k !in fx.attempts ==> gx.attempts[k] == if good then Success else if o.TimedOut? then Timeout else Failure)
    && gx.dlq == (if !good && last then fx.dlq + {k.pair} else fx.dlq)
    && gx.redis == (if good then fx.redis
                    else if !last then fx.redis + {Key(k.pair, k.attempt + 1)}
                    else if cancelWorks then fx.redis - {k} else fx.redis)
  }

  /** What the function that specifies a delivery means. */
  lemma {:induction false} DeliveryVerdict(fx: Effects, k: Key, w: World, max: nat)
    ensures if HasSuccess(fx.attempts, k.pair) then Deliver(fx, k, w, max) == fx
            else Verdict(fx, Deliver(fx, k, w, max), k, w.Answer(k.pair.endpoint), w.cancelWorks, max)
  {
  }

  /** The loop over the targets of one record. */
  ghost function DeliverAll(fx: Effects, event: Uuid, targets: seq<Uuid>, n: nat, w: World, max: nat): Effects {
    if targets == [] then fx
    else
      var last := |targets| - 1;
      Deliver(DeliverAll(fx, event, targets[..last], n, w, max), Key(Pair(event, targets[last]), n), w, max)
  }

  lemma {:induction false} SelectedInFields(endpoints: map<Uuid, Endpoint>, events: map<Uuid, Event>, m: Message,
                                            targets: seq<Uuid>)
    requires !m.Poison? && EventOf(m) in events && Elements(targets) == TargetsOf(endpoints, events, m)
    ensures m.Fanout? ==> forall ep :: ep in targets <==>
              ep in endpoints && endpoints[ep].enabled && events[m.event].eventType in endpoints[ep].eventTypes
    ensures m.Targeted? ==> forall ep :: ep in targets <==>
              ep == m.key.pair.endpoint && ep in endpoints && endpoints[ep].enabled
  {
    assert forall ep :: ep in targets <==> ep in Elements(targets);
  }

  class Worker {
    const max: nat
    var endpoints: map<Uuid, Endpoint>
    var events: map<Uuid, Event>
    var attempts: map<Key, Status>
    var dlq: set<Pair>
    var redis: set<Key>
    var posts: multiset<Key>
    var acked: set<Pair>

    function View(): Effects
      reads this
    {
      Effects(attempts, dlq, redis, posts, acked)
    }

    constructor (maxAttempts: nat, endpoints: map<Uuid, Endpoint>, events: map<Uuid, Event>)
      ensures max == maxAttempts && this.endpoints == endpoints && this.events == events
      ensures View() == Effects(map[], {}, {}, multiset{}, {})
    {
      max := maxAttempts;
      this.endpoints, this.events := endpoints, events;
      attempts, dlq, redis, posts, acked := map[], {}, {}, multiset{}, {};
    }

    /** SELECT .. WHERE status = 'success' LIMIT 1. */
    method PriorSuccess(pair: Pair) returns (prior: bool)
      ensures prior <==> HasSuccess(attempts, pair)
    {
      prior := exists k :: k in attempts && k.pair == pair && attempts[k] == Success;
      assert forall k: Key :: k.pair == pair ==> k == Key(pair, k.attempt);
    }

    method MoveToDlq(k: Key, w: World)
      modifies `dlq, `redis
      ensures View() == Buried(old(View()), k, w)
    {
      dlq := dlq + {k.pair};
      if w.cancelWorks {
        redis := redis - {k};
      }
    }

    /** Without a success row one POST is made, and its answer decides the rest. */
    method DeliverToEndpoint(k: Key, w: World)
      modifies `attempts, `dlq, `redis, `posts, `acked
      ensures View() == Deliver(old(View()), k, w, max)
      ensures if exists n: nat :: Key(k.pair, n) in old(attempts) && old(attempts)[Key(k.pair, n)] == Success
              then View() == old(View())
              else Verdict(old(View()), View(), k, w.Answer(k.pair.endpoint), w.cancelWorks, max)
    {
      hide Verdict;
      DeliveryVerdict(View(), k, w, max);
      var prior := PriorSuccess(k.pair);
      if prior {
        return;
      }
      var o := w.Answer(k.pair.endpoint);
      posts := posts + multiset{k};
      if StatusOf(o) == Success {
        acked := acked + {k.pair};
      }
      if k !in attempts {
        attempts := attempts[k := StatusOf(o)];
      }
      if StatusOf(o) == Success {
        return;
      }
      if IsPermanent(o) || k.attempt + 1 >= max {
        MoveToDlq(k, w);
      } else {
        redis := redis + {Key(k.pair, k.attempt + 1)};
      }
    }

    /** The targets, in whatever order the table yields them. */
    method SelectTargets(m: Message) returns (targets: seq<Uuid>)
      requires !m.Poison? && EventOf(m) in events
      ensures Distinct(targets) && Elements(targets) == TargetsOf(endpoints, events, m)
      ensures m.Fanout? ==> forall ep :: ep in targets <==>
                ep in endpoints && endpoints[ep].enabled && events[m.event].eventType in endpoints[ep].eventTypes
      ensures m.Targeted? ==> forall ep :: ep in targets <==>
                ep == m.key.pair.endpoint && ep in endpoints && endpoints[ep].enabled
    {
      hide TargetsOf;
      targets := [];
      var all := TargetsOf(endpoints, events, m);
      var left := all;
      while left != {}
        invariant Distinct(targets) && Elements(targets) !! left && Elements(targets) + left == all
        decreases |left|
      {
        var ep :| ep in left;
        assert Elements(targets + [ep]) == Elements(targets) + {ep};
        assert ep !in Elements(targets);
        targets := targets + [ep];
        left := left - {ep};
      }
      SelectedInFields(endpoints, events, m, targets);
    }

    method DeliverToAll(event: Uuid, targets: seq<Uuid>, n: nat, w: World)
      modifies `attempts, `dlq, `redis, `posts, `acked
      ensures View() == DeliverAll(old(View()), event, targets, n, w, max)
    {
      hide Deliver;
      var i := 0;
      while i < |targets|
        invariant 0 <= i <= |targets|
        invariant View() == DeliverAll(old(View()), event, targets[..i], n, w, max)
      {
        assert targets[..i + 1][..i] == targets[..i];
        DeliverToEndpoint(Key(Pair(event, targets[i]), n), w);
        i := i + 1;
      }
      assert targets[..i] == targets;
    }

    /** Poison raises, an orphan does nothing, any other record is delivered to each
        of its targets. */
    method ProcessRecord(m: Message, w: World) returns (poison: bool, targets: seq<Uuid>)
      modifies `attempts, `dlq, `redis, `posts, `acked
      ensures poison == m.Poison?
      ensures if !m.Poison? && EventOf(m) in events
              then Distinct(targets) && Elements(targets) == TargetsOf(endpoints, events, m)
              else targets == []
      ensures !m.Poison? ==> View() == DeliverAll(old(View()), EventOf(m), targets, AttemptOf(m), w, max)
      ensures m.Poison? ==> View() == old(View())
    {
      targets := [];
      if m.Poison? {
        return true, [];
      }
      poison := false;
      if EventOf(m) !in events {
        return;
      }
      targets := SelectTargets(m);
      DeliverToAll(EventOf(m), targets, AttemptOf(m), w);
    }
  }
}
