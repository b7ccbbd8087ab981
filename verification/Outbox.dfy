/** Ingestion and the outbox relay in the form of the code. */
module OutboxRelay {
  import opened Domain
  import opened Ordering
  import opened Protocol

  ghost predicate UniqueKeys(events: map<Uuid, Event>) {
    forall d, e :: d in events && e in events && events[d].idempotencyKey == events[e].idempotencyKey ==> d == e
  }

  function FanoutAll(rows: seq<Uuid>): seq<Message> {
    seq(|rows|, i requires 0 <= i < |rows| => Fanout(rows[i]))
  }

  /** Rows another transaction has locked are skipped. */
  function Unlocked(outbox: map<Uuid, real>, locked: set<Uuid>): map<Uuid, real> {
    map e | e in outbox && e !in locked :: outbox[e]
  }

  /** `rows` are the 100 oldest rows that are not locked, or all of them, oldest first. */
  ghost predicate Batch(outbox: map<Uuid, real>, locked: set<Uuid>, rows: seq<Uuid>) {
    var free := outbox.Keys - locked;
    && |rows| == (if |free| < 100 then |free| else 100)
    && (forall e :: e in rows ==> e in outbox && e !in locked)
    && (forall i, j :: 0 <= i < j < |rows| ==> rows[i] != rows[j] && outbox[rows[i]] <= outbox[rows[j]])
    && (forall i, e :: 0 <= i < |rows| && e in outbox && e !in locked && e !in rows ==> outbox[rows[i]] <= outbox[e])
  }

  lemma {:induction false} LowestOfFree(outbox: map<Uuid, real>, locked: set<Uuid>, free: map<Uuid, real>,
                                        rows: seq<Uuid>)
    requires free.Keys == outbox.Keys - locked && forall e :: e in free ==> free[e] == outbox[e]
    requires Lowest(free, 100, rows)
    ensures Batch(outbox, locked, rows)
  {
    assert |free| == |free.Keys|;
    forall e | e in rows ensures e in free {
      var i :| 0 <= i < |rows| && rows[i] == e;
    }
    forall i, e | 0 <= i < |rows| && e in outbox && e !in locked && e !in rows ensures outbox[rows[i]] <= outbox[e] {
      assert e in free;
    }
  }

  lemma {:induction false} LowestIsBatch(outbox: map<Uuid, real>, locked: set<Uuid>, rows: seq<Uuid>)
    requires Lowest(Unlocked(outbox, locked), RELAY_BATCH, rows)
    ensures Batch(outbox, locked, rows)
  {
    hide Lowest, Batch;
    assert Unlocked(outbox, locked).Keys == outbox.Keys - locked;
    LowestOfFree(outbox, locked, Unlocked(outbox, locked), rows);
  }

  lemma {:induction false} OneMoreRow(rows: seq<Uuid>, i: nat)
    requires i < |rows|
    ensures FanoutAll(rows[..i + 1]) == FanoutAll(rows[..i]) + [Fanout(rows[i])]
    ensures Elements(rows[..i + 1]) == Elements(rows[..i]) + {rows[i]}
  {
    assert rows[..i + 1] == rows[..i] + [rows[i]];
  }

  class EventStore {
    var events: map<Uuid, Event>
    /** The event of each outbox row, with the time it was created at. */
    var outbox: map<Uuid, real>

    ghost predicate Valid()
      reads this
    {
      UniqueKeys(events) && outbox.Keys <= events.Keys
    }

    constructor ()
      ensures Valid() && events == map[] && outbox == map[]
    {
      events, outbox := map[], map[];
    }

    /** `id` is the identifier the database generates. An event with the same
        idempotency key is returned instead, and nothing is written. */
    method Ingest(id: Uuid, body: Event, now: real) returns (event: Uuid)
      requires Valid() && id !in events
      modifies this
      ensures Valid()
      ensures event in events && events[event].idempotencyKey == body.idempotencyKey
      ensures if KeyTaken(old(events), body.idempotencyKey)
              then events == old(events) && outbox == old(outbox) && event in old(events)
              else event == id && events == old(events)[id := body] && outbox == old(outbox)[id := now]
    {
      var inserted := !(exists e :: e in events && events[e].idempotencyKey == body.idempotencyKey);
      if inserted {
        events := events[id := body];
        assert events[id].idempotencyKey == body.idempotencyKey;
      }
      event :| event in events && events[event].idempotencyKey == body.idempotencyKey;
      if inserted {
        outbox := outbox[event := now];
      }
    }

    /** One relay transaction beside others that hold `locked`. A failing publish rolls the
        deletions back, but what was published stays published. */
    method RelayBatch(locked: set<Uuid>, failAt: Option<nat>, topic: seq<Message>)
      returns (rows: seq<Uuid>, topic': seq<Message>)
      modifies `outbox
      ensures Batch(old(outbox), locked, rows)
      ensures if failAt.Some? && failAt.value < |rows|
              then outbox == old(outbox) && topic' == topic + FanoutAll(rows[..failAt.value])
              else outbox == old(outbox) - Elements(rows) && topic' == topic + FanoutAll(rows)
    {
      hide Batch, Lowest, Unlocked, FanoutAll, Elements, OldestFirst;
      rows := TakeLowest(Unlocked(outbox, locked), RELAY_BATCH);
      LowestIsBatch(outbox, locked, rows);
      topic' := topic;
      NothingPublished(outbox);
      assert rows[..0] == [];
      var remaining := outbox;
      var i := 0;
      while i < |rows|
        invariant 0 <= i <= |rows|
        invariant failAt.Some? && failAt.value < |rows| ==> i <= failAt.value
        invariant topic' == topic + FanoutAll(rows[..i])
        invariant remaining == outbox - Elements(rows[..i])
        invariant outbox == old(outbox)
      {
        if failAt == Some(i) {
          return;
        }
        OneMoreRow(rows, i);
        topic' := topic' + [Fanout(rows[i])];
        remaining := remaining - {rows[i]};
        i := i + 1;
      }
      assert rows[..i] == rows;
      outbox := remaining;
    }
  }

  // ---------- the relay without failures ----------

  /** `rows` left the outbox, oldest first, and whatever is left is not older. */
  ghost predicate OldestFirst(before: map<Uuid, real>, after: map<Uuid, real>, rows: seq<Uuid>) {
    && Distinct(rows)
    && (forall e :: e in rows ==> e in before)
    && after == before - Elements(rows)
    && (forall i, j :: 0 <= i < j < |rows| ==> before[rows[i]] <= before[rows[j]])
    && (forall i, e :: 0 <= i < |rows| && e in after ==> before[rows[i]] <= before[e])
  }

  lemma {:induction false} ElementsCard(rows: seq<Uuid>)
    requires Distinct(rows)
    ensures |Elements(rows)| == |rows|
  {
    if rows != [] {
      var n := |rows| - 1;
      ElementsCard(rows[..n]);
      assert rows == rows[..n] + [rows[n]];
      assert Elements(rows) == Elements(rows[..n]) + {rows[n]};
    }
  }

  lemma {:induction false} BatchIsOldest(outbox: map<Uuid, real>, rows: seq<Uuid>)
    requires Batch(outbox, {}, rows)
    ensures OldestFirst(outbox, outbox - Elements(rows), rows)
    ensures |outbox - Elements(rows)| == if |outbox| <= 100 then 0 else |outbox| - 100
  {
    assert outbox.Keys - {} == outbox.Keys;
    ElementsCard(rows);
    assert (outbox - Elements(rows)).Keys == outbox.Keys - Elements(rows);
  }

  /** Two relays whose transactions overlap, the second while the first holds its rows: they
      share no event, and together they take what one relay with twice the limit would. */
  lemma {:induction false} OverlappingRelays(outbox: map<Uuid, real>, first: seq<Uuid>, second: seq<Uuid>)
    requires Batch(outbox, {}, first) && Batch(outbox, Elements(first), second)
    ensures forall e :: e in first ==> e !in second
    ensures OldestFirst(outbox, outbox - Elements(first) - Elements(second), first + second)
    ensures |first + second| == if |outbox| < 200 then |outbox| else 200
  {
    hide OldestFirst, Batch;
    BatchSize(outbox, {}, first);
    BatchSize(outbox, Elements(first), second);
    BatchIsOldest(outbox, first);
    var rest := outbox - Elements(first);
    BatchOfRest(outbox, first, second);
    BatchIsOldest(rest, second);
    OldestTwice(outbox, rest, rest - Elements(second), first, second);
    assert outbox.Keys - {} == outbox.Keys && rest.Keys == outbox.Keys - Elements(first);
  }

  lemma {:induction false} BatchSize(outbox: map<Uuid, real>, locked: set<Uuid>, rows: seq<Uuid>)
    requires Batch(outbox, locked, rows)
    ensures |rows| == if |outbox.Keys - locked| < 100 then |outbox.Keys - locked| else 100
    ensures forall e :: e in rows ==> e !in locked
  {
  }

  /** What a relay that skips the locked rows takes is what it would take without them. */
  lemma {:induction false} BatchOfRest(outbox: map<Uuid, real>, held: seq<Uuid>, rows: seq<Uuid>)
    requires Batch(outbox, Elements(held), rows)
    ensures Batch(outbox - Elements(held), {}, rows)
  {
    assert (outbox - Elements(held)).Keys - {} == outbox.Keys - Elements(held);
  }

  lemma {:induction false} OldestTwice(a: map<Uuid, real>, b: map<Uuid, real>, c: map<Uuid, real>, first: seq<Uuid>,
                                       second: seq<Uuid>)
    requires OldestFirst(a, b, first) && OldestFirst(b, c, second)
    ensures OldestFirst(a, c, first + second)
  {
    var both := first + second;
    assert Elements(both) == Elements(first) + Elements(second);
    forall e | e in both ensures e in a {
      assert e in first || e in second;
    }
    forall i, j | 0 <= i < j < |both| ensures both[i] != both[j] && a[both[i]] <= a[both[j]] {
      if i < |first| <= j {
        assert second[j - |first|] in b;
      }
    }
  }

  lemma {:induction false} NothingPublished(outbox: map<Uuid, real>)
    ensures OldestFirst(outbox, outbox, []) && FanoutAll([]) == [] && Elements<Uuid>([]) == {}
  {
  }

  lemma {:induction false} FanoutSplit(first: seq<Uuid>, second: seq<Uuid>)
    ensures FanoutAll(first + second) == FanoutAll(first) + FanoutAll(second)
  {
  }

  /** The relay loop, cut after a number of passes: every pass publishes the 100 oldest
      rows, each event exactly once and oldest first, and after ceil(n / 100) passes
      the outbox is empty. */
  method RunOutboxRelay(store: EventStore, passes: nat) returns (ghost published: seq<Uuid>, topic: seq<Message>)
    modifies store`outbox
    ensures topic == FanoutAll(published) && OldestFirst(old(store.outbox), store.outbox, published)
    ensures |store.outbox| ==
            if |old(store.outbox)| <= 100 * passes then 0 else |old(store.outbox)| - 100 * passes
  {
    hide OldestFirst, Batch, FanoutAll, Elements;
    published, topic := [], [];
    ghost var before := store.outbox;
    NothingPublished(before);
    var i := 0;
    while i < passes
      invariant 0 <= i <= passes
      invariant topic == FanoutAll(published) && OldestFirst(before, store.outbox, published)
      invariant |store.outbox| ==
                if |before| <= 100 * i then 0 else |before| - 100 * i
    {
      ghost var middle := store.outbox;
      var rows, topic' := store.RelayBatch({}, None, topic);
      BatchIsOldest(middle, rows);
      OldestTwice(before, middle, store.outbox, published, rows);
      FanoutSplit(published, rows);
      published, topic := published + rows, topic';
      i := i + 1;
    }
  }
}

/** Idempotency keys in the step system. */
module IngestOnce {
  import opened Domain
  import opened Protocol
  import opened Frames
  import opened OutboxRelay

  lemma {:induction false} StepKeepsUnique(s: State, a: Action)
    requires Enabled(s, a) && UniqueKeys(s.db.events)
    ensures UniqueKeys(Step(s, a).db.events)
  {
    hide RelayEnabled, SchedulerEnabled, TaskEnabled, BrokerEnabled, StepRelay, StepScheduler, StepTask, StepBroker,
      SameWorker, SameRelay, SameResults, SameRetries, SameLog;
    match a {
      case ByApi(x) =>
      case ByRelay(r, x) => RelayFrame(s, r, x);
      case ByScheduler(c, x) => SchedulerFrame(s, c, x);
      case ByTask(pos, x) => TaskFrame(s, pos, x);
      case ByBroker(x) => BrokerFrame(s, x);
    }
  }

  lemma {:induction false} LeadsUnique(s: State, acts: seq<Action>, t: State)
    requires Leads(s, acts, t) && UniqueKeys(s.db.events)
    ensures UniqueKeys(t.db.events)
    decreases |acts|
  {
    hide Enabled, Step, UniqueKeys;
    if acts != [] {
      StepKeepsUnique(s, acts[0]);
      LeadsUnique(Step(s, acts[0]), acts[1..], t);
    }
  }

  /** However often it is ingested, an idempotency key has at most one event. */
  lemma {:induction false} OneEventPerKey(t: State, d: Uuid, e: Uuid)
    requires Reachable(t) && d in t.db.events && e in t.db.events
    requires t.db.events[d].idempotencyKey == t.db.events[e].idempotencyKey
    ensures d == e
  {
    hide Leads;
    var s, acts :| Init(s) && Leads(s, acts, t);
    LeadsUnique(s, acts, t);
  }
}
