/** Termination, exactly-one verdicts and POST counts of clean runs. */
module CleanTheorems {
  import opened Domain
  import opened Watermarks
  import opened Protocol
  import opened Invariants
  import opened DeliverySteps
  import opened PipelineSteps
  import opened Safety
  import opened NoLoss
  import opened CleanRuns
  import opened CleanSteps
  import opened CleanOutcome

  /** A run of clean steps, with the ledger it fills. */
  ghost predicate CleanLeads(s: State, l: Ledger, acts: seq<Action>, t: State, l': Ledger)
    decreases |acts|
  {
    if acts == [] then s == t && l == l'
    else
      && Clean(acts[0]) && Enabled(s, acts[0])
      && CleanLeads(Step(s, acts[0]), Note(s, acts[0], l), acts[1..], t, l')
  }

  /** The steps of a run other than ingestions. */
  function Work(acts: seq<Action>): nat {
    if acts == [] then 0 else (if acts[0].ByApi? then 0 else 1) + Work(acts[1..])
  }

  lemma {:induction false} InitClean(s: State)
    requires Init(s)
    ensures FullInv(s, EMPTY)
  {
    InitInv(s);
    hide Inv;
  }

  // ---------- termination ----------

  /** Work grows the ledger; a commit step uses up a request that work created. */
  lemma {:induction false} Potential(s: State, l: Ledger, a: Action)
    requires FullInv(s, l) && Enabled(s, a) && Clean(a) && GoodStep(s, a, l)
    ensures 2 * Size(Note(s, a, l)) - |Step(s, a).kafka.pending|
            >= 2 * Size(l) - |s.kafka.pending| + (if a.ByApi? then 0 else 1)
  {
    hide FullInv, Size, Note;
    PendingGrowsByOne(s, a);
  }

  lemma {:induction false} PendingGrowsByOne(s: State, a: Action)
    requires Enabled(s, a) && Clean(a)
    ensures if a.ByApi? then Step(s, a).kafka.pending == s.kafka.pending
            else if IsWork(a) then |Step(s, a).kafka.pending| <= |s.kafka.pending| + 1
            else |Step(s, a).kafka.pending| == |s.kafka.pending| - 1
  {
    hide RelayEnabled, StepRelay, SchedulerEnabled, StepScheduler, TaskEnabled, StepTask, BrokerEnabled, StepBroker;
    match a {
      case ByApi(x) => hide KeyTaken;
      case ByRelay(r, x) => RelayPending(s, r, x);
      case ByScheduler(c, x) => SchedulerPending(s, c, x);
      case ByTask(pos, x) => TaskPending(s, pos, x);
      case ByBroker(x) => BrokerPending(s, x);
    }
  }

  lemma {:induction false} RelayPending(s: State, r: nat, a: RelayStep)
    requires RelayEnabled(s, r, a)
    ensures StepRelay(s, r, a).kafka.pending == s.kafka.pending
  {
    hide Locked, Distinct, Elements;
  }

  lemma {:induction false} SchedulerPending(s: State, c: nat, a: SchedulerStep)
    requires SchedulerEnabled(s, c, a)
    ensures StepScheduler(s, c, a).kafka.pending == s.kafka.pending
  {
    hide Distinct;
  }

  lemma {:induction false} TaskPending(s: State, pos: Pos, a: TaskStep)
    requires TaskEnabled(s, pos, a)
    ensures |StepTask(s, pos, a).kafka.pending| <= |s.kafka.pending| + 1
  {
    hide Distinct, Elements, TargetSet, HasSuccess, StatusOf, GivesUp, InsertRow, Finished, DroppedBy;
    match a {
      case Resolve(_) =>
      case Check =>
      case Post(_) =>
      case Insert =>
      case Schedule =>
      case Bury =>
      case Unschedule(_) =>
      case Finish =>
      case Fail =>
    }
  }

  lemma {:induction false} BrokerPending(s: State, a: BrokerStep)
    requires BrokerEnabled(s, a) && !a.Restart?
    ensures |StepBroker(s, a).kafka.pending| == |s.kafka.pending| - (if a.Fetch? then 0 else 1)
  {
    hide Started;
  }

  lemma {:induction false} CleanRunInv(s: State, l: Ledger, acts: seq<Action>, t: State, l': Ledger)
    requires FullInv(s, l) && CleanLeads(s, l, acts, t, l')
    ensures FullInv(t, l') && Leads(s, acts, t)
    ensures 2 * Size(l') - |t.kafka.pending| >= 2 * Size(l) - |s.kafka.pending| + Work(acts)
    decreases |acts|
  {
    hide FullInv, Enabled, Step, Note, Clean, Size;
    if acts != [] {
      CleanStep(s, l, acts[0]);
      GoodKeeps(s, l, acts[0]);
      Potential(s, l, acts[0]);
      CleanRunInv(Step(s, acts[0]), Note(s, acts[0], l), acts[1..], t, l');
    }
  }

  lemma {:induction false} GoodKeeps(s: State, l: Ledger, a: Action)
    requires Enabled(s, a) && GoodStep(s, a, l)
    ensures FullInv(Step(s, a), Note(s, a, l))
  {
    hide FullInv, Enabled, Step, Note, Size;
  }

  // ---------- the ledger is bounded ----------

  ghost function Pairs(events: set<Uuid>, endpoints: set<Uuid>): set<Pair> {
    set e, ep | e in events && ep in endpoints :: Pair(e, ep)
  }

  ghost function Keys(events: set<Uuid>, endpoints: set<Uuid>, max: nat): set<Key> {
    set q, n: nat | q in Pairs(events, endpoints) && n < max :: Key(q, n)
  }

  lemma {:induction false} PairsCard(events: set<Uuid>, endpoints: set<Uuid>)
    ensures |Pairs(events, endpoints)| == |events| * |endpoints|
  {
    if events == {} {
      assert Pairs(events, endpoints) == {};
    } else {
      var e := Pick(events);
      var rest := events - {e};
      PairsCard(rest, endpoints);
      RowCard(e, endpoints);
      var row := set ep | ep in endpoints :: Pair(e, ep);
      assert Pairs(events, endpoints) == Pairs(rest, endpoints) + row;
      assert Pairs(rest, endpoints) !! row;
      OneMoreRow(|rest|, |endpoints|);
    }
  }

  lemma {:induction false} OneMoreRow(rows: nat, columns: nat)
    ensures (rows + 1) * columns == rows * columns + columns
  {
  }

  lemma {:induction false} RowCard(e: Uuid, endpoints: set<Uuid>)
    ensures |set ep | ep in endpoints :: Pair(e, ep)| == |endpoints|
  {
    if endpoints != {} {
      var ep := Pick(endpoints);
      RowCard(e, endpoints - {ep});
      assert (set x | x in endpoints :: Pair(e, x)) == (set x | x in endpoints - {ep} :: Pair(e, x)) + {Pair(e, ep)};
    }
  }

  lemma {:induction false} KeysCard(events: set<Uuid>, endpoints: set<Uuid>, max: nat)
    ensures |Keys(events, endpoints, max)| == |Pairs(events, endpoints)| * max
  {
    var pairs := Pairs(events, endpoints);
    if max == 0 {
      assert Keys(events, endpoints, 0) == {};
    } else {
      KeysCard(events, endpoints, max - 1);
      LayerCard(pairs, max - 1);
      var layer := Layer(pairs, max - 1);
      var below := Keys(events, endpoints, max - 1);
      assert Keys(events, endpoints, max) == below + layer;
      assert below !! layer;
      Layers(|pairs|, max);
    }
  }

  lemma {:induction false} Layers(c: nat, max: nat)
    requires max > 0
    ensures c * (max - 1) + c == c * max
  {
  }

  ghost function Layer(pairs: set<Pair>, n: nat): set<Key> {
    set q | q in pairs :: Key(q, n)
  }

  lemma {:induction false} LayerCard(pairs: set<Pair>, n: nat)
    ensures |Layer(pairs, n)| == |pairs|
  {
    if pairs != {} {
      var q := Pick(pairs);
      LayerCard(pairs - {q}, n);
      assert Layer(pairs, n) == Layer(pairs - {q}, n) + {Key(q, n)};
    }
  }

  /** Attempts ever scheduled or worked on are among the possible ones. */
  lemma {:induction false} KeysAreBounded(s: State, l: Ledger)
    requires FullInv(s, l)
    ensures forall k :: k in s.hist.scheduled || !NotYet(l.keys, k, 0) ==>
              k in Keys(s.db.events.Keys, s.db.endpoints.Keys, s.max)
  {
    hide CleanInv, NotYet;
    CleanIsInv(s, l);
    ScheduledIff(s, l);
    forall k | k in s.hist.scheduled || !NotYet(l.keys, k, 0)
      ensures k in Keys(s.db.events.Keys, s.db.endpoints.Keys, s.max)
    {
      if k in s.hist.scheduled {
        var before := Key(k.pair, k.attempt - 1);
        RescheduledIsWork(l.keys, before);
        assert Target(s.db.endpoints, s.db.events, before.pair);
        HandOffFacts(s, k);
      } else {
        assert Target(s.db.endpoints, s.db.events, k.pair);
        WorkedBelowMax(s, l, k);
      }
      assert k.pair in Pairs(s.db.events.Keys, s.db.endpoints.Keys) by {
        assert k.pair == Pair(k.pair.event, k.pair.endpoint);
      }
      assert k == Key(k.pair, k.attempt);
    }
  }

  lemma {:induction false} RescheduledIsWork(l: KeyLedger, k: Key)
    requires k in l.rescheduled
    ensures !NotYet(l, k, 0)
  {
  }

  /** An attempt that was worked on belongs to a record of the log. */
  lemma {:induction false} WorkedBelowMax(s: State, l: Ledger, k: Key)
    requires CleanInv(s, l) && !NotYet(l.keys, k, 0)
    ensures MessageOf(k) in l.records.resolved && MessageOf(k) in s.kafka.log.Values
    ensures k.attempt < s.max
    ensures k.attempt > 0 ==> k in s.hist.scheduled
  {
    hide Inv, LogClean, RowsClean, RetriesClean, OutcomesClean, NotYet, TaskClean;
    assert MessageOf(k) in s.kafka.log.Values;
    LimitPositive(s);
    if k.attempt > 0 {
      var pos :| pos in s.kafka.log && s.kafka.log[pos] == Targeted(k);
      KeyIsScheduled(s, pos);
      HandOffFacts(s, k);
    }
  }

  lemma {:induction false} LimitPositive(s: State)
    requires Inv(s)
    ensures s.max >= 1
  {
    hide PartsInv, FinishedInv, LogInv, HandOffInv, SchedulersInv, OutboxInv, RelayCountInv, RowsInv, TaskRowsInv,
      ResultsInv, TaskOutcomeInv, CoveredInv, StableInv, TargetsInv, TaskShape;
  }

  lemma {:induction false} MessagesCard(events: set<Uuid>, keys: set<Key>, ms: set<Message>)
    requires forall m :: m in ms ==> (m.Fanout? && m.event in events) || (m.Targeted? && m.key in keys)
    ensures |ms| <= |events| + |keys|
  {
    var fan := set e | e in events :: Fanout(e);
    var aim := set k | k in keys :: Targeted(k);
    FanCard(events);
    AimCard(keys);
    assert ms <= fan + aim;
    SubsetCard(ms, fan + aim);
  }

  lemma {:induction false} FanCard(events: set<Uuid>)
    ensures |set e | e in events :: Fanout(e)| == |events|
  {
    if events != {} {
      var e := Pick(events);
      FanCard(events - {e});
      assert (set x | x in events :: Fanout(x)) == (set x | x in events - {e} :: Fanout(x)) + {Fanout(e)};
    }
  }

  lemma {:induction false} AimCard(keys: set<Key>)
    ensures |set k | k in keys :: Targeted(k)| == |keys|
  {
    if keys != {} {
      var k := Pick(keys);
      AimCard(keys - {k});
      assert (set x | x in keys :: Targeted(x)) == (set x | x in keys - {k} :: Targeted(x)) + {Targeted(k)};
    }
  }

  lemma {:induction false} RecordsAreBounded(s: State, l: Ledger)
    requires FullInv(s, l)
    ensures forall m :: m in l.records.fetched ==>
              (m.Fanout? && m.event in s.db.events.Keys) || (m.Targeted? && m.key in s.hist.scheduled)
    ensures l.records.resolved <= l.records.fetched && l.records.finished <= l.records.fetched
  {
    hide Inv, RowsClean, RetriesClean, OutcomesClean, KeysClean, LogClean, PairsClean;
    LogUnique(s, l);
    forall m | m in l.records.fetched
      ensures (m.Fanout? && m.event in s.db.events.Keys) || (m.Targeted? && m.key in s.hist.scheduled)
    {
      var pos :| pos in s.kafka.log && s.kafka.log[pos] == m;
      KeyIsScheduled(s, pos);
    }
  }

  lemma {:induction false} KeySetsWithin(l: KeyLedger, all: set<Key>)
    requires forall k :: !NotYet(l, k, 0) ==> k in all
    ensures KeySize(l) <= 6 * |all|
  {
    SubsetCard(l.checked, all);
    SubsetCard(l.posted, all);
    SubsetCard(l.inserted, all);
    SubsetCard(l.rescheduled, all);
    SubsetCard(l.buried, all);
    SubsetCard(l.unscheduled, all);
  }

  lemma {:induction false} RowSetsWithin(s: State, l: Ledger)
    requires CleanInv(s, l)
    ensures RowSize(l.rows) <= 3 * |s.db.events.Keys|
  {
    hide Inv, RetriesClean, OutcomesClean, KeysClean, LogClean, RecordsClean, Locked;
    SubsetCard(l.rows.locked, s.db.events.Keys);
    SubsetCard(l.rows.sent, s.db.events.Keys);
    SubsetCard(l.rows.relayed, s.db.events.Keys);
  }

  lemma {:induction false} RetrySetsWithin(s: State, l: Ledger, all: set<Key>)
    requires CleanInv(s, l) && s.hist.scheduled <= all
    ensures RetrySize(l.retries) <= 3 * |all|
  {
    hide Inv, RowsClean, OutcomesClean, KeysClean, LogClean, RecordsClean, Distinct;
    SubsetCard(l.retries.polled, all);
    SubsetCard(l.retries.republished, all);
    SubsetCard(l.retries.cancelled, all);
  }

  lemma {:induction false} LedgerIsBounded(s: State, l: Ledger)
    requires FullInv(s, l)
    ensures Size(l) <= 6 * |s.db.events| + 12 * (|s.db.events| * |s.db.endpoints| * s.max)
  {
    hide CleanInv, PairsClean, NotYet, RowSize, KeySize, RetrySize, Keys, Pairs;
    var all := Keys(s.db.events.Keys, s.db.endpoints.Keys, s.max);
    PairsCard(s.db.events.Keys, s.db.endpoints.Keys);
    KeysCard(s.db.events.Keys, s.db.endpoints.Keys, s.max);
    KeysAreBounded(s, l);
    RecordsAreBounded(s, l);
    MessagesCard(s.db.events.Keys, all, l.records.fetched);
    SubsetCard(l.records.resolved, l.records.fetched);
    SubsetCard(l.records.finished, l.records.fetched);
    KeySetsWithin(l.keys, all);
    RowSetsWithin(s, l);
    RetrySetsWithin(s, l, all);
  }

  /** Every clean run is finite: however it interleaves, it takes at most this many
      steps besides ingestions. */
  lemma {:induction false} CleanRunsTerminate(s: State, acts: seq<Action>, t: State, l: Ledger)
    requires Init(s) && CleanLeads(s, EMPTY, acts, t, l)
    ensures Work(acts) <= 12 * |t.db.events| + 24 * (|t.db.events| * |t.db.endpoints| * t.max)
  {
    InitClean(s);
    hide FullInv, CleanLeads, Work, Init;
    NothingPending(s);
    CleanRunInv(s, EMPTY, acts, t, l);
    LedgerIsBounded(t, l);
  }

  lemma {:induction false} NothingPending(s: State)
    requires Init(s)
    ensures s.kafka.pending == {}
  {
  }

  // ---------- POSTs ----------

  /** In a clean run no attempt is POSTed twice, and only attempts below the limit of
      pairs that are targets are POSTed: at most `max` POSTs per pair. */
  lemma {:induction false} EveryAttemptPostsOnce(s: State, acts: seq<Action>, t: State, l: Ledger, k: Key)
    requires Init(s) && CleanLeads(s, EMPTY, acts, t, l)
    ensures t.hist.posts[k] <= 1
    ensures t.hist.posts[k] == 1 ==> k.attempt < t.max && Target(t.db.endpoints, t.db.events, k.pair)
  {
    InitClean(s);
    hide FullInv, CleanLeads, Init;
    CleanRunInv(s, EMPTY, acts, t, l);
    PostedFacts(t, l, k);
  }

  lemma {:induction false} PostedFacts(s: State, l: Ledger, k: Key)
    requires FullInv(s, l)
    ensures s.hist.posts[k] == if k in l.keys.posted then 1 else 0
    ensures k in l.keys.posted ==> k.attempt < s.max && Target(s.db.endpoints, s.db.events, k.pair)
  {
    hide Inv, LogClean, RowsClean, RetriesClean, RecordsClean, KeysClean, Target, HasSuccess, SuccessInHand, TaskFailed;
    if k in l.keys.posted {
      assert !NotYet(l.keys, k, 0);
      WorkedBelowMax(s, l, k);
    }
  }

  // ---------- progress ----------

  /** Some clean step other than an ingestion can be taken. */
  ghost predicate CanWork(s: State) {
    exists a :: Clean(a) && !a.ByApi? && Enabled(s, a)
  }

  /** A task can always take its next step. */
  lemma {:induction false} TaskCanStep(s: State, pos: Pos) returns (a: TaskStep)
    requires Inv(s) && s.hist.disturbed == {} && pos in s.live.tasks
    ensures TaskEnabled(s, pos, a) && !a.Fail?
  {
    hide Inv, HasSuccess, TaskOutcome, TaskRows, TargetSet;
    TaskFacts(s, pos);
    TaskPart(s, pos);
    KeyIsScheduled(s, pos);
    var t := s.live.tasks[pos];
    if t.pc.Resolving? {
      if s.kafka.log[pos].Poison? {
        a := Finish;
      } else {
        if s.kafka.log[pos].Targeted? {
          ScheduledEvents(s, s.kafka.log[pos].key);
        }
        var order := SomeOrder(TargetSet(s, s.kafka.log[pos]));
        a := Resolve(order);
      }
    } else if t.index == |t.targets| {
      a := Finish;
    } else {
      assert t.targets[t.index] in t.targets;
      a := match t.pc
        case Checking => Check
        case Posting => Post(TimedOut)
        case Inserting(_) => Insert
        case Scheduling => Schedule
        case Burying => Bury
        case Unscheduling => Unschedule(true);
    }
  }

  lemma {:induction false} TaskWork(s: State, pos: Pos)
    requires Inv(s) && s.hist.disturbed == {} && pos in s.live.tasks
    ensures CanWork(s)
  {
    hide Inv, TaskEnabled;
    var a := TaskCanStep(s, pos);
    assert Clean(ByTask(pos, a)) && Enabled(s, ByTask(pos, a));
  }

  lemma {:induction false} FetchWork(s: State, p: nat)
    requires p < |s.kafka.parts| && s.kafka.parts[p].next < s.kafka.parts[p].end
    ensures CanWork(s)
  {
    assert Clean(ByBroker(Fetch(p))) && Enabled(s, ByBroker(Fetch(p)));
  }

  lemma {:induction false} RecordWork(s: State, l: Ledger, pos: Pos)
    requires CleanInv(s, l) && pos in s.kafka.log && !Covered(s.kafka.parts, pos)
    ensures CanWork(s)
  {
    hide CanWork, LogClean, RowsClean, RetriesClean, KeysClean, OutcomesClean, Inv;
    CleanIsInv(s, l);
    Undisturbed(s, l);
    LogFacts(s);
    PartIsOk(s, pos.part);
    if s.kafka.parts[pos.part].next < s.kafka.parts[pos.part].end {
      FetchWork(s, pos.part);
    } else {
      assert Pos(pos.part, pos.offset) in s.live.tasks;
      TaskWork(s, pos);
    }
  }

  lemma {:induction false} PartIsOk(s: State, p: nat)
    requires Inv(s) && p < |s.kafka.parts|
    ensures PartOk(s.kafka.parts[p])
  {
    hide LogInv, FinishedInv, TasksInv, HandOffInv, SchedulersInv, OutboxInv, RelayCountInv, RowsInv, TaskRowsInv,
      ResultsInv, TaskOutcomeInv, CoveredInv, StableInv, TargetsInv;
  }

  lemma {:induction false} Undisturbed(s: State, l: Ledger)
    requires CleanInv(s, l)
    ensures s.hist.disturbed == {} && |s.kafka.parts| >= 1
  {
    hide Inv, LogClean, RowsClean, RetriesClean, KeysClean, OutcomesClean;
  }

  lemma {:induction false} SchedulerWork(s: State, l: Ledger)
    requires CleanInv(s, l) && (s.redis != {} || s.live.schedulers != map[])
    ensures CanWork(s)
  {
    hide LogClean, RowsClean, RecordsClean, KeysClean, OutcomesClean, Inv, ApiEnabled, RelayEnabled, TaskEnabled,
      BrokerEnabled;
    CleanIsInv(s, l);
    Undisturbed(s, l);
    SchedulerFacts(s);
    if s.live.schedulers != map[] {
      var c :| c in s.live.schedulers;
      var a := if s.live.schedulers[0].published then Cancel else Republish(0);
      assert Clean(ByScheduler(0, a)) && Enabled(s, ByScheduler(0, a));
    } else {
      var k := Pick(s.redis);
      assert Clean(ByScheduler(0, Poll([k]))) && Enabled(s, ByScheduler(0, Poll([k])));
    }
  }

  lemma {:induction false} RelayWork(s: State, l: Ledger)
    requires CleanInv(s, l) && s.db.outbox != {}
    ensures CanWork(s)
  {
    hide LogClean, RetriesClean, RecordsClean, KeysClean, OutcomesClean, RowsClean, Inv, ApiEnabled, SchedulerEnabled,
      TaskEnabled, BrokerEnabled;
    CleanIsInv(s, l);
    Undisturbed(s, l);
    if s.live.relays != map[] {
      var r :| r in s.live.relays;
      RelaySent(s, r);
      var a := if s.live.relays[r].sent < |s.live.relays[r].rows| then Send(0) else CommitRows;
      assert Clean(ByRelay(r, a)) && Enabled(s, ByRelay(r, a));
    } else {
      var e := Pick(s.db.outbox);
      assert Clean(ByRelay(0, Lock([e]))) && Enabled(s, ByRelay(0, Lock([e])));
    }
  }

  lemma {:induction false} RelaySent(s: State, r: nat)
    requires Inv(s) && r in s.live.relays
    ensures s.live.relays[r].sent <= |s.live.relays[r].rows|
  {
    hide PartsInv, FinishedInv, LogInv, TasksInv, HandOffInv, SchedulersInv, RelayCountInv, RowsInv, TaskRowsInv,
      ResultsInv, TaskOutcomeInv, CoveredInv, StableInv, TargetsInv;
    assert RelayOk(s.db.outbox, s.kafka.log, s.live.relays[r]);
  }

  /** A clean run never deadlocks: while a record, a retry, an outbox row or a task
      is left, some clean step can be taken. */
  lemma {:induction false} WorkIsNeverStuck(s: State, l: Ledger)
    requires FullInv(s, l) && !(Drained(s) && s.live.tasks == map[])
    ensures CanWork(s)
  {
    hide CleanInv, PairsClean, Covered, CanWork;
    CleanIsInv(s, l);
    Undisturbed(s, l);
    if s.live.tasks != map[] {
      var pos :| pos in s.live.tasks;
      TaskWork(s, pos);
    } else if s.redis != {} {
      SchedulerWork(s, l);
    } else if s.db.outbox != {} {
      RelayWork(s, l);
    } else {
      var pos :| pos in s.kafka.log && !Covered(s.kafka.parts, pos);
      RecordWork(s, l, pos);
    }
  }

  /** In terms of the run: it can be continued by a clean step as long as a record, a
      retry, an outbox row or a task is left. */
  lemma {:induction false} CleanRunsGoOn(s: State, acts: seq<Action>, t: State, l: Ledger)
    requires Init(s) && CleanLeads(s, EMPTY, acts, t, l) && !(Drained(t) && t.live.tasks == map[])
    ensures CanWork(t)
  {
    InitClean(s);
    hide FullInv, CleanLeads, Init, Drained, CanWork;
    CleanRunInv(s, EMPTY, acts, t, l);
    WorkIsNeverStuck(t, l);
  }

  // ---------- verdicts ----------

  lemma {:induction false} EarlierRescheduled(s: State, l: Ledger, q: Pair, n: nat, m: nat)
    requires CleanInv(s, l) && !NotYet(l.keys, Key(q, n), 0) && m < n
    ensures Key(q, m) in l.keys.rescheduled
    decreases n
  {
    hide CleanInv, NotYet;
    WorkedBelowMax(s, l, Key(q, n));
    ScheduledIff(s, l);
    if m < n - 1 {
      RescheduledIsWork(l.keys, Key(q, n - 1));
      EarlierRescheduled(s, l, q, n - 1, m);
    }
  }

  lemma {:induction false} NotBothRows(s: State, l: Ledger, q: Pair)
    requires CleanInv(s, l)
    ensures !(HasSuccess(s.db.attempts, q) && q in s.db.dlq)
  {
    hide Inv, LogClean, RowsClean, RetriesClean, RecordsClean, KeysClean, SuccessInHand, TaskFailed, NotYet;
    if HasSuccess(s.db.attempts, q) && q in s.db.dlq {
      var n: nat :| Key(q, n) in s.db.attempts && s.db.attempts[Key(q, n)] == Success;
      var m: nat :| Key(q, m) in l.keys.buried;
      InsertedOrBuriedIsWork(l.keys, Key(q, n));
      InsertedOrBuriedIsWork(l.keys, Key(q, m));
      if n < m {
        EarlierRescheduled(s, l, q, m, n);
      } else if m < n {
        EarlierRescheduled(s, l, q, n, m);
      }
      assert false;
    }
  }

  /** At no point of a clean run does a pair have both a success row and a DLQ row. */
  lemma {:induction false} NotBoth(s: State, acts: seq<Action>, t: State, l: Ledger, q: Pair)
    requires Init(s) && CleanLeads(s, EMPTY, acts, t, l)
    ensures !(HasSuccess(t.db.attempts, q) && q in t.db.dlq)
  {
    InitClean(s);
    hide CleanInv, PairsClean, CleanLeads, Init, HasSuccess;
    CleanRunInv(s, EMPTY, acts, t, l);
    NotBothRows(t, l, q);
  }

  lemma {:induction false} InsertedOrBuriedIsWork(l: KeyLedger, k: Key)
    requires k in l.inserted || k in l.buried
    ensures !NotYet(l, k, 0)
  {
  }

  /** Rows exist only for targets. */
  lemma {:induction false} RowsAreTargets(s: State, l: Ledger)
    requires FullInv(s, l)
    ensures forall k :: k in s.db.attempts ==> Target(s.db.endpoints, s.db.events, k.pair)
    ensures forall q :: q in s.db.dlq ==> Target(s.db.endpoints, s.db.events, q)
  {
    hide Inv, LogClean, RowsClean, RetriesClean, RecordsClean, KeysClean, SuccessInHand, TaskFailed, NotYet, Target,
      HasSuccess;
    forall k | k in s.db.attempts ensures Target(s.db.endpoints, s.db.events, k.pair) {
      InsertedOrBuriedIsWork(l.keys, k);
    }
    forall q | q in s.db.dlq ensures Target(s.db.endpoints, s.db.events, q) {
      var n: nat :| Key(q, n) in l.keys.buried;
      InsertedOrBuriedIsWork(l.keys, Key(q, n));
    }
  }

  lemma {:induction false} AckedHasRow(s: State, l: Ledger, q: Pair)
    requires CleanInv(s, l) && s.live.tasks == map[]
    ensures q in s.hist.acked ==> HasSuccess(s.db.attempts, q)
    ensures q in s.hist.dlqed ==> q in s.db.dlq
  {
    hide Inv, LogClean, RowsClean, RetriesClean, RecordsClean, KeysClean, TaskFailed, NotYet, HasSuccess;
  }

  /** When a clean run can go no further, every target has exactly one verdict: a
      success row or a DLQ row, never both; and no other pair has any row. */
  lemma {:induction false} ExactlyOneVerdict(s: State, acts: seq<Action>, t: State, l: Ledger)
    requires Init(s) && CleanLeads(s, EMPTY, acts, t, l) && !CanWork(t)
    ensures forall q :: Target(t.db.endpoints, t.db.events, q) ==>
              (HasSuccess(t.db.attempts, q) <==> q !in t.db.dlq)
    ensures forall k :: k in t.db.attempts ==> Target(t.db.endpoints, t.db.events, k.pair)
    ensures forall q :: q in t.db.dlq ==> Target(t.db.endpoints, t.db.events, q)
  {
    InitClean(s);
    hide CleanInv, PairsClean, CleanLeads, Init, HasSuccess, CanWork, Drained, Reachable, Leads, Matches;
    CleanRunInv(s, EMPTY, acts, t, l);
    IsReachable(s, acts, t);
    DrainedAtTheEnd(t, l);
    Undisturbed(t, l);
    RowsAreTargets(t, l);
    forall q | Target(t.db.endpoints, t.db.events, q)
      ensures HasSuccess(t.db.attempts, q) <==> q !in t.db.dlq
    {
      StableEndpointGetsEveryEvent(t, q.event, q.endpoint);
      AckedHasRow(t, l, q);
      NotBothRows(t, l, q);
    }
  }

  lemma {:induction false} DrainedAtTheEnd(s: State, l: Ledger)
    requires FullInv(s, l) && !CanWork(s)
    ensures Drained(s) && s.live.tasks == map[]
  {
    hide FullInv, CanWork, Drained;
    if !(Drained(s) && s.live.tasks == map[]) {
      WorkIsNeverStuck(s, l);
    }
  }
}
