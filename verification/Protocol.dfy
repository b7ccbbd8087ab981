/** The delivery pipeline as one step system. Durable state: the tables, the
    pending topic with the broker's committed positions, the retry store. Volatile
    state: watermarks, tasks, schedulers and relays. A step is one durable write
    or one read of the code, in code order; any volatile part may vanish between
    two steps. Fields after the line are monotone histories no step reads. */
module Protocol {
  import opened Domain
  import opened Watermarks

  datatype Pos = Pos(part: nat, offset: nat)

  /** A commit request under way: `position` is the next offset to fetch. */
  datatype Commit = Commit(part: nat, position: int)

  /** One partition of the pending topic and the consumer that owns it.
      `end` is the log end; `committed` the broker's position; `start` the position
      this epoch began at; `next` the fetch position; `done` the offsets finished in
      this epoch. */
  datatype Part = Part(
    end: nat, committed: int, start: int, next: nat, wm: Watermark, done: set<int>)

  /** Where `_process_record` and `_deliver_to_endpoint` stand. */
  datatype Pc =
    | Resolving
    | Checking
    | Posting
    | Inserting(outcome: Outcome)
    | Scheduling
    | Burying
    | Unscheduling

  datatype Task = Task(targets: seq<Uuid>, index: nat, pc: Pc)

  /** A scheduler walking the entries it polled; `published` says whether the
      first of them is between its publish and its cancel. */
  datatype Scheduler = Scheduler(due: seq<Key>, published: bool)

  /** A relay transaction: the rows it locked and how many it has published. */
  datatype Relay = Relay(rows: seq<Uuid>, sent: nat)

  /** The Postgres tables. */
  datatype Db = Db(
    endpoints: map<Uuid, Endpoint>,
    events: map<Uuid, Event>,
    outbox: set<Uuid>,
    attempts: map<Key, Status>,
    dlq: set<Pair>)

  /** The pending topic and the commit requests on their way to it. */
  datatype Kafka = Kafka(log: map<Pos, Message>, parts: seq<Part>, pending: set<Commit>)

  /** What runs, and is lost in a crash. */
  datatype Live = Live(tasks: map<Pos, Task>, schedulers: map<nat, Scheduler>, relays: map<nat, Relay>)

  /** Monotone histories, read by no step: endpoint identifiers ever used and those
      ever updated or deleted; finished records; targets ever resolved per record;
      attempts ever scheduled; pairs ever acknowledged by a 2xx, ever dead-lettered,
      and dropped because their endpoint was no target when resolved; all POSTs; rows
      published by the relay and rows of rolled-back batches. */
  datatype History = History(
    known: set<Uuid>,
    disturbed: set<Uuid>,
    finished: set<Pos>,
    resolved: map<Pos, set<Uuid>>,
    scheduled: set<Key>,
    acked: set<Pair>,
    dlqed: set<Pair>,
    dropped: set<Pair>,
    posts: multiset<Key>,
    relayed: multiset<Uuid>,
    rolledBack: multiset<Uuid>)

  /** `max` is `max_retry_attempts`; `redis` the members of the retry store. */
  datatype State = State(max: nat, db: Db, kafka: Kafka, redis: set<Key>, live: Live, hist: History)

  const RELAY_BATCH := 100

  datatype ApiStep =
    | Ingest(event: Uuid, body: Event)
    | SetEndpoint(endpoint: Uuid, record: Endpoint)
    | DeleteEndpoint(endpoint: Uuid)
    | Publish(part: nat, event: Uuid)
    | DeleteDlq(pairs: set<Pair>)
    | PublishPoison(part: nat)

  datatype RelayStep = Lock(rows: seq<Uuid>) | Send(part: nat) | CommitRows | Abort

  datatype SchedulerStep = Poll(due: seq<Key>) | Republish(part: nat) | Cancel | Crash

  datatype TaskStep =
    | Resolve(targets: seq<Uuid>)
    | Check
    | Post(outcome: Outcome)
    | Insert
    | Schedule
    | Bury
    | Unschedule(ok: bool)
    | Finish
    | Fail

  datatype BrokerStep = Fetch(part: nat) | Arrive(commit: Commit) | Lose(commit: Commit) | Restart(part: nat)

  datatype Action =
    | ByApi(api: ApiStep)
    | ByRelay(relay: nat, relayStep: RelayStep)
    | ByScheduler(scheduler: nat, schedulerStep: SchedulerStep)
    | ByTask(pos: Pos, taskStep: TaskStep)
    | ByBroker(brokerStep: BrokerStep)

  // ---------- initial states ----------

  const FRESH_PART := Part(0, 0, 0, 0, FRESH, {})

  ghost predicate Init(s: State) {
    && s.max >= 1
    && |s.kafka.parts| >= 1
    && (forall p :: 0 <= p < |s.kafka.parts| ==> s.kafka.parts[p] == FRESH_PART)
    && s.db.events == map[] && s.db.outbox == {} && s.db.attempts == map[] && s.db.dlq == {} && s.redis == {}
    && s.kafka.log == map[] && s.kafka.pending == {}
    && s.live == Live(map[], map[], map[])
    && s.hist == History(s.db.endpoints.Keys, {}, {}, map[], {}, {}, {}, {}, multiset{}, multiset{}, multiset{})
  }

  // ---------- auxiliary definitions ----------

  predicate Distinct<T(==)>(xs: seq<T>) {
    forall i, j :: 0 <= i < j < |xs| ==> xs[i] != xs[j]
  }

  ghost predicate KeyTaken(events: map<Uuid, Event>, key: string) {
    exists e :: e in events && events[e].idempotencyKey == key
  }

  /** Rows locked by running relay transactions; SKIP LOCKED passes them over. */
  ghost predicate Locked(relays: map<nat, Relay>, event: Uuid) {
    exists r :: r in relays && event in relays[r].rows
  }

  ghost predicate HasSuccess(attempts: map<Key, Status>, pair: Pair) {
    exists n: nat :: Key(pair, n) in attempts && attempts[Key(pair, n)] == Success
  }

  /** The endpoints a message must be delivered to, as the tables stand. */
  function TargetsOf(endpoints: map<Uuid, Endpoint>, events: map<Uuid, Event>, m: Message): set<Uuid>
    requires !m.Poison? && EventOf(m) in events
  {
    match m
    case Fanout(e) => set ep | ep in endpoints && Matches(endpoints[ep], events[e])
    case Targeted(k) =>
      if k.pair.endpoint in endpoints && endpoints[k.pair.endpoint].enabled then {k.pair.endpoint} else {}
  }

  ghost function TargetSet(s: State, m: Message): set<Uuid>
    requires !m.Poison? && EventOf(m) in s.db.events
  {
    TargetsOf(s.db.endpoints, s.db.events, m)
  }

  function Elements<T>(xs: seq<T>): set<T> {
    set x | x in xs
  }

  function Append(s: State, part: nat, m: Message): State
    requires part < |s.kafka.parts|
  {
    s.(kafka := s.kafka.(
         log := s.kafka.log[Pos(part, s.kafka.parts[part].end) := m],
         parts := s.kafka.parts[part := s.kafka.parts[part].(end := s.kafka.parts[part].end + 1)]))
  }

  /** The task at `pos` is running inside `_deliver_to_endpoint`. */
  predicate Delivering(s: State, pos: Pos) {
    && pos in s.live.tasks && pos in s.kafka.log && !s.kafka.log[pos].Poison?
    && s.live.tasks[pos].index < |s.live.tasks[pos].targets|
  }

  function CurrentPair(s: State, pos: Pos): Pair
    requires Delivering(s, pos)
  {
    Pair(EventOf(s.kafka.log[pos]), s.live.tasks[pos].targets[s.live.tasks[pos].index])
  }

  function CurrentKey(s: State, pos: Pos): Key
    requires Delivering(s, pos)
  {
    Key(CurrentPair(s, pos), AttemptOf(s.kafka.log[pos]))
  }

  function SetPc(s: State, pos: Pos, pc: Pc): State
    requires pos in s.live.tasks
  {
    s.(live := s.live.(tasks := s.live.tasks[pos := s.live.tasks[pos].(pc := pc)]))
  }

  /** The delivery to the current target returned; the loop takes the next one. */
  function NextTarget(s: State, pos: Pos): State
    requires pos in s.live.tasks
  {
    s.(live := s.live.(
         tasks := s.live.tasks[pos := s.live.tasks[pos].(index := s.live.tasks[pos].index + 1, pc := Checking)]))
  }

  // ---------- steps of the API ----------

  /** Insert the event and its outbox row in one transaction, unless the
      idempotency key is taken. */
  ghost function StepIngest(s: State, event: Uuid, body: Event): State {
    if KeyTaken(s.db.events, body.idempotencyKey) then s
    else s.(db := s.db.(events := s.db.events[event := body], outbox := s.db.outbox + {event}))
  }

  /** Create or update an endpoint. Identifiers are never reused. */
  function StepSetEndpoint(s: State, ep: Uuid, record: Endpoint): State {
    s.(db := s.db.(endpoints := s.db.endpoints[ep := record]),
       hist := s.hist.(known := s.hist.known + {ep}, disturbed := s.hist.disturbed + {ep}))
  }

  /** Delete an endpoint with its attempt and DLQ rows. */
  function StepDeleteEndpoint(s: State, ep: Uuid): State {
    s.(db := s.db.(
         endpoints := s.db.endpoints - {ep},
         attempts := (map k | k in s.db.attempts && k.pair.endpoint != ep :: s.db.attempts[k]),
         dlq := (set q | q in s.db.dlq && q.endpoint != ep)),
       hist := s.hist.(disturbed := s.hist.disturbed + {ep}))
  }

  // ---------- steps of the outbox relay ----------

  function StepRelaySend(s: State, r: nat, part: nat): State
    requires r in s.live.relays && s.live.relays[r].sent < |s.live.relays[r].rows| && part < |s.kafka.parts|
  {
    var e := s.live.relays[r].rows[s.live.relays[r].sent];
    Append(s, part, Fanout(e)).(
      live := s.live.(relays := s.live.relays[r := s.live.relays[r].(sent := s.live.relays[r].sent + 1)]),
      hist := s.hist.(relayed := s.hist.relayed + multiset{e}))
  }

  function StepRelayCommit(s: State, r: nat): State
    requires r in s.live.relays
  {
    s.(db := s.db.(outbox := s.db.outbox - Elements(s.live.relays[r].rows)),
       live := s.live.(relays := s.live.relays - {r}))
  }

  function StepRelayAbort(s: State, r: nat): State
    requires r in s.live.relays
  {
    s.(live := s.live.(relays := s.live.relays - {r}),
       hist := s.hist.(rolledBack := s.hist.rolledBack + multiset(s.live.relays[r].rows)))
  }

  // ---------- steps of the retry scheduler ----------

  function StepRepublish(s: State, c: nat, part: nat): State
    requires c in s.live.schedulers && s.live.schedulers[c].due != [] && part < |s.kafka.parts|
  {
    Append(s, part, Targeted(s.live.schedulers[c].due[0])).(
      live := s.live.(schedulers := s.live.schedulers[c := s.live.schedulers[c].(published := true)]))
  }

  function StepCancelRepublished(s: State, c: nat): State
    requires c in s.live.schedulers && s.live.schedulers[c].due != []
  {
    var rest := s.live.schedulers[c].due[1..];
    s.(redis := s.redis - {s.live.schedulers[c].due[0]},
       live := s.live.(
         schedulers := if rest == [] then s.live.schedulers - {c} else s.live.schedulers[c := Scheduler(rest, false)]))
  }

  // ---------- steps of the delivery worker ----------

  function StepFetch(s: State, p: nat): State
    requires p < |s.kafka.parts|
  {
    var part := s.kafka.parts[p];
    s.(kafka := s.kafka.(
         parts := s.kafka.parts[p := part.(next := part.next + 1, wm := Started(part.wm, part.next))]),
       live := s.live.(tasks := s.live.tasks[Pos(p, part.next) := Task([], 0, Resolving)]))
  }

  /** Pairs this resolution drops: targeted or resolved before, not a target now. */
  ghost function DroppedBy(s: State, pos: Pos, targets: seq<Uuid>): set<Pair>
    requires pos in s.kafka.log && !s.kafka.log[pos].Poison?
  {
    var m := s.kafka.log[pos];
    var before := (if pos in s.hist.resolved then s.hist.resolved[pos] else {})
                  + (if m.Targeted? then {m.key.pair.endpoint} else {});
    set ep | ep in before && ep !in targets :: Pair(EventOf(m), ep)
  }

  ghost function StepResolve(s: State, pos: Pos, targets: seq<Uuid>): State
    requires pos in s.live.tasks && pos in s.kafka.log && !s.kafka.log[pos].Poison?
  {
    var before := if pos in s.hist.resolved then s.hist.resolved[pos] else {};
    s.(live := s.live.(tasks := s.live.tasks[pos := Task(targets, 0, Checking)]),
       hist := s.hist.(
         resolved := s.hist.resolved[pos := before + Elements(targets)],
         dropped := s.hist.dropped + DroppedBy(s, pos, targets)))
  }

  ghost function StepCheck(s: State, pos: Pos): State
    requires Delivering(s, pos)
  {
    if HasSuccess(s.db.attempts, CurrentPair(s, pos)) then NextTarget(s, pos) else SetPc(s, pos, Posting)
  }

  function StepPost(s: State, pos: Pos, o: Outcome): State
    requires Delivering(s, pos)
  {
    SetPc(s, pos, Inserting(o)).(
      hist := s.hist.(
        posts := s.hist.posts + multiset{CurrentKey(s, pos)},
        acked := if StatusOf(o) == Success then s.hist.acked + {CurrentPair(s, pos)} else s.hist.acked))
  }

  /** INSERT .. ON CONFLICT DO NOTHING. */
  function InsertRow(attempts: map<Key, Status>, k: Key, status: Status): map<Key, Status> {
    if k in attempts then attempts else attempts[k := status]
  }

  function StepInsert(s: State, pos: Pos): State
    requires Delivering(s, pos) && s.live.tasks[pos].pc.Inserting?
  {
    var o := s.live.tasks[pos].pc.outcome;
    var k := CurrentKey(s, pos);
    (if StatusOf(o) == Success then NextTarget(s, pos)
     else SetPc(s, pos, if GivesUp(o, k.attempt, s.max) then Burying else Scheduling)).(
      db := s.db.(attempts := InsertRow(s.db.attempts, k, StatusOf(o))))
  }

  function StepSchedule(s: State, pos: Pos): State
    requires Delivering(s, pos)
  {
    var k := Key(CurrentPair(s, pos), AttemptOf(s.kafka.log[pos]) + 1);
    NextTarget(s, pos).(redis := s.redis + {k}, hist := s.hist.(scheduled := s.hist.scheduled + {k}))
  }

  function StepBury(s: State, pos: Pos): State
    requires Delivering(s, pos)
  {
    SetPc(s, pos, Unscheduling).(
      db := s.db.(dlq := s.db.dlq + {CurrentPair(s, pos)}),
      hist := s.hist.(dlqed := s.hist.dlqed + {CurrentPair(s, pos)}))
  }

  /** The DLQ handler's cancel is best effort. */
  function StepUnschedule(s: State, pos: Pos, ok: bool): State
    requires Delivering(s, pos)
  {
    NextTarget(s, pos).(redis := if ok then s.redis - {CurrentKey(s, pos)} else s.redis)
  }

  /** The record is processed: `done` decides whether a commit request goes out. */
  function StepFinish(s: State, pos: Pos): State
    requires pos.part < |s.kafka.parts|
  {
    var part := s.kafka.parts[pos.part];
    var c := ToCommit(part.wm, pos.offset);
    s.(kafka := s.kafka.(
         parts := s.kafka.parts[
           pos.part := part.(wm := Finished(part.wm, pos.offset), done := part.done + {pos.offset})],
         pending := if c.Some? then s.kafka.pending + {Commit(pos.part, c.value + 1)} else s.kafka.pending),
       hist := s.hist.(finished := s.hist.finished + {pos}),
       live := s.live.(tasks := s.live.tasks - {pos}))
  }

  /** A commit request reaches the broker, which takes its position as it is. */
  function StepArrive(s: State, c: Commit): State
    requires c.part < |s.kafka.parts|
  {
    s.(kafka := s.kafka.(
         parts := s.kafka.parts[c.part := s.kafka.parts[c.part].(committed := c.position)],
         pending := s.kafka.pending - {c}))
  }

  /** The process that owns the partition dies and a new one takes over: its tasks
      are gone, the broker fences its outstanding commits, and a fresh watermark
      starts at the committed position. */
  function StepRestart(s: State, p: nat): State
    requires p < |s.kafka.parts| && s.kafka.parts[p].committed >= 0
  {
    var part := s.kafka.parts[p];
    s.(kafka := s.kafka.(
         parts := s.kafka.parts[p := part.(start := part.committed, next := part.committed, wm := FRESH, done := {})],
         pending := (set c | c in s.kafka.pending && c.part != p)),
       live := s.live.(tasks := (map pos | pos in s.live.tasks && pos.part != p :: s.live.tasks[pos])))
  }

  // ---------- the step relation ----------

  ghost predicate ApiEnabled(s: State, a: ApiStep) {
    match a
    case Ingest(e, body) => e !in s.db.events
    case SetEndpoint(ep, record) => ep in s.db.endpoints || ep !in s.hist.known
    case DeleteEndpoint(ep) => ep in s.db.endpoints
    case Publish(p, e) => p < |s.kafka.parts| && e in s.db.events
    case DeleteDlq(pairs) => true
    case PublishPoison(p) => p < |s.kafka.parts|
  }

  ghost function StepApi(s: State, a: ApiStep): State
    requires ApiEnabled(s, a)
  {
    match a
    case Ingest(e, body) => StepIngest(s, e, body)
    case SetEndpoint(ep, record) => StepSetEndpoint(s, ep, record)
    case DeleteEndpoint(ep) => StepDeleteEndpoint(s, ep)
    case Publish(p, e) => Append(s, p, Fanout(e))
    case DeleteDlq(pairs) => s.(db := s.db.(dlq := s.db.dlq - pairs))
    case PublishPoison(p) => Append(s, p, Poison)
  }

  ghost predicate RelayEnabled(s: State, r: nat, a: RelayStep) {
    match a
    case Lock(rows) =>
      && r !in s.live.relays && 0 < |rows| <= RELAY_BATCH && Distinct(rows)
      && forall e :: e in rows ==> e in s.db.outbox && !Locked(s.live.relays, e)
    case Send(p) => r in s.live.relays && s.live.relays[r].sent < |s.live.relays[r].rows| && p < |s.kafka.parts|
    case CommitRows => r in s.live.relays && s.live.relays[r].sent == |s.live.relays[r].rows|
    case Abort => r in s.live.relays
  }

  ghost function StepRelay(s: State, r: nat, a: RelayStep): State
    requires RelayEnabled(s, r, a)
  {
    match a
    case Lock(rows) => s.(live := s.live.(relays := s.live.relays[r := Relay(rows, 0)]))
    case Send(p) => StepRelaySend(s, r, p)
    case CommitRows => StepRelayCommit(s, r)
    case Abort => StepRelayAbort(s, r)
  }

  ghost predicate SchedulerEnabled(s: State, c: nat, a: SchedulerStep) {
    match a
    case Poll(due) =>
      && c !in s.live.schedulers && 0 < |due| <= POLL_BATCH && Distinct(due)
      && forall k :: k in due ==> k in s.redis
    case Republish(p) =>
      c in s.live.schedulers && s.live.schedulers[c].due != [] && !s.live.schedulers[c].published && p < |s.kafka.parts|
    case Cancel => c in s.live.schedulers && s.live.schedulers[c].due != [] && s.live.schedulers[c].published
    case Crash => c in s.live.schedulers
  }

  ghost function StepScheduler(s: State, c: nat, a: SchedulerStep): State
    requires SchedulerEnabled(s, c, a)
  {
    match a
    case Poll(due) => s.(live := s.live.(schedulers := s.live.schedulers[c := Scheduler(due, false)]))
    case Republish(p) => StepRepublish(s, c, p)
    case Cancel => StepCancelRepublished(s, c)
    case Crash => s.(live := s.live.(schedulers := s.live.schedulers - {c}))
  }

  /** The record is poison or an orphan, or the loop over its targets is over. */
  predicate ReadyToFinish(s: State, pos: Pos) {
    && pos in s.live.tasks && pos in s.kafka.log && pos.part < |s.kafka.parts|
    && if s.live.tasks[pos].pc.Resolving?
       then s.kafka.log[pos].Poison? || EventOf(s.kafka.log[pos]) !in s.db.events
       else s.live.tasks[pos].pc.Checking? && s.live.tasks[pos].index == |s.live.tasks[pos].targets|
  }

  /** The two inserts have foreign keys to the endpoint: without it they raise, and
      the task fails. */
  ghost predicate TaskEnabled(s: State, pos: Pos, a: TaskStep) {
    match a
    case Resolve(targets) =>
      && pos in s.live.tasks && s.live.tasks[pos].pc.Resolving? && pos in s.kafka.log && !s.kafka.log[pos].Poison?
      && EventOf(s.kafka.log[pos]) in s.db.events
      && Distinct(targets) && Elements(targets) == TargetSet(s, s.kafka.log[pos])
    case Check => Delivering(s, pos) && s.live.tasks[pos].pc.Checking?
    case Post(o) => Delivering(s, pos) && s.live.tasks[pos].pc.Posting?
    case Insert =>
      Delivering(s, pos) && s.live.tasks[pos].pc.Inserting? && CurrentPair(s, pos).endpoint in s.db.endpoints
    case Schedule => Delivering(s, pos) && s.live.tasks[pos].pc.Scheduling?
    case Bury => Delivering(s, pos) && s.live.tasks[pos].pc.Burying? && CurrentPair(s, pos).endpoint in s.db.endpoints
    case Unschedule(ok) => Delivering(s, pos) && s.live.tasks[pos].pc.Unscheduling?
    case Finish => ReadyToFinish(s, pos)
    case Fail => pos in s.live.tasks
  }

  ghost function StepTask(s: State, pos: Pos, a: TaskStep): State
    requires TaskEnabled(s, pos, a)
  {
    match a
    case Resolve(targets) => StepResolve(s, pos, targets)
    case Check => StepCheck(s, pos)
    case Post(o) => StepPost(s, pos, o)
    case Insert => StepInsert(s, pos)
    case Schedule => StepSchedule(s, pos)
    case Bury => StepBury(s, pos)
    case Unschedule(ok) => StepUnschedule(s, pos, ok)
    case Finish => StepFinish(s, pos)
    case Fail => s.(live := s.live.(tasks := s.live.tasks - {pos}))
  }

  predicate BrokerEnabled(s: State, a: BrokerStep) {
    match a
    case Fetch(p) => p < |s.kafka.parts| && s.kafka.parts[p].next < s.kafka.parts[p].end
    case Arrive(c) => c in s.kafka.pending && c.part < |s.kafka.parts|
    case Lose(c) => c in s.kafka.pending
    case Restart(p) => p < |s.kafka.parts| && s.kafka.parts[p].committed >= 0
  }

  function StepBroker(s: State, a: BrokerStep): State
    requires BrokerEnabled(s, a)
  {
    match a
    case Fetch(p) => StepFetch(s, p)
    case Arrive(c) => StepArrive(s, c)
    case Lose(c) => s.(kafka := s.kafka.(pending := s.kafka.pending - {c}))
    case Restart(p) => StepRestart(s, p)
  }

  ghost predicate Enabled(s: State, a: Action) {
    match a
    case ByApi(x) => ApiEnabled(s, x)
    case ByRelay(r, x) => RelayEnabled(s, r, x)
    case ByScheduler(c, x) => SchedulerEnabled(s, c, x)
    case ByTask(pos, x) => TaskEnabled(s, pos, x)
    case ByBroker(x) => BrokerEnabled(s, x)
  }

  ghost function Step(s: State, a: Action): State
    requires Enabled(s, a)
  {
    match a
    case ByApi(x) => StepApi(s, x)
    case ByRelay(r, x) => StepRelay(s, r, x)
    case ByScheduler(c, x) => StepScheduler(s, c, x)
    case ByTask(pos, x) => StepTask(s, pos, x)
    case ByBroker(x) => StepBroker(s, x)
  }

  /** `acts` can be taken from `s`, one after the other, and lead to `t`. */
  ghost predicate Leads(s: State, acts: seq<Action>, t: State)
    decreases |acts|
  {
    if acts == [] then s == t
    else Enabled(s, acts[0]) && Leads(Step(s, acts[0]), acts[1..], t)
  }

  ghost predicate Reachable(t: State) {
    exists s, acts :: Init(s) && Leads(s, acts, t)
  }
}
