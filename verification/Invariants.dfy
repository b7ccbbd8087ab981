/** The inductive invariant of the step system, cut into parts that each speak of
    only the fields they need. */
module Invariants {
  import opened Domain
  import opened Protocol

  // ---------- the committer ----------

  /** A position that is safe to commit: everything before it is done. */
  ghost predicate SafePosition(part: Part, c: int) {
    && part.start <= c <= part.next
    && forall x :: part.start <= x < c ==> x in part.done
  }

  ghost predicate PartOk(part: Part) {
    && 0 <= part.start <= part.next <= part.end
    && (forall x :: x in part.wm.inFlight ==> x !in part.done)
    && (forall x :: x in part.wm.inFlight || x in part.done <==> part.start <= x < part.next)
    && part.wm.lastSeen == (if part.next == part.start then -1 else part.next - 1)
    && SafePosition(part, part.committed)
  }

  /** Everything before this epoch, and everything done in it, was finished by a task. */
  ghost predicate FinishedInv(parts: seq<Part>, finished: set<Pos>) {
    forall p, x: nat :: 0 <= p < |parts| && (x < parts[p].start || x in parts[p].done) ==> Pos(p, x) in finished
  }

  ghost predicate PartsInv(parts: seq<Part>, pending: set<Commit>) {
    && (forall p :: 0 <= p < |parts| ==> PartOk(parts[p]))
    && (forall c :: c in pending ==> c.part < |parts| && SafePosition(parts[c.part], c.position))
  }

  /** The log holds exactly the offsets below each partition's end, and every task
      works on an offset in flight. */
  ghost predicate LogInv(log: map<Pos, Message>, parts: seq<Part>, tasks: map<Pos, Task>) {
    && (forall pos :: pos in log <==> pos.part < |parts| && pos.offset < parts[pos.part].end)
    && (forall pos :: pos in tasks ==> pos.part < |parts| && pos.offset in parts[pos.part].wm.inFlight)
  }

  // ---------- tasks ----------

  ghost predicate TaskShape(max: nat, events: map<Uuid, Event>, m: Message, t: Task) {
    && t.index <= |t.targets|
    && Distinct(t.targets)
    && (t.pc.Resolving? ==> t.targets == [])
    && (!t.pc.Resolving? ==> !m.Poison? && EventOf(m) in events)
    && (!t.pc.Resolving? && !t.pc.Checking? ==> t.index < |t.targets|)
    && (t.pc.Scheduling? ==> AttemptOf(m) + 1 < max)
    && (m.Targeted? ==> forall ep :: ep in t.targets ==> ep == m.key.pair.endpoint)
  }

  ghost predicate TasksInv(max: nat, events: map<Uuid, Event>, log: map<Pos, Message>, tasks: map<Pos, Task>) {
    && max >= 1
    && forall pos :: pos in tasks ==> pos in log && TaskShape(max, events, log[pos], tasks[pos])
  }

  // ---------- the hand-off between stores ----------

  ghost predicate MessageOk(events: map<Uuid, Event>, scheduled: set<Key>, m: Message) {
    && (m.Fanout? ==> m.event in events)
    && (m.Targeted? ==> m.key in scheduled)
  }

  ghost predicate HandOffInv(max: nat, events: map<Uuid, Event>, redis: set<Key>, log: map<Pos, Message>,
                             scheduled: set<Key>)
  {
    && (forall m :: m in log.Values ==> MessageOk(events, scheduled, m))
    && (forall k :: k in scheduled ==> 1 <= k.attempt < max && k.pair.event in events)
    && (forall k :: k in scheduled ==> k in redis || Targeted(k) in log.Values)
    && redis <= scheduled
  }

  ghost predicate SchedulersInv(log: map<Pos, Message>, schedulers: map<nat, Scheduler>, scheduled: set<Key>) {
    forall c :: c in schedulers ==>
      && schedulers[c].due != []
      && (forall k :: k in schedulers[c].due ==> k in scheduled)
      && (schedulers[c].published ==> Targeted(schedulers[c].due[0]) in log.Values)
  }

  // ---------- the outbox ----------

  ghost predicate RelayOk(outbox: set<Uuid>, log: map<Pos, Message>, relay: Relay) {
    && Distinct(relay.rows)
    && (forall e :: e in relay.rows ==> e in outbox)
    && relay.sent <= |relay.rows|
    && (forall i :: 0 <= i < relay.sent ==> Fanout(relay.rows[i]) in log.Values)
  }

  ghost predicate DisjointRows(relays: map<nat, Relay>) {
    forall r1, r2, e :: r1 in relays && r2 in relays && e in relays[r1].rows && e in relays[r2].rows ==> r1 == r2
  }

  /** A running transaction has published this row. */
  ghost predicate InTransit(relays: map<nat, Relay>, event: Uuid) {
    exists r :: r in relays && relays[r].sent <= |relays[r].rows| && event in relays[r].rows[..relays[r].sent]
  }

  ghost predicate OutboxInv(events: map<Uuid, Event>, outbox: set<Uuid>, log: map<Pos, Message>,
                            relays: map<nat, Relay>)
  {
    && outbox <= events.Keys
    && (forall e :: e in events ==> e in outbox || Fanout(e) in log.Values)
    && (forall r :: r in relays ==> RelayOk(outbox, log, relays[r]))
    && DisjointRows(relays)
  }

  ghost predicate RelayCountInv(events: map<Uuid, Event>, outbox: set<Uuid>, relays: map<nat, Relay>,
                                relayed: multiset<Uuid>, rolledBack: multiset<Uuid>)
  {
    forall e: Uuid ::
      relayed[e] <= rolledBack[e] + if e in events && (e !in outbox || InTransit(relays, e)) then 1 else 0
  }

  // ---------- the audit trail ----------

  ghost predicate RowsBelow(attempts: map<Key, Status>, k: Key) {
    forall m: nat :: m < k.attempt ==> Key(k.pair, m) in attempts
  }

  ghost predicate RowsInv(max: nat, endpoints: map<Uuid, Endpoint>, known: set<Uuid>, attempts: map<Key, Status>,
                          scheduled: set<Key>)
  {
    && endpoints.Keys <= known
    && (forall k :: k in attempts ==>
          k.attempt < max && k.pair.endpoint in endpoints && RowsBelow(attempts, k))
    && (forall k :: k in scheduled ==>
          k.pair.endpoint in known && (k.pair.endpoint in endpoints ==> RowsBelow(attempts, k)))
  }

  ghost predicate TaskRows(endpoints: map<Uuid, Endpoint>, known: set<Uuid>, attempts: map<Key, Status>,
                           m: Message, t: Task)
  {
    && (forall ep :: ep in t.targets ==> ep in known)
    && ((t.pc.Scheduling? || t.pc.Burying?) && !m.Poison? && t.index < |t.targets|
        && t.targets[t.index] in endpoints ==>
          Key(Pair(EventOf(m), t.targets[t.index]), AttemptOf(m)) in attempts)
  }

  ghost predicate TaskRowsInv(endpoints: map<Uuid, Endpoint>, known: set<Uuid>, attempts: map<Key, Status>,
                              log: map<Pos, Message>, tasks: map<Pos, Task>)
  {
    forall pos :: pos in tasks && pos in log ==> TaskRows(endpoints, known, attempts, log[pos], tasks[pos])
  }

  /** A success row is only ever the trace of a 2xx, a DLQ row of a dead-lettering. */
  ghost predicate ResultsInv(attempts: map<Key, Status>, dlq: set<Pair>, acked: set<Pair>, dlqed: set<Pair>) {
    && (forall k :: k in attempts && attempts[k] == Success ==> k.pair in acked)
    && dlq <= dlqed
  }

  // ---------- the outcome of every resolved target ----------

  ghost predicate Settled(acked: set<Pair>, dlqed: set<Pair>, dropped: set<Pair>, q: Pair) {
    q in acked || q in dlqed || q in dropped
  }

  /** Attempt `n` of the pair left the pair settled, or the next attempt scheduled. */
  ghost predicate Handled(scheduled: set<Key>, acked: set<Pair>, dlqed: set<Pair>, dropped: set<Pair>,
                          q: Pair, n: nat)
  {
    Settled(acked, dlqed, dropped, q) || Key(q, n + 1) in scheduled
  }

  ghost predicate TaskOutcome(resolved: map<Pos, set<Uuid>>, scheduled: set<Key>, acked: set<Pair>,
                              dlqed: set<Pair>, dropped: set<Pair>, pos: Pos, m: Message, t: Task)
  {
    !t.pc.Resolving? && !m.Poison? ==>
      && pos in resolved
      && (forall ep :: ep in resolved[pos] ==> ep in t.targets || Pair(EventOf(m), ep) in dropped)
      && (m.Targeted? ==> m.key.pair.endpoint in t.targets || m.key.pair in dropped)
      && (forall i :: 0 <= i < t.index && i < |t.targets| ==>
            Handled(scheduled, acked, dlqed, dropped, Pair(EventOf(m), t.targets[i]), AttemptOf(m)))
      && (t.index < |t.targets| && t.pc.Unscheduling? ==> Pair(EventOf(m), t.targets[t.index]) in dlqed)
      && (t.index < |t.targets| && t.pc.Inserting? && StatusOf(t.pc.outcome) == Success ==>
            Pair(EventOf(m), t.targets[t.index]) in acked)
  }

  ghost predicate TaskOutcomeInv(log: map<Pos, Message>, tasks: map<Pos, Task>, resolved: map<Pos, set<Uuid>>,
                                 scheduled: set<Key>, acked: set<Pair>, dlqed: set<Pair>, dropped: set<Pair>)
  {
    forall pos :: pos in tasks && pos in log ==>
      TaskOutcome(resolved, scheduled, acked, dlqed, dropped, pos, log[pos], tasks[pos])
  }

  /** The record lies below the epoch's start, or was finished in this epoch: no
      worker owes it anything any more. */
  ghost predicate Covered(parts: seq<Part>, pos: Pos) {
    pos.part < |parts| && (pos.offset < parts[pos.part].start || pos.offset in parts[pos.part].done)
  }

  ghost predicate RecordHandled(resolved: map<Pos, set<Uuid>>, scheduled: set<Key>, acked: set<Pair>,
                                dlqed: set<Pair>, dropped: set<Pair>, pos: Pos, m: Message)
  {
    !m.Poison? ==>
      && pos in resolved
      && (forall ep :: ep in resolved[pos] ==>
            Handled(scheduled, acked, dlqed, dropped, Pair(EventOf(m), ep), AttemptOf(m)))
      && (m.Targeted? ==> Handled(scheduled, acked, dlqed, dropped, m.key.pair, m.key.attempt))
  }

  ghost predicate CoveredInv(log: map<Pos, Message>, parts: seq<Part>, resolved: map<Pos, set<Uuid>>,
                             scheduled: set<Key>, acked: set<Pair>, dlqed: set<Pair>, dropped: set<Pair>)
  {
    forall pos :: pos in log && Covered(parts, pos) ==>
      RecordHandled(resolved, scheduled, acked, dlqed, dropped, pos, log[pos])
  }

  // ---------- endpoints nobody touches ----------

  ghost predicate Stable(endpoints: map<Uuid, Endpoint>, disturbed: set<Uuid>, ep: Uuid) {
    ep in endpoints && ep !in disturbed
  }

  ghost predicate StableInv(endpoints: map<Uuid, Endpoint>, known: set<Uuid>, disturbed: set<Uuid>,
                            events: map<Uuid, Event>,
                            log: map<Pos, Message>, resolved: map<Pos, set<Uuid>>,
                            scheduled: set<Key>, dropped: set<Pair>)
  {
    && (forall pos, ep :: pos in resolved && ep in resolved[pos] ==>
          ep in known && (ep !in disturbed ==> ep in endpoints && endpoints[ep].enabled))
    && (forall pos :: pos in resolved ==> pos in log && !log[pos].Poison? && EventOf(log[pos]) in events)
    && (forall pos, ep :: pos in resolved && log[pos].Targeted? && ep in resolved[pos] ==>
          ep == log[pos].key.pair.endpoint)
    && (forall pos, ep :: pos in resolved && log[pos].Fanout? && Stable(endpoints, disturbed, ep) ==>
          (ep in resolved[pos] <==> Matches(endpoints[ep], events[EventOf(log[pos])])))
    && (forall k :: k in scheduled && k.pair.endpoint !in disturbed ==>
          k.pair.endpoint in endpoints && endpoints[k.pair.endpoint].enabled)
    && (forall q :: q in dropped ==> q.endpoint in disturbed)
  }

  ghost predicate TargetsInv(endpoints: map<Uuid, Endpoint>, disturbed: set<Uuid>, tasks: map<Pos, Task>) {
    forall pos, ep :: pos in tasks && ep in tasks[pos].targets && ep !in disturbed ==>
      ep in endpoints && endpoints[ep].enabled
  }

  // ---------- all of it ----------

  ghost predicate Inv(s: State) {
    && PartsInv(s.kafka.parts, s.kafka.pending)
    && FinishedInv(s.kafka.parts, s.hist.finished)
    && LogInv(s.kafka.log, s.kafka.parts, s.live.tasks)
    && TasksInv(s.max, s.db.events, s.kafka.log, s.live.tasks)
    && HandOffInv(s.max, s.db.events, s.redis, s.kafka.log, s.hist.scheduled)
    && SchedulersInv(s.kafka.log, s.live.schedulers, s.hist.scheduled)
    && OutboxInv(s.db.events, s.db.outbox, s.kafka.log, s.live.relays)
    && RelayCountInv(s.db.events, s.db.outbox, s.live.relays, s.hist.relayed, s.hist.rolledBack)
    && RowsInv(s.max, s.db.endpoints, s.hist.known, s.db.attempts, s.hist.scheduled)
    && TaskRowsInv(s.db.endpoints, s.hist.known, s.db.attempts, s.kafka.log, s.live.tasks)
    && ResultsInv(s.db.attempts, s.db.dlq, s.hist.acked, s.hist.dlqed)
    && TaskOutcomeInv(s.kafka.log, s.live.tasks, s.hist.resolved, s.hist.scheduled, s.hist.acked, s.hist.dlqed,
                      s.hist.dropped)
    && CoveredInv(s.kafka.log, s.kafka.parts, s.hist.resolved, s.hist.scheduled, s.hist.acked, s.hist.dlqed,
                  s.hist.dropped)
    && StableInv(s.db.endpoints, s.hist.known, s.hist.disturbed, s.db.events, s.kafka.log, s.hist.resolved,
                 s.hist.scheduled, s.hist.dropped)
    && TargetsInv(s.db.endpoints, s.hist.disturbed, s.live.tasks)
  }
}
