/** What each group of steps leaves alone. */
module Frames {
  import opened Domain
  import opened Watermarks
  import opened Protocol

  /** The worker's side: tasks, retries, results of POSTs. */
  ghost predicate SameWorker(s: State, t: State) {
    && t.live.tasks == s.live.tasks && t.hist.finished == s.hist.finished && t.hist.resolved == s.hist.resolved
    && t.hist.scheduled == s.hist.scheduled && t.hist.acked == s.hist.acked && t.hist.dlqed == s.hist.dlqed
    && t.hist.dropped == s.hist.dropped
    && t.hist.posts == s.hist.posts && t.kafka.pending == s.kafka.pending
  }

  /** The tables the API and the relay own. */
  ghost predicate SameSetup(s: State, t: State) {
    && t.db.endpoints == s.db.endpoints && t.db.events == s.db.events && t.hist.known == s.hist.known
    && t.hist.disturbed == s.hist.disturbed
  }

  ghost predicate SameRelay(s: State, t: State) {
    && t.db.outbox == s.db.outbox && t.live.relays == s.live.relays && t.hist.relayed == s.hist.relayed
    && t.hist.rolledBack == s.hist.rolledBack
  }

  ghost predicate SameResults(s: State, t: State) {
    t.db.attempts == s.db.attempts && t.db.dlq == s.db.dlq
  }

  ghost predicate SameRetries(s: State, t: State) {
    t.redis == s.redis && t.live.schedulers == s.live.schedulers
  }

  ghost predicate SameLog(s: State, t: State) {
    t.kafka.log == s.kafka.log && |t.kafka.parts| == |s.kafka.parts| && t.max == s.max
  }

  lemma {:induction false} AppendFrame(s: State, p: nat, m: Message)
    requires p < |s.kafka.parts|
    ensures var t := Append(s, p, m);
            SameWorker(s, t) && SameSetup(s, t) && SameRelay(s, t) && SameResults(s, t) && SameRetries(s, t)
  {
  }

  lemma {:induction false} ApiFrame(s: State, a: ApiStep)
    requires ApiEnabled(s, a)
    ensures SameWorker(s, StepApi(s, a)) && SameRetries(s, StepApi(s, a))
  {
    hide SameSetup, SameRelay, SameResults, KeyTaken;
    match a {
      case Ingest(e, body) =>
      case SetEndpoint(ep, record) =>
      case DeleteEndpoint(ep) =>
      case Publish(p, e) => AppendFrame(s, p, Fanout(e));
      case DeleteDlq(pairs) =>
      case PublishPoison(p) => AppendFrame(s, p, Poison);
    }
  }

  lemma {:induction false} RelayFrame(s: State, r: nat, a: RelayStep)
    requires RelayEnabled(s, r, a)
    ensures var t := StepRelay(s, r, a);
            SameWorker(s, t) && SameSetup(s, t) && SameResults(s, t) && SameRetries(s, t)
  {
    hide SameRelay, Locked, Distinct;
    match a {
      case Lock(rows) =>
      case Send(p) => AppendFrame(s, p, Fanout(s.live.relays[r].rows[s.live.relays[r].sent]));
      case CommitRows =>
      case Abort =>
    }
  }

  lemma {:induction false} SchedulerFrame(s: State, c: nat, a: SchedulerStep)
    requires SchedulerEnabled(s, c, a)
    ensures var t := StepScheduler(s, c, a);
            SameWorker(s, t) && SameSetup(s, t) && SameResults(s, t) && SameRelay(s, t) &&
            t.redis <= s.redis
  {
    hide SameRetries, Distinct;
    match a {
      case Poll(due) =>
      case Republish(p) => AppendFrame(s, p, Targeted(s.live.schedulers[c].due[0]));
      case Cancel =>
      case Crash =>
    }
  }

  lemma {:induction false} TaskFrame(s: State, pos: Pos, a: TaskStep)
    requires TaskEnabled(s, pos, a)
    ensures var t := StepTask(s, pos, a);
            && SameSetup(s, t) && SameRelay(s, t) && SameLog(s, t) && t.live.schedulers == s.live.schedulers
            && t.hist.finished == (if a.Finish? then s.hist.finished + {pos} else s.hist.finished)
  {
    hide SameRetries, SameResults, SameWorker, HasSuccess, TargetSet, DroppedBy, Distinct, Elements, StatusOf, GivesUp,
      InsertRow, Finished, ToCommit;
    match a {
      case Resolve(targets) =>
      case Check =>
      case Post(o) =>
      case Insert =>
      case Schedule =>
      case Bury =>
      case Unschedule(ok) =>
      case Finish =>
      case Fail =>
    }
  }

  lemma {:induction false} BrokerFrame(s: State, a: BrokerStep)
    requires BrokerEnabled(s, a)
    ensures var t := StepBroker(s, a);
            && SameSetup(s, t) && SameRelay(s, t) && SameLog(s, t) && SameResults(s, t) && SameRetries(s, t)
            && t.hist.finished == s.hist.finished && t.hist.resolved == s.hist.resolved && t.hist.posts == s.hist.posts
            && t.hist.scheduled == s.hist.scheduled && t.hist.acked == s.hist.acked && t.hist.dlqed == s.hist.dlqed
            && t.hist.dropped == s.hist.dropped
  {
    hide SameWorker, Started;
    match a {
      case Fetch(p) =>
      case Arrive(c) =>
      case Lose(c) =>
      case Restart(p) =>
    }
  }
}
