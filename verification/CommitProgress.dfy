/** Commits advance: what the broker holds in the end, and what a restart fetches again. */
module CommitProgress {
  import opened Domain
  import opened Watermarks
  import opened Protocol
  import opened Invariants
  import opened Safety
  import opened CleanRuns
  import opened CleanOutcome
  import opened CleanTheorems
  import opened Subscriptions
  import BothRows

  // ---------- a partition and its requests ----------

  ghost predicate NoTask(s: State, p: nat) {
    forall pos :: pos in s.live.tasks ==> pos.part != p
  }

  ghost predicate NoRequest(s: State, p: nat) {
    forall c :: c in s.kafka.pending ==> c.part != p
  }

  /** A consumer of the partition that has not begun yet, as at the start of a run. */
  ghost predicate Anew(s: State, p: nat) {
    && p < |s.kafka.parts| && NoTask(s, p) && NoRequest(s, p)
    && s.kafka.parts[p].wm == FRESH
    && s.kafka.parts[p].next == s.kafka.parts[p].start == s.kafka.parts[p].committed
  }

  /** The partition keeps its consumer, none of its records fails, none of its commit
      requests is lost, and they arrive in ascending order. */
  ghost predicate Smooth(s: State, a: Action, p: nat) {
    && a != ByBroker(BrokerStep.Restart(p))
    && (a.ByTask? && a.taskStep.Fail? ==> a.pos.part != p)
    && (a.ByBroker? && a.brokerStep.Lose? ==> a.brokerStep.commit.part != p)
    && (a.ByBroker? && a.brokerStep.Arrive? && a.brokerStep.commit.part == p ==>
          forall c :: c in s.kafka.pending && c.part == p ==> a.brokerStep.commit.position <= c.position)
  }

  ghost predicate SmoothRun(s: State, acts: seq<Action>, p: nat)
    decreases |acts|
  {
    acts == [] ||
    (Enabled(s, acts[0]) && Smooth(s, acts[0], p) && SmoothRun(Step(s, acts[0]), acts[1..], p))
  }

  /** The position the consumer has asked for last, or began at. */
  function Asked(part: Part): int {
    if part.wm.lastCommitted == -1 then part.start else part.wm.lastCommitted + 1
  }

  ghost predicate RequestsBelow(s: State, p: nat) {
    && p < |s.kafka.parts| && s.kafka.parts[p].wm.lastCommitted >= -1
    && forall c :: c in s.kafka.pending && c.part == p ==> c.position <= Asked(s.kafka.parts[p])
  }

  /** Offsets in flight have a task, an idle committer has reached what it saw, and its last
      request is under way or has arrived as the last one. */
  ghost predicate Following(s: State, p: nat) {
    && RequestsBelow(s, p)
    && (forall x :: x in s.kafka.parts[p].wm.inFlight ==> x >= 0 && Pos(p, x) in s.live.tasks)
    && (s.kafka.parts[p].wm.inFlight == {} ==> s.kafka.parts[p].wm.lastCommitted >= s.kafka.parts[p].wm.lastSeen)
    && (Commit(p, Asked(s.kafka.parts[p])) in s.kafka.pending
        || (NoRequest(s, p) && s.kafka.parts[p].committed == Asked(s.kafka.parts[p])))
  }

  /** What the step requests for the partition lies beyond everything under way for it. */
  ghost predicate Ascending(s: State, t: State, p: nat) {
    forall c, d :: c in t.kafka.pending && c !in s.kafka.pending && d in s.kafka.pending && c.part == d.part == p ==>
      d.position < c.position
  }

  // ---------- steps ----------

  /** The partition's committer and its requests are left alone; it may get records. */
  ghost predicate Steady(s: State, t: State, p: nat) {
    && t.kafka.pending == s.kafka.pending && |t.kafka.parts| == |s.kafka.parts|
    && (p < |s.kafka.parts| ==> t.kafka.parts[p] == s.kafka.parts[p].(end := t.kafka.parts[p].end))
    && (forall pos :: pos in s.live.tasks && pos.part == p ==> pos in t.live.tasks)
  }

  lemma {:induction false} SteadyKeeps(s: State, t: State, p: nat)
    requires Steady(s, t, p)
    ensures RequestsBelow(s, p) ==> RequestsBelow(t, p)
    ensures Following(s, p) ==> Following(t, p)
  {
  }

  lemma {:induction false} TaskIsSteady(s: State, pos: Pos, a: TaskStep, p: nat)
    requires TaskEnabled(s, pos, a) && !a.Finish? && (a.Fail? ==> pos.part != p)
    ensures Steady(s, StepTask(s, pos, a), p)
  {
    hide Distinct, Elements, TargetSet, HasSuccess, StatusOf, GivesUp, InsertRow, DroppedBy;
    match a {
      case Resolve(_) =>
      case Check =>
      case Post(_) =>
      case Insert =>
      case Schedule =>
      case Bury =>
      case Unschedule(_) =>
      case Fail =>
    }
  }

  lemma {:induction false} OthersAreSteady(s: State, a: Action, p: nat)
    requires Enabled(s, a) && !a.ByTask? && !a.ByBroker?
    ensures Steady(s, Step(s, a), p)
  {
    hide KeyTaken, Locked, Distinct, Elements;
    match a {
      case ByApi(x) =>
      case ByRelay(r, x) =>
      case ByScheduler(c, x) =>
    }
  }

  lemma {:induction false} FinishFollows(s: State, pos: Pos, p: nat)
    requires TaskEnabled(s, pos, Finish) && PartsInv(s.kafka.parts, s.kafka.pending)
    requires pos.offset in s.kafka.parts[pos.part].wm.inFlight
    ensures RequestsBelow(s, p) ==> RequestsBelow(StepTask(s, pos, Finish), p)
    ensures RequestsBelow(s, p) ==> Ascending(s, StepTask(s, pos, Finish), p)
    ensures Following(s, p) ==> Following(StepTask(s, pos, Finish), p)
  {
    assert PartOk(s.kafka.parts[pos.part]);
  }

  lemma {:induction false} BrokerFollows(s: State, a: BrokerStep, p: nat)
    requires BrokerEnabled(s, a) && PartsInv(s.kafka.parts, s.kafka.pending)
    ensures RequestsBelow(s, p) ==> RequestsBelow(StepBroker(s, a), p)
    ensures StepBroker(s, a).kafka.pending <= s.kafka.pending
    ensures Following(s, p) && Smooth(s, ByBroker(a), p) ==> Following(StepBroker(s, a), p)
  {
  }

  lemma {:induction false} PartsAreOk(s: State)
    requires Inv(s)
    ensures PartsInv(s.kafka.parts, s.kafka.pending) && LogInv(s.kafka.log, s.kafka.parts, s.live.tasks)
  {
    hide FinishedInv, TasksInv, HandOffInv, SchedulersInv, OutboxInv, RelayCountInv, RowsInv, TaskRowsInv, ResultsInv,
      TaskOutcomeInv, CoveredInv, StableInv, TargetsInv;
  }

  lemma {:induction false} StepFollows(s: State, a: Action, p: nat)
    requires Inv(s) && Enabled(s, a)
    ensures RequestsBelow(s, p) ==> RequestsBelow(Step(s, a), p) && Ascending(s, Step(s, a), p)
    ensures Following(s, p) && Smooth(s, a, p) ==> Following(Step(s, a), p)
  {
    PartsAreOk(s);
    hide Inv, PartsInv, RequestsBelow, Following, ApiEnabled, RelayEnabled, SchedulerEnabled, TaskEnabled,
      BrokerEnabled, StepApi, StepRelay, StepScheduler, StepTask, StepBroker;
    match a {
      case ByTask(pos, x) =>
        if x.Finish? {
          FinishFollows(s, pos, p);
        } else if x.Fail? {
          FailBelow(s, pos, p);
          if pos.part != p {
            TaskIsSteady(s, pos, x, p);
            SteadyKeeps(s, Step(s, a), p);
          }
        } else {
          TaskIsSteady(s, pos, x, p);
          SteadyKeeps(s, Step(s, a), p);
        }
      case ByBroker(x) => BrokerFollows(s, x, p);
      case _ =>
        OthersAreSteady(s, a, p);
        SteadyKeeps(s, Step(s, a), p);
    }
  }

  lemma {:induction false} FailBelow(s: State, pos: Pos, p: nat)
    requires TaskEnabled(s, pos, Fail)
    ensures var t := StepTask(s, pos, Fail);
            t.kafka.pending == s.kafka.pending && (RequestsBelow(s, p) ==> RequestsBelow(t, p))
  {
  }

  // ---------- runs ----------

  lemma {:induction false} LeadsBelow(s: State, acts: seq<Action>, t: State, p: nat)
    requires Inv(s) && Leads(s, acts, t) && RequestsBelow(s, p)
    ensures RequestsBelow(t, p)
    decreases |acts|
  {
    hide Inv, Enabled, Step, RequestsBelow, Following;
    if acts != [] {
      StepFollows(s, acts[0], p);
      StepPreserves(s, acts[0]);
      LeadsBelow(Step(s, acts[0]), acts[1..], t, p);
    }
  }

  /** In every run, crashes or not, a new commit request of a partition asks for more than
      all those still under way: arriving in ascending order is arriving in the order made. */
  lemma {:induction false} RequestsGoUp(t: State, a: Action, p: nat)
    requires Reachable(t) && Enabled(t, a) && p < |t.kafka.parts|
    ensures Ascending(t, Step(t, a), p)
  {
    hide Inv, Leads, Enabled, Step, Ascending, Following;
    ReachableInv(t);
    var s, acts :| Init(s) && Leads(s, acts, t);
    InitInv(s);
    SameParts(s, acts, t);
    InitIsAnew(s, p);
    LeadsBelow(s, acts, t, p);
    StepFollows(t, a, p);
  }

  lemma {:induction false} SameParts(s: State, acts: seq<Action>, t: State)
    requires Leads(s, acts, t)
    ensures |t.kafka.parts| == |s.kafka.parts|
    decreases |acts|
  {
    hide Enabled, Step;
    if acts != [] {
      BothRows.StepConstants(s, acts[0]);
      SameParts(Step(s, acts[0]), acts[1..], t);
    }
  }

  lemma {:induction false} InitIsAnew(s: State, p: nat)
    requires Init(s) && p < |s.kafka.parts|
    ensures Anew(s, p) && RequestsBelow(s, p)
  {
  }

  lemma {:induction false} AnewFollows(s: State, p: nat)
    requires Inv(s) && Anew(s, p)
    ensures Following(s, p)
  {
    hide Inv;
  }

  lemma {:induction false} RunFollows(s: State, acts: seq<Action>, t: State, p: nat)
    requires Inv(s) && Leads(s, acts, t) && SmoothRun(s, acts, p) && Following(s, p)
    ensures Following(t, p)
    decreases |acts|
  {
    hide Inv, Enabled, Step, Following, RequestsBelow, Smooth;
    if acts != [] {
      StepFollows(s, acts[0], p);
      StepPreserves(s, acts[0]);
      RunFollows(Step(s, acts[0]), acts[1..], t, p);
    }
  }

  lemma {:induction false} IdleMeansCommitted(s: State, p: nat)
    requires Following(s, p) && PartsInv(s.kafka.parts, s.kafka.pending) && NoTask(s, p) && NoRequest(s, p)
    ensures s.kafka.parts[p].committed == s.kafka.parts[p].next
  {
    assert PartOk(s.kafka.parts[p]);
    assert forall x :: x !in s.kafka.parts[p].wm.inFlight;
  }

  /** Commits catch up. From where a partition's consumer begins, in the first state of a
      run or after any crash, over every smooth run: whenever the partition has no task and
      no commit request under way, the broker's position is the next offset to fetch. */
  lemma {:induction false} CommitsCatchUp(s: State, acts: seq<Action>, t: State, p: nat)
    requires Reachable(s) && Anew(s, p) && Leads(s, acts, t) && SmoothRun(s, acts, p)
    requires NoTask(t, p) && NoRequest(t, p)
    ensures p < |t.kafka.parts| && t.kafka.parts[p].committed == t.kafka.parts[p].next
  {
    hide Inv, Leads, SmoothRun, PartsInv, Reachable;
    ReachableInv(s);
    AnewFollows(s, p);
    LeadsInv(s, acts, t);
    PartsAreOk(t);
    RunFollows(s, acts, t, p);
    IdleMeansCommitted(t, p);
  }

  /** In particular over a whole run without failure, restart and lost or overtaken request:
      with nothing under way every partition is committed up to the next offset to fetch. */
  lemma {:induction false} SmoothRunsCommitAll(s: State, acts: seq<Action>, t: State)
    requires Init(s) && Leads(s, acts, t) && forall p: nat :: p < |s.kafka.parts| ==> SmoothRun(s, acts, p)
    requires t.live.tasks == map[] && t.kafka.pending == {}
    ensures forall p :: 0 <= p < |t.kafka.parts| ==> t.kafka.parts[p].committed == t.kafka.parts[p].next
  {
    NoSteps(s);
    SameParts(s, acts, t);
    forall p: nat | p < |t.kafka.parts| ensures t.kafka.parts[p].committed == t.kafka.parts[p].next {
      InitIsAnew(s, p);
      hide Init, Leads, SmoothRun, Reachable, Anew;
      CommitsCatchUp(s, acts, t, p);
    }
  }

  /** A restart is where a consumer begins. */
  lemma {:induction false} RestartIsAnew(s: State, p: nat)
    requires Enabled(s, ByBroker(BrokerStep.Restart(p)))
    ensures Anew(Step(s, ByBroker(BrokerStep.Restart(p))), p)
    ensures var t := Step(s, ByBroker(BrokerStep.Restart(p)));
            p < |t.kafka.parts| && t.kafka.parts[p].start == s.kafka.parts[p].committed
  {
  }

  // ---------- what a restart fetches again ----------

  /** An epoch never begins below the one before. */
  lemma {:induction false} StartsGoUp(s: State, a: Action, p: nat)
    requires Inv(s) && Enabled(s, a) && p < |s.kafka.parts|
    ensures p < |Step(s, a).kafka.parts| && Step(s, a).kafka.parts[p].start >= s.kafka.parts[p].start
  {
    PartsAreOk(s);
    hide Inv, PartsInv, TaskEnabled, StepTask, BrokerEnabled, StepBroker;
    match a {
      case ByTask(pos, x) => TaskStarts(s, pos, x, p);
      case ByBroker(x) => BrokerStarts(s, x, p);
      case _ => OthersAreSteady(s, a, p);
    }
  }

  lemma {:induction false} TaskStarts(s: State, pos: Pos, a: TaskStep, p: nat)
    requires TaskEnabled(s, pos, a) && p < |s.kafka.parts|
    ensures var t := StepTask(s, pos, a);
            p < |t.kafka.parts| && t.kafka.parts[p].start == s.kafka.parts[p].start
  {
    hide Distinct, Elements, TargetSet, HasSuccess, StatusOf, GivesUp, InsertRow, DroppedBy, Finished, ToCommit;
    match a {
      case Finish =>
      case Fail =>
      case _ => TaskIsSteady(s, pos, a, p);
    }
  }

  lemma {:induction false} BrokerStarts(s: State, a: BrokerStep, p: nat)
    requires BrokerEnabled(s, a) && PartsInv(s.kafka.parts, s.kafka.pending) && p < |s.kafka.parts|
    ensures var t := StepBroker(s, a);
            p < |t.kafka.parts| && t.kafka.parts[p].start >= s.kafka.parts[p].start
  {
    assert PartOk(s.kafka.parts[p]);
  }

  lemma {:induction false} LeadsStarts(s: State, acts: seq<Action>, t: State, p: nat)
    requires Inv(s) && Leads(s, acts, t) && p < |s.kafka.parts|
    ensures p < |t.kafka.parts| && t.kafka.parts[p].start >= s.kafka.parts[p].start
    decreases |acts|
  {
    hide Inv, Enabled, Step;
    if acts != [] {
      StartsGoUp(s, acts[0], p);
      StepPreserves(s, acts[0]);
      LeadsStarts(Step(s, acts[0]), acts[1..], t, p);
    }
  }

  lemma {:induction false} TasksFromStart(s: State, pos: Pos)
    requires Inv(s) && pos in s.live.tasks
    ensures pos.part < |s.kafka.parts| && s.kafka.parts[pos.part].start <= pos.offset
  {
    PartsAreOk(s);
    hide Inv;
    assert PartOk(s.kafka.parts[pos.part]);
  }

  /** After such a state a restart fetches nothing again: whatever follows, with further
      crashes and any order of commits, every task of the partition works on a record that
      no consumer had fetched before the restart. */
  lemma {:induction false} NothingIsFetchedAgain(s: State, acts: seq<Action>, t: State, p: nat, more: seq<Action>,
                                                 u: State)
    requires Reachable(s) && Anew(s, p) && Leads(s, acts, t) && SmoothRun(s, acts, p)
    requires NoTask(t, p) && NoRequest(t, p)
    requires Leads(t, [ByBroker(BrokerStep.Restart(p))] + more, u)
    ensures forall pos :: pos in u.live.tasks && pos.part == p ==> pos.offset >= t.kafka.parts[p].next
  {
    CommitsCatchUp(s, acts, t, p);
    ReachableInv(s);
    hide Inv, Reachable, Anew, SmoothRun, NoTask, NoRequest, Step, Enabled;
    LeadsInv(s, acts, t);
    var restart := ByBroker(BrokerStep.Restart(p));
    assert ([restart] + more)[1..] == more;
    var v := Step(t, restart);
    RestartIsAnew(t, p);
    StepPreserves(t, restart);
    LeadsStarts(v, more, u, p);
    LeadsInv(v, more, u);
    forall pos | pos in u.live.tasks && pos.part == p ensures pos.offset >= t.kafka.parts[p].next {
      TasksFromStart(u, pos);
    }
  }

  // ---------- clean runs ----------

  lemma {:induction false} ArriveWork(s: State, c: Commit)
    requires c in s.kafka.pending && c.part < |s.kafka.parts|
    ensures CanWork(s)
  {
    assert Clean(ByBroker(Arrive(c))) && Enabled(s, ByBroker(Arrive(c)));
  }

  lemma {:induction false} NothingUnderWay(t: State, l: Ledger, p: nat)
    requires FullInv(t, l) && !CanWork(t) && p < |t.kafka.parts|
    ensures NoTask(t, p) && NoRequest(t, p) && t.kafka.parts[p].next == t.kafka.parts[p].end
  {
    DrainedAtTheEnd(t, l);
    hide CleanInv, PairsClean;
    CleanIsInv(t, l);
    PartsAreOk(t);
    hide Inv;
    if c :| c in t.kafka.pending && c.part == p {
      ArriveWork(t, c);
    }
    if t.kafka.parts[p].next < t.kafka.parts[p].end {
      FetchWork(t, p);
    }
    assert PartOk(t.kafka.parts[p]);
  }

  /** A clean run that loses no commit request commits the whole topic: when it cannot go on,
      the broker's position is the log end in every partition. */
  lemma {:induction false} CleanRunsCommitEverything(s: State, acts: seq<Action>, t: State, l: Ledger, p: nat)
    requires Init(s) && CleanLeads(s, EMPTY, acts, t, l) && !CanWork(t)
    requires p < |s.kafka.parts| && SmoothRun(s, acts, p)
    ensures p < |t.kafka.parts| && t.kafka.parts[p].committed == t.kafka.parts[p].end
  {
    InitClean(s);
    InitIsAnew(s, p);
    NoSteps(s);
    hide FullInv, CleanLeads, SmoothRun, Init, Leads, Reachable, CanWork, Anew, NoTask, NoRequest;
    CleanRunInv(s, EMPTY, acts, t, l);
    SameParts(s, acts, t);
    NothingUnderWay(t, l, p);
    CommitsCatchUp(s, acts, t, p);
  }
}
