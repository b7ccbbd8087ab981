/** The code form and the step system agree: what the worker computes for a record is
    what an uninterrupted run of its task's steps leads to. */
module WorkerRuns {
  import opened Domain
  import opened Protocol
  import opened DeliveryWorker
  import Watermarks

  function EffectsOf(s: State): Effects {
    Effects(s.db.attempts, s.db.dlq, s.redis, s.hist.posts, s.hist.acked)
  }

  /** Apart from the effects and the histories only this task has moved. */
  ghost predicate OnlyTaskMoved(s: State, t: State, pos: Pos, task: Task) {
    && t.max == s.max && t.kafka == s.kafka
    && t.db == s.db.(attempts := t.db.attempts, dlq := t.db.dlq)
    && t.live == s.live.(tasks := s.live.tasks[pos := task])
  }

  lemma {:induction false} LeadsOn(s: State, acts: seq<Action>, t: State, a: Action)
    requires Leads(s, acts, t) && Enabled(t, a)
    ensures Leads(s, acts + [a], Step(t, a))
    decreases |acts|
  {
    hide Enabled, Step;
    if acts == [] {
      assert [a][1..] == [];
      assert Leads(Step(s, a), [], Step(t, a));
      assert acts + [a] == [a];
    } else {
      LeadsOn(Step(s, acts[0]), acts[1..], t, a);
      assert (acts + [a])[1..] == acts[1..] + [a];
    }
  }

  /** The task gets no other answers than those of this world. */
  predicate InWorld(x: TaskStep, w: World) {
    x.Post? ==> x.outcome in w.http.Values || x.outcome == TransportError
  }

  ghost predicate ByTaskOnly(acts: seq<Action>, pos: Pos, w: World) {
    forall a :: a in acts ==> a.ByTask? && a.pos == pos && InWorld(a.taskStep, w)
  }

  /** `acts`, all by this task, lead from `s` to `t`, which has these effects and this
      task, and is otherwise the same. */
  ghost predicate Stage(s: State, acts: seq<Action>, t: State, pos: Pos, w: World, task: Task, fx: Effects) {
    Leads(s, acts, t) && ByTaskOnly(acts, pos, w) && EffectsOf(t) == fx && OnlyTaskMoved(s, t, pos, task)
  }

  lemma {:induction false} TaskOn(s: State, acts: seq<Action>, t: State, pos: Pos, w: World, task: Task, fx: Effects,
               x: TaskStep, task': Task, fx': Effects)
    requires Stage(s, acts, t, pos, w, task, fx) && TaskEnabled(t, pos, x) && InWorld(x, w)
    requires EffectsOf(StepTask(t, pos, x)) == fx' && OnlyTaskMoved(t, StepTask(t, pos, x), pos, task')
    ensures Stage(s, acts + [ByTask(pos, x)], StepTask(t, pos, x), pos, w, task', fx')
  {
    hide Leads, TaskEnabled, StepTask;
    LeadsOn(s, acts, t, ByTask(pos, x));
  }

  lemma {:induction false} StartStage(s: State, pos: Pos, w: World)
    requires pos in s.live.tasks
    ensures Stage(s, [], s, pos, w, s.live.tasks[pos], EffectsOf(s))
  {
  }

  /** A stage of the delivery to the current target. */
  ghost predicate At(s: State, acts: seq<Action>, t: State, pos: Pos, w: World, pc: Pc, fx: Effects)
    requires pos in s.live.tasks
  {
    Stage(s, acts, t, pos, w, s.live.tasks[pos].(pc := pc), fx)
  }

  lemma {:induction false} StillThere(s: State, acts: seq<Action>, t: State, pos: Pos, w: World, pc: Pc, fx: Effects)
    requires Delivering(s, pos) && At(s, acts, t, pos, w, pc, fx)
    ensures Delivering(t, pos) && t.live.tasks[pos] == s.live.tasks[pos].(pc := pc)
    ensures CurrentKey(t, pos) == CurrentKey(s, pos) && t.max == s.max && EffectsOf(t) == fx
    ensures t.db.endpoints == s.db.endpoints
  {
    hide Leads, ByTaskOnly;
  }

  lemma {:induction false} CheckStage(s: State, acts: seq<Action>, t: State, pos: Pos, w: World, fx: Effects)
    requires Delivering(s, pos) && At(s, acts, t, pos, w, Checking, fx) && !HasSuccess(fx.attempts, CurrentPair(s, pos))
    ensures TaskEnabled(t, pos, Check)
    ensures At(s, acts + [ByTask(pos, Check)], StepTask(t, pos, Check), pos, w, Posting, fx)
  {
    StillThere(s, acts, t, pos, w, Checking, fx);
    hide Stage, HasSuccess, Leads;
    TaskOn(s, acts, t, pos, w, s.live.tasks[pos].(pc := Checking), fx, Check, s.live.tasks[pos].(pc := Posting), fx);
  }

  lemma {:induction false} PostStage(s: State, acts: seq<Action>, t: State, pos: Pos, w: World, fx: Effects, o: Outcome)
    requires Delivering(s, pos) && At(s, acts, t, pos, w, Posting, fx) && InWorld(Post(o), w)
    ensures TaskEnabled(t, pos, Post(o))
    ensures At(s, acts + [ByTask(pos, Post(o))], StepTask(t, pos, Post(o)), pos, w, Inserting(o),
               Posted(fx, CurrentKey(s, pos), o))
  {
    StillThere(s, acts, t, pos, w, Posting, fx);
    hide Stage, StatusOf, Leads;
    TaskOn(s, acts, t, pos, w, s.live.tasks[pos].(pc := Posting), fx, Post(o), s.live.tasks[pos].(pc := Inserting(o)),
           Posted(fx, CurrentKey(s, pos), o));
  }

  lemma {:induction false} InsertStage(s: State, acts: seq<Action>, t: State, pos: Pos, w: World, fx: Effects,
                                       o: Outcome)
    requires Delivering(s, pos) && At(s, acts, t, pos, w, Inserting(o), fx) && StatusOf(o) != Success
    requires CurrentPair(s, pos).endpoint in s.db.endpoints
    ensures TaskEnabled(t, pos, Insert)
    ensures At(s, acts + [ByTask(pos, Insert)], StepTask(t, pos, Insert), pos, w,
               if GivesUp(o, CurrentKey(s, pos).attempt, s.max) then Burying else Scheduling,
               Inserted(fx, CurrentKey(s, pos), o))
  {
    StillThere(s, acts, t, pos, w, Inserting(o), fx);
    hide Stage, StatusOf, GivesUp, InsertRow, Leads;
    TaskOn(s, acts, t, pos, w, s.live.tasks[pos].(pc := Inserting(o)), fx, Insert,
           s.live.tasks[pos].(pc := if GivesUp(o, CurrentKey(s, pos).attempt, s.max) then Burying else Scheduling),
           Inserted(fx, CurrentKey(s, pos), o));
  }

  lemma {:induction false} BuryStage(s: State, acts: seq<Action>, t: State, pos: Pos, w: World, fx: Effects)
    requires Delivering(s, pos) && At(s, acts, t, pos, w, Burying, fx)
    requires CurrentPair(s, pos).endpoint in s.db.endpoints
    ensures TaskEnabled(t, pos, Bury)
    ensures At(s, acts + [ByTask(pos, Bury)], StepTask(t, pos, Bury), pos, w, Unscheduling,
               fx.(dlq := fx.dlq + {CurrentPair(s, pos)}))
  {
    StillThere(s, acts, t, pos, w, Burying, fx);
    hide Stage, Leads;
    TaskOn(s, acts, t, pos, w, s.live.tasks[pos].(pc := Burying), fx, Bury, s.live.tasks[pos].(pc := Unscheduling),
           fx.(dlq := fx.dlq + {CurrentPair(s, pos)}));
  }

  /** The task with the delivery to its current target behind it. */
  function Returned(t: Task): Task {
    t.(index := t.index + 1, pc := Checking)
  }

  /** The last step of a delivery, whichever it is. */
  lemma {:induction false} LastStage(s: State, acts: seq<Action>, t: State, pos: Pos, w: World, pc: Pc, fx: Effects,
                                     x: TaskStep, fx': Effects)
    requires Delivering(s, pos) && At(s, acts, t, pos, w, pc, fx)
    requires match x
             case Check => pc == Checking && HasSuccess(fx.attempts, CurrentPair(s, pos)) && fx' == fx
             case Insert =>
               && pc.Inserting? && StatusOf(pc.outcome) == Success && CurrentPair(s, pos).endpoint in s.db.endpoints
               && fx' == Inserted(fx, CurrentKey(s, pos), pc.outcome)
             case Schedule =>
               && pc == Scheduling
               && fx' == fx.(redis := fx.redis + {Key(CurrentPair(s, pos), CurrentKey(s, pos).attempt + 1)})
             case Unschedule(ok) =>
               pc == Unscheduling && fx' == fx.(redis := if ok then fx.redis - {CurrentKey(s, pos)} else fx.redis)
             case _ => false
    ensures TaskEnabled(t, pos, x)
    ensures Stage(s, acts + [ByTask(pos, x)], StepTask(t, pos, x), pos, w, Returned(s.live.tasks[pos]), fx')
  {
    StillThere(s, acts, t, pos, w, pc, fx);
    hide Stage, HasSuccess, StatusOf, GivesUp, InsertRow, Leads;
    TaskOn(s, acts, t, pos, w, s.live.tasks[pos].(pc := pc), fx, x, Returned(s.live.tasks[pos]), fx');
  }

  /** What is left to do after the row of a failed attempt. */
  ghost function AfterFailure(fx: Effects, k: Key, o: Outcome, w: World, max: nat): Effects {
    if GivesUp(o, k.attempt, max) then Buried(fx, k, w)
    else fx.(redis := fx.redis + {Key(k.pair, k.attempt + 1)})
  }

  lemma {:induction false} FailureRun(s: State, before: seq<Action>, u: State, pos: Pos, fx: Effects, o: Outcome,
                                      w: World)
    returns (acts: seq<Action>, t: State)
    requires Delivering(s, pos) && CurrentPair(s, pos).endpoint in s.db.endpoints
    requires At(s, before, u, pos, w, if GivesUp(o, CurrentKey(s, pos).attempt, s.max) then Burying else Scheduling, fx)
    ensures Stage(s, acts, t, pos, w, Returned(s.live.tasks[pos]), AfterFailure(fx, CurrentKey(s, pos), o, w, s.max))
  {
    hide At, Stage, StepTask, TaskEnabled, GivesUp;
    if GivesUp(o, CurrentKey(s, pos).attempt, s.max) {
      BuryStage(s, before, u, pos, w, fx);
      acts, t := before + [ByTask(pos, Bury)], StepTask(u, pos, Bury);
      var x := Unschedule(w.cancelWorks);
      var buried := fx.(dlq := fx.dlq + {CurrentPair(s, pos)});
      LastStage(s, acts, t, pos, w, Unscheduling, buried, x, Buried(fx, CurrentKey(s, pos), w));
      acts, t := acts + [ByTask(pos, x)], StepTask(t, pos, x);
    } else {
      LastStage(s, before, u, pos, w, Scheduling, fx, Schedule, AfterFailure(fx, CurrentKey(s, pos), o, w, s.max));
      acts, t := before + [ByTask(pos, Schedule)], StepTask(u, pos, Schedule);
    }
  }

  lemma {:induction false} StartAt(s: State, pos: Pos, w: World)
    requires pos in s.live.tasks && s.live.tasks[pos].pc.Checking?
    ensures At(s, [], s, pos, w, Checking, EffectsOf(s))
  {
    hide Leads;
    StartStage(s, pos, w);
    assert s.live.tasks[pos].(pc := Checking) == s.live.tasks[pos];
  }

  /** The delivery to one target, uninterrupted. */
  lemma {:induction false} DeliverRun(s: State, pos: Pos, w: World) returns (acts: seq<Action>, t: State)
    requires Delivering(s, pos) && s.live.tasks[pos].pc.Checking? && CurrentPair(s, pos).endpoint in s.db.endpoints
    ensures Stage(s, acts, t, pos, w, Returned(s.live.tasks[pos]),
                  Deliver(EffectsOf(s), CurrentKey(s, pos), w, s.max))
  {
    hide At, Stage, StepTask, TaskEnabled, HasSuccess, StatusOf, GivesUp, Posted, Inserted, Buried;
    StartAt(s, pos, w);
    var k := CurrentKey(s, pos);
    var o := w.Answer(k.pair.endpoint);
    var fx := EffectsOf(s);
    if HasSuccess(fx.attempts, k.pair) {
      LastStage(s, [], s, pos, w, Checking, fx, Check, fx);
      acts, t := [] + [ByTask(pos, Check)], StepTask(s, pos, Check);
    } else {
      CheckStage(s, [], s, pos, w, fx);
      acts, t := [] + [ByTask(pos, Check)], StepTask(s, pos, Check);
      PostStage(s, acts, t, pos, w, fx, o);
      acts, t := acts + [ByTask(pos, Post(o))], StepTask(t, pos, Post(o));
      var posted := Posted(fx, k, o);
      var inserted := Inserted(posted, k, o);
      if StatusOf(o) == Success {
        LastStage(s, acts, t, pos, w, Inserting(o), posted, Insert, inserted);
        acts, t := acts + [ByTask(pos, Insert)], StepTask(t, pos, Insert);
      } else {
        InsertStage(s, acts, t, pos, w, posted, o);
        acts, t := acts + [ByTask(pos, Insert)], StepTask(t, pos, Insert);
        acts, t := FailureRun(s, acts, t, pos, inserted, o, w);
      }
    }
  }

  // ---------- a whole record ----------

  lemma {:induction false} LeadsThrough(s: State, a: seq<Action>, u: State, b: seq<Action>, t: State)
    requires Leads(s, a, u) && Leads(u, b, t)
    ensures Leads(s, a + b, t)
    decreases |a|
  {
    hide Enabled, Step;
    if a == [] {
      assert a + b == b;
    } else {
      LeadsThrough(Step(s, a[0]), a[1..], u, b, t);
      assert (a + b)[1..] == a[1..] + b;
    }
  }

  lemma {:induction false} StageThrough(s: State, a: seq<Action>, u: State, b: seq<Action>, t: State, pos: Pos,
                                        w: World, task: Task, fx: Effects, task': Task, fx': Effects)
    requires Stage(s, a, u, pos, w, task, fx) && Stage(u, b, t, pos, w, task', fx')
    ensures Stage(s, a + b, t, pos, w, task', fx')
  {
    hide Leads;
    LeadsThrough(s, a, u, b, t);
  }

  lemma {:induction false} MidRecord(s: State, acts: seq<Action>, t: State, pos: Pos, w: World, targets: seq<Uuid>,
                                     j: nat, fx: Effects)
    requires pos in s.kafka.log && !s.kafka.log[pos].Poison? && j < |targets|
    requires Stage(s, acts, t, pos, w, Task(targets, j, Checking), fx)
    ensures Delivering(t, pos) && t.live.tasks[pos] == Task(targets, j, Checking) && EffectsOf(t) == fx
    ensures CurrentKey(t, pos) == Key(Pair(EventOf(s.kafka.log[pos]), targets[j]), AttemptOf(s.kafka.log[pos]))
    ensures t.db.endpoints == s.db.endpoints && t.max == s.max
  {
    hide Leads, ByTaskOnly;
  }

  lemma {:induction false} TargetsRun(s: State, pos: Pos, targets: seq<Uuid>, j: nat, w: World)
    returns (acts: seq<Action>, t: State)
    requires pos in s.live.tasks && s.live.tasks[pos] == Task(targets, 0, Checking) && j <= |targets|
    requires pos in s.kafka.log && !s.kafka.log[pos].Poison?
    requires forall ep :: ep in targets ==> ep in s.db.endpoints
    ensures Stage(s, acts, t, pos, w, Task(targets, j, Checking),
                  DeliverAll(EffectsOf(s), EventOf(s.kafka.log[pos]), targets[..j],
                             AttemptOf(s.kafka.log[pos]), w, s.max))
    decreases j
  {
    hide Stage, Deliver;
    if j == 0 {
      StartStage(s, pos, w);
      acts, t := [], s;
    } else {
      var e, n := EventOf(s.kafka.log[pos]), AttemptOf(s.kafka.log[pos]);
      var a, u := TargetsRun(s, pos, targets, j - 1, w);
      var fx := DeliverAll(EffectsOf(s), e, targets[..j - 1], n, w, s.max);
      MidRecord(s, a, u, pos, w, targets, j - 1, fx);
      assert targets[j - 1] in targets;
      var b;
      b, t := DeliverRun(u, pos, w);
      acts := a + b;
      assert targets[..j][..j - 1] == targets[..j - 1];
      StageThrough(s, a, u, b, t, pos, w, Task(targets, j - 1, Checking), fx, Task(targets, j, Checking),
                   Deliver(fx, Key(Pair(e, targets[j - 1]), n), w, s.max));
    }
  }

  lemma {:induction false} ResolvedStage(s: State, pos: Pos, w: World, targets: seq<Uuid>)
    requires TaskEnabled(s, pos, Resolve(targets))
    ensures var t := StepTask(s, pos, Resolve(targets));
            && Stage(s, [ByTask(pos, Resolve(targets))], t, pos, w, Task(targets, 0, Checking), EffectsOf(s))
            && t.db == s.db && EffectsOf(t) == EffectsOf(s)
  {
    hide Leads, TargetSet, DroppedBy, Distinct;
    StartStage(s, pos, w);
    TaskOn(s, [], s, pos, w, s.live.tasks[pos], EffectsOf(s), Resolve(targets), Task(targets, 0, Checking),
           EffectsOf(s));
    assert [] + [ByTask(pos, Resolve(targets))] == [ByTask(pos, Resolve(targets))];
  }

  /** The task is gone; all other tasks, tables and processes are as they were. */
  ghost predicate SameElsewhere(s: State, t: State, pos: Pos) {
    && t.max == s.max && t.kafka.log == s.kafka.log
    && t.db == s.db.(attempts := t.db.attempts, dlq := t.db.dlq)
    && t.live == s.live.(tasks := s.live.tasks - {pos})
  }

  lemma {:induction false} DeliveredRecord(s: State, acts: seq<Action>, t: State, pos: Pos, w: World,
                                           targets: seq<Uuid>, fx: Effects)
    requires pos in s.kafka.log && pos.part < |s.kafka.parts|
    requires Stage(s, acts, t, pos, w, Task(targets, |targets|, Checking), fx)
    ensures TaskEnabled(t, pos, Finish)
    ensures Leads(s, acts + [ByTask(pos, Finish)], StepFinish(t, pos))
    ensures ByTaskOnly(acts + [ByTask(pos, Finish)], pos, w)
    ensures EffectsOf(StepFinish(t, pos)) == fx && SameElsewhere(s, StepFinish(t, pos), pos)
    ensures StepFinish(t, pos).kafka.parts ==
              s.kafka.parts[pos.part := s.kafka.parts[pos.part].(
                                 wm := Watermarks.Finished(s.kafka.parts[pos.part].wm, pos.offset),
                                 done := s.kafka.parts[pos.part].done + {pos.offset})]
  {
    hide Leads, Watermarks.Finished, Watermarks.ToCommit;
    LeadsOn(s, acts, t, ByTask(pos, Finish));
  }

  /** From the start of a record to its end, for any order of its targets, any HTTP
      outcomes and any fate of the cancels: the steps of its task, uninterrupted, do to
      the tables, the retry store and the world what the worker's code computes, and
      tell the committer. */
  lemma {:induction false} RecordRun(s: State, pos: Pos, targets: seq<Uuid>, w: World)
    returns (acts: seq<Action>, t: State)
    requires TaskEnabled(s, pos, Resolve(targets)) && pos.part < |s.kafka.parts|
    ensures Leads(s, acts, t) && ByTaskOnly(acts, pos, w)
    ensures EffectsOf(t) == DeliverAll(EffectsOf(s), EventOf(s.kafka.log[pos]), targets,
                                       AttemptOf(s.kafka.log[pos]), w, s.max)
    ensures SameElsewhere(s, t, pos)
    ensures t.kafka.parts == s.kafka.parts[pos.part := s.kafka.parts[pos.part].(
                                                 wm := Watermarks.Finished(s.kafka.parts[pos.part].wm, pos.offset),
                                                 done := s.kafka.parts[pos.part].done + {pos.offset})]
  {
    hide Leads, ByTaskOnly, StepResolve, StepFinish, DeliverAll, Watermarks.Finished;
    assert forall ep :: ep in targets ==> ep in Elements(targets);
    var u := StepTask(s, pos, Resolve(targets));
    ResolvedStage(s, pos, w, targets);
    assert pos in u.live.tasks && u.live.tasks[pos] == Task(targets, 0, Checking);
    assert u.kafka == s.kafka && u.max == s.max;
    var b, v := TargetsRun(u, pos, targets, |targets|, w);
    assert targets[..|targets|] == targets;
    var fx := DeliverAll(EffectsOf(s), EventOf(s.kafka.log[pos]), targets, AttemptOf(s.kafka.log[pos]), w, s.max);
    var a := [ByTask(pos, Resolve(targets))];
    StageThrough(s, a, u, b, v, pos, w, Task(targets, 0, Checking), EffectsOf(s), Task(targets, |targets|, Checking),
                 fx);
    DeliveredRecord(s, a + b, v, pos, w, targets, fx);
    acts, t := a + b + [ByTask(pos, Finish)], StepFinish(v, pos);
  }
}
