/** The consume loop: a semaphore, one committer per partition, and the exit on an
    infrastructure failure. */
module DeliveryLoop {
  import opened Domain
  import opened Watermarks
  import opened Protocol

  /** How `_process_and_commit` ends for a record: processed, poison, an
      infrastructure failure, or cancelled. */
  datatype Verdict = Processed | PoisonPill | InfraFailure | Cancelled

  predicate Advances(v: Verdict) {
    v.Processed? || v.PoisonPill?
  }

  /** A call of `commit_partition`. */
  datatype Request = Request(part: nat, offset: int)

  function RequestOf(part: nat, c: Option<int>): Option<Request> {
    if c.Some? then Some(Request(part, c.value)) else None
  }

  /** No launched record at or below the requested offset is unfinished. */
  ghost predicate Covers(launched: set<Pos>, completed: set<Pos>, r: Request) {
    forall pos :: pos in launched && pos.part == r.part && pos.offset <= r.offset ==> pos in completed
  }

  /** The request does not go beyond what was launched. */
  ghost predicate Reached(launched: set<Pos>, r: Request) {
    exists pos :: pos in launched && pos.part == r.part && r.offset <= pos.offset
  }

  ghost predicate AllCover(launched: set<Pos>, completed: set<Pos>, requests: seq<Request>) {
    forall i :: 0 <= i < |requests| ==> Covers(launched, completed, requests[i]) && Reached(launched, requests[i])
  }

  /** A partition delivers its records in ascending order of their offsets. */
  ghost predicate Ahead(launched: set<Pos>, record: Pos) {
    forall pos :: pos in launched && pos.part == record.part ==> pos.offset < record.offset
  }

  ghost predicate InOrder(launched: set<Pos>, batch: seq<Pos>) {
    && (forall i :: 0 <= i < |batch| ==> Ahead(launched, batch[i]))
    && (forall i, j :: 0 <= i < j < |batch| && batch[i].part == batch[j].part ==> batch[i].offset < batch[j].offset)
  }

  lemma {:induction false} NothingToCover(launched: set<Pos>, completed: set<Pos>)
    ensures AllCover(launched, completed, [])
  {
  }

  lemma {:induction false} CoverMore(launched: set<Pos>, completed: set<Pos>, completed': set<Pos>,
                                     requests: seq<Request>, more: seq<Request>)
    requires AllCover(launched, completed, requests) && completed <= completed' && AllCover(launched, completed', more)
    ensures AllCover(launched, completed', requests + more)
  {
    forall i | 0 <= i < |requests| ensures Covers(launched, completed', requests[i]) {
      assert Covers(launched, completed, requests[i]);
    }
    hide Covers, Reached;
  }

  lemma {:induction false} CoverOne(launched: set<Pos>, completed: set<Pos>, r: Option<Request>)
    requires r.Some? ==> Covers(launched, completed, r.value) && Reached(launched, r.value)
    ensures AllCover(launched, completed, if r.Some? then [r.value] else [])
  {
    hide Covers, Reached;
  }

  /** A record launched later lies beyond every request made before. */
  lemma {:induction false} CoverLaunch(launched: set<Pos>, completed: set<Pos>, requests: seq<Request>, record: Pos)
    requires AllCover(launched, completed, requests) && Ahead(launched, record)
    ensures AllCover(launched + {record}, completed, requests)
  {
    forall i | 0 <= i < |requests|
      ensures Covers(launched + {record}, completed, requests[i]) && Reached(launched + {record}, requests[i])
    {
      var pos :| pos in launched && pos.part == requests[i].part && requests[i].offset <= pos.offset;
      assert pos in launched + {record};
    }
  }

  // ---------- that they are made ----------

  /** The offset requested last for the partition. */
  function LastOf(requests: seq<Request>, part: nat): Option<int> {
    if requests == [] then None
    else
      var last := |requests| - 1;
      if requests[last].part == part then Some(requests[last].offset) else LastOf(requests[..last], part)
  }

  /** The requests are those of the committers: the last one of a partition is what its
      committer takes for committed; without one the committer has not moved. */
  ghost predicate Told(before: map<nat, Watermark>, after: map<nat, Watermark>, requests: seq<Request>) {
    forall p: nat ::
      match LastOf(requests, p)
      case Some(o) => ViewOf(after, p).lastCommitted == o
      case None => ViewOf(after, p).lastCommitted == ViewOf(before, p).lastCommitted
  }

  lemma {:induction false} LastOfBoth(first: seq<Request>, second: seq<Request>, p: nat)
    ensures LastOf(first + second, p) == if LastOf(second, p).Some? then LastOf(second, p) else LastOf(first, p)
    decreases |second|
  {
    if second == [] {
      assert first + second == first;
    } else {
      var last := |second| - 1;
      assert (first + second)[..|first| + last] == first + second[..last];
      LastOfBoth(first, second[..last], p);
    }
  }

  lemma {:induction false} LastOfIsIn(requests: seq<Request>, p: nat)
    requires LastOf(requests, p).Some?
    ensures Request(p, LastOf(requests, p).value) in requests
  {
    var last := |requests| - 1;
    if requests[last].part != p {
      LastOfIsIn(requests[..last], p);
    }
  }

  lemma {:induction false} ToldTwice(a: map<nat, Watermark>, b: map<nat, Watermark>, c: map<nat, Watermark>,
                                     first: seq<Request>, second: seq<Request>)
    requires Told(a, b, first) && Told(b, c, second)
    ensures Told(a, c, first + second)
  {
    forall p: nat
      ensures match LastOf(first + second, p)
              case Some(o) => ViewOf(c, p).lastCommitted == o
              case None => ViewOf(c, p).lastCommitted == ViewOf(a, p).lastCommitted
    {
      LastOfBoth(first, second, p);
    }
  }

  lemma {:induction false} NothingTold(views: map<nat, Watermark>)
    ensures Told(views, views, [])
  {
  }

  lemma {:induction false} StartTold(views: map<nat, Watermark>, r: Pos)
    ensures Told(views, views[r.part := Started(ViewOf(views, r.part), r.offset)], [])
  {
  }

  lemma {:induction false} DoneTold(views: map<nat, Watermark>, r: Pos)
    requires r.part in views
    ensures var c := RequestOf(r.part, ToCommit(views[r.part], r.offset));
            Told(views, views[r.part := Finished(views[r.part], r.offset)], if c.Some? then [c.value] else [])
  {
    var c := RequestOf(r.part, ToCommit(views[r.part], r.offset));
    if c.Some? {
      forall p: nat ensures LastOf([c.value], p) == if p == r.part then Some(c.value.offset) else None {
        assert [c.value][..0] == [];
      }
    }
  }

  // ---------- what the loop keeps ----------

  /** A launched record: its partition has a committer that has seen its offset. */
  predicate Seen(views: map<nat, Watermark>, pos: Pos) {
    pos.part in views && pos.offset <= views[pos.part].lastSeen
  }

  /** Its committer holds the record in flight. */
  predicate Flying(views: map<nat, Watermark>, pos: Pos) {
    pos.part in views && pos.offset in views[pos.part].inFlight
  }

  /** Free permits and running tasks add up to the concurrency limit, and the in-flight
      sets are together the launched records that are not completed: the running and
      the failed ones. */
  ghost predicate Balanced(capacity: nat, permits: nat, active: set<Pos>, launched: set<Pos>, completed: set<Pos>,
                           views: map<nat, Watermark>)
  {
    && permits + |active| == capacity
    && active <= launched && completed <= launched && active !! completed
    && (forall pos :: pos in launched ==> Seen(views, pos))
    && (forall pos :: Flying(views, pos) <==> pos in launched && pos !in completed)
    && Offsets(views) && LastLaunched(views, launched) && CaughtUp(views)
  }

  function ViewOf(views: map<nat, Watermark>, part: nat): Watermark {
    if part in views then views[part] else FRESH
  }

  /** Offsets in flight are those of records. */
  ghost predicate Offsets(views: map<nat, Watermark>) {
    forall p, x :: p in views && x in views[p].inFlight ==> x >= 0
  }

  /** The last seen offset of a committer is that of a launched record. */
  ghost predicate LastLaunched(views: map<nat, Watermark>, launched: set<Pos>) {
    forall p :: p in views && views[p].lastSeen >= 0 ==> Pos(p, views[p].lastSeen) in launched
  }

  /** A committer with nothing in flight has committed all it has seen. */
  ghost predicate CaughtUp(views: map<nat, Watermark>) {
    forall p :: p in views && views[p].inFlight == {} ==> views[p].lastCommitted >= views[p].lastSeen
  }

  lemma {:induction false} StartMoves(views: map<nat, Watermark>, launched: set<Pos>, r: Pos)
    ensures var views' := views[r.part := Started(ViewOf(views, r.part), r.offset)];
            && (forall pos :: Flying(views', pos) <==> Flying(views, pos) || pos == r)
            && (forall pos :: Seen(views, pos) || pos == r ==> Seen(views', pos))
            && (Offsets(views) ==> Offsets(views'))
            && (CaughtUp(views) ==> CaughtUp(views'))
            && (LastLaunched(views, launched) ==> LastLaunched(views', launched + {r}))
  {
    var views' := views[r.part := Started(ViewOf(views, r.part), r.offset)];
    forall pos: Pos ensures Flying(views', pos) <==> Flying(views, pos) || pos == r {
    }
    forall pos: Pos ensures Seen(views, pos) || pos == r ==> Seen(views', pos) {
    }
  }

  lemma {:induction false} DispatchKeeps(capacity: nat, permits: nat, active: set<Pos>, launched: set<Pos>,
                                         completed: set<Pos>, views: map<nat, Watermark>, r: Pos)
    requires Balanced(capacity, permits, active, launched, completed, views)
    requires permits > 0 && r !in launched
    ensures Balanced(capacity, permits - 1, active + {r}, launched + {r}, completed,
                     views[r.part := Started(ViewOf(views, r.part), r.offset)])
  {
    hide Seen, Flying, Started, ViewOf, Offsets, LastLaunched, CaughtUp;
    StartMoves(views, launched, r);
  }

  lemma {:induction false} FinishMoves(views: map<nat, Watermark>, launched: set<Pos>, r: Pos)
    requires r.part in views
    ensures var views' := views[r.part := Finished(views[r.part], r.offset)];
            && (forall pos :: Flying(views', pos) <==> Flying(views, pos) && pos != r)
            && (forall pos :: Seen(views, pos) <==> Seen(views', pos))
            && (Offsets(views) ==> Offsets(views'))
            && (CaughtUp(views) ==> CaughtUp(views'))
            && (LastLaunched(views, launched) ==> LastLaunched(views', launched))
  {
    var views' := views[r.part := Finished(views[r.part], r.offset)];
    forall pos: Pos ensures Flying(views', pos) <==> Flying(views, pos) && pos != r {
    }
    forall pos: Pos ensures Seen(views, pos) <==> Seen(views', pos) {
    }
  }

  lemma {:induction false} SettleKeeps(capacity: nat, permits: nat, active: set<Pos>, launched: set<Pos>,
                                       completed: set<Pos>, views: map<nat, Watermark>, r: Pos)
    requires Balanced(capacity, permits, active, launched, completed, views) && r in active
    ensures r.part in views
    ensures Balanced(capacity, permits + 1, active - {r}, launched, completed, views)
    ensures Balanced(capacity, permits + 1, active - {r}, launched, completed + {r},
                     views[r.part := Finished(views[r.part], r.offset)])
    ensures ToCommit(views[r.part], r.offset).Some? ==>
              var request := Request(r.part, ToCommit(views[r.part], r.offset).value);
              Covers(launched, completed + {r}, request) && Reached(launched, request)
  {
    assert Seen(views, r);
    FinishMoves(views, launched, r);
    hide CaughtUp;
    var w1 := views[r.part].(inFlight := views[r.part].inFlight - {r.offset});
    forall pos | pos in launched && pos !in completed && pos.part == r.part && pos != r
      ensures pos.offset > Candidate(w1)
    {
      assert Flying(views, pos);
      assert pos.offset in w1.inFlight;
    }
    var last := if w1.inFlight == {} then views[r.part].lastSeen else Min(w1.inFlight);
    assert last >= 0 && Candidate(w1) <= last;
    assert Pos(r.part, last) in launched by {
      assert w1.inFlight != {} ==> last in views[r.part].inFlight && Flying(views, Pos(r.part, last));
    }
  }

  lemma {:induction false} BalancedFacts(capacity: nat, permits: nat, active: set<Pos>, launched: set<Pos>,
                                         completed: set<Pos>, views: map<nat, Watermark>)
    requires Balanced(capacity, permits, active, launched, completed, views)
    ensures permits < capacity ==> active != {}
    ensures permits <= capacity && forall r :: r in active ==> r.part in views
  {
    assert forall r :: r in active ==> Seen(views, r);
  }

  /** Once every launched record is completed its committer has reached it. */
  lemma {:induction false} AllDone(capacity: nat, permits: nat, active: set<Pos>, launched: set<Pos>,
                                   views: map<nat, Watermark>, requests: seq<Request>)
    requires Balanced(capacity, permits, active, launched, launched, views) && Told(map[], views, requests)
    ensures forall pos :: pos in launched ==>
              exists r :: r in requests && r.part == pos.part && r.offset >= pos.offset
  {
    forall pos | pos in launched ensures exists r :: r in requests && r.part == pos.part && r.offset >= pos.offset {
      assert Seen(views, pos);
      assert views[pos.part].inFlight == {} by {
        if views[pos.part].inFlight != {} {
          assert Flying(views, Pos(pos.part, Pick(views[pos.part].inFlight)));
          assert false;
        }
      }
      assert ViewOf(views, pos.part).lastCommitted >= pos.offset;
      assert LastOf(requests, pos.part).Some?;
      LastOfIsIn(requests, pos.part);
    }
  }

  class Loop {
    const capacity: nat
    var permits: nat
    var watermarks: map<nat, PartitionWatermark>
    var fatal: bool
    /** The records with a running task. */
    var active: set<Pos>
    /** All records ever dispatched, and those the committers were told of. */
    ghost var launched: set<Pos>
    ghost var completed: set<Pos>

    ghost function Views(): map<nat, Watermark>
      reads `watermarks, watermarks.Values
    {
      map p | p in watermarks :: watermarks[p].View()
    }

    /** Each partition has its own committer. */
    ghost predicate Separate()
      reads `watermarks
    {
      forall p, q :: p in watermarks && q in watermarks && p != q ==> watermarks[p] != watermarks[q]
    }

    ghost predicate Valid()
      reads this, watermarks.Values
    {
      Separate() && Balanced(capacity, permits, active, launched, completed, Views())
    }

    /** A record whose task ended without `done` makes the loop exit. */
    ghost predicate FailureIsFatal()
      reads this
    {
      fatal || launched == active + completed
    }

    constructor (concurrency: nat)
      ensures Valid() && permits == capacity == concurrency && !fatal
      ensures launched == {} && watermarks == map[] && FailureIsFatal()
    {
      capacity := concurrency;
      permits := concurrency;
      watermarks := map[];
      fatal := false;
      active, launched, completed := {}, {}, {};
    }

    /** The committer of a partition, created on first use. */
    method CommitterOf(part: nat) returns (w: PartitionWatermark)
      requires Separate()
      modifies `watermarks
      ensures Separate() && part in watermarks && watermarks[part] == w
      ensures fresh(watermarks.Values - old(watermarks.Values))
      ensures w in old(watermarks.Values) || fresh(w)
      ensures Views() == old(Views())[part := ViewOf(old(Views()), part)]
    {
      if part !in watermarks {
        w := new PartitionWatermark();
        watermarks := watermarks[part := w];
      }
      w := watermarks[part];
      assert Views() == old(Views())[part := ViewOf(old(Views()), part)];
    }

    lemma {:induction false} ViewsAre(views: map<nat, Watermark>)
      requires watermarks.Keys == views.Keys && forall p :: p in watermarks ==> watermarks[p].View() == views[p]
      ensures Views() == views
    {
    }

    lemma {:induction false} ViewAt(part: nat)
      requires part in watermarks
      ensures part in Views() && Views()[part] == watermarks[part].View() && Views().Keys == watermarks.Keys
      ensures forall p :: p in watermarks ==> Views()[p] == watermarks[p].View()
    {
    }

    method StartOffset(record: Pos)
      requires Separate()
      modifies `watermarks, watermarks.Values
      ensures Separate() && fresh(watermarks.Values - old(watermarks.Values))
      ensures Views() == old(Views())[record.part := Started(ViewOf(old(Views()), record.part), record.offset)]
    {
      hide Started, ViewOf, Views;
      var w := CommitterOf(record.part);
      ViewAt(record.part);
      ghost var views := Views();
      w.Start(record.offset);
      ViewsAre(views[record.part := Started(views[record.part], record.offset)]);
    }

    /** Acquire a permit, start the offset, create the task. */
    method Dispatch(record: Pos)
      requires Valid() && permits > 0 && record !in launched
      modifies this, watermarks.Values
      ensures Valid() && fresh(watermarks.Values - old(watermarks.Values))
      ensures permits == old(permits) - 1 && fatal == old(fatal)
      ensures active == old(active) + {record} && launched == old(launched) + {record} && completed == old(completed)
      ensures Views() ==
                old(Views())[record.part := Started(ViewOf(old(Views()), record.part), record.offset)]
      ensures Told(old(Views()), Views(), [])
    {
      hide Balanced, Started, ViewOf, Separate, Views, Told;
      StartTold(Views(), record);
      DispatchKeeps(capacity, permits, active, launched, completed, Views(), record);
      permits := permits - 1;
      StartOffset(record);
      active := active + {record};
      launched := launched + {record};
    }

    /** The end of a task: release the permit and, unless it failed or was cancelled,
        tell the committer. A request covers only finished records. */
    method Settle(record: Pos, v: Verdict) returns (request: Option<Request>)
      requires Valid() && record in active && record.part in watermarks
      modifies this, watermarks.Values
      ensures Valid() && watermarks == old(watermarks) && launched == old(launched)
      ensures permits == old(permits) + 1 && active == old(active) - {record}
      ensures fatal == (old(fatal) || v.InfraFailure?)
      ensures if v.Processed? || v.PoisonPill?
              then
                && completed == old(completed) + {record}
                && Views() == old(Views())[record.part := Finished(old(Views())[record.part], record.offset)]
                && request == RequestOf(record.part, ToCommit(old(Views())[record.part], record.offset))
              else completed == old(completed) && Views() == old(Views()) && request == None
      ensures request.Some? ==> Covers(launched, completed, request.value) && Reached(launched, request.value)
      ensures Told(old(Views()), Views(), if request.Some? then [request.value] else [])
    {
      hide Balanced, Finished, ToCommit, Covers, Reached, Views, Told;
      ghost var views := Views();
      SettleKeeps(capacity, permits, active, launched, completed, views, record);
      ViewAt(record.part);
      DoneTold(views, record);
      NothingTold(views);
      request := None;
      if v.InfraFailure? {
        fatal := true;
      }
      permits := permits + 1;
      active := active - {record};
      if Advances(v) {
        completed := completed + {record};
        var w := watermarks[record.part];
        var commit := w.Done(record.offset);
        if commit.Some? {
          request := Some(Request(record.part, commit.value));
        }
        ViewsAre(views[record.part := Finished(views[record.part], record.offset)]);
      } else {
        ViewsAre(views);
      }
    }

    /** Some task ends. Which one, and how, is arbitrary; nothing cancels one before the
        loop exits. */
    method OneEnds() returns (requests: seq<Request>)
      requires Valid() && active != {} && FailureIsFatal()
      modifies this, watermarks.Values
      ensures Valid() && watermarks == old(watermarks) && launched == old(launched)
      ensures permits == old(permits) + 1
      ensures old(completed) <= completed && FailureIsFatal() && (old(fatal) ==> fatal)
      ensures AllCover(launched, completed, requests) && Told(old(Views()), Views(), requests)
    {
      hide AllCover, Covers, Reached, ToCommit, RequestOf, Balanced, Told, Finished;
      BalancedFacts(capacity, permits, active, launched, completed, Views());
      var record :| record in active;
      assert record.part in watermarks;
      hide Views;
      var v: Verdict :| !v.Cancelled?;
      var request := Settle(record, v);
      CoverOne(launched, completed, request);
      requests := if request.Some? then [request.value] else [];
    }

    /** While the loop waits for anything, any number of tasks end. */
    method TasksEnd() returns (requests: seq<Request>)
      requires Valid() && FailureIsFatal()
      modifies this, watermarks.Values
      ensures Valid() && permits >= old(permits) && watermarks == old(watermarks) && launched == old(launched)
      ensures old(completed) <= completed && FailureIsFatal() && (old(fatal) ==> fatal)
      ensures AllCover(launched, completed, requests) && Told(old(Views()), Views(), requests)
    {
      hide AllCover, Balanced, Told, Views;
      requests := [];
      ghost var views := Views();
      NothingToCover(launched, completed);
      NothingTold(views);
      BalancedFacts(capacity, permits, active, launched, completed, Views());
      while *
        invariant Valid() && watermarks == old(watermarks) && launched == old(launched)
        invariant old(permits) <= permits <= capacity
        invariant old(completed) <= completed && FailureIsFatal() && (old(fatal) ==> fatal)
        invariant AllCover(launched, completed, requests) && Told(views, Views(), requests)
        decreases capacity - permits
      {
        BalancedFacts(capacity, permits, active, launched, completed, Views());
        if permits == capacity {
          break;
        }
        ghost var done, middle := completed, Views();
        var more := OneEnds();
        CoverMore(launched, done, completed, requests, more);
        ToldTwice(views, middle, Views(), requests, more);
        requests := requests + more;
        BalancedFacts(capacity, permits, active, launched, completed, Views());
      }
    }

    /** The wait for messages: it begins only while no record has failed, but one may fail
        before it is over. */
    method GetMany() returns (requests: seq<Request>)
      requires Valid() && FailureIsFatal() && !fatal
      modifies this, watermarks.Values
      ensures Valid() && watermarks == old(watermarks) && launched == old(launched)
      ensures old(completed) <= completed && FailureIsFatal()
      ensures AllCover(launched, completed, requests) && Told(old(Views()), Views(), requests)
    {
      requests := TasksEnd();
    }

    /** Wait until a permit is free; any number of tasks may have ended by then. */
    method AwaitPermit() returns (requests: seq<Request>)
      requires Valid() && capacity > 0 && FailureIsFatal()
      modifies this, watermarks.Values
      ensures Valid() && permits > 0 && watermarks == old(watermarks) && launched == old(launched)
      ensures old(completed) <= completed && FailureIsFatal() && (old(fatal) ==> fatal)
      ensures AllCover(launched, completed, requests) && Told(old(Views()), Views(), requests)
    {
      hide AllCover, Balanced, Told, Views;
      ghost var views := Views();
      requests := TasksEnd();
      if permits == 0 {
        BalancedFacts(capacity, permits, active, launched, completed, Views());
        ghost var done, middle := completed, Views();
        var more := OneEnds();
        CoverMore(launched, done, completed, requests, more);
        ToldTwice(views, middle, Views(), requests, more);
        requests := requests + more;
      }
    }

    /** One fetched batch: each record waits for a permit. Its commit requests cover only
        finished records among all that are launched when it is done. */
    method RunBatch(batch: seq<Pos>) returns (requests: seq<Request>)
      requires Valid() && capacity > 0 && FailureIsFatal() && InOrder(launched, batch)
      modifies this, watermarks.Values
      ensures Valid() && fresh(watermarks.Values - old(watermarks.Values))
      ensures launched == old(launched) + Elements(batch)
      ensures old(completed) <= completed && FailureIsFatal() && (old(fatal) ==> fatal)
      ensures AllCover(launched, completed, requests) && Told(old(Views()), Views(), requests)
    {
      hide AllCover, Covers, Balanced, InOrder, Ahead, Told, Views;
      requests := [];
      ghost var before, views := launched, Views();
      ghost var objects := watermarks.Values;
      NothingToCover(launched, completed);
      NothingTold(views);
      var i := 0;
      while i < |batch|
        invariant 0 <= i <= |batch|
        invariant Valid() && fresh(watermarks.Values - objects)
        invariant launched == before + Elements(batch[..i])
        invariant old(completed) <= completed && FailureIsFatal() && (old(fatal) ==> fatal)
        invariant AllCover(launched, completed, requests) && Told(views, Views(), requests)
      {
        ghost var done, middle := completed, Views();
        var more := AwaitPermit();
        CoverMore(launched, done, completed, requests, more);
        ToldTwice(views, middle, Views(), requests, more);
        requests := requests + more;
        NextIsAhead(before, batch, i);
        CoverLaunch(launched, completed, requests, batch[i]);
        middle := Views();
        Dispatch(batch[i]);
        ToldTwice(views, middle, Views(), requests, []);
        assert requests + [] == requests;
        i := i + 1;
      }
      assert batch[..i] == batch;
    }

    /** The loop, cut after the given batches: before each fetch it exits if a record
        failed. `flags` are the values of the flag when it began to fetch each batch. A loop
        that starts afresh, ends without failure and has no task left has requested a
        position at or beyond every record. */
    method Run(batches: seq<seq<Pos>>) returns (fetched: nat, requests: seq<Request>, ghost flags: seq<bool>)
      requires Valid() && capacity > 0 && FailureIsFatal()
      requires AllInOrder(launched, batches)
      modifies this, watermarks.Values
      ensures Valid() && fetched <= |batches|
      ensures old(fatal) ==> fetched == 0
      ensures |flags| == fetched && forall i :: 0 <= i < fetched ==> !flags[i]
      ensures fetched < |batches| ==> fatal
      ensures !fatal ==> launched == active + completed
      ensures launched == old(launched) + Elements(Concat(batches[..fetched]))
      ensures AllCover(launched, completed, requests) && Told(old(Views()), Views(), requests)
      ensures old(watermarks) == map[] && !fatal && active == {} ==>
                forall pos :: pos in launched ==>
                  exists r :: r in requests && r.part == pos.part && r.offset >= pos.offset
    {
      hide Balanced, AllCover, InOrder, Concat, Told, Views;
      fetched, requests, flags := 0, [], [];
      ghost var before, views := launched, Views();
      ghost var objects := watermarks.Values;
      NothingToCover(launched, completed);
      NothingTold(views);
      ConcatNone(batches);
      NoViews();
      while fetched < |batches| && !fatal
        invariant fetched <= |batches| && Valid() && FailureIsFatal() && fresh(watermarks.Values - objects)
        invariant old(fatal) ==> fetched == 0 && fatal
        invariant |flags| == fetched && forall i :: 0 <= i < fetched ==> !flags[i]
        invariant launched == before + Elements(Concat(batches[..fetched]))
        invariant AllCover(launched, completed, requests) && Told(views, Views(), requests)
      {
        flags := flags + [fatal];
        ghost var known, done, middle := launched, completed, Views();
        var more := GetMany();
        CoverMore(launched, done, completed, requests, more);
        ToldTwice(views, middle, Views(), requests, more);
        requests := requests + more;
        done, middle := completed, Views();
        NextBatchInOrder(before, batches, fetched);
        more := RunBatch(batches[fetched]);
        CoverBatch(known, done, requests, batches[fetched], completed);
        CoverMore(launched, completed, completed, requests, more);
        ToldTwice(views, middle, Views(), requests, more);
        requests := requests + more;
        ConcatNext(batches, fetched);
        fetched := fetched + 1;
      }
      if old(watermarks) == map[] && !fatal && active == {} {
        assert completed == launched;
        AllDone(capacity, permits, active, launched, Views(), requests);
      }
    }

    lemma {:induction false} NoViews()
      ensures watermarks == map[] ==> Views() == map[]
    {
    }
  }

  lemma {:induction false} NextIsAhead(before: set<Pos>, batch: seq<Pos>, i: nat)
    requires InOrder(before, batch) && i < |batch|
    ensures Ahead(before + Elements(batch[..i]), batch[i]) && batch[i] !in before + Elements(batch[..i])
    ensures Elements(batch[..i + 1]) == Elements(batch[..i]) + {batch[i]}
  {
    assert Ahead(before, batch[i]);
    assert batch[..i + 1] == batch[..i] + [batch[i]];
    forall x | x in batch[..i] && x.part == batch[i].part ensures x.offset < batch[i].offset {
      var j :| 0 <= j < i && batch[j] == x;
    }
  }

  lemma {:induction false} CoverBatch(launched: set<Pos>, completed: set<Pos>, requests: seq<Request>, batch: seq<Pos>,
                                      completed': set<Pos>)
    requires AllCover(launched, completed, requests) && InOrder(launched, batch) && completed <= completed'
    ensures AllCover(launched + Elements(batch), completed', requests)
    decreases |batch|
  {
    hide AllCover, Ahead, InOrder;
    if batch == [] {
      NothingToCover(launched, completed');
      CoverMore(launched, completed, completed', requests, []);
      assert requests + [] == requests && launched + Elements(batch) == launched;
    } else {
      var n := |batch| - 1;
      FewerInOrder(launched, batch, n);
      CoverBatch(launched, completed, requests, batch[..n], completed');
      NextIsAhead(launched, batch, n);
      CoverLaunch(launched + Elements(batch[..n]), completed', requests, batch[n]);
      assert batch[..n + 1] == batch;
      assert launched + Elements(batch) == launched + Elements(batch[..n]) + {batch[n]};
    }
  }

  lemma {:induction false} FewerInOrder(launched: set<Pos>, batch: seq<Pos>, n: nat)
    requires InOrder(launched, batch) && n <= |batch|
    ensures InOrder(launched, batch[..n])
  {
    hide Ahead;
  }

  // ---------- several batches ----------

  function Concat(batches: seq<seq<Pos>>): seq<Pos> {
    if batches == [] then [] else Concat(batches[..|batches| - 1]) + batches[|batches| - 1]
  }

  /** All batches, one after the other, come in order. */
  ghost predicate AllInOrder(launched: set<Pos>, batches: seq<seq<Pos>>) {
    forall n :: 0 <= n <= |batches| ==> InOrder(launched, Concat(batches[..n]))
  }

  lemma {:induction false} ConcatNone(batches: seq<seq<Pos>>)
    ensures Elements(Concat(batches[..0])) == {}
  {
  }

  lemma {:induction false} ConcatNext(batches: seq<seq<Pos>>, n: nat)
    requires n < |batches|
    ensures Concat(batches[..n + 1]) == Concat(batches[..n]) + batches[n]
    ensures Elements(Concat(batches[..n + 1])) == Elements(Concat(batches[..n])) + Elements(batches[n])
  {
    assert batches[..n + 1][..n] == batches[..n];
  }

  lemma {:induction false} NextBatchInOrder(launched: set<Pos>, batches: seq<seq<Pos>>, n: nat)
    requires AllInOrder(launched, batches) && n < |batches|
    ensures InOrder(launched + Elements(Concat(batches[..n])), batches[n])
  {
    ConcatNext(batches, n);
    var known, batch := Concat(batches[..n]), batches[n];
    var both := known + batch;
    assert InOrder(launched, both);
    forall i | 0 <= i < |batch| ensures Ahead(launched + Elements(known), batch[i]) {
      assert both[|known| + i] == batch[i];
      assert Ahead(launched, both[|known| + i]);
      forall x | x in known && x.part == batch[i].part ensures x.offset < batch[i].offset {
        var k :| 0 <= k < |known| && known[k] == x;
        assert both[k] == x;
      }
    }
    forall i, j | 0 <= i < j < |batch| && batch[i].part == batch[j].part ensures batch[i].offset < batch[j].offset {
      assert both[|known| + i] == batch[i] && both[|known| + j] == batch[j];
    }
  }
}
