/** The republishing loop over the retry store, without failures, at a fixed time. */
module SchedulerLoop {
  import opened Domain
  import opened MemberKeys
  import opened Ordering
  import opened RetryStore

  ghost predicate AllTargeted(messages: seq<Message>) {
    forall i :: 0 <= i < |messages| ==> messages[i].Targeted?
  }

  ghost predicate AllDifferent(messages: seq<Message>) {
    forall i, j :: 0 <= i < j < |messages| ==> messages[i] != messages[j]
  }

  /** The members the messages print to. */
  ghost function MembersOf(messages: seq<Message>): set<string> {
    set i | 0 <= i < |messages| && messages[i].Targeted? :: Member(messages[i].key)
  }

  /** `taken` went from the store to the topic, each message once, each because it
      was due; nothing else moved. */
  ghost predicate Moved(before: map<string, real>, after: map<string, real>, now: real, taken: seq<Message>) {
    && AllTargeted(taken) && AllDifferent(taken)
    && MembersOf(taken) <= DueAt(before, now)
    && after == before - MembersOf(taken)
  }

  lemma {:induction false} MembersCount(messages: seq<Message>)
    requires AllTargeted(messages) && AllDifferent(messages)
    ensures |MembersOf(messages)| == |messages|
  {
    hide Member;
    if messages == [] {
      assert MembersOf(messages) == {};
    } else {
      var n := |messages| - 1;
      var init, last := messages[..n], messages[n];
      assert last.Targeted?;
      assert forall i :: 0 <= i < n ==> init[i] == messages[i];
      MembersCount(init);
      MembersSplit(init, [last]);
      assert messages == init + [last];
      MembersOne(last.key);
      assert Member(last.key) !in MembersOf(init) by {
        if i :| 0 <= i < n && init[i].Targeted? && Member(init[i].key) == Member(last.key) {
          MemberInjective(init[i].key, last.key);
        }
      }
    }
  }

  lemma {:induction false} MembersOne(k: Key)
    ensures MembersOf([Targeted(k)]) == {Member(k)}
  {
    hide Member;
    assert [Targeted(k)][0] == Targeted(k);
  }

  lemma {:induction false} MembersOfSkipped(message: Message)
    requires !message.Targeted?
    ensures MembersOf([message]) == {}
  {
    hide Member;
  }

  lemma {:induction false} MembersSplit(first: seq<Message>, second: seq<Message>)
    ensures MembersOf(first + second) == MembersOf(first) + MembersOf(second)
  {
    hide Member;
    var both := first + second;
    forall i | 0 <= i < |first| && first[i].Targeted? ensures Member(first[i].key) in MembersOf(both) {
      assert both[i] == first[i];
    }
    forall i | 0 <= i < |second| && second[i].Targeted? ensures Member(second[i].key) in MembersOf(both) {
      assert both[|first| + i] == second[i];
    }
    forall i | 0 <= i < |both| && both[i].Targeted?
      ensures Member(both[i].key) in MembersOf(first) + MembersOf(second)
    {
      if i < |first| {
        assert both[i] == first[i];
      } else {
        assert both[i] == second[i - |first|];
      }
    }
  }

  lemma {:induction false} MemberIsIn(messages: seq<Message>, i: nat)
    requires i < |messages| && messages[i].Targeted?
    ensures Member(messages[i].key) in MembersOf(messages)
  {
    hide Member;
  }

  /** What is taken leaves the due set smaller by exactly its number. */
  lemma {:induction false} DueShrinks(before: map<string, real>, after: map<string, real>, now: real,
                                      taken: seq<Message>)
    requires Moved(before, after, now, taken)
    ensures |DueAt(after, now)| == |DueAt(before, now)| - |taken|
  {
    hide MembersOf;
    MembersCount(taken);
    assert DueAt(after, now) == DueAt(before, now) - MembersOf(taken);
  }

  lemma {:induction false} MovedTwice(a: map<string, real>, b: map<string, real>, c: map<string, real>, now: real,
                   first: seq<Message>, second: seq<Message>)
    requires Moved(a, b, now, first) && Moved(b, c, now, second)
    ensures Moved(a, c, now, first + second)
  {
    hide MembersOf, Member;
    MembersSplit(first, second);
    var both := first + second;
    forall i, j | 0 <= i < j < |both| ensures both[i] != both[j] {
      if i < |first| <= j {
        MemberIsIn(first, i);
        MemberIsIn(second, j - |first|);
        assert Member(first[i].key) !in b;
      }
    }
  }

  /** The messages that name an attempt; the others are malformed entries. */
  function WellFormed(messages: seq<Message>): seq<Message> {
    if messages == [] then []
    else
      var last := |messages| - 1;
      WellFormed(messages[..last]) + if messages[last].Targeted? then [messages[last]] else []
  }

  lemma {:induction false} AllWellFormed(messages: seq<Message>)
    requires AllTargeted(messages)
    ensures WellFormed(messages) == messages
  {
    if messages != [] {
      var last := |messages| - 1;
      AllWellFormed(messages[..last]);
      assert messages == messages[..last] + [messages[last]];
    }
  }

  /** Publish each polled message, then cancel its entry. Entries that name no
      attempt are skipped. */
  method Republish(store: RedisRetryScheduler, due: seq<Message>, topic: seq<Message>) returns (topic': seq<Message>)
    modifies store
    ensures topic' == topic + WellFormed(due)
    ensures store.zset == old(store.zset) - MembersOf(due) && store.data == old(store.data) - MembersOf(due)
    ensures old(GoodStore(store.zset, store.data)) ==> GoodStore(store.zset, store.data)
  {
    hide Member, GoodStore, MembersOf;
    topic' := topic;
    ghost var zset0, data0 := store.zset, store.data;
    var i := 0;
    assert MembersOf([]) == {} by { MembersCount([]); }
    while i < |due|
      invariant 0 <= i <= |due|
      invariant topic' == topic + WellFormed(due[..i])
      invariant store.zset == zset0 - MembersOf(due[..i]) && store.data == data0 - MembersOf(due[..i])
      invariant old(GoodStore(store.zset, store.data)) ==> GoodStore(store.zset, store.data)
    {
      var message := due[i];
      assert due[..i + 1] == due[..i] + [message];
      MembersSplit(due[..i], [message]);
      if message.Targeted? {
        MembersOne(message.key);
        topic' := topic' + [message];
        store.Cancel(message.key);
      } else {
        MembersOfSkipped(message);
      }
      i := i + 1;
    }
    assert due[..i] == due;
  }

  /** One pass of the loop. */
  method Tick(store: RedisRetryScheduler, now: real, topic: seq<Message>) returns (topic': seq<Message>)
    modifies store
    ensures old(GoodStore(store.zset, store.data)) ==>
              && GoodStore(store.zset, store.data)
              && topic <= topic'
              && Polled(old(store.zset), now, topic'[|topic|..])
              && |topic'| - |topic| == Min2(100, |DueAt(old(store.zset), now)|)
              && Moved(old(store.zset), store.zset, now, topic'[|topic|..])
  {
    hide Member, GoodStore, MembersOf, Polled;
    ghost var good := GoodStore(store.zset, store.data);
    var due := store.PollDue(now);
    if good {
      PolledIsMovable(store.zset, now, due);
      AllWellFormed(due);
    }
    topic' := Republish(store, due, topic);
    assert good ==> topic'[|topic|..] == due;
  }

  lemma {:induction false} PolledIsMovable(zset: map<string, real>, now: real, due: seq<Message>)
    requires Polled(zset, now, due)
    ensures |due| == Min2(100, |DueAt(zset, now)|)
    ensures Moved(zset, zset - MembersOf(due), now, due)
  {
    hide Member;
    var members :| FirstDue(zset, now, 100, members) && SameAttempts(members, due);
    forall i, j | 0 <= i < j < |due| ensures due[i] != due[j] {
      assert members[i] != members[j];
    }
    forall m | m in MembersOf(due) ensures m in DueAt(zset, now) {
      var i :| 0 <= i < |due| && due[i].Targeted? && Member(due[i].key) == m;
      assert members[i] == m;
    }
  }

  /** The loop, cut after a number of ticks: each tick drains 100 due entries, each is
      published exactly once, and after ceil(d / 100) ticks none is left. */
  method RunScheduler(store: RedisRetryScheduler, now: real, ticks: nat) returns (topic: seq<Message>)
    requires GoodStore(store.zset, store.data)
    modifies store
    ensures GoodStore(store.zset, store.data)
    ensures Moved(old(store.zset), store.zset, now, topic)
    ensures var d := |DueAt(old(store.zset), now)|;
            |DueAt(store.zset, now)| == (if d <= 100 * ticks then 0 else d - 100 * ticks)
  {
    hide Moved, GoodStore, DueAt;
    topic := [];
    ghost var before := store.zset;
    ghost var d := |DueAt(before, now)|;
    NothingMoved(before, now);
    var t := 0;
    while t < ticks
      invariant 0 <= t <= ticks
      invariant GoodStore(store.zset, store.data)
      invariant Moved(before, store.zset, now, topic)
      invariant |DueAt(store.zset, now)| == (if d <= 100 * t then 0 else d - 100 * t)
    {
      ghost var middle, sent := store.zset, topic;
      topic := Tick(store, now, topic);
      assert topic == sent + topic[|sent|..];
      DueShrinks(middle, store.zset, now, topic[|sent|..]);
      MovedTwice(before, middle, store.zset, now, sent, topic[|sent|..]);
      t := t + 1;
    }
  }

  lemma {:induction false} NothingMoved(zset: map<string, real>, now: real)
    ensures Moved(zset, zset, now, [])
  {
    hide Member;
    assert MembersOf([]) == {};
  }

  /** Once nothing is due any more, every attempt that was due has been published. */
  lemma {:induction false} DrainedMeansPublished(before: map<string, real>, after: map<string, real>, now: real,
                                                 taken: seq<Message>, k: Key)
    requires Moved(before, after, now, taken) && DueAt(after, now) == {}
    requires Member(k) in DueAt(before, now)
    ensures Targeted(k) in taken
  {
    hide Member;
    assert Member(k) in MembersOf(taken) by {
      assert Member(k) !in DueAt(after, now);
    }
    var i :| 0 <= i < |taken| && taken[i].Targeted? && Member(taken[i].key) == Member(k);
    MemberInjective(taken[i].key, k);
  }
}
