/** The Redis retry store: a sorted set of due times and a hash of payloads, both
    keyed by the member text, and the scheduler loop over them. */
module RetryStore {
  import opened Domain
  import opened Backoff
  import opened MemberKeys
  import opened Ordering

  /** A payload of the data hash: JSON text of a message, or text that does not parse. */
  datatype Payload = Encoded(message: Message) | Corrupt(text: string)

  ghost function DueAt(zset: map<string, real>, now: real): set<string> {
    set m | m in zset && zset[m] <= now
  }

  /** What ZRANGEBYSCORE -inf now LIMIT 0 n promises. */
  ghost predicate FirstDue(zset: map<string, real>, now: real, limit: nat, members: seq<string>) {
    && |members| == Min2(limit, |DueAt(zset, now)|)
    && (forall i :: 0 <= i < |members| ==> members[i] in DueAt(zset, now))
    && (forall i, j :: 0 <= i < j < |members| ==> members[i] != members[j] && zset[members[i]] <= zset[members[j]])
    && (forall m, i :: m in DueAt(zset, now) && m !in members && 0 <= i < |members| ==> zset[members[i]] <= zset[m])
  }

  /** An entry the pipeline wrote: the payload names the attempt that prints to its
      member. */
  ghost predicate GoodEntry(member: string, payload: Payload) {
    payload.Encoded? && payload.message.Targeted? && Member(payload.message.key) == member
  }

  ghost predicate GoodStore(zset: map<string, real>, data: map<string, Payload>) {
    zset.Keys == data.Keys && forall m :: m in data ==> GoodEntry(m, data[m])
  }

  /** The attempts the store holds, with their due times: what it stands for. */
  ghost function Entries(zset: map<string, real>, data: map<string, Payload>): map<Key, real>
    requires GoodStore(zset, data)
  {
    map k | k in (set m | m in data :: data[m].message.key) :: zset[Member(k)]
  }

  lemma {:induction false} EntriesMean(zset: map<string, real>, data: map<string, Payload>, k: Key)
    requires GoodStore(zset, data)
    ensures k in Entries(zset, data) <==> Member(k) in zset
    ensures k in Entries(zset, data) ==>
              Entries(zset, data)[k] == zset[Member(k)] && data[Member(k)] == Encoded(Targeted(k))
  {
    if Member(k) in zset {
      assert GoodEntry(Member(k), data[Member(k)]);
      MemberInjective(k, data[Member(k)].message.key);
    }
    if k in Entries(zset, data) {
      var m :| m in data && data[m].message.key == k;
      assert GoodEntry(m, data[m]);
    }
  }

  class RedisRetryScheduler {
    var zset: map<string, real>
    var data: map<string, Payload>

    constructor ()
      ensures zset == map[] && data == map[]
    {
      zset, data := map[], map[];
    }

    /** Both keys are written by one script. */
    method Schedule(k: Key, message: Message, now: real, jitter: real)
      modifies this
      ensures zset == old(zset)[Member(k) := now + Delay(k.attempt, jitter)]
      ensures data == old(data)[Member(k) := Encoded(message)]
      ensures old(GoodStore(zset, data)) && message == Targeted(k) ==>
                GoodStore(zset, data) &&
                Entries(zset, data) == old(Entries(zset, data))[k := now + Delay(k.attempt, jitter)]
    {
      hide Member, GoodStore, Entries, Delay;
      var retryAfter := now + Delay(k.attempt, jitter);
      var member := Member(k);
      ghost var zset0, data0 := zset, data;
      data := data[member := Encoded(message)];
      zset := zset[member := retryAfter];
      if GoodStore(zset0, data0) && message == Targeted(k) {
        ScheduleEntries(zset0, data0, k, retryAfter);
      }
    }

    /** Both removals run in one transaction. */
    method Cancel(k: Key)
      modifies this
      ensures zset == old(zset) - {Member(k)}
      ensures data == old(data) - {Member(k)}
      ensures old(GoodStore(zset, data)) ==>
                GoodStore(zset, data) && Entries(zset, data) == old(Entries(zset, data)) - {k}
    {
      hide Member, GoodStore, Entries;
      var member := Member(k);
      ghost var zset0, data0 := zset, data;
      zset := zset - {member};
      data := data - {member};
      if GoodStore(zset0, data0) {
        CancelEntries(zset0, data0, k);
      }
    }

    method RangeByScore(now: real, limit: nat) returns (members: seq<string>)
      ensures FirstDue(zset, now, limit, members)
    {
      var due := map m | m in zset && zset[m] <= now :: zset[m];
      members := TakeLowest(due, limit);
      assert due.Keys == DueAt(zset, now);
    }

    /** Fetch, without removing, the entries due by `now`, at most 100 and the earliest
        first; members without payload are dropped from the set, payloads that do not parse
        are skipped. */
    method PollDue(now: real) returns (messages: seq<Message>)
      modifies this
      ensures data == old(data)
      ensures exists members :: FirstDue(old(zset), now, 100, members) &&
                messages == Parsed(members, data) && zset == old(zset) - Orphans(members, data)
      ensures old(GoodStore(zset, data)) ==> zset == old(zset) && Polled(zset, now, messages)
    {
      hide FirstDue, GoodStore, Polled, Parsed, Orphans;
      ghost var zset0 := zset;
      var members := RangeByScore(now, POLL_BATCH);
      messages := [];
      NothingParsed(data);
      assert members[..0] == [];
      var i := 0;
      while i < |members|
        invariant 0 <= i <= |members|
        invariant data == old(data)
        invariant messages == Parsed(members[..i], data)
        invariant zset == zset0 - Orphans(members[..i], data)
      {
        var member := members[i];
        OneMoreParsed(members, i, data);
        if member in data {
          if data[member].Encoded? {
            messages := messages + [data[member].message];
          }
        } else {
          zset := zset - {member};
        }
        i := i + 1;
      }
      assert members[..i] == members;
      if GoodStore(zset0, data) {
        GoodPoll(zset0, data, now, members);
      }
    }
  }

  /** The messages among the payloads of the members, in their order. */
  ghost function Parsed(members: seq<string>, data: map<string, Payload>): seq<Message> {
    if members == [] then []
    else
      var last := |members| - 1;
      Parsed(members[..last], data) +
      if members[last] in data && data[members[last]].Encoded? then [data[members[last]].message] else []
  }

  /** The members without payload. */
  ghost function Orphans(members: seq<string>, data: map<string, Payload>): set<string> {
    set m | m in members && m !in data
  }

  lemma {:induction false} NothingParsed(data: map<string, Payload>)
    ensures Parsed([], data) == [] && Orphans([], data) == {}
  {
  }

  lemma {:induction false} OneMoreParsed(members: seq<string>, i: nat, data: map<string, Payload>)
    requires i < |members|
    ensures var m := members[i];
            && Parsed(members[..i + 1], data) ==
               Parsed(members[..i], data) + (if m in data && data[m].Encoded? then [data[m].message] else [])
            && Orphans(members[..i + 1], data) == Orphans(members[..i], data) + (if m in data then {} else {m})
  {
    assert members[..i + 1] == members[..i] + [members[i]];
    assert members[..i + 1][..i] == members[..i];
  }

  /** In a consistent store every due member has its own message. */
  lemma {:induction false} GoodPoll(zset: map<string, real>, data: map<string, Payload>, now: real,
                                    members: seq<string>)
    requires GoodStore(zset, data) && FirstDue(zset, now, 100, members)
    ensures zset - Orphans(members, data) == zset && Polled(zset, now, Parsed(members, data))
  {
    hide Member;
    forall m | m in members ensures m in data && GoodEntry(m, data[m]) {
      var i :| 0 <= i < |members| && members[i] == m;
      assert members[i] in DueAt(zset, now);
    }
    ParsedAll(members, data);
    assert Orphans(members, data) == {};
  }

  lemma {:induction false} ParsedAll(members: seq<string>, data: map<string, Payload>)
    requires forall m :: m in members ==> m in data && GoodEntry(m, data[m])
    ensures SameAttempts(members, Parsed(members, data))
  {
    hide Member;
    if members != [] {
      var last := |members| - 1;
      ParsedAll(members[..last], data);
      assert members[last] in members;
    }
  }

  ghost predicate SameAttempts(members: seq<string>, messages: seq<Message>) {
    && |members| == |messages|
    && forall i :: 0 <= i < |members| ==> messages[i].Targeted? && Member(messages[i].key) == members[i]
  }

  /** The messages of the at most 100 earliest due entries, earliest first. */
  ghost predicate Polled(zset: map<string, real>, now: real, messages: seq<Message>) {
    exists members :: FirstDue(zset, now, 100, members) && SameAttempts(members, messages)
  }

  lemma {:induction false} ScheduleEntries(zset: map<string, real>, data: map<string, Payload>, k: Key, t: real)
    requires GoodStore(zset, data)
    ensures GoodStore(zset[Member(k) := t], data[Member(k) := Encoded(Targeted(k))])
    ensures Entries(zset[Member(k) := t], data[Member(k) := Encoded(Targeted(k))]) == Entries(zset, data)[k := t]
  {
    hide Member;
    var zset', data' := zset[Member(k) := t], data[Member(k) := Encoded(Targeted(k))];
    assert GoodStore(zset', data');
    forall x: Key ensures x in Entries(zset', data') <==> x in Entries(zset, data)[k := t]
      ensures x in Entries(zset', data') ==> Entries(zset', data')[x] == Entries(zset, data)[k := t][x]
    {
      EntriesMean(zset, data, x);
      EntriesMean(zset', data', x);
      if Member(x) == Member(k) {
        MemberInjective(x, k);
      }
    }
  }

  lemma {:induction false} CancelEntries(zset: map<string, real>, data: map<string, Payload>, k: Key)
    requires GoodStore(zset, data)
    ensures GoodStore(zset - {Member(k)}, data - {Member(k)})
    ensures Entries(zset - {Member(k)}, data - {Member(k)}) == Entries(zset, data) - {k}
  {
    hide Member;
    var zset', data' := zset - {Member(k)}, data - {Member(k)};
    assert GoodStore(zset', data');
    forall x: Key ensures x in Entries(zset', data') <==> x in Entries(zset, data) - {k}
      ensures x in Entries(zset', data') ==> Entries(zset', data')[x] == (Entries(zset, data) - {k})[x]
    {
      EntriesMean(zset, data, x);
      EntriesMean(zset', data', x);
      if Member(x) == Member(k) {
        MemberInjective(x, k);
      }
    }
  }

  // ---------- any history of the store ----------

  datatype StoreOp = Put(k: Key, due: real) | Remove(k: Key)

  function RunZset(ops: seq<StoreOp>): map<string, real> {
    if ops == [] then map[]
    else
      var before := RunZset(ops[..|ops| - 1]);
      match ops[|ops| - 1]
      case Put(k, t) => before[Member(k) := t]
      case Remove(k) => before - {Member(k)}
  }

  function RunData(ops: seq<StoreOp>): map<string, Payload> {
    if ops == [] then map[]
    else
      var before := RunData(ops[..|ops| - 1]);
      match ops[|ops| - 1]
      case Put(k, _) => before[Member(k) := Encoded(Targeted(k))]
      case Remove(k) => before - {Member(k)}
  }

  /** The simple form: one map from attempts to due times. */
  function RunEntries(ops: seq<StoreOp>): map<Key, real> {
    if ops == [] then map[]
    else
      var before := RunEntries(ops[..|ops| - 1]);
      match ops[|ops| - 1]
      case Put(k, t) => before[k := t]
      case Remove(k) => before - {k}
  }

  /** Whatever the pipeline schedules and cancels, the two text-keyed structures stay
      in step, every payload names its own member, and together they are the simple
      map: a cancel removes one attempt and no other. */
  lemma {:induction false} StoreRefinesMap(ops: seq<StoreOp>)
    ensures GoodStore(RunZset(ops), RunData(ops))
    ensures Entries(RunZset(ops), RunData(ops)) == RunEntries(ops)
  {
    hide Member;
    if ops != [] {
      var rest := ops[..|ops| - 1];
      StoreRefinesMap(rest);
      match ops[|ops| - 1] {
        case Put(k, t) => ScheduleEntries(RunZset(rest), RunData(rest), k, t);
        case Remove(k) => CancelEntries(RunZset(rest), RunData(rest), k);
      }
    }
  }
}
