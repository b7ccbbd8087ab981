/** The offset committer of one partition: a set of in-flight offsets and two
    integers decide which offset may be committed when tasks finish out of order. */
module Watermarks {
  import opened Domain

  datatype Watermark = Watermark(inFlight: set<int>, lastSeen: int, lastCommitted: int)

  const FRESH := Watermark({}, -1, -1)

  ghost predicate IsMin(s: set<int>, m: int) {
    m in s && forall x :: x in s ==> m <= x
  }

  ghost function Pick<T>(s: set<T>): (x: T)
    requires s != {}
    ensures x in s
  {
    var x :| x in s;
    x
  }

  lemma {:induction false} MinExists(s: set<int>)
    requires s != {}
    ensures exists m :: IsMin(s, m)
  {
    var x := Pick(s);
    if s == {x} {
      assert IsMin(s, x);
    } else {
      MinExists(s - {x});
      var m :| IsMin(s - {x}, m);
      assert forall y :: y in s ==> y == x || y in s - {x};
      assert IsMin(s, if x < m then x else m);
    }
  }

  function Min(s: set<int>): (m: int)
    requires s != {}
    ensures m in s && forall x :: x in s ==> m <= x
  {
    MinExists(s);
    assert exists m :: m in s && forall x :: x in s ==> m <= x by {
      var m :| IsMin(s, m);
      assert m in s && forall x :: x in s ==> m <= x;
    }
    var m :| m in s && forall x :: x in s ==> m <= x;
    m
  }

  function Started(w: Watermark, offset: int): Watermark {
    Watermark(w.inFlight + {offset}, if offset > w.lastSeen then offset else w.lastSeen, w.lastCommitted)
  }

  function Candidate(w: Watermark): int {
    if w.inFlight == {} then w.lastSeen else Min(w.inFlight) - 1
  }

  function Finished(w: Watermark, offset: int): Watermark {
    var w1 := w.(inFlight := w.inFlight - {offset});
    if Candidate(w1) > w.lastCommitted then w1.(lastCommitted := Candidate(w1)) else w1
  }

  function ToCommit(w: Watermark, offset: int): Option<int> {
    var w1 := w.(inFlight := w.inFlight - {offset});
    if Candidate(w1) > w.lastCommitted then Some(Candidate(w1)) else None
  }

  /** The committer itself, updated in place. */
  class PartitionWatermark {
    var inFlight: set<int>
    var lastSeen: int
    var lastCommitted: int

    function View(): Watermark
      reads this
    {
      Watermark(inFlight, lastSeen, lastCommitted)
    }

    constructor ()
      ensures View() == FRESH
    {
      inFlight, lastSeen, lastCommitted := {}, -1, -1;
    }

    method Start(offset: int)
      modifies this
      ensures View() == Started(old(View()), offset)
    {
      inFlight := inFlight + {offset};
      if offset > lastSeen {
        lastSeen := offset;
      }
    }

    method Done(offset: int) returns (commit: Option<int>)
      modifies this
      ensures View() == Finished(old(View()), offset)
      ensures commit == ToCommit(old(View()), offset)
    {
      inFlight := inFlight - {offset};
      var candidate := if inFlight == {} then lastSeen else Min(inFlight) - 1;
      if candidate > lastCommitted {
        lastCommitted := candidate;
        return Some(candidate);
      }
      return None;
    }
  }

  // ---------- what it refines ----------

  /** `c` is the longest fully completed prefix of the started offsets
      `first`, .., `next - 1`: all offsets up to `c` are done, the next one is not. */
  ghost predicate LongestPrefix(first: int, next: int, done: set<int>, c: int) {
    && first - 1 <= c < next
    && (forall x :: first <= x <= c ==> x in done)
    && (c + 1 < next ==> c + 1 !in done)
  }

  /** The set and the two integers represent: offsets from `first` were started in
      order up to `next`, and those in `done` have finished. */
  ghost predicate Represents(w: Watermark, first: int, next: int, done: set<int>) {
    && 0 <= first <= next
    && (forall x :: x in done ==> first <= x < next)
    && (forall x :: x in w.inFlight <==> first <= x < next && x !in done)
    && w.lastSeen == (if next == first then -1 else next - 1)
    && (if done == {} then w.lastCommitted == -1 else LongestPrefix(first, next, done, w.lastCommitted))
  }

  lemma {:induction false} PrefixIsUnique(first: int, next: int, done: set<int>, c: int, d: int)
    requires LongestPrefix(first, next, done, c) && LongestPrefix(first, next, done, d)
    ensures c == d
  {
    assert c < d ==> c + 1 in done;
    assert d < c ==> d + 1 in done;
  }

  lemma {:induction false} StartRefines(w: Watermark, first: int, next: int, done: set<int>)
    requires Represents(w, first, next, done)
    ensures Represents(Started(w, next), first, next + 1, done)
  {
  }

  /** A finished offset: the request, if any, is the new longest prefix, and there is
      none exactly when the prefix is the one committed last. */
  lemma {:induction false} DoneRefines(w: Watermark, first: int, next: int, done: set<int>, o: int)
    requires Represents(w, first, next, done) && o in w.inFlight
    ensures Represents(Finished(w, o), first, next, done + {o})
    ensures ToCommit(w, o).Some? ==>
              LongestPrefix(first, next, done + {o}, ToCommit(w, o).value) && ToCommit(w, o).value > w.lastCommitted
    ensures ToCommit(w, o).None? ==> LongestPrefix(first, next, done + {o}, w.lastCommitted)
  {
    var w1 := w.(inFlight := w.inFlight - {o});
    var done' := done + {o};
    if w1.inFlight != {} {
      var m := Min(w1.inFlight);
      assert m in w.inFlight;
    }
    forall x | first <= x <= Candidate(w1) ensures x in done' {
      assert x !in w1.inFlight;
    }
    assert LongestPrefix(first, next, done', Candidate(w1));
    assert done != {} && w.lastCommitted > Candidate(w1) ==> Candidate(w1) + 1 in done;
  }

  lemma {:induction false} IdleIsCommitted(w: Watermark, first: int, next: int, done: set<int>)
    requires Represents(w, first, next, done) && w.inFlight == {}
    ensures w.lastCommitted == w.lastSeen
  {
    forall x | first <= x < next ensures x in done {
      assert x !in w.inFlight;
    }
    if done != {} {
      var x := Pick(done);
      assert first <= x < next;
      PrefixIsUnique(first, next, done, next - 1, w.lastCommitted);
    } else {
      assert next > first ==> first in w.inFlight;
    }
  }

  // ---------- whole lives ----------

  datatype Call = StartNext | DoneWith(offset: int)

  /** The committer after a sequence of calls, with the next offset to start, the
      finished ones and the commit requests it returned. */
  datatype Life = Life(w: Watermark, next: int, done: set<int>, commits: seq<int>)

  function After(life: Life, call: Call): Life {
    match call
    case StartNext => life.(w := Started(life.w, life.next), next := life.next + 1)
    case DoneWith(o) =>
      var c := ToCommit(life.w, o);
      Life(Finished(life.w, o), life.next, life.done + {o}, if c.Some? then life.commits + [c.value] else life.commits)
  }

  /** Offsets are started in order; only offsets in flight are finished. */
  predicate Legal(life: Life, calls: seq<Call>)
    decreases |calls|
  {
    calls == [] ||
    ((calls[0].DoneWith? ==> calls[0].offset in life.w.inFlight) && Legal(After(life, calls[0]), calls[1..]))
  }

  function Run(life: Life, calls: seq<Call>): Life
    decreases |calls|
  {
    if calls == [] then life else Run(After(life, calls[0]), calls[1..])
  }

  ghost predicate Increasing(xs: seq<int>) {
    forall i, j :: 0 <= i < j < |xs| ==> xs[i] < xs[j]
  }

  ghost predicate LifeOk(life: Life, first: int) {
    && Represents(life.w, first, life.next, life.done)
    && Increasing(life.commits)
    && (forall c :: c in life.commits ==> c <= life.w.lastCommitted)
    && (life.commits != [] ==> life.commits[|life.commits| - 1] == life.w.lastCommitted)
    && (life.commits == [] ==> life.w.lastCommitted == -1)
  }

  lemma {:induction false} OneCall(life: Life, first: int, call: Call)
    requires LifeOk(life, first) && Legal(life, [call])
    ensures LifeOk(After(life, call), first)
  {
    match call {
      case StartNext => StartRefines(life.w, first, life.next, life.done);
      case DoneWith(o) => DoneRefines(life.w, first, life.next, life.done, o);
    }
  }

  lemma {:induction false} LifeKeeps(life: Life, first: int, calls: seq<Call>)
    requires LifeOk(life, first) && Legal(life, calls)
    ensures LifeOk(Run(life, calls), first)
    decreases |calls|
  {
    if calls != [] {
      hide LifeOk, After;
      assert Legal(life, [calls[0]]);
      OneCall(life, first, calls[0]);
      LifeKeeps(After(life, calls[0]), first, calls[1..]);
    }
  }

  /** For any interleaving of starts and finishes of a fresh committer whose first
      offset is `first`: the last request is the longest completed prefix, requests
      strictly increase, and once nothing is in flight everything seen is committed. */
  lemma {:induction false} WatermarkRefinesPrefix(first: nat, calls: seq<Call>)
    requires Legal(Life(FRESH, first, {}, []), calls)
    ensures var life := Run(Life(FRESH, first, {}, []), calls);
            && Increasing(life.commits)
            && (life.done != {} ==> LongestPrefix(first, life.next, life.done, life.w.lastCommitted))
            && (life.commits != [] ==> life.commits[|life.commits| - 1] == life.w.lastCommitted)
            && (life.w.inFlight == {} ==> life.w.lastCommitted == life.w.lastSeen)
  {
    var start := Life(FRESH, first, {}, []);
    LifeKeeps(start, first, calls);
    var life := Run(start, calls);
    if life.w.inFlight == {} {
      IdleIsCommitted(life.w, first, life.next, life.done);
    }
  }
}
