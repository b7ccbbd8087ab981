/** ORDER BY score LIMIT n, over any keys. */
module Ordering {
  import opened Watermarks

  function Min2(a: nat, b: nat): nat {
    if a < b then a else b
  }

  ghost predicate Earliest<K>(scores: map<K, real>, left: set<K>, m: K)
    requires left <= scores.Keys
  {
    m in left && forall x :: x in left ==> scores[m] <= scores[x]
  }

  lemma {:induction false} EarliestExists<K>(scores: map<K, real>, left: set<K>)
    requires left <= scores.Keys && left != {}
    ensures exists m :: Earliest(scores, left, m)
  {
    var x := Pick(left);
    if left == {x} {
      assert Earliest(scores, left, x);
    } else {
      EarliestExists(scores, left - {x});
      var m :| Earliest(scores, left - {x}, m);
      assert forall y :: y in left ==> y == x || y in left - {x};
      assert Earliest(scores, left, if scores[x] <= scores[m] then x else m);
    }
  }

  /** `picked` are the `limit` keys of lowest score, or all of them, in order; which
      of several equal scores comes first is open. */
  ghost predicate Lowest<K>(scores: map<K, real>, limit: nat, picked: seq<K>) {
    && |picked| == Min2(limit, |scores|)
    && (forall i :: 0 <= i < |picked| ==> picked[i] in scores)
    && (forall i, j :: 0 <= i < j < |picked| ==> picked[i] != picked[j] && scores[picked[i]] <= scores[picked[j]])
    && (forall m, i :: m in scores && m !in picked && 0 <= i < |picked| ==> scores[picked[i]] <= scores[m])
  }

  method TakeLowest<K(==)>(scores: map<K, real>, limit: nat) returns (picked: seq<K>)
    ensures Lowest(scores, limit, picked)
  {
    picked := [];
    var left := scores.Keys;
    while |picked| < limit && left != {}
      invariant left <= scores.Keys
      invariant forall m :: m in scores <==> m in left || m in picked
      invariant |picked| + |left| == |scores|
      invariant |picked| <= limit
      invariant forall i :: 0 <= i < |picked| ==> picked[i] in scores && picked[i] !in left
      invariant forall i, j :: 0 <= i < j < |picked| ==>
                  picked[i] != picked[j] && scores[picked[i]] <= scores[picked[j]]
      invariant forall m, i :: m in left && 0 <= i < |picked| ==> scores[picked[i]] <= scores[m]
      decreases |left|
    {
      EarliestExists(scores, left);
      assert exists m :: m in left && forall x :: x in left ==> scores[m] <= scores[x] by {
        var m :| Earliest(scores, left, m);
      }
      var m :| m in left && forall x :: x in left ==> scores[m] <= scores[x];
      picked := picked + [m];
      left := left - {m};
    }
  }
}
