// Stable ranking of positions by descending score: the order Python's
// `sorted(enumerate(scores), key=lambda x: x[1], reverse=True)` produces
// (reverse=True keeps equal scores in their original order), and the
// top-K prefix of it.
module Ranking {
  import opened Json

  /** Position `a` comes before position `b`: higher score, or equal score and earlier. */
  predicate Before(keys: seq<real>, a: nat, b: nat)
    requires a < |keys| && b < |keys|
  {
    keys[a] > keys[b] || (keys[a] == keys[b] && a < b)
  }

  predicate InRange(keys: seq<real>, r: seq<nat>) {
    forall i :: 0 <= i < |r| ==> r[i] < |keys|
  }

  predicate SortedDesc(keys: seq<real>, r: seq<nat>) {
    InRange(keys, r) && forall i, j :: 0 <= i < j < |r| ==> Before(keys, r[i], r[j])
  }

  /** Puts `x` in front of the first element it comes before. */
  function Insert(keys: seq<real>, x: nat, r: seq<nat>): seq<nat> {
    if r == [] then [x]
    else if x < |keys| && r[0] < |keys| && Before(keys, x, r[0]) then [x] + r
    else [r[0]] + Insert(keys, x, r[1..])
  }

  function RankFirst(keys: seq<real>, n: nat): seq<nat>
    requires n <= |keys|
  {
    if n == 0 then [] else Insert(keys, n - 1, RankFirst(keys, n - 1))
  }

  /** All positions of `keys`, best first. */
  function Rank(keys: seq<real>): seq<nat> {
    RankFirst(keys, |keys|)
  }

  lemma {:induction false} InsertElements(keys: seq<real>, x: nat, r: seq<nat>)
    ensures forall y :: y in Insert(keys, x, r) <==> y == x || y in r
    ensures |Insert(keys, x, r)| == |r| + 1
  {
    if r != [] && !(x < |keys| && r[0] < |keys| && Before(keys, x, r[0])) {
      InsertElements(keys, x, r[1..]);
      assert r == [r[0]] + r[1..];
    }
  }

  lemma {:induction false} InsertSorted(keys: seq<real>, x: nat, r: seq<nat>)
    requires SortedDesc(keys, r) && x < |keys| && x !in r
    ensures SortedDesc(keys, Insert(keys, x, r))
  {
    if r == [] {
    } else if Before(keys, x, r[0]) {
      var s := [x] + r;
      forall i, j | 0 <= i < j < |s|
        ensures Before(keys, s[i], s[j])
      {
        if i == 0 && j > 1 {
          assert Before(keys, r[0], r[j - 1]);
        }
      }
    } else {
      var tail := r[1..];
      InsertSorted(keys, x, tail);
      InsertElements(keys, x, tail);
      var t := Insert(keys, x, tail);
      var s := [r[0]] + t;
      assert Before(keys, r[0], x);
      assert forall k :: 0 <= k < |tail| ==> Before(keys, r[0], tail[k]) by {
        forall k | 0 <= k < |tail|
          ensures Before(keys, r[0], tail[k])
        {
          assert tail[k] == r[k + 1];
        }
      }
      forall j | 0 < j < |s|
        ensures s[j] < |keys| && Before(keys, s[0], s[j])
      {
        assert s[j] == t[j - 1];
        assert s[j] in t;
        assert s[j] == x || s[j] in tail;
      }
      assert Insert(keys, x, r) == s;
    }
  }

  lemma {:induction false} RankFirstProperties(keys: seq<real>, n: nat)
    requires n <= |keys|
    ensures SortedDesc(keys, RankFirst(keys, n))
    ensures |RankFirst(keys, n)| == n
    ensures forall i :: 0 <= i < n <==> i in RankFirst(keys, n)
  {
    if n > 0 {
      var r := RankFirst(keys, n - 1);
      RankFirstProperties(keys, n - 1);
      InsertSorted(keys, n - 1, r);
      InsertElements(keys, n - 1, r);
    }
  }

  /** The ranking is a stable descending order of every position, each exactly once. */
  lemma RankIsSortedPermutation(keys: seq<real>)
    ensures SortedDesc(keys, Rank(keys))
    ensures |Rank(keys)| == |keys|
    ensures forall i :: 0 <= i < |keys| <==> i in Rank(keys)
  {
    RankFirstProperties(keys, |keys|);
  }

  lemma SortedDistinct(keys: seq<real>, r: seq<nat>)
    requires SortedDesc(keys, r)
    ensures forall i, j :: 0 <= i < j < |r| ==> r[i] != r[j]
  {
  }

  /** The first k positions of the ranking (Python slice semantics for a negative k). */
  function TopK(keys: seq<real>, k: int): seq<nat> {
    Prefix(Rank(keys), k)
  }

  /**
   * The top-K list holds min(k, n) distinct in-range positions in ranking
   * order, and every position in it comes before every position left out.
   */
  lemma TopKProperties(keys: seq<real>, k: nat)
    ensures |TopK(keys, k)| == if k < |keys| then k else |keys|
    ensures SortedDesc(keys, TopK(keys, k))
    ensures forall i, j :: 0 <= i < j < |TopK(keys, k)| ==> TopK(keys, k)[i] != TopK(keys, k)[j]
    ensures forall a, b :: a in TopK(keys, k) && 0 <= b < |keys| && b !in TopK(keys, k) ==>
              Before(keys, a, b) && keys[a] >= keys[b]
  {
    var r := Rank(keys);
    RankIsSortedPermutation(keys);
    var t := TopK(keys, k);
    assert t == r[..|t|];
    forall a, b | a in t && 0 <= b < |keys| && b !in t
      ensures Before(keys, a, b)
    {
      var p :| 0 <= p < |t| && t[p] == a;
      assert b in r;
      var q :| 0 <= q < |r| && r[q] == b;
    }
  }
}
