// The per-model entry of the metrics files the Python report scripts pass
// to each other (the `models` object of metrics.json and of the aggregated
// summary). Every key may be absent, so every field is optional; a models
// object is a key-ordered association list, as a Python dict is.
module MetricsFile {
  import opened Json

  /** One copied phase of an aggregated result: status, time and the error text when there was one. */
  datatype PhaseCopy = PhaseCopy(status: string, timeMs: int, error: Option<string>)

  datatype ModelEntry = ModelEntry(
    category: Option<string>,
    tested: Option<bool>,
    installTimeMs: Option<int>,
    registerTimeMs: Option<int>,
    inferenceTimeMs: Option<int>,
    inferenceStatus: Option<string>,
    inferenceLargeTimeMs: Option<int>,
    inferenceLargeStatus: Option<string>,
    inferenceLargeTested: Option<bool>,
    status: Option<string>,
    phases: Option<seq<(string, PhaseCopy)>>,
    totalTimeMs: Option<int>)

  type Models = seq<(string, ModelEntry)>

  /** An entry holding only a category, as the log parser creates them. */
  function CategoryOnly(category: string): ModelEntry {
    ModelEntry(Some(category), None, None, None, None, None, None, None, None, None, None, None)
  }

  /** `d.get(k, False)` on a boolean field, read for truthiness. */
  predicate Flag(b: Option<bool>) {
    b == Some(true)
  }

  /** `d.get(k, 0)` on a number field. */
  function OrZero(n: Option<int>): int {
    if n.Some? then n.value else 0
  }

  function OrDefault(s: Option<string>, default: string): string {
    if s.Some? then s.value else default
  }

  /** No key occurs twice, as in a Python dict. */
  predicate DistinctKeys<V>(m: seq<(string, V)>) {
    forall i, j :: 0 <= i < j < |m| ==> m[i].0 != m[j].0
  }

  /** Put keeps the keys distinct. */
  lemma {:induction false} PutDistinct<V>(m: seq<(string, V)>, k: string, v: V)
    requires DistinctKeys(m)
    ensures DistinctKeys(Put(m, k, v))
  {
    PutPlacement(m, k, v);
    var r := Put(m, k, v);
    if HasKey(m, k) {
      var ks := Keys(r);
      assert forall i :: 0 <= i < |r| ==> r[i].0 == ks[i] == Keys(m)[i] == m[i].0;
    } else {
      assert r == m + [(k, v)];
      assert forall i :: 0 <= i < |m| ==> m[i].0 != k;
    }
  }

  /** Putting a key that was just appended replaces the appended value in place. */
  lemma {:induction false} PutAfterAppend<V>(m: seq<(string, V)>, k: string, v1: V, v2: V)
    requires !HasKey(m, k)
    ensures Put(m + [(k, v1)], k, v2) == m + [(k, v2)]
  {
    if m != [] {
      assert m[0].0 != k;
      assert (m + [(k, v1)])[1..] == m[1..] + [(k, v1)];
      assert forall i :: 0 <= i < |m[1..]| ==> m[1..][i] == m[i + 1];
      assert !HasKey(m[1..], k);
      PutAfterAppend(m[1..], k, v1, v2);
      assert m == [m[0]] + m[1..];
    }
  }

  /** A key of a concatenation is a key of one of its parts. */
  lemma HasKeyAppend<V>(a: seq<(string, V)>, b: seq<(string, V)>, k: string)
    ensures HasKey(a + b, k) <==> HasKey(a, k) || HasKey(b, k)
  {
    if HasKey(a + b, k) {
      var i :| 0 <= i < |a + b| && (a + b)[i].0 == k;
      if i >= |a| {
        assert b[i - |a|].0 == k;
      }
    }
    if HasKey(b, k) {
      var i :| 0 <= i < |b| && b[i].0 == k;
      assert (a + b)[i + |a|].0 == k;
    }
    if HasKey(a, k) {
      var i :| 0 <= i < |a| && a[i].0 == k;
      assert (a + b)[i].0 == k;
    }
  }

  /** A lookup in a concatenation finds the first part's value when it has the key, else the second part's. */
  lemma {:induction false} FindAppend<V>(a: seq<(string, V)>, b: seq<(string, V)>, k: string)
    ensures Find(a + b, k) == if HasKey(a, k) then Find(a, k) else Find(b, k)
  {
    if a != [] {
      assert (a + b)[1..] == a[1..] + b;
      FindAppend(a[1..], b, k);
    } else {
      assert a + b == b;
    }
  }

  /** Two dicts with distinct keys and no key in common concatenate to one with distinct keys. */
  lemma DistinctAppend<V>(a: seq<(string, V)>, b: seq<(string, V)>)
    requires DistinctKeys(a) && DistinctKeys(b)
    requires forall k :: HasKey(a, k) ==> !HasKey(b, k)
    ensures DistinctKeys(a + b)
  {
    forall i, j | 0 <= i < j < |a + b|
      ensures (a + b)[i].0 != (a + b)[j].0
    {
      if i < |a| && j >= |a| {
        assert HasKey(a, a[i].0);
        assert b[j - |a|] == (a + b)[j];
        assert HasKey(b, b[j - |a|].0);
      }
    }
  }

  /** In a dict with distinct keys the entry at `i` is what a lookup of its key finds. */
  lemma FindDistinct<V>(m: seq<(string, V)>, i: nat)
    requires DistinctKeys(m) && i < |m|
    ensures Find(m, m[i].0) == Some(m[i].1)
  {
    FindFirst(m, i);
  }

  /** `d[k] = v` for each pair in order, as a loop over items fills a dict. */
  function PutAll<V>(m: seq<(string, V)>, kvs: seq<(string, V)>): seq<(string, V)> {
    if kvs == [] then m else Put(PutAll(m, kvs[..|kvs| - 1]), kvs[|kvs| - 1].0, kvs[|kvs| - 1].1)
  }

  /** The value of the last pair with key `k`. */
  function LastValue<V>(kvs: seq<(string, V)>, k: string): Option<V> {
    if kvs == [] then None
    else if kvs[|kvs| - 1].0 == k then Some(kvs[|kvs| - 1].1)
    else LastValue(kvs[..|kvs| - 1], k)
  }

  /** After the assignments a key holds the value of its last assignment, or what it held before. */
  lemma {:induction false} PutAllFind<V>(m: seq<(string, V)>, kvs: seq<(string, V)>, k: string)
    ensures Find(PutAll(m, kvs), k) == if LastValue(kvs, k).Some? then LastValue(kvs, k) else Find(m, k)
  {
    if kvs != [] {
      PutAllFind(m, kvs[..|kvs| - 1], k);
    }
  }
}
