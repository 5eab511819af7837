/** Counters kept in a map, as Python's `defaultdict(int)` and the counter
    attributes of the calculators keep them: a missing key reads as zero. */
module Counters {
  import opened Wrappers

  /** A counter's value; counters start at zero. */
  function Get<K>(m: map<K, nat>, k: K): nat {
    if k in m then m[k] else 0
  }

  /** `m[k] += 1`. */
  function Inc<K>(m: map<K, nat>, k: K): map<K, nat> {
    m[k := Get(m, k) + 1]
  }

  /** `+= 1` on the counter a classification chose, if any. */
  function Bump<K>(m: map<K, nat>, b: Option<K>): map<K, nat> {
    if b.Some? then Inc(m, b.value) else m
  }

  /** Only the chosen counter moves, and by one. */
  lemma BumpGet<K>(m: map<K, nat>, b: Option<K>, k: K)
    ensures Get(Bump(m, b), k) == Get(m, k) + (if b == Some(k) then 1 else 0)
  {
  }

  /** Several choices applied in order. */
  function Bumps<K>(m: map<K, nat>, bs: seq<Option<K>>): map<K, nat>
    decreases |bs|
  {
    if bs == [] then m else Bump(Bumps(m, bs[..|bs| - 1]), bs[|bs| - 1])
  }

  /** A counter rises by the number of choices that name it. */
  lemma {:induction false} BumpsGet<K>(m: map<K, nat>, bs: seq<Option<K>>, k: K)
    ensures Get(Bumps(m, bs), k) == Get(m, k) + multiset(bs)[Some(k)]
    decreases |bs|
  {
    if bs != [] {
      var n := |bs| - 1;
      BumpsGet(m, bs[..n], k);
      BumpGet(Bumps(m, bs[..n]), bs[n], k);
      assert bs == bs[..n] + [bs[n]];
      assert multiset(bs) == multiset(bs[..n]) + multiset{bs[n]};
    }
  }

  /** A choice only the first element can make is counted once or not at all. */
  lemma {:induction false} OnlyFirstChooses<K>(bs: seq<Option<K>>, x: Option<K>)
    requires |bs| >= 1
    requires forall i :: 1 <= i < |bs| ==> bs[i] != x
    ensures multiset(bs)[x] == if bs[0] == x then 1 else 0
    decreases |bs|
  {
    if |bs| > 1 {
      var n := |bs| - 1;
      OnlyFirstChooses(bs[..n], x);
      assert bs == bs[..n] + [bs[n]];
      assert multiset(bs) == multiset(bs[..n]) + multiset{bs[n]};
    }
  }
}
