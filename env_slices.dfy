/**
 * The order-insensitive comparison of two environment-name lists the inventory
 * tests use: equal lengths, then a count map filled from the first list,
 * drained by the second, and finally checked to be all zero.
 */
module EnvSlices {

  /** A count map read the Go way: a missing key counts 0. */
  function Count(m: map<string, int>, s: string): int {
    if s in m then m[s] else 0
  }

  /** Draining `b` from the counts of `a` never went below zero, and the
      lengths agree: then nothing is left, the two lists are permutations. */
  lemma {:induction false} CountsExhausted(a: seq<string>, b: seq<string>)
    requires |a| == |b|
    requires multiset(b) <= multiset(a)
    ensures multiset(a) == multiset(b)
    ensures forall s :: multiset(a)[s] as int - multiset(b)[s] as int == 0
  {
    var rest := multiset(a) - multiset(b);
    assert multiset(a) == multiset(b) + rest;
    assert |multiset(a)| == |multiset(b)| + |rest|;
    assert |rest| == 0;
    assert rest == multiset{};
  }

  lemma MultisetPrefixStep(s: seq<string>, i: nat)
    requires i < |s|
    ensures multiset(s[..i + 1]) == multiset(s[..i]) + multiset{s[i]}
  {
    assert s[..i + 1] == s[..i] + [s[i]];
  }

  /** When the count of `b[j]` is already used up by `b[..j]`, `b` holds it
      more often than `a`. */
  lemma DrainedTooFar(a: seq<string>, b: seq<string>, j: nat)
    requires j < |b| && multiset(a)[b[j]] == multiset(b[..j])[b[j]]
    ensures !(multiset(b) <= multiset(a))
  {
    MultisetPrefixStep(b, j);
    assert b == b[..j + 1] + b[j + 1..];
    assert multiset(b)[b[j]] >= multiset(b[..j + 1])[b[j]];
  }

  /** The first loop: `m[v]++` for every `v` of `a`. */
  method Tally(a: seq<string>) returns (m: map<string, int>)
    ensures forall s :: Count(m, s) == multiset(a)[s]
  {
    m := map[];
    for i := 0 to |a|
      invariant forall s :: Count(m, s) == multiset(a[..i])[s]
    {
      MultisetPrefixStep(a, i);
      m := m[a[i] := Count(m, a[i]) + 1];
    }
    assert a[..|a|] == a;
  }

  /** The second loop: `m[v]--` for every `v` of `b`, failing on the first
      `v` whose count is already 0.  It fails iff `b` holds some string more
      often than `a` does. */
  method Drain(m0: map<string, int>, a: seq<string>, b: seq<string>) returns (ok: bool, m: map<string, int>)
    requires forall s :: Count(m0, s) == multiset(a)[s]
    ensures ok <==> multiset(b) <= multiset(a)
    ensures ok ==> forall s :: Count(m, s) == multiset(a)[s] as int - multiset(b)[s] as int
  {
    m := m0;
    for j := 0 to |b|
      invariant forall s :: Count(m, s) == multiset(a)[s] as int - multiset(b[..j])[s] as int
      invariant multiset(b[..j]) <= multiset(a)
    {
      MultisetPrefixStep(b, j);
      var s := b[j];
      if Count(m, s) == 0 {
        DrainedTooFar(a, b, j);
        return false, m;
      }
      m := m[s := Count(m, s) - 1];
    }
    assert b[..|b|] == b;
    ok := true;
  }

  /** envSlicesEqualUnordered. */
  method EnvSlicesEqualUnordered(a: seq<string>, b: seq<string>) returns (r: bool)
    ensures r <==> multiset(a) == multiset(b)
    ensures |a| != |b| ==> !r
  {
    if |a| != |b| {
      return false;
    }
    var m := Tally(a);
    var ok;
    ok, m := Drain(m, a, b);
    if !ok {
      return false;
    }
    CountsExhausted(a, b);
    // The third loop, over the values of `m`: every count is already zero,
    // so it never finds a non-zero one.
    var keys := m.Keys;
    var allZero := true;
    while keys != {} && allZero
      invariant keys <= m.Keys
      invariant allZero
      decreases |keys|
    {
      var k :| k in keys;
      assert Count(m, k) == m[k];
      allZero := m[k] == 0;
      keys := keys - {k};
    }
    return allZero;
  }
}
