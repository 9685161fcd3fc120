/** Sequence and map helpers shared by every other module. */
module Seqs {

  datatype Option<+T> = None | Some(value: T)

  /** The elements of s that satisfy keep, in order. */
  function Filter<T>(s: seq<T>, keep: T -> bool): seq<T> {
    if s == [] then []
    else if keep(s[0]) then [s[0]] + Filter(s[1..], keep)
    else Filter(s[1..], keep)
  }

  lemma {:induction false} FilterAppend<T>(a: seq<T>, b: seq<T>, keep: T -> bool)
    ensures Filter(a + b, keep) == Filter(a, keep) + Filter(b, keep)
  {
    if a == [] {
      assert a + b == b;
    } else {
      assert (a + b)[1..] == a[1..] + b;
      FilterAppend(a[1..], b, keep);
    }
  }

  lemma {:induction false} FilterMember<T>(s: seq<T>, keep: T -> bool, x: T)
    ensures x in Filter(s, keep) <==> x in s && keep(x)
  {
    if s != [] {
      FilterMember(s[1..], keep, x);
      assert s == [s[0]] + s[1..];
    }
  }

  lemma {:induction false} FilterAll<T>(s: seq<T>, keep: T -> bool)
    requires forall x | x in s :: keep(x)
    ensures Filter(s, keep) == s
  {
    if s != [] {
      FilterAll(s[1..], keep);
    }
  }

  lemma {:induction false} FilterNone<T>(s: seq<T>, keep: T -> bool)
    requires forall x | x in s :: !keep(x)
    ensures Filter(s, keep) == []
  {
    if s != [] {
      FilterNone(s[1..], keep);
    }
  }

  lemma FilterPush<T>(s: seq<T>, x: T, keep: T -> bool)
    ensures Filter(s + [x], keep) == Filter(s, keep) + (if keep(x) then [x] else [])
  {
    FilterAppend(s, [x], keep);
    assert [x][1..] == [];
  }

  lemma FilterPrefix<T>(a: seq<T>, b: seq<T>, keep: T -> bool)
    requires a <= b
    ensures Filter(a, keep) <= Filter(b, keep)
  {
    assert b == a + b[|a|..];
    FilterAppend(a, b[|a|..], keep);
  }

  function Map<A, B>(f: A -> B, s: seq<A>): (r: seq<B>)
    ensures |r| == |s| && forall i | 0 <= i < |s| :: r[i] == f(s[i])
  {
    seq(|s|, i requires 0 <= i < |s| => f(s[i]))
  }

  lemma MapAppend<A, B>(f: A -> B, a: seq<A>, b: seq<A>)
    ensures Map(f, a + b) == Map(f, a) + Map(f, b)
  {
  }

  function Flatten<T>(ss: seq<seq<T>>): seq<T> {
    if ss == [] then [] else ss[0] + Flatten(ss[1..])
  }

  lemma {:induction false} FlattenAppend<T>(a: seq<seq<T>>, b: seq<seq<T>>)
    ensures Flatten(a + b) == Flatten(a) + Flatten(b)
  {
    if a == [] {
      assert a + b == b;
    } else {
      assert (a + b)[1..] == a[1..] + b;
      FlattenAppend(a[1..], b);
    }
  }

  lemma FlattenPush<T>(ss: seq<seq<T>>, s: seq<T>)
    ensures Flatten(ss + [s]) == Flatten(ss) + s
  {
    FlattenAppend(ss, [s]);
    assert Flatten([s]) == s;
  }

  lemma FlattenSplit<T>(ss: seq<seq<T>>, k: nat)
    requires k < |ss|
    ensures Flatten(ss) == Flatten(ss[..k]) + ss[k] + Flatten(ss[k + 1..])
  {
    var tail := ss[k..];
    assert ss == ss[..k] + tail;
    FlattenAppend(ss[..k], tail);
    assert tail[0] == ss[k] && tail[1..] == ss[k + 1..];
    Associate(Flatten(ss[..k]), ss[k], Flatten(ss[k + 1..]));
  }

  lemma Associate<T>(a: seq<T>, b: seq<T>, c: seq<T>)
    ensures a + (b + c) == a + b + c
  {
  }

  /** Whatever stands in the other parts stands in a part before or after part k. */
  lemma FlattenOthers<T>(ss: seq<seq<T>>, k: nat, x: T)
    requires k < |ss| && (x in Flatten(ss[..k]) || x in Flatten(ss[k + 1..]))
    ensures exists l :: 0 <= l < |ss| && l != k && x in ss[l]
  {
    if x in Flatten(ss[..k]) {
      FlattenMember(ss[..k], x);
      var l :| 0 <= l < k && x in ss[..k][l];
      assert ss[l] == ss[..k][l];
    } else {
      FlattenMember(ss[k + 1..], x);
      var l :| 0 <= l < |ss| - k - 1 && x in ss[k + 1..][l];
      assert ss[k + 1 + l] == ss[k + 1..][l];
    }
  }

  lemma {:induction false} FlattenMember<T>(ss: seq<seq<T>>, x: T)
    requires x in Flatten(ss)
    ensures exists k :: 0 <= k < |ss| && x in ss[k]
  {
    if x in ss[0] {
      assert 0 <= 0 < |ss|;
    } else {
      FlattenMember(ss[1..], x);
      var k :| 0 <= k < |ss| - 1 && x in ss[1..][k];
      assert ss[k + 1] == ss[1..][k];
    }
  }

  /** The sum of the values of m. */
  ghost function MapSum<K>(m: map<K, int>): int {
    if m == map[] then 0
    else
      var k :| k in m;
      m[k] + MapSum(m - {k})
  }

  /** MapSum does not depend on which key is taken out first. */
  lemma {:induction false} MapSumRemove<K>(m: map<K, int>, k: K)
    requires k in m
    ensures MapSum(m) == m[k] + MapSum(m - {k})
    decreases |m|
  {
    var j :| j in m && MapSum(m) == m[j] + MapSum(m - {j});
    if j != k {
      MapSumRemove(m - {j}, k);
      MapSumRemove(m - {k}, j);
      assert m - {j} - {k} == m - {k} - {j};
    }
  }

  lemma MapSumPut<K>(m: map<K, int>, k: K, v: int)
    ensures MapSum(m[k := v]) == MapSum(m) + v - (if k in m then m[k] else 0)
  {
    var n := m[k := v];
    MapSumRemove(n, k);
    assert n - {k} == m - {k};
    if k in m {
      MapSumRemove(m, k);
    } else {
      assert m - {k} == m;
    }
  }

  lemma {:induction false} MapSumZero<K>(m: map<K, int>)
    requires forall k | k in m :: m[k] == 0
    ensures MapSum(m) == 0
    decreases |m|
  {
    if m != map[] {
      var k :| k in m;
      MapSumRemove(m, k);
      MapSumZero(m - {k});
    }
  }

  lemma {:induction false} MapSumNonNegative<K>(m: map<K, int>)
    requires forall k | k in m :: m[k] >= 0
    ensures MapSum(m) >= 0
    ensures forall k | k in m :: m[k] <= MapSum(m)
    decreases |m|
  {
    if m != map[] {
      forall k | k in m ensures m[k] <= MapSum(m) && MapSum(m) >= 0 {
        MapSumRemove(m, k);
        MapSumNonNegative(m - {k});
      }
      var k :| k in m;
      assert m[k] <= MapSum(m);
    }
  }
}
