/**
 * The `{ volume, count }` records that every dictionary of the aggregation
 * holds, the upsert that grows them, and sums over a dictionary's values
 * (the conservation laws are stated with these sums).
 */
module Tallies {

  /** One dictionary entry: summed USD volume and number of transfers. */
  datatype Tally = Tally(volume: real, count: nat)

  const Zero := Tally(0.0, 0)

  function Plus(a: Tally, b: Tally): Tally
  {
    Tally(a.volume + b.volume, a.count + b.count)
  }

  lemma PlusAssociative(a: Tally, b: Tally, c: Tally)
    ensures Plus(Plus(a, b), c) == Plus(a, Plus(b, c))
  {
  }

  /** The contribution of one transfer of the given volume. */
  function One(volume: real): Tally
  {
    Tally(volume, 1)
  }

  /** The entry for `k`, or the fresh `{ volume: 0, count: 0 }` the source creates. */
  function Entry<K>(m: map<K, Tally>, k: K): Tally
  {
    if k in m then m[k] else Zero
  }

  /**
   * The upsert of one transfer of volume `v` under key `k`: an absent key
   * starts from a zero tally, then gains the volume and one to its count.
   * No other key changes.
   */
  function Bump<K>(m: map<K, Tally>, k: K, v: real): (r: map<K, Tally>)
    ensures k in r && forall j :: j in m ==> j in r
    ensures r[k].volume == Entry(m, k).volume + v && r[k].count == Entry(m, k).count + 1
    ensures forall j :: j in m && j != k ==> r[j] == m[j]
  {
    var e := Entry(m, k);
    m[k := Tally(e.volume + v, e.count + 1)]
  }

  /** The upsert adds `k` and no other key. */
  lemma BumpKeys<K>(m: map<K, Tally>, k: K, v: real)
    ensures Bump(m, k, v).Keys == m.Keys + {k}
  {
  }

  function Itself(t: Tally): Tally
  {
    t
  }

  ghost function Pick<K, V>(m: map<K, V>): (k: K)
    requires |m| > 0
    ensures k in m
  {
    var k :| k in m; k
  }

  /** The sum over the values of `m`, each weighed by `f`. */
  ghost function SumBy<K, V>(m: map<K, V>, f: V -> Tally): Tally
    decreases |m|
  {
    if |m| == 0 then Zero
    else
      var k := Pick(m);
      Plus(f(m[k]), SumBy(m - {k}, f))
  }

  /** Any key can be taken out of the sum first. */
  lemma {:induction false} SumByRemove<K, V>(m: map<K, V>, k: K, f: V -> Tally)
    requires k in m
    ensures SumBy(m, f) == Plus(f(m[k]), SumBy(m - {k}, f))
    decreases |m|
  {
    var j := Pick(m);
    if j != k {
      var withoutJ, withoutK := m - {j}, m - {k};
      assert |withoutJ| == |m| - 1 && |withoutK| == |m| - 1;
      var rest := withoutJ - {k};
      assert withoutK - {j} == rest;
      calc {
        SumBy(m, f);
        Plus(f(m[j]), SumBy(withoutJ, f));
        { SumByRemove(withoutJ, k, f); }
        Plus(f(m[j]), Plus(f(m[k]), SumBy(rest, f)));
        Plus(f(m[k]), Plus(f(m[j]), SumBy(rest, f)));
        { SumByRemove(withoutK, j, f); }
        Plus(f(m[k]), SumBy(withoutK, f));
      }
    }
  }

  /** Overwriting an existing entry changes the sum by the difference of the two values. */
  lemma {:induction false} SumByReplace<K, V>(m: map<K, V>, k: K, v: V, f: V -> Tally)
    requires k in m
    ensures Plus(SumBy(m[k := v], f), f(m[k])) == Plus(SumBy(m, f), f(v))
  {
    var m' := m[k := v];
    SumByRemove(m', k, f);
    SumByRemove(m, k, f);
    assert m' - {k} == m - {k};
  }

  /** Adding a new entry adds its value to the sum. */
  lemma {:induction false} SumByInsert<K, V>(m: map<K, V>, k: K, v: V, f: V -> Tally)
    requires k !in m
    ensures SumBy(m[k := v], f) == Plus(SumBy(m, f), f(v))
  {
    var m' := m[k := v];
    SumByRemove(m', k, f);
    assert m' - {k} == m;
  }

  /** The upsert adds exactly one transfer of volume `v` to the total. */
  lemma SumBump<K>(m: map<K, Tally>, k: K, v: real)
    ensures SumBy(Bump(m, k, v), Itself) == Plus(SumBy(m, Itself), One(v))
  {
    var e := Entry(m, k);
    var t := Tally(e.volume + v, e.count + 1);
    assert Bump(m, k, v) == m[k := t];
    if k in m {
      SumByReplace(m, k, t, Itself);
    } else {
      SumByInsert(m, k, t, Itself);
    }
  }
}
