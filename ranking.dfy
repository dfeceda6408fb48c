/**
 * The top-transactions ranking of `analyzeData`: every record is projected to
 * an entry, the entries are sorted by volume, largest first, with a stable
 * sort (JavaScript's array sort is stable) on descending volume, and the
 * first twenty are kept.
 */
module Ranking {
  import opened Wrappers

  /** One row of the top-transactions table. */
  datatype TopEntry = TopEntry(
    transactionId: string,
    volume: real,
    rawVolume: string,
    fromSymbol: string,
    toSymbol: string,
    fromChain: string,
    toChain: string,
    fromIcon: Option<string>,
    toIcon: Option<string>,
    route: string,
    integrator: string,
    explorerLink: Option<string>,
    timestamp: Option<int>)

  /** How many entries the ranking keeps. */
  const TopCount: nat := 20

  /** Volumes never increase along the sequence. */
  ghost predicate SortedDesc(s: seq<TopEntry>)
  {
    forall i, j :: 0 <= i < j < |s| ==> s[i].volume >= s[j].volume
  }

  /** No entry's volume exceeds `bound`. */
  ghost predicate AtMost(s: seq<TopEntry>, bound: real)
  {
    forall i :: 0 <= i < |s| ==> s[i].volume <= bound
  }

  /** The entries of volume exactly `v`, in their order in `s`. */
  function WithVolume(s: seq<TopEntry>, v: real): seq<TopEntry>
    decreases |s|
  {
    if s == [] then []
    else (if s[0].volume == v then [s[0]] else []) + WithVolume(s[1..], v)
  }

  /** Places `x` before the first entry whose volume does not exceed its own. */
  function Insert(x: TopEntry, s: seq<TopEntry>): (r: seq<TopEntry>)
    ensures |r| == |s| + 1
    decreases |s|
  {
    if s == [] || s[0].volume <= x.volume then [x] + s
    else [s[0]] + Insert(x, s[1..])
  }

  /** Inserting keeps the order, and keeps every volume under a common bound. */
  lemma {:induction false} InsertSorted(x: TopEntry, s: seq<TopEntry>, bound: real)
    requires SortedDesc(s)
    ensures SortedDesc(Insert(x, s))
    ensures AtMost(s, bound) && x.volume <= bound ==> AtMost(Insert(x, s), bound)
    decreases |s|
  {
    if s != [] && s[0].volume > x.volume {
      InsertSorted(x, s[1..], s[0].volume);
      InsertSorted(x, s[1..], bound);
    }
  }

  lemma {:induction false} InsertPermutes(x: TopEntry, s: seq<TopEntry>)
    ensures multiset(Insert(x, s)) == multiset(s) + multiset{x}
    decreases |s|
  {
    if s != [] && s[0].volume > x.volume {
      InsertPermutes(x, s[1..]);
      assert s == [s[0]] + s[1..];
    }
  }

  /** `x` lands before every entry of its own volume: inserting is stable. */
  lemma {:induction false} InsertStable(x: TopEntry, s: seq<TopEntry>, v: real)
    requires SortedDesc(s)
    ensures WithVolume(Insert(x, s), v) == (if x.volume == v then [x] else []) + WithVolume(s, v)
    decreases |s|
  {
    var r := Insert(x, s);
    if s == [] || s[0].volume <= x.volume {
      assert r[1..] == s;
    } else {
      var rest := Insert(x, s[1..]);
      InsertStable(x, s[1..], v);
      assert r[1..] == rest;
      assert WithVolume(r, v) == (if s[0].volume == v then [s[0]] else []) + WithVolume(rest, v);
    }
  }

  lemma WithVolumeCons(x: TopEntry, s: seq<TopEntry>, v: real)
    ensures WithVolume([x] + s, v) == (if x.volume == v then [x] else []) + WithVolume(s, v)
  {
    assert ([x] + s)[1..] == s;
  }

  /**
   * The stable sort by decreasing volume: sorted, a permutation of the input,
   * and entries of equal volume keep their input order.
   */
  function SortByVolume(s: seq<TopEntry>): (r: seq<TopEntry>)
    ensures |r| == |s|
    ensures SortedDesc(r)
    ensures multiset(r) == multiset(s)
    ensures forall v :: WithVolume(r, v) == WithVolume(s, v)
    decreases |s|
  {
    if s == [] then []
    else
      var t := SortByVolume(s[1..]);
      assert s == [s[0]] + s[1..];
      InsertStep(s[0], s[1..], t);
      Insert(s[0], t)
  }

  /** Inserting the head into the sorted tail sorts the whole sequence. */
  lemma InsertStep(x: TopEntry, rest: seq<TopEntry>, t: seq<TopEntry>)
    requires SortedDesc(t) && multiset(t) == multiset(rest)
    requires forall v :: WithVolume(t, v) == WithVolume(rest, v)
    ensures SortedDesc(Insert(x, t))
    ensures multiset(Insert(x, t)) == multiset([x] + rest)
    ensures forall v :: WithVolume(Insert(x, t), v) == WithVolume([x] + rest, v)
  {
    InsertSorted(x, t, x.volume);
    InsertPermutes(x, t);
    forall v ensures WithVolume(Insert(x, t), v) == WithVolume([x] + rest, v) {
      InsertStable(x, t, v);
      WithVolumeCons(x, rest, v);
    }
  }

  /**
   * A prefix of a sorted permutation of `s`: every entry of `s` is kept or no
   * larger than the last one kept.
   */
  lemma PrefixKeepsLargest(s: seq<TopEntry>, sorted: seq<TopEntry>, n: nat)
    requires SortedDesc(sorted) && multiset(sorted) == multiset(s)
    requires 0 < n <= |sorted|
    ensures SortedDesc(sorted[..n])
    ensures multiset(sorted[..n]) <= multiset(s)
    ensures forall i :: 0 <= i < |s| ==> s[i] in sorted[..n] || s[i].volume <= sorted[n - 1].volume
  {
    var r := sorted[..n];
    assert forall i, j :: 0 <= i < j < |r| ==> r[i].volume >= r[j].volume by {
      forall i, j | 0 <= i < j < |r| ensures r[i].volume >= r[j].volume {
        assert r[i] == sorted[i] && r[j] == sorted[j];
      }
    }
    assert sorted == r + sorted[n..];
    assert multiset(sorted) == multiset(r) + multiset(sorted[n..]);
    forall i | 0 <= i < |s|
      ensures s[i] in r || s[i].volume <= sorted[n - 1].volume
    {
      assert s[i] in multiset(sorted);
      var j :| 0 <= j < |sorted| && sorted[j] == s[i];
      if j < n {
        assert r[j] == s[i];
      }
    }
  }

  /**
   * The twenty largest entries. Every entry of `s` left out has a volume no
   * larger than the last one kept.
   */
  function Top(s: seq<TopEntry>): (r: seq<TopEntry>)
    ensures |r| == if |s| < TopCount then |s| else TopCount
    ensures SortedDesc(r)
    ensures r == SortByVolume(s)[..|r|]
    ensures multiset(r) <= multiset(s)
    ensures forall i :: 0 <= i < |s| ==> s[i] in r || s[i].volume <= r[|r| - 1].volume
  {
    var sorted := SortByVolume(s);
    var n := if |s| < TopCount then |s| else TopCount;
    if n > 0 then
      PrefixKeepsLargest(s, sorted, n);
      sorted[..n]
    else
      assert sorted[..0] == [];
      []
  }
}
