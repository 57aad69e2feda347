/**
 Average ranks with ties sharing the mean of their positions: the loop over a sorted order gives
 every value the rank its counts define, whatever order the sort leaves ties in.
 */
module Ranks {

  // ----- The meaning of a rank -----

  /** How much `y` counts towards the rank of `x`. */
  function Share(y: real, x: real): real {
    if y < x then 1.0 else if y == x then 0.5 else 0.0
  }

  function ShareSum(v: seq<real>, x: real): real {
    if v == [] then 0.0 else ShareSum(v[..|v| - 1], x) + Share(v[|v| - 1], x)
  }

  function Rank(v: seq<real>, x: real): real {
    ShareSum(v, x) + 0.5
  }

  function RankSeq(v: seq<real>): (r: seq<real>)
    ensures |r| == |v|
  {
    seq(|v|, i requires 0 <= i < |v| => Rank(v, v[i]))
  }

  function CountLess(v: seq<real>, x: real): nat {
    if v == [] then 0 else CountLess(v[..|v| - 1], x) + if v[|v| - 1] < x then 1 else 0
  }

  function CountEqual(v: seq<real>, x: real): nat {
    if v == [] then 0 else CountEqual(v[..|v| - 1], x) + if v[|v| - 1] == x then 1 else 0
  }

  /** A rank is the number of smaller values, plus half of one more than the number of equal ones. */
  lemma {:induction false} RankByCounts(v: seq<real>, x: real)
    ensures Rank(v, x) == CountLess(v, x) as real + (CountEqual(v, x) as real + 1.0) / 2.0
  {
    if v != [] { RankByCounts(v[..|v| - 1], x); }
  }

  // ----- Sums of shares -----

  lemma {:induction false} ShareSumAppend(a: seq<real>, b: seq<real>, x: real)
    ensures ShareSum(a + b, x) == ShareSum(a, x) + ShareSum(b, x)
  {
    if b == [] {
      assert a + b == a;
    } else {
      assert (a + b)[..|a + b| - 1] == a + b[..|b| - 1];
      ShareSumAppend(a, b[..|b| - 1], x);
    }
  }

  lemma {:induction false} ShareSumUniform(v: seq<real>, x: real, share: real)
    requires forall i :: 0 <= i < |v| ==> Share(v[i], x) == share
    ensures ShareSum(v, x) == |v| as real * share
  {
    if v != [] {
      ShareSumUniform(v[..|v| - 1], x, share);
      assert |v| as real == (|v| - 1) as real + 1.0;
      assert |v| as real * share == (|v| - 1) as real * share + share;
    }
  }

  function Without<T>(v: seq<T>, k: nat): seq<T>
    requires k < |v|
  {
    v[..k] + v[k + 1..]
  }

  lemma WithoutOne<T>(v: seq<T>, k: nat)
    requires k < |v|
    ensures multiset(Without(v, k)) == multiset(v) - multiset{v[k]}
  {
    assert v == v[..k] + [v[k]] + v[k + 1..];
  }

  lemma ShareSumWithout(v: seq<real>, k: nat, x: real)
    requires k < |v|
    ensures ShareSum(v, x) == ShareSum(Without(v, k), x) + Share(v[k], x)
  {
    assert v == (v[..k] + [v[k]]) + v[k + 1..];
    ShareSumAppend(v[..k] + [v[k]], v[k + 1..], x);
    assert (v[..k] + [v[k]])[..k] == v[..k];
    ShareSumAppend(v[..k], v[k + 1..], x);
  }

  /** A sum of shares does not depend on the order of the values. */
  lemma {:induction false} ShareSumPermutes(a: seq<real>, b: seq<real>, x: real)
    requires multiset(a) == multiset(b)
    ensures ShareSum(a, x) == ShareSum(b, x)
  {
    if a == [] {
      assert |multiset(b)| == 0;
    } else {
      var last := a[|a| - 1];
      assert last in multiset(a);
      var k :| 0 <= k < |b| && b[k] == last;
      WithoutOne(a, |a| - 1);
      WithoutOne(b, k);
      ShareSumWithout(a, |a| - 1, x);
      ShareSumWithout(b, k, x);
      ShareSumPermutes(Without(a, |a| - 1), Without(b, k), x);
    }
  }

  lemma {:induction false} ShareSumGrows(v: seq<real>, x: real, y: real)
    requires x < y
    ensures ShareSum(v, x) <= ShareSum(v, y)
    ensures x in v ==> ShareSum(v, x) < ShareSum(v, y)
  {
    if v != [] {
      ShareSumGrows(v[..|v| - 1], x, y);
      assert v == v[..|v| - 1] + [v[|v| - 1]];
    }
  }

  /** Ranks are ordered as the values are. */
  lemma RanksKeepOrder(v: seq<real>, i: nat, j: nat)
    requires i < |v| && j < |v|
    ensures RankSeq(v)[i] < RankSeq(v)[j] <==> v[i] < v[j]
  {
    hide ShareSum;
    if v[i] < v[j] { ShareSumGrows(v, v[i], v[j]); }
    if v[j] < v[i] { ShareSumGrows(v, v[j], v[i]); }
  }

  /** Ranks follow the values when the values are reordered. */
  lemma RanksFollowValues(v: seq<real>, w: seq<real>, i: nat, j: nat)
    requires multiset(v) == multiset(w) && i < |v| && j < |w| && v[i] == w[j]
    ensures RankSeq(v)[i] == RankSeq(w)[j]
  {
    ShareSumPermutes(v, w, v[i]);
  }

  /** In an ascending sequence a group of ties shares the mean of its 1-based positions. */
  lemma GroupRank(v: seq<real>, start: nat, end: nat)
    requires start <= end < |v|
    requires forall p :: 0 <= p < start ==> v[p] < v[start]
    requires forall p :: start <= p <= end ==> v[p] == v[start]
    requires forall p :: end < p < |v| ==> v[p] > v[start]
    ensures Rank(v, v[start]) == (start as real + end as real) / 2.0 + 1.0
  {
    var x := v[start];
    var below, ties, above := v[..start], v[start..end + 1], v[end + 1..];
    assert v == below + ties + above;
    hide ShareSum, Share;
    ThreeParts(below, ties, above, x);
  }

  /** Values below `x` count one each, ties a half, and values above nothing. */
  lemma ThreeParts(below: seq<real>, ties: seq<real>, above: seq<real>, x: real)
    requires forall i :: 0 <= i < |below| ==> below[i] < x
    requires forall i :: 0 <= i < |ties| ==> ties[i] == x
    requires forall i :: 0 <= i < |above| ==> above[i] > x
    ensures ShareSum(below + ties + above, x) == |below| as real + |ties| as real * 0.5
  {
    hide ShareSum;
    ShareSumAppend(below + ties, above, x);
    ShareSumAppend(below, ties, x);
    ShareSumUniform(below, x, 1.0);
    ShareSumUniform(ties, x, 0.5);
    ShareSumUniform(above, x, 0.0);
  }

  // ----- The sum of all ranks -----

  function Total(v: seq<real>): real {
    if v == [] then 0.0 else Total(v[..|v| - 1]) + v[|v| - 1]
  }

  /** The sum over `v` of how much each counts towards `x`, seen from the other side. */
  lemma {:induction false} SharesPairUp(v: seq<real>, w: seq<real>, x: real)
    requires |w| == |v| && forall i :: 0 <= i < |v| ==> w[i] == Share(x, v[i])
    ensures ShareSum(v, x) + Total(w) == |v| as real
  {
    if v != [] {
      SharesPairUp(v[..|v| - 1], w[..|w| - 1], x);
      var y := v[|v| - 1];
      assert Share(y, x) + Share(x, y) == 1.0;
    }
  }

  lemma {:induction false} TotalAdds(a: seq<real>, b: seq<real>, c: seq<real>)
    requires |a| == |b| == |c| && forall i :: 0 <= i < |a| ==> c[i] == a[i] + b[i]
    ensures Total(c) == Total(a) + Total(b)
  {
    if a != [] {
      TotalAdds(a[..|a| - 1], b[..|b| - 1], c[..|c| - 1]);
    }
  }

  /** One more value `x` adds its own rank, and its share to every rank before. */
  lemma TotalRankStep(v: seq<real>, x: real)
    ensures Total(RankSeq(v + [x])) == Total(RankSeq(v)) + |v| as real + 1.0
  {
    var longer := v + [x];
    var ranks := RankSeq(longer);
    var shares := seq(|v|, i requires 0 <= i < |v| => Share(x, v[i]));
    assert longer[..|v|] == v;
    assert ShareSum(longer, x) == ShareSum(v, x) + 0.5;
    forall i | 0 <= i < |v| ensures ranks[i] == RankSeq(v)[i] + shares[i] {
      assert ShareSum(longer, v[i]) == ShareSum(v, v[i]) + Share(x, v[i]);
    }
    TotalAdds(RankSeq(v), shares, ranks[..|v|]);
    SharesPairUp(v, shares, x);
    assert Total(ranks) == Total(ranks[..|v|]) + Rank(longer, x);
  }

  function Triangle(n: nat): real {
    n as real * (n as real + 1.0) / 2.0
  }

  lemma NextTriangle(n: nat, total: real, total': real)
    requires total == Triangle(n) && total' == total + n as real + 1.0
    ensures total' == Triangle(n + 1)
  {
    assert (n + 1) as real == n as real + 1.0;
  }

  /** All ranks together are the sum of the positions 1 to n. */
  lemma {:induction false} RanksSumToTriangle(v: seq<real>)
    ensures Total(RankSeq(v)) == Triangle(|v|)
  {
    if v == [] {
      NoRanks();
    } else {
      hide Total, RankSeq, Triangle;
      var n := |v| - 1;
      RanksSumToTriangle(v[..n]);
      TotalRankStep(v[..n], v[n]);
      assert v[..n] + [v[n]] == v;
      NextTriangle(n, Total(RankSeq(v[..n])), Total(RankSeq(v)));
    }
  }

  lemma NoRanks()
    ensures Total(RankSeq([])) == Triangle(0)
  {
  }

  // ----- Strictly increasing maps -----

  lemma {:induction false} SharesSurvive(v: seq<real>, f: real -> real, w: seq<real>, x: real)
    requires |w| == |v| && forall i :: 0 <= i < |v| ==> w[i] == f(v[i])
    requires forall i :: 0 <= i < |v| ==>
      (v[i] < x <==> f(v[i]) < f(x)) && (v[i] == x <==> f(v[i]) == f(x))
    ensures ShareSum(w, f(x)) == ShareSum(v, x)
  {
    if v != [] { SharesSurvive(v[..|v| - 1], f, w[..|w| - 1], x); }
  }

  ghost predicate StrictlyIncreasing(f: real -> real) {
    forall a, b :: a < b ==> f(a) < f(b)
  }

  function Mapped(f: real -> real, v: seq<real>): (w: seq<real>)
    ensures |w| == |v|
  {
    seq(|v|, i requires 0 <= i < |v| => f(v[i]))
  }

  lemma RanksSurviveIncreasingMap(v: seq<real>, f: real -> real)
    requires StrictlyIncreasing(f)
    ensures RankSeq(Mapped(f, v)) == RankSeq(v)
  {
    var w := Mapped(f, v);
    forall i | 0 <= i < |v| ensures RankSeq(w)[i] == RankSeq(v)[i] {
      forall j | 0 <= j < |v|
        ensures (v[j] < v[i] <==> f(v[j]) < f(v[i])) && (v[j] == v[i] <==> f(v[j]) == f(v[i]))
      {
        assert v[j] < v[i] ==> f(v[j]) < f(v[i]);
        assert v[i] < v[j] ==> f(v[i]) < f(v[j]);
      }
      SharesSurvive(v, f, w, v[i]);
    }
  }

  // ----- The algorithm -----

  datatype Entry = Entry(value: real, index: nat)

  function ValuesOf(order: seq<Entry>): (v: seq<real>)
    ensures |v| == |order|
  {
    seq(|order|, p requires 0 <= p < |order| => order[p].value)
  }

  predicate Ascending(order: seq<Entry>) {
    forall p, q :: 0 <= p < q < |order| ==> order[p].value <= order[q].value
  }

  predicate Distinct(order: seq<Entry>) {
    forall p, q :: 0 <= p < q < |order| ==> order[p].index != order[q].index
  }

  predicate Indexed(values: seq<real>, order: seq<Entry>) {
    forall p :: 0 <= p < |order| ==> order[p].index < |values| && order[p].value == values[order[p].index]
  }

  /** What any sort by value leaves: every entry once, ascending, ties in any order. */
  predicate IsSortOf(values: seq<real>, order: seq<Entry>) {
    && |order| == |values|
    && Indexed(values, order) && Distinct(order) && Ascending(order)
    && multiset(ValuesOf(order)) == multiset(values)
  }

  /** Every index stands somewhere in the order. */
  lemma OrderCovers(values: seq<real>, order: seq<Entry>, i: nat)
    requires IsSortOf(values, order) && i < |values|
    ensures exists p :: 0 <= p < |order| && order[p].index == i
  {
    if forall p :: 0 <= p < |order| ==> order[p].index != i {
      TooFewIndices(order, |order|, |values|, i);
      assert false;
    }
  }

  lemma TooFewIndices(order: seq<Entry>, m: nat, n: nat, gap: nat)
    requires m <= |order| && gap < n && Distinct(order)
    requires forall p :: 0 <= p < m ==> order[p].index < n && order[p].index != gap
    ensures m < n
  {
    UsedSize(order, m);
    UsedBelow(order, m, n, gap);
    SubsetSize(Used(order, m), UpTo(n) - {gap});
  }

  function Used(order: seq<Entry>, m: nat): set<nat>
    requires m <= |order|
  {
    if m == 0 then {} else Used(order, m - 1) + {order[m - 1].index}
  }

  lemma {:induction false} UsedBelow(order: seq<Entry>, m: nat, n: nat, gap: nat)
    requires m <= |order| && forall p :: 0 <= p < m ==> order[p].index < n && order[p].index != gap
    ensures Used(order, m) <= UpTo(n) - {gap}
  {
    if m > 0 { UsedBelow(order, m - 1, n, gap); }
  }

  lemma {:induction false} LaterUnused(order: seq<Entry>, m: nat, p: nat)
    requires m <= p < |order| && Distinct(order)
    ensures order[p].index !in Used(order, m)
  {
    if m > 0 { LaterUnused(order, m - 1, p); }
  }

  lemma OneMore<T>(s: set<T>, x: T)
    requires x !in s
    ensures |s + {x}| == |s| + 1
  {
  }

  lemma {:induction false} UsedSize(order: seq<Entry>, m: nat)
    requires m <= |order| && Distinct(order)
    ensures |Used(order, m)| == m
  {
    if m > 0 {
      hide Distinct;
      UsedSize(order, m - 1);
      LaterUnused(order, m - 1, m - 1);
      OneMore(Used(order, m - 1), order[m - 1].index);
    }
  }

  function UpTo(n: nat): (s: set<nat>)
    ensures |s| == n && forall k :: k in s <==> 0 <= k < n
  {
    if n == 0 then {} else UpTo(n - 1) + {n - 1}
  }

  lemma {:induction false} SubsetSize<T>(a: set<T>, b: set<T>)
    requires a <= b
    ensures |a| <= |b|
  {
    if a != {} {
      var x :| x in a;
      SubsetSize(a - {x}, b - {x});
    }
  }

  /** `averageRanks` after its sort. */
  method RanksFromOrder(values: seq<real>, order: seq<Entry>) returns (ranks: array<real>)
    requires IsSortOf(values, order)
    ensures fresh(ranks) && ranks[..] == RankSeq(values)
  {
    var n := |order|;
    ranks := new real[n];
    var start := 0;
    while start < n
      invariant 0 <= start <= n
      invariant 0 < start < n ==> order[start - 1].value < order[start].value
      invariant forall p :: 0 <= p < start ==> ranks[order[p].index] == Rank(values, order[p].value)
    {
      var end := start;
      while end + 1 < n && order[end + 1].value == order[start].value
        invariant start <= end < n
        invariant forall p :: start <= p <= end ==> order[p].value == order[start].value
      {
        end := end + 1;
      }
      TieRank(values, order, start, end);
      var rank := (start as real + end as real) / 2.0 + 1.0;
      var position := start;
      while position <= end
        invariant start <= position <= end + 1
        invariant forall p :: 0 <= p < position ==> ranks[order[p].index] == Rank(values, order[p].value)
      {
        ranks[order[position].index] := rank;
        position := position + 1;
      }
      start := end + 1;
    }
    forall i | 0 <= i < n ensures ranks[i] == RankSeq(values)[i] {
      OrderCovers(values, order, i);
    }
  }

  lemma TieRank(values: seq<real>, order: seq<Entry>, start: nat, end: nat)
    requires IsSortOf(values, order) && start <= end < |order|
    requires start > 0 ==> order[start - 1].value < order[start].value
    requires forall p :: start <= p <= end ==> order[p].value == order[start].value
    requires end + 1 < |order| ==> order[end + 1].value != order[start].value
    ensures forall p :: start <= p <= end ==>
      Rank(values, order[p].value) == (start as real + end as real) / 2.0 + 1.0
  {
    var v := ValuesOf(order);
    forall p | 0 <= p < start ensures v[p] < v[start] {
      assert p < start - 1 ==> order[p].value <= order[start - 1].value;
    }
    forall p | end < p < |v| ensures v[p] > v[start] {
      assert order[start].value <= order[end + 1].value;
      assert p > end + 1 ==> order[end + 1].value <= order[p].value;
    }
    GroupRank(v, start, end);
    ShareSumPermutes(v, values, v[start]);
  }

  // ----- A sort to start from -----

  method AverageRanks(values: seq<real>) returns (ranks: array<real>)
    ensures fresh(ranks) && ranks[..] == RankSeq(values)
  {
    var order := SortByValue(values);
    ranks := RanksFromOrder(values, order);
  }

  method SortByValue(values: seq<real>) returns (order: seq<Entry>)
    ensures IsSortOf(values, order)
  {
    order := [];
    var i := 0;
    while i < |values|
      invariant 0 <= i <= |values|
      invariant IsSortOf(values[..i], order)
    {
      var k := |order|;
      while k > 0 && order[k - 1].value > values[i]
        invariant 0 <= k <= |order|
        invariant forall p :: k <= p < |order| ==> order[p].value > values[i]
      {
        k := k - 1;
      }
      InsertKeepsSort(values, i, order, k);
      order := order[..k] + [Entry(values[i], i)] + order[k..];
      i := i + 1;
    }
    assert values[..|values|] == values;
  }

  function Inserted(order: seq<Entry>, k: nat, e: Entry): (next: seq<Entry>)
    requires k <= |order|
    ensures |next| == |order| + 1
    ensures forall p :: 0 <= p < |next| ==> next[p] == if p < k then order[p] else if p == k then e else order[p - 1]
  {
    order[..k] + [e] + order[k..]
  }

  lemma InsertKeepsSort(values: seq<real>, i: nat, order: seq<Entry>, k: nat)
    requires i < |values| && IsSortOf(values[..i], order) && k <= |order|
    requires forall p :: k <= p < |order| ==> order[p].value > values[i]
    requires k > 0 ==> order[k - 1].value <= values[i]
    ensures IsSortOf(values[..i + 1], order[..k] + [Entry(values[i], i)] + order[k..])
  {
    var e := Entry(values[i], i);
    InsertAscends(order, k, e);
    InsertDistinct(order, k, e);
    InsertIndexed(values, i, order, k);
    InsertValues(values, i, order, k);
  }

  lemma InsertAscends(order: seq<Entry>, k: nat, e: Entry)
    requires Ascending(order) && k <= |order|
    requires forall p :: k <= p < |order| ==> order[p].value > e.value
    requires k > 0 ==> order[k - 1].value <= e.value
    ensures Ascending(Inserted(order, k, e))
  {
    forall p | 0 <= p < k ensures order[p].value <= e.value {
      assert p < k - 1 ==> order[p].value <= order[k - 1].value;
    }
  }

  lemma InsertDistinct(order: seq<Entry>, k: nat, e: Entry)
    requires Distinct(order) && k <= |order|
    requires forall p :: 0 <= p < |order| ==> order[p].index < e.index
    ensures Distinct(Inserted(order, k, e))
  {
  }

  lemma InsertIndexed(values: seq<real>, i: nat, order: seq<Entry>, k: nat)
    requires i < |values| && k <= |order| && Indexed(values[..i], order)
    ensures Indexed(values[..i + 1], Inserted(order, k, Entry(values[i], i)))
  {
  }

  lemma InsertValues(values: seq<real>, i: nat, order: seq<Entry>, k: nat)
    requires i < |values| && k <= |order| && multiset(ValuesOf(order)) == multiset(values[..i])
    ensures multiset(ValuesOf(Inserted(order, k, Entry(values[i], i)))) == multiset(values[..i + 1])
  {
    var v := ValuesOf(order);
    assert ValuesOf(Inserted(order, k, Entry(values[i], i))) == v[..k] + [values[i]] + v[k..];
    hide ValuesOf, Inserted;
    WithOneMore(v, k, values[i]);
    assert values[..i + 1] == values[..i] + [values[i]];
  }

  lemma WithOneMore<T>(v: seq<T>, k: nat, x: T)
    requires k <= |v|
    ensures multiset(v[..k] + [x] + v[k..]) == multiset(v) + multiset{x}
  {
    assert v == v[..k] + v[k..];
  }
}
