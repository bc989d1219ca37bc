/** The adjusted Rand index of a clustering against labels, in exact arithmetic. */
module RandIndex {
  import opened Common

  function Choose2(n: nat): nat {
    n * (n - 1) / 2
  }

  function MapSeq<S, T>(s: seq<S>, f: S -> T): (r: seq<T>)
    ensures |r| == |s| && forall i :: 0 <= i < |s| ==> r[i] == f(s[i])
  {
    seq(|s|, i requires 0 <= i < |s| => f(s[i]))
  }

  // ------------------------------------------------------- counting equal pairs

  function Occurs<K(==)>(s: seq<K>, x: K): nat {
    if s == [] then 0 else Occurs(Init(s), x) + if Last(s) == x then 1 else 0
  }

  /** The number of pairs of places holding equal elements. */
  function EqualPairs<K(==)>(s: seq<K>): nat {
    if s == [] then 0 else EqualPairs(Init(s)) + Occurs(Init(s), Last(s))
  }

  /** What `f` tells apart, its argument tells apart: no place that `f` merges was different. */
  ghost predicate Refines<S, T>(s: seq<S>, f: S -> T) {
    forall i, j :: 0 <= i < j < |s| && f(s[i]) == f(s[j]) ==> s[i] == s[j]
  }

  lemma MapInit<S, T>(s: seq<S>, f: S -> T)
    requires s != []
    ensures Init(MapSeq(s, f)) == MapSeq(Init(s), f) && Last(MapSeq(s, f)) == f(Last(s))
  {
  }

  /** Nothing but `x` itself is merged with `x`. */
  ghost predicate Unmerged<S, T>(s: seq<S>, x: S, f: S -> T) {
    forall i :: 0 <= i < |s| && f(s[i]) == f(x) ==> s[i] == x
  }

  lemma UnmergedStep<S, T>(s: seq<S>, x: S, f: S -> T)
    requires s != []
    ensures Unmerged(s, x, f) <==> Unmerged(Init(s), x, f) && (f(Last(s)) == f(x) ==> Last(s) == x)
  {
    assert s == Init(s) + [Last(s)];
  }

  lemma RefinesStep<S, T>(s: seq<S>, f: S -> T)
    requires s != []
    ensures Refines(s, f) <==> Refines(Init(s), f) && Unmerged(Init(s), Last(s), f)
  {
    var n := |s| - 1;
    assert forall i :: 0 <= i < n ==> Init(s)[i] == s[i];
    if Refines(Init(s), f) && Unmerged(Init(s), Last(s), f) {
      forall i, j | 0 <= i < j < |s| && f(s[i]) == f(s[j]) ensures s[i] == s[j] {
        assert s[i] == Init(s)[i];
        if j < n {
          assert s[j] == Init(s)[j];
        }
      }
    }
  }

  lemma {:induction false} OccursMapped<S, T>(s: seq<S>, x: S, f: S -> T)
    ensures Occurs(s, x) <= Occurs(MapSeq(s, f), f(x))
    ensures Occurs(s, x) == Occurs(MapSeq(s, f), f(x)) <==> Unmerged(s, x, f)
  {
    if s != [] {
      hide Unmerged;
      MapInit(s, f);
      UnmergedStep(s, x, f);
      OccursMapped(Init(s), x, f);
    }
  }

  /** Merging elements only makes more equal pairs, and as many only if nothing was merged. */
  lemma {:induction false} PairsMapped<S, T>(s: seq<S>, f: S -> T)
    ensures EqualPairs(s) <= EqualPairs(MapSeq(s, f))
    ensures EqualPairs(s) == EqualPairs(MapSeq(s, f)) <==> Refines(s, f)
  {
    if s != [] {
      hide Refines, Unmerged;
      MapInit(s, f);
      RefinesStep(s, f);
      PairsMapped(Init(s), f);
      OccursMapped(Init(s), Last(s), f);
    }
  }

  lemma Choose2Grows(n: nat)
    ensures Choose2(n + 1) == Choose2(n) + n
  {
    assert (n + 1) * n == n * (n - 1) + 2 * n;
    assert n * (n - 1) % 2 == 0 by { EvenProduct(n); }
  }

  lemma {:induction false} EvenProduct(n: nat)
    ensures n * (n - 1) % 2 == 0
  {
    if n > 0 {
      EvenProduct(n - 1);
      assert n * (n - 1) == (n - 1) * (n - 2) + 2 * (n - 1);
    }
  }

  lemma {:induction false} ConstantPairs<K>(s: seq<K>, x: K)
    requires forall i :: 0 <= i < |s| ==> s[i] == x
    ensures Occurs(s, x) == |s| && EqualPairs(s) == Choose2(|s|)
  {
    if s != [] {
      ConstantPairs(Init(s), x);
      Choose2Grows(|s| - 1);
    }
  }

  ghost predicate AllSame<K>(s: seq<K>) {
    forall i, j :: 0 <= i < j < |s| ==> s[i] == s[j]
  }

  /** At most all pairs are equal, and all of them only in a constant sequence. */
  lemma PairsBounded<K>(s: seq<K>)
    ensures EqualPairs(s) <= Choose2(|s|)
    ensures EqualPairs(s) == Choose2(|s|) <==> AllSame(s)
  {
    var merge := (k: K) => true;
    PairsMapped(s, merge);
    ConstantPairs(MapSeq(s, merge), true);
    assert Refines(s, merge) <==> AllSame(s);
  }

  // ------------------------------------------------------- counters

  /** How often each key occurs. */
  function CounterOf<K>(keys: seq<K>): map<K, nat> {
    map k | k in keys :: Occurs(keys, k)
  }

  lemma {:induction false} OccursPositive<K>(keys: seq<K>, k: K)
    ensures Occurs(keys, k) > 0 <==> k in keys
  {
    if keys != [] {
      OccursPositive(Init(keys), k);
      assert keys == Init(keys) + [Last(keys)];
    }
  }

  function Get<K>(m: map<K, nat>, k: K): nat {
    if k in m then m[k] else 0
  }

  lemma CounterGrows<K>(keys: seq<K>, k: K)
    ensures CounterOf(keys + [k]) == CounterOf(keys)[k := Get(CounterOf(keys), k) + 1]
  {
    assert Init(keys + [k]) == keys;
    OccursPositive(keys, k);
  }

  method Counter<K(==)>(keys: seq<K>) returns (counts: map<K, nat>)
    ensures counts == CounterOf(keys)
  {
    counts := map[];
    for i := 0 to |keys|
      invariant counts == CounterOf(keys[..i])
    {
      CounterGrows(keys[..i], keys[i]);
      assert keys[..i + 1] == keys[..i] + [keys[i]];
      counts := counts[keys[i] := Get(counts, keys[i]) + 1];
    }
    assert keys[..|keys|] == keys;
  }

  /** The sum of `count choose 2` over the values. */
  ghost function SumPairs<K(!new)>(m: map<K, nat>): nat
    decreases |m|
  {
    if m == map[] then 0
    else
      var k :| k in m;
      Smaller(m, k);
      Choose2(m[k]) + SumPairs(m - {k})
  }

  lemma Smaller<K>(m: map<K, nat>, k: K)
    requires k in m
    ensures |m - {k}| == |m| - 1
  {
    assert (m - {k}).Keys == m.Keys - {k};
  }

  /** The sum does not depend on the order: any key may be taken out first. */
  lemma {:induction false} SumPairsTake<K(!new)>(m: map<K, nat>, k: K)
    requires k in m
    ensures SumPairs(m) == Choose2(m[k]) + SumPairs(m - {k})
    decreases |m|
  {
    var first :| first in m && SumPairs(m) == Choose2(m[first]) + SumPairs(m - {first});
    if first != k {
      Smaller(m, first);
      Smaller(m, k);
      SumPairsTake(m - {first}, k);
      SumPairsTake(m - {k}, first);
      assert m - {first} - {k} == m - {k} - {first};
    }
  }

  /** The sum over a counter counts the pairs of equal keys. */
  lemma {:induction false} CounterPairs<K(!new)>(keys: seq<K>)
    ensures SumPairs(CounterOf(keys)) == EqualPairs(keys)
  {
    if keys == [] {
      assert CounterOf(keys) == map[];
    } else {
      var before, k := Init(keys), Last(keys);
      assert keys == before + [k];
      CounterPairs(before);
      CounterGrows(before, k);
      var m, n := CounterOf(before), CounterOf(keys);
      SumPairsTake(n, k);
      assert n - {k} == m - {k};
      OccursPositive(before, k);
      Choose2Grows(Get(m, k));
      if k in m {
        SumPairsTake(m, k);
      } else {
        assert m - {k} == m;
      }
    }
  }

  method SumOfPairs<K(==,!new)>(counts: map<K, nat>) returns (sum: nat)
    ensures sum == SumPairs(counts)
  {
    sum := 0;
    var left := counts;
    while left != map[]
      invariant sum + SumPairs(left) == SumPairs(counts)
      decreases |left|
    {
      assert left.Keys != {};
      var k :| k in left.Keys;
      SumPairsTake(left, k);
      Smaller(left, k);
      sum := sum + Choose2(left[k]);
      left := left - {k};
    }
  }

  // ------------------------------------------------------- the index

  /** The joint count that chance alone would give. */
  function Expected(reference: nat, predicted: nat, pairs: nat): real
    requires pairs > 0
  {
    reference as real * predicted as real / pairs as real
  }

  function Maximum(reference: nat, predicted: nat): real {
    (reference as real + predicted as real) / 2.0
  }

  function Denominator(reference: nat, predicted: nat, pairs: nat): real
    requires pairs > 0
  {
    Maximum(reference, predicted) - Expected(reference, predicted, pairs)
  }

  /** The index from its four pair counts. */
  function Index(joint: nat, reference: nat, predicted: nat, pairs: nat): real {
    if pairs == 0 then 1.0
    else
      var denominator := Denominator(reference, predicted, pairs);
      if denominator == 0.0 then (if joint as real == Maximum(reference, predicted) then 1.0 else 0.0)
      else (joint as real - Expected(reference, predicted, pairs)) / denominator
  }

  lemma PositiveProduct(x: real, y: real)
    requires x > 0.0 && y > 0.0
    ensures x * y > 0.0
  {
  }

  lemma NonnegativeProduct(x: real, y: real)
    requires x >= 0.0 && y >= 0.0
    ensures x * y >= 0.0
  {
  }

  lemma Quotient(x: real, y: real)
    requires y > 0.0 && x <= y
    ensures x / y <= 1.0
    ensures x / y == 1.0 <==> x == y
  {
    var q := x / y;
    assert q * y == x;
    assert (q - 1.0) * y == q * y - y && (1.0 - q) * y == y - q * y;
    if q > 1.0 {
      PositiveProduct(q - 1.0, y);
    }
    if q < 1.0 {
      PositiveProduct(1.0 - q, y);
    }
  }

  lemma TimesQuotient(x: real, n: real)
    requires n > 0.0
    ensures x / n * n == x
  {
  }

  lemma Extreme(a: real, n: real)
    requires 0.0 <= a <= n && a * n == a * a
    ensures a == 0.0 || a == n
  {
    assert a * (n - a) == a * n - a * a;
    if 0.0 < a < n {
      PositiveProduct(a, n - a);
    }
  }

  lemma SpreadBelow(e: real, a: real, b: real, n: real)
    requires n > 0.0 && 0.0 <= a && 0.0 <= b <= n && e * n == a * b
    ensures e <= a
  {
    NonnegativeProduct(a, n - b);
    assert a * (n - b) == a * n - a * b;
    assert (e - a) * n == e * n - a * n;
    if e > a {
      PositiveProduct(e - a, n);
    }
  }

  /** The product of two counts, spread over all pairs, is at most either count. */
  lemma ExpectedBelow(reference: nat, predicted: nat, pairs: nat)
    requires reference <= pairs && predicted <= pairs && pairs > 0
    ensures Expected(reference, predicted, pairs) <= reference as real
    ensures Expected(reference, predicted, pairs) <= predicted as real
    ensures Expected(reference, predicted, pairs) == reference as real && reference == predicted ==>
              reference == 0 || reference == pairs
  {
    var a, b, n := reference as real, predicted as real, pairs as real;
    var e := Expected(reference, predicted, pairs);
    TimesQuotient(a * b, n);
    assert e * n == a * b;
    SpreadBelow(e, a, b, n);
    assert e * n == b * a;
    SpreadBelow(e, b, a, n);
    if e == a && reference == predicted {
      Extreme(a, n);
    }
  }

  lemma ZeroDenominator(reference: nat, predicted: nat, pairs: nat)
    requires reference <= pairs && predicted <= pairs && pairs > 0
    ensures Denominator(reference, predicted, pairs) >= 0.0
    ensures Denominator(reference, predicted, pairs) == 0.0 ==>
              reference == predicted && (reference == 0 || reference == pairs)
  {
    hide Expected;
    ExpectedBelow(reference, predicted, pairs);
  }

  /**
   * For pair counts that can occur, the index is at most one, it is one exactly when all
   * three counts agree, and a zero denominator leaves no way to answer zero.
   */
  lemma IndexBounds(joint: nat, reference: nat, predicted: nat, pairs: nat)
    requires joint <= reference <= pairs && joint <= predicted <= pairs
    requires reference == predicted == pairs ==> joint == pairs
    ensures Index(joint, reference, predicted, pairs) <= 1.0
    ensures Index(joint, reference, predicted, pairs) == 1.0 <==> joint == reference == predicted
  {
    hide Expected;
    if pairs > 0 {
      ZeroDenominator(reference, predicted, pairs);
      if Denominator(reference, predicted, pairs) != 0.0 {
        Quotient(joint as real - Expected(reference, predicted, pairs), Denominator(reference, predicted, pairs));
      }
    }
  }

  // ------------------------------------------------------- clusterings

  /** A title's label and cluster. */
  type Point = (int, string)

  ghost predicate Coincide(points: seq<Point>) {
    forall i, j :: 0 <= i < j < |points| ==> (points[i].0 == points[j].0 <==> points[i].1 == points[j].1)
  }

  function LabelOf(p: Point): int {
    p.0
  }

  function ClusterOf(p: Point): string {
    p.1
  }

  /** Pairs of titles with one label, with one cluster, with both, and all pairs. */
  function LabelPairs(points: seq<Point>): nat {
    EqualPairs(MapSeq(points, LabelOf))
  }

  function ClusterPairs(points: seq<Point>): nat {
    EqualPairs(MapSeq(points, ClusterOf))
  }

  function JointPairs(points: seq<Point>): nat {
    EqualPairs(points)
  }

  function AllPairs(points: seq<Point>): nat {
    Choose2(|points|)
  }

  function IndexOf(points: seq<Point>): real {
    Index(JointPairs(points), LabelPairs(points), ClusterPairs(points), AllPairs(points))
  }

  /** How the four counts lie, and what their coincidences mean. */
  lemma PairFacts(points: seq<Point>)
    ensures JointPairs(points) <= LabelPairs(points) <= AllPairs(points)
    ensures JointPairs(points) <= ClusterPairs(points) <= AllPairs(points)
    ensures LabelPairs(points) == ClusterPairs(points) == AllPairs(points) ==>
              AllSame(points) && JointPairs(points) == AllPairs(points)
    ensures JointPairs(points) == LabelPairs(points) == ClusterPairs(points) <==> Coincide(points)
  {
    var labels, clusters := MapSeq(points, LabelOf), MapSeq(points, ClusterOf);
    PairsMapped(points, LabelOf);
    PairsMapped(points, ClusterOf);
    PairsBounded(labels);
    PairsBounded(clusters);
    PairsBounded(points);
  }

  /** The index of any clustering is at most one, and one exactly for the reference partition itself. */
  lemma IndexTheorem(points: seq<Point>)
    ensures IndexOf(points) <= 1.0
    ensures IndexOf(points) == 1.0 <==> Coincide(points)
  {
    hide Index, Coincide, JointPairs, LabelPairs, ClusterPairs, AllPairs;
    PairFacts(points);
    IndexBounds(JointPairs(points), LabelPairs(points), ClusterPairs(points), AllPairs(points));
  }

  /**
   * A zero denominator means two identical trivial partitions, all in one class or every
   * title in its own, and the answer one: the branch that answers zero is never taken.
   */
  lemma ZeroDenominatorIsTrivial(points: seq<Point>)
    requires AllPairs(points) > 0
    requires Denominator(LabelPairs(points), ClusterPairs(points), AllPairs(points)) == 0.0
    ensures Coincide(points) && IndexOf(points) == 1.0
    ensures AllSame(points) || JointPairs(points) == 0
  {
    hide *;
    PairFacts(points);
    ZeroDenominator(LabelPairs(points), ClusterPairs(points), AllPairs(points));
    IndexTheorem(points);
  }

  /** The index in closed form, and so the labels' and clusters' agreement by chance is worth nothing. */
  lemma ClosedForm(points: seq<Point>)
    requires AllPairs(points) > 0
    ensures var j, l, c, n := JointPairs(points) as real, LabelPairs(points) as real,
                              ClusterPairs(points) as real, AllPairs(points) as real;
            && (n * (l + c) != 2.0 * l * c ==> IndexOf(points) * (n * (l + c) - 2.0 * l * c) == 2.0 * (n * j - l * c))
            && (n * (l + c) == 2.0 * l * c ==> IndexOf(points) == 1.0)
  {
    hide *;
    PairFacts(points);
    IndexTheorem(points);
    IndexClosed(JointPairs(points), LabelPairs(points), ClusterPairs(points), AllPairs(points));
    IndexIs(points);
  }

  lemma IndexIs(points: seq<Point>)
    ensures IndexOf(points) == Index(JointPairs(points), LabelPairs(points), ClusterPairs(points), AllPairs(points))
  {
  }

  lemma Cleared(x: real, e: real, d: real, n: real, j: real, p: real)
    requires d != 0.0 && e * n == p && x == (j - e) / d
    ensures x * (d * n) == n * j - p
  {
    assert x * d == j - e;
    assert x * (d * n) == (x * d) * n == (j - e) * n == j * n - e * n;
  }

  lemma IndexClosed(joint: nat, reference: nat, predicted: nat, pairs: nat)
    requires pairs > 0 && joint <= reference <= pairs && joint <= predicted <= pairs
    requires reference == predicted == pairs ==> joint == pairs
    ensures var j, l, c, n := joint as real, reference as real, predicted as real, pairs as real;
            && (n * (l + c) != 2.0 * l * c ==>
                  Index(joint, reference, predicted, pairs) * (n * (l + c) - 2.0 * l * c) == 2.0 * (n * j - l * c))
            && (n * (l + c) == 2.0 * l * c ==> Index(joint, reference, predicted, pairs) == 1.0)
  {
    var j, l, c, n := joint as real, reference as real, predicted as real, pairs as real;
    var e, d := Expected(reference, predicted, pairs), Denominator(reference, predicted, pairs);
    TimesQuotient(l * c, n);
    assert e * n == l * c;
    assert 2.0 * (d * n) == n * (l + c) - 2.0 * l * c;
    if d == 0.0 {
      ZeroDenominator(reference, predicted, pairs);
      IndexBounds(joint, reference, predicted, pairs);
    } else {
      Cleared(Index(joint, reference, predicted, pairs), e, d, n, j, l * c);
      assert d * n != 0.0;
    }
  }

  /** The cluster of each title; a title listed twice keeps its last cluster. */
  function Assigned(cluster: string, members: seq<string>, before: map<string, string>): map<string, string> {
    if members == [] then before else Assigned(cluster, Init(members), before)[Last(members) := cluster]
  }

  function PredictedByTitle(clusters: seq<(string, seq<string>)>): map<string, string> {
    if clusters == [] then map[]
    else Assigned(Last(clusters).0, Last(clusters).1, PredictedByTitle(Init(clusters)))
  }

  ghost predicate Covers(predicted: map<string, string>, labels: seq<(string, int)>) {
    predicted.Keys == set i | 0 <= i < |labels| :: labels[i].0
  }

  /** Each labelled title with its label and its cluster. */
  function Points(predicted: map<string, string>, labels: seq<(string, int)>): (points: seq<Point>)
    requires Covers(predicted, labels)
    ensures |points| == |labels|
    ensures forall i :: 0 <= i < |labels| ==>
              labels[i].0 in predicted && points[i] == (labels[i].1, predicted[labels[i].0])
  {
    assert forall i :: 0 <= i < |labels| ==> labels[i].0 in predicted.Keys;
    seq(|labels|, i requires 0 <= i < |labels| => (labels[i].1, predicted[labels[i].0]))
  }

  ghost predicate SamePartition(predicted: map<string, string>, labels: seq<(string, int)>)
    requires Covers(predicted, labels)
  {
    forall i, j :: 0 <= i < j < |labels| ==>
      (labels[i].1 == labels[j].1 <==> predicted[labels[i].0] == predicted[labels[j].0])
  }

  method Predict(clusters: seq<(string, seq<string>)>) returns (predicted: map<string, string>)
    ensures predicted == PredictedByTitle(clusters)
  {
    predicted := map[];
    for c := 0 to |clusters|
      invariant predicted == PredictedByTitle(clusters[..c])
    {
      var members := clusters[c].1;
      ghost var before := predicted;
      for m := 0 to |members|
        invariant predicted == Assigned(clusters[c].0, members[..m], before)
      {
        assert Init(members[..m + 1]) == members[..m];
        predicted := predicted[members[m] := clusters[c].0];
      }
      assert members[..|members|] == members;
      assert Init(clusters[..c + 1]) == clusters[..c];
    }
    assert clusters[..|clusters|] == clusters;
  }

  /**
   * The index of a clustering against the labels of the same titles. It refuses different
   * titles; otherwise it is at most one, and one exactly when the partitions coincide.
   */
  method AdjustedRandIndex(clusters: seq<(string, seq<string>)>, labels: seq<(string, int)>) returns (r: Option<real>)
    requires forall i, j :: 0 <= i < j < |labels| ==> labels[i].0 != labels[j].0
    ensures r.Some? <==> Covers(PredictedByTitle(clusters), labels)
    ensures r.Some? ==> r.value == IndexOf(Points(PredictedByTitle(clusters), labels)) && r.value <= 1.0
    ensures r.Some? ==> (r.value == 1.0 <==> SamePartition(PredictedByTitle(clusters), labels))
  {
    hide EqualPairs, Index, CounterOf, SumPairs, Coincide, SamePartition, PredictedByTitle;
    var predicted := Predict(clusters);
    var titles := set i | 0 <= i < |labels| :: labels[i].0;
    if predicted.Keys != titles {
      return None;
    }
    var points := Points(predicted, labels);
    var contingency := Counter(points);
    var referenceTotals := Counter(MapSeq(points, LabelOf));
    var predictedTotals := Counter(MapSeq(points, ClusterOf));
    var joint := SumOfPairs(contingency);
    var reference := SumOfPairs(referenceTotals);
    var byCluster := SumOfPairs(predictedTotals);
    CounterPairs(points);
    CounterPairs(MapSeq(points, LabelOf));
    CounterPairs(MapSeq(points, ClusterOf));
    IndexTheorem(points);
    PointsPartition(predicted, labels);
    r := Some(Index(joint, reference, byCluster, Choose2(|labels|)));
  }

  lemma PointsPartition(predicted: map<string, string>, labels: seq<(string, int)>)
    requires Covers(predicted, labels)
    ensures Coincide(Points(predicted, labels)) <==> SamePartition(predicted, labels)
  {
    var points := Points(predicted, labels);
    forall i, j | 0 <= i < j < |labels|
      ensures (points[i].0 == points[j].0 <==> points[i].1 == points[j].1)
              <==> (labels[i].1 == labels[j].1 <==> predicted[labels[i].0] == predicted[labels[j].0])
    {
    }
  }
}
