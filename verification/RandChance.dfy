/** The adjustment for chance: over all rearrangements of the clusters the index averages zero. */
module RandChance {
  import opened Common
  import opened RandIndex

  // ------------------------------------------------------- every rearrangement

  function Without<K>(s: seq<K>, i: nat): (r: seq<K>)
    requires i < |s|
    ensures |r| == |s| - 1
  {
    s[..i] + s[i + 1..]
  }

  /** Each of the lists with `x` put after it. */
  function Followed<K>(lists: seq<seq<K>>, x: K): (r: seq<seq<K>>)
    ensures |r| == |lists|
  {
    if lists == [] then [] else Followed(Init(lists), x) + [Last(lists) + [x]]
  }

  /** Every order of the places of `pool`. */
  function Arrangements<K>(pool: seq<K>): seq<seq<K>>
    decreases |pool|, |pool| + 1
  {
    if pool == [] then [[]] else Ending(pool, |pool|)
  }

  /** Those that end with one of its first `k` places. */
  function Ending<K>(pool: seq<K>, k: nat): seq<seq<K>>
    requires k <= |pool|
    decreases |pool|, k
  {
    if k == 0 then [] else Ending(pool, k - 1) + Followed(Arrangements(Without(pool, k - 1)), pool[k - 1])
  }

  lemma {:induction false} InFollowed<K>(lists: seq<seq<K>>, x: K, a: seq<K>)
    ensures a in Followed(lists, x) <==> a != [] && Last(a) == x && Init(a) in lists
  {
    if lists != [] {
      InFollowed(Init(lists), x, a);
      assert lists == Init(lists) + [Last(lists)];
      if a != [] {
        assert a == Init(a) + [Last(a)];
        assert Init(Last(lists) + [x]) == Last(lists);
      }
    }
  }

  lemma {:induction false} InEnding<K>(pool: seq<K>, k: nat, a: seq<K>)
    requires k <= |pool|
    ensures a in Ending(pool, k) <==>
            a != [] && exists i :: 0 <= i < k && Last(a) == pool[i] && Init(a) in Arrangements(Without(pool, i))
  {
    if k > 0 {
      InEnding(pool, k - 1, a);
      InFollowed(Arrangements(Without(pool, k - 1)), pool[k - 1], a);
    }
  }

  lemma {:induction false} OccursSnoc<K>(s: seq<K>, y: K, x: K)
    ensures Occurs(s + [y], x) == Occurs(s, x) + if y == x then 1 else 0
    ensures EqualPairs(s + [y]) == EqualPairs(s) + Occurs(s, y)
  {
    assert Init(s + [y]) == s;
  }

  /** Taking out one place. */
  lemma {:induction false} OccursWithout<K>(s: seq<K>, i: nat, x: K)
    requires i < |s|
    ensures Occurs(s, x) == Occurs(Without(s, i), x) + if s[i] == x then 1 else 0
  {
    if i == |s| - 1 {
      assert Without(s, i) == Init(s);
    } else {
      OccursWithout(Init(s), i, x);
      assert Without(s, i) == Without(Init(s), i) + [Last(s)];
      OccursSnoc(Without(Init(s), i), Last(s), x);
    }
  }

  lemma {:induction false} PairsWithout<K>(s: seq<K>, i: nat)
    requires i < |s|
    ensures EqualPairs(s) == EqualPairs(Without(s, i)) + Occurs(Without(s, i), s[i])
  {
    if i == |s| - 1 {
      assert Without(s, i) == Init(s);
    } else {
      PairsWithout(Init(s), i);
      OccursWithout(Init(s), i, Last(s));
      assert Without(s, i) == Without(Init(s), i) + [Last(s)];
      OccursSnoc(Without(Init(s), i), Last(s), s[i]);
    }
  }

  ghost predicate Alike<K(!new)>(a: seq<K>, b: seq<K>) {
    |a| == |b| && forall x :: Occurs(a, x) == Occurs(b, x)
  }

  /** The arrangements of a list are exactly the lists with the same elements as often. */
  lemma {:induction false} ArrangedIffAlike<K(!new)>(pool: seq<K>, a: seq<K>)
    ensures a in Arrangements(pool) <==> Alike(a, pool)
    decreases |pool|
  {
    if pool != [] {
      InEnding(pool, |pool|, a);
      if a != [] {
        assert a == Init(a) + [Last(a)];
        forall i | 0 <= i < |pool| && Last(a) == pool[i]
          ensures Init(a) in Arrangements(Without(pool, i)) <==> Alike(a, pool)
        {
          ArrangedIffAlike(Without(pool, i), Init(a));
          AlikeStep(pool, i, a);
        }
        if Alike(a, pool) {
          OccursPositive(pool, Last(a));
          OccursPositive(a, Last(a));
        }
      }
    }
  }

  lemma AlikeStep<K(!new)>(pool: seq<K>, i: nat, a: seq<K>)
    requires i < |pool| && a != [] && Last(a) == pool[i]
    ensures Alike(Init(a), Without(pool, i)) <==> Alike(a, pool)
  {
    forall x ensures Occurs(a, x) == Occurs(pool, x) <==> Occurs(Init(a), x) == Occurs(Without(pool, i), x) {
      OccursWithout(pool, i, x);
    }
  }

  lemma {:induction false} ArrangedPairs<K(!new)>(pool: seq<K>, a: seq<K>)
    requires a in Arrangements(pool)
    ensures |a| == |pool| && EqualPairs(a) == EqualPairs(pool)
    decreases |pool|
  {
    ArrangedIffAlike(pool, a);
    if pool != [] {
      InEnding(pool, |pool|, a);
      var i :| 0 <= i < |pool| && Last(a) == pool[i] && Init(a) in Arrangements(Without(pool, i));
      ArrangedPairs(Without(pool, i), Init(a));
      ArrangedIffAlike(Without(pool, i), Init(a));
      PairsWithout(pool, i);
    }
  }

  function Factorial(n: nat): nat {
    if n == 0 then 1 else n * Factorial(n - 1)
  }

  lemma {:induction false} CountEnding<K>(pool: seq<K>, k: nat)
    requires k <= |pool|
    ensures |pool| > 0 ==> |Ending(pool, k)| == k * Factorial(|pool| - 1)
    decreases |pool|, k
  {
    if k > 0 {
      CountEnding(pool, k - 1);
      CountArrangements(Without(pool, k - 1));
      assert k * Factorial(|pool| - 1) == (k - 1) * Factorial(|pool| - 1) + Factorial(|pool| - 1);
    }
  }

  lemma {:induction false} CountArrangements<K>(pool: seq<K>)
    ensures |Arrangements(pool)| == Factorial(|pool|)
    decreases |pool|, |pool| + 1
  {
    if pool != [] {
      CountEnding(pool, |pool|);
    }
  }

  // ------------------------------------------------------- sums over rearrangements

  /** Labels beside clusters, place by place. */
  function Zip(labels: seq<int>, clusters: seq<string>): (points: seq<Point>)
    ensures |labels| == |clusters| ==>
              |points| == |labels| && forall i :: 0 <= i < |labels| ==> points[i] == (labels[i], clusters[i])
  {
    if labels == [] || clusters == [] then []
    else Zip(Init(labels), Init(clusters)) + [(Last(labels), Last(clusters))]
  }

  function JointSum(labels: seq<int>, lists: seq<seq<string>>): nat {
    if lists == [] then 0 else JointSum(labels, Init(lists)) + JointPairs(Zip(labels, Last(lists)))
  }

  function MatchSum(labels: seq<int>, lists: seq<seq<string>>, p: Point): nat {
    if lists == [] then 0 else MatchSum(labels, Init(lists), p) + Occurs(Zip(labels, Last(lists)), p)
  }

  lemma {:induction false} SumsConcat(labels: seq<int>, a: seq<seq<string>>, b: seq<seq<string>>, p: Point)
    ensures JointSum(labels, a + b) == JointSum(labels, a) + JointSum(labels, b)
    ensures MatchSum(labels, a + b, p) == MatchSum(labels, a, p) + MatchSum(labels, b, p)
  {
    if b == [] {
      assert a + b == a;
    } else {
      SumsConcat(labels, a, Init(b), p);
      assert Init(a + b) == a + Init(b) && Last(a + b) == Last(b);
    }
  }

  /** What one more place adds. */
  lemma {:induction false} SumsFollowed(labels: seq<int>, lists: seq<seq<string>>, x: string, p: Point)
    requires labels != []
    ensures JointSum(labels, Followed(lists, x)) ==
            JointSum(Init(labels), lists) + MatchSum(Init(labels), lists, (Last(labels), x))
    ensures MatchSum(labels, Followed(lists, x), p) ==
            MatchSum(Init(labels), lists, p) + if p == (Last(labels), x) then |lists| else 0
  {
    if lists != [] {
      SumsFollowed(labels, Init(lists), x, p);
      var rest, a := Followed(Init(lists), x), Last(lists);
      assert Init(rest + [a + [x]]) == rest;
      assert Init(a + [x]) == a;
      OccursSnoc(Zip(Init(labels), a), (Last(labels), x), p);
    }
  }

  /** How many arrangements put a given pair of places together. */
  function Fixed(n: nat): nat {
    if n == 0 then 0 else Factorial(n - 1)
  }

  /** What the arrangements ending in one of the first `k` places contribute. */
  function MatchShare(labels: seq<int>, pool: seq<string>, k: nat, p: Point): int
    requires |labels| == |pool| && k <= |pool| && pool != []
  {
    var there := Occurs(pool[..k], p.1);
    Fixed(|pool| - 1) * Occurs(Init(labels), p.0) * (k * Occurs(pool, p.1) - there)
    + if Last(labels) == p.0 then Factorial(|pool| - 1) * there else 0
  }

  lemma {:induction false} MatchEnding(labels: seq<int>, pool: seq<string>, k: nat, p: Point)
    requires |labels| == |pool| && k <= |pool| && pool != []
    ensures MatchSum(labels, Ending(pool, k), p) == MatchShare(labels, pool, k, p)
    decreases |pool|, k
  {
    hide MatchShare, Factorial, Fixed, Occurs, Arrangements, MatchSum, JointSum;
    if k == 0 {
      NoShare(labels, pool, p);
    } else {
      var rest := Without(pool, k - 1);
      MatchEnding(labels, pool, k - 1, p);
      SumsConcat(labels, Ending(pool, k - 1), Followed(Arrangements(rest), pool[k - 1]), p);
      SumsFollowed(labels, Arrangements(rest), pool[k - 1], p);
      MatchLaw(Init(labels), rest, p);
      CountArrangements(rest);
      ShareGrows(labels, pool, k, p);
    }
  }

  lemma NoShare(labels: seq<int>, pool: seq<string>, p: Point)
    requires |labels| == |pool| && pool != []
    ensures MatchShare(labels, pool, 0, p) == 0 == MatchSum(labels, Ending(pool, 0), p)
  {
  }

  lemma ShareGrows(labels: seq<int>, pool: seq<string>, k: nat, p: Point)
    requires |labels| == |pool| && 0 < k <= |pool|
    ensures var rest := Without(pool, k - 1);
            MatchShare(labels, pool, k, p) ==
            MatchShare(labels, pool, k - 1, p)
            + Fixed(|pool| - 1) * Occurs(Init(labels), p.0) * Occurs(rest, p.1)
            + if p == (Last(labels), pool[k - 1]) then Factorial(|pool| - 1) else 0
  {
    hide Factorial, Fixed;
    OccursWithout(pool, k - 1, p.1);
    assert Init(pool[..k]) == pool[..k - 1];
    EndingStep(Fixed(|pool| - 1) * Occurs(Init(labels), p.0), Factorial(|pool| - 1), k, Occurs(pool, p.1),
               Occurs(pool[..k - 1], p.1), if pool[k - 1] == p.1 then 1 else 0, Last(labels) == p.0);
  }

  lemma EndingStep(f: int, g: int, k: int, all: int, there: int, hit: int, same: bool)
    requires hit == 0 || hit == 1
    ensures f * ((k - 1) * all - there) + (if same then g * there else 0)
            + f * (all - hit) + (if same && hit == 1 then g else 0)
            == f * (k * all - (there + hit)) + if same then g * (there + hit) else 0
  {
    Distribute(all, k, -1);
    Distribute(f, (k - 1) * all - there, all - hit);
    Distribute(g, there, hit);
  }

  lemma Distribute(a: int, b: int, c: int)
    ensures a * (b + c) == a * b + a * c
  {
  }

  /** Over all arrangements, a label meets a cluster at the rate of their frequencies. */
  lemma {:induction false} MatchLaw(labels: seq<int>, pool: seq<string>, p: Point)
    requires |labels| == |pool|
    ensures MatchSum(labels, Arrangements(pool), p) == Fixed(|pool|) * Occurs(labels, p.0) * Occurs(pool, p.1)
    decreases |pool|, |pool| + 1
  {
    if pool != [] {
      hide Factorial, Fixed;
      MatchEnding(labels, pool, |pool|, p);
      assert pool[..|pool|] == pool;
      var n, o, all := |pool|, Occurs(Init(labels), p.0), Occurs(pool, p.1);
      FixedStep(n, o, all);
      Distribute(Factorial(n - 1) * all, o, if Last(labels) == p.0 then 1 else 0);
      Turn(Factorial(n - 1), all, o);
      Turn(Factorial(n - 1), all, Occurs(labels, p.0));
    }
  }

  lemma Turn(a: int, b: int, c: int)
    ensures a * b * c == a * c * b
  {
  }

  lemma Regroup(a: int, b: int, c: int, d: int)
    ensures a * b * (c * d) == (c * a) * b * d
  {
  }

  lemma FixedStep(n: nat, o: nat, all: nat)
    requires n > 0 && (n == 1 ==> o == 0)
    ensures Fixed(n - 1) * o * (n * all - all) == Factorial(n - 1) * o * all
  {
    hide Factorial;
    if n > 1 {
      assert Factorial(n - 1) == (n - 1) * Factorial(n - 2) by {
        FactorialStep(n - 1);
      }
      FixedProduct(Factorial(n - 2), n, o, all);
    }
  }

  lemma FactorialStep(n: nat)
    requires n > 0
    ensures Factorial(n) == n * Factorial(n - 1)
  {
  }

  lemma FixedProduct(f: int, n: int, o: int, all: int)
    ensures f * o * (n * all - all) == ((n - 1) * f) * o * all
  {
    Distribute(all, n, -1);
    Regroup(f, o, n - 1, all);
  }

  // ------------------------------------------------------- the chance law

  /** How often the elements of `s` occur in `t`, altogether. */
  function OccursSum<K(==)>(s: seq<K>, t: seq<K>): nat {
    if s == [] then 0 else OccursSum(Init(s), t) + Occurs(t, Last(s))
  }

  lemma {:induction false} OccursSumSnoc<K>(s: seq<K>, t: seq<K>, y: K)
    ensures OccursSum(s, t + [y]) == OccursSum(s, t) + Occurs(s, y)
  {
    if s != [] {
      OccursSumSnoc(Init(s), t, y);
      OccursSnoc(t, y, Last(s));
    }
  }

  /** Every equal pair is met twice, and every place meets itself. */
  lemma {:induction false} PairsTwice<K>(s: seq<K>)
    ensures OccursSum(s, s) == 2 * EqualPairs(s) + |s|
  {
    if s != [] {
      PairsTwice(Init(s));
      assert s == Init(s) + [Last(s)];
      OccursSumSnoc(Init(s), Init(s), Last(s));
    }
  }

  /** How many arrangements put two given pairs of places together. */
  function Paired(n: nat): nat {
    if n < 2 then 0 else Factorial(n - 2)
  }

  /** What the arrangements ending in one of the first `k` places contribute. */
  function JointShare(labels: seq<int>, pool: seq<string>, k: nat): int
    requires |labels| == |pool| && k <= |pool| && pool != []
  {
    var met := OccursSum(pool[..k], pool) - k;
    2 * Paired(|pool| - 1) * EqualPairs(Init(labels)) * (k * EqualPairs(pool) - met)
    + Fixed(|pool| - 1) * Occurs(Init(labels), Last(labels)) * met
  }

  lemma {:induction false} JointEnding(labels: seq<int>, pool: seq<string>, k: nat)
    requires |labels| == |pool| && k <= |pool| && pool != []
    ensures JointSum(labels, Ending(pool, k)) == JointShare(labels, pool, k)
    decreases |pool|, k
  {
    hide JointShare, Factorial, Fixed, Paired, Occurs, EqualPairs, Arrangements, MatchSum, JointSum;
    if k == 0 {
      NoJointShare(labels, pool);
    } else {
      var rest, p := Without(pool, k - 1), (Last(labels), pool[k - 1]);
      JointEnding(labels, pool, k - 1);
      SumsConcat(labels, Ending(pool, k - 1), Followed(Arrangements(rest), pool[k - 1]), p);
      SumsFollowed(labels, Arrangements(rest), pool[k - 1], p);
      MatchLaw(Init(labels), rest, p);
      JointLaw(Init(labels), rest);
      JointShareGrows(labels, pool, k);
    }
  }

  lemma NoJointShare(labels: seq<int>, pool: seq<string>)
    requires |labels| == |pool| && pool != []
    ensures JointShare(labels, pool, 0) == 0 == JointSum(labels, Ending(pool, 0))
  {
  }

  lemma JointShareGrows(labels: seq<int>, pool: seq<string>, k: nat)
    requires |labels| == |pool| && 0 < k <= |pool|
    ensures var rest := Without(pool, k - 1);
            JointShare(labels, pool, k) ==
            JointShare(labels, pool, k - 1)
            + 2 * Paired(|pool| - 1) * EqualPairs(Init(labels)) * EqualPairs(rest)
            + Fixed(|pool| - 1) * Occurs(Init(labels), Last(labels)) * Occurs(rest, pool[k - 1])
  {
    hide Factorial, Fixed, Paired, EqualPairs;
    var rest := Without(pool, k - 1);
    OccursWithout(pool, k - 1, pool[k - 1]);
    PairsWithout(pool, k - 1);
    assert Init(pool[..k]) == pool[..k - 1];
    JointStep(2 * Paired(|pool| - 1) * EqualPairs(Init(labels)), Fixed(|pool| - 1) * Occurs(Init(labels), Last(labels)),
              k, EqualPairs(pool), OccursSum(pool[..k - 1], pool) - (k - 1), Occurs(rest, pool[k - 1]));
  }

  lemma JointStep(f: int, g: int, k: int, all: int, met: int, more: int)
    ensures f * (k * all - (met + more)) + g * (met + more) ==
            (f * ((k - 1) * all - met) + g * met) + f * (all - more) + g * more
  {
    Distribute(all, k, -1);
    Distribute(f, (k - 1) * all - met, all - more);
    Distribute(g, met, more);
  }

  lemma {:induction false} JointLaw(labels: seq<int>, pool: seq<string>)
    requires |labels| == |pool|
    ensures JointSum(labels, Arrangements(pool)) == 2 * Paired(|pool|) * EqualPairs(labels) * EqualPairs(pool)
    decreases |pool|, |pool| + 1
  {
    if pool != [] {
      JointEnding(labels, pool, |pool|);
      WholeShare(labels, pool);
    }
  }

  lemma ShareFactors(n: nat)
    requires n > 0
    ensures Fixed(n - 1) == Paired(n)
    ensures n > 2 ==> (n - 2) * Paired(n - 1) == Paired(n)
  {
    if n > 2 {
      FactorialStep(n - 2);
    }
  }

  lemma WholeShare(labels: seq<int>, pool: seq<string>)
    requires |labels| == |pool| && pool != []
    ensures JointShare(labels, pool, |pool|) == 2 * Paired(|pool|) * EqualPairs(labels) * EqualPairs(pool)
  {
    var n := |pool|;
    ShareFactors(n);
    PairsTwice(pool);
    assert pool[..n] == pool;
    assert n <= 2 ==> EqualPairs(Init(labels)) == 0;
    WholeShareOf(labels, pool);
  }

  lemma WholeShareOf(labels: seq<int>, pool: seq<string>)
    requires |labels| == |pool| && pool != [] && OccursSum(pool, pool) == 2 * EqualPairs(pool) + |pool|
    requires (|pool| - 2) * Paired(|pool| - 1) == Paired(|pool|) || EqualPairs(Init(labels)) == 0
    requires Fixed(|pool| - 1) == Paired(|pool|) && pool[..|pool|] == pool
    ensures JointShare(labels, pool, |pool|) == 2 * Paired(|pool|) * EqualPairs(labels) * EqualPairs(pool)
  {
    hide Paired, Fixed, Occurs, OccursSum;
    var n := |pool|;
    var l, o, c := EqualPairs(Init(labels)), Occurs(Init(labels), Last(labels)), EqualPairs(pool);
    assert EqualPairs(labels) == l + o;
    WholeProduct(Paired(n - 1), Paired(n), n, l, o, c);
  }

  lemma WholeProduct(f: int, g: int, n: int, l: int, o: int, c: int)
    requires (n - 2) * f == g || l == 0
    ensures 2 * f * l * (n * c - 2 * c) + g * o * (2 * c) == 2 * g * (l + o) * c
  {
    Distribute(c, n, -2);
    Regroup(2 * f, l, n - 2, c);
    assert (n - 2) * (2 * f) == 2 * ((n - 2) * f);
    Distribute(2 * g * c, l, o);
    Turn(2 * g, c, l);
    Turn(2 * g, c, o);
    Turn(2 * g, c, l + o);
    Turn(g, o, 2 * c);
  }

  /**
   * Over all rearrangements of the clusters, the pairs of titles with one label and one cluster are
   * on average the label pairs times the cluster pairs, divided by all pairs.
   */
  lemma ChanceLaw(labels: seq<int>, clusters: seq<string>)
    requires |labels| == |clusters|
    ensures JointSum(labels, Arrangements(clusters)) * Choose2(|labels|) ==
            |Arrangements(clusters)| * (EqualPairs(labels) * EqualPairs(clusters))
  {
    var n := |labels|;
    JointLaw(labels, clusters);
    CountArrangements(clusters);
    if n < 2 {
      assert EqualPairs(labels) == 0;
    } else {
      AllOrders(n);
      ChanceOf(JointSum(labels, Arrangements(clusters)), n, EqualPairs(labels), EqualPairs(clusters));
    }
  }

  lemma ChanceOf(sum: nat, n: nat, l: nat, c: nat)
    requires Paired(n) * (2 * Choose2(n)) == Factorial(n) && sum == 2 * Paired(n) * l * c
    ensures sum * Choose2(n) == Factorial(n) * (l * c)
  {
    hide *;
    ChanceProduct(Paired(n), l * c, Choose2(n), Factorial(n));
    Threefold(2 * Paired(n), l, c);
  }

  lemma Threefold(a: int, b: int, c: int)
    ensures a * b * c == a * (b * c)
  {
  }

  lemma AllOrders(n: nat)
    requires n >= 2
    ensures Paired(n) * (2 * Choose2(n)) == Factorial(n)
  {
    hide Choose2;
    FactorialStep(n);
    FactorialStep(n - 1);
    Twice(n);
    assert Paired(n) == Factorial(n - 2);
    OrdersProduct(Factorial(n - 2), n);
  }

  lemma Twice(n: nat)
    ensures 2 * Choose2(n) == n * (n - 1)
  {
    EvenProduct(n);
  }

  lemma OrdersProduct(f: int, n: int)
    ensures f * (n * (n - 1)) == n * ((n - 1) * f)
  {
  }

  lemma ChanceProduct(f: int, lc: int, choose: int, all: int)
    requires f * (2 * choose) == all
    ensures 2 * f * lc * choose == all * lc
  {
    Turn(2 * f, lc, choose);
    assert 2 * f * choose == f * (2 * choose);
  }

  // ------------------------------------------------------- the index on average

  function IndexSum(labels: seq<int>, lists: seq<seq<string>>): real {
    if lists == [] then 0.0 else IndexSum(labels, Init(lists)) + IndexOf(Zip(labels, Last(lists)))
  }

  /** The two columns of a zipped list, and its size. */
  lemma Columns(labels: seq<int>, clusters: seq<string>)
    requires |labels| == |clusters|
    ensures var points := Zip(labels, clusters);
            && LabelPairs(points) == EqualPairs(labels) && ClusterPairs(points) == EqualPairs(clusters)
            && AllPairs(points) == Choose2(|labels|)
  {
    var points := Zip(labels, clusters);
    assert MapSeq(points, LabelOf) == labels;
    assert MapSeq(points, ClusterOf) == clusters;
  }

  /** The cleared denominator of the index is not zero. */
  ghost predicate Spread(n: real, l: real, c: real) {
    n * (l + c) != 2.0 * l * c
  }

  /** A sum of `count` indices with `joint` pairs between them, cleared of the denominator. */
  ghost predicate Tallies(sum: real, n: real, l: real, c: real, joint: real, count: real) {
    sum * (n * (l + c) - 2.0 * l * c) == 2.0 * (n * joint - count * (l * c))
  }

  /** The index of one arrangement. */
  lemma OneIndex(labels: seq<int>, clusters: seq<string>, n: real, l: real, c: real)
    requires |labels| == |clusters| && Choose2(|labels|) > 0
    requires n == Choose2(|labels|) as real && l == EqualPairs(labels) as real && c == EqualPairs(clusters) as real
    requires Spread(n, l, c)
    ensures Tallies(IndexOf(Zip(labels, clusters)), n, l, c, JointPairs(Zip(labels, clusters)) as real, 1.0)
  {
    hide IndexOf, Zip, JointPairs, LabelPairs, ClusterPairs, AllPairs, EqualPairs, Choose2;
    Columns(labels, clusters);
    ClosedForm(Zip(labels, clusters));
  }

  lemma {:induction false} IndexSumIs(labels: seq<int>, lists: seq<seq<string>>, n: real, l: real, c: real)
    requires Choose2(|labels|) > 0 && n == Choose2(|labels|) as real && l == EqualPairs(labels) as real
    requires forall a :: a in lists ==> |a| == |labels| && EqualPairs(a) as real == c
    requires Spread(n, l, c)
    ensures Tallies(IndexSum(labels, lists), n, l, c, JointSum(labels, lists) as real, |lists| as real)
  {
    hide IndexOf, EqualPairs, Choose2, JointPairs, Zip, Tallies, Spread;
    if lists == [] {
      NothingTallied(n, l, c);
    } else {
      assert lists == Init(lists) + [Last(lists)];
      IndexSumIs(labels, Init(lists), n, l, c);
      OneIndex(labels, Last(lists), n, l, c);
      TallyUp(IndexSum(labels, Init(lists)), IndexOf(Zip(labels, Last(lists))), n, l, c,
              JointSum(labels, Init(lists)) as real, JointPairs(Zip(labels, Last(lists))) as real,
              |Init(lists)| as real);
    }
  }

  lemma NothingTallied(n: real, l: real, c: real)
    ensures Tallies(0.0, n, l, c, 0.0, 0.0)
  {
  }

  lemma TallyUp(s: real, x: real, n: real, l: real, c: real, j: real, k: real, count: real)
    requires Tallies(s, n, l, c, j, count) && Tallies(x, n, l, c, k, 1.0)
    ensures Tallies(s + x, n, l, c, j + k, count + 1.0)
  {
    var d, lc := n * (l + c) - 2.0 * l * c, l * c;
    AddUp(s, x, d, n, j, k, count, lc);
  }

  lemma AddUp(s: real, x: real, d: real, n: real, j: real, k: real, count: real, lc: real)
    requires s * d == 2.0 * (n * j - count * lc) && x * d == 2.0 * (n * k - 1.0 * lc)
    ensures (s + x) * d == 2.0 * (n * (j + k) - (count + 1.0) * lc)
  {
    assert (s + x) * d == s * d + x * d;
    assert n * (j + k) == n * j + n * k;
    assert (count + 1.0) * lc == count * lc + lc;
  }

  /** Unless its denominator is zero, the index is zero on average over all rearrangements of the clusters. */
  lemma IndexAveragesZero(labels: seq<int>, clusters: seq<string>)
    requires |labels| == |clusters| && Choose2(|labels|) > 0
    requires Spread(Choose2(|labels|) as real, EqualPairs(labels) as real, EqualPairs(clusters) as real)
    ensures IndexSum(labels, Arrangements(clusters)) == 0.0
  {
    hide *;
    var n, l, c := Choose2(|labels|), EqualPairs(labels), EqualPairs(clusters);
    var lists := Arrangements(clusters);
    forall a | a in lists ensures |a| == |labels| && EqualPairs(a) as real == c as real {
      ArrangedPairs(clusters, a);
    }
    ChanceLaw(labels, clusters);
    IndexSumIs(labels, lists, n as real, l as real, c as real);
    NothingLeft(IndexSum(labels, lists), n, l, c, JointSum(labels, lists), |lists|);
  }

  lemma NothingLeft(x: real, n: nat, l: nat, c: nat, j: nat, count: nat)
    requires j * n == count * (l * c) && Spread(n as real, l as real, c as real)
    requires Tallies(x, n as real, l as real, c as real, j as real, count as real)
    ensures x == 0.0
  {
    InReals(n, l, c, j, count);
    NoFactor(x, n as real * (l as real + c as real) - 2.0 * l as real * c as real);
  }

  /** The same products, as real numbers. */
  lemma InReals(n: nat, l: nat, c: nat, j: nat, count: nat)
    ensures (j * n) as real == n as real * j as real
    ensures (count * (l * c)) as real == count as real * (l as real * c as real)
  {
  }

  lemma NoFactor(x: real, d: real)
    requires x * d == 0.0 && d != 0.0
    ensures x == 0.0
  {
  }
}
