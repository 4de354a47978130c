/**
 * The project list ordering: `Array.prototype.sort` with the comparator
 * `(a, b) => b.totalCost - a.totalCost`, which (the sort being stable)
 * orders by total cost, highest first, and keeps ties in their original order.
 */
module ProjectSort {
  import opened ApiTypes

  /** Highest total cost first. */
  ghost predicate SortedByCostDesc(s: seq<ProjectUsage>)
  {
    forall i, j :: 0 <= i < j < |s| ==> s[i].totalCost >= s[j].totalCost
  }

  /** The entries of `s` whose total cost is exactly `c`, in their order in `s`. */
  function WithCost(s: seq<ProjectUsage>, c: real): seq<ProjectUsage>
  {
    if s == [] then []
    else (if s[0].totalCost == c then [s[0]] else []) + WithCost(s[1..], c)
  }

  /** The sum of the entries' total costs. */
  function SumCosts(s: seq<ProjectUsage>): real
  {
    if s == [] then 0.0 else s[0].totalCost + SumCosts(s[1..])
  }

  /**
   * Inserts `p` before the first entry that does not cost more than `p`;
   * since `p` came before all of `s`, this keeps ties in original order.
   */
  function InsertByCost(p: ProjectUsage, s: seq<ProjectUsage>): seq<ProjectUsage>
  {
    if s == [] || s[0].totalCost <= p.totalCost then [p] + s
    else [s[0]] + InsertByCost(p, s[1..])
  }

  /** Insertion adds exactly `p`, and its cost to the sum. */
  lemma {:induction false} InsertAddsEntry(p: ProjectUsage, s: seq<ProjectUsage>)
    ensures multiset(InsertByCost(p, s)) == multiset(s) + multiset{p}
    ensures SumCosts(InsertByCost(p, s)) == p.totalCost + SumCosts(s)
  {
    if s == [] || s[0].totalCost <= p.totalCost {
      var r := [p] + s;
      assert InsertByCost(p, s) == r;
      assert r[1..] == s;
      assert SumCosts(r) == p.totalCost + SumCosts(s);
    } else {
      var t := InsertByCost(p, s[1..]);
      var r := [s[0]] + t;
      assert InsertByCost(p, s) == r;
      InsertAddsEntry(p, s[1..]);
      assert r[1..] == t;
      assert s == [s[0]] + s[1..];
      assert multiset(r) == multiset{s[0]} + multiset(t);
      assert multiset(s) == multiset{s[0]} + multiset(s[1..]);
      assert SumCosts(r) == s[0].totalCost + SumCosts(t);
    }
  }

  /** Inserting an entry no dearer than `bound` into entries no dearer than `bound` keeps every entry within it. */
  lemma {:induction false} InsertBounded(p: ProjectUsage, s: seq<ProjectUsage>, bound: real)
    requires p.totalCost <= bound
    requires forall i :: 0 <= i < |s| ==> s[i].totalCost <= bound
    ensures forall i :: 0 <= i < |InsertByCost(p, s)| ==> InsertByCost(p, s)[i].totalCost <= bound
  {
    if s != [] && s[0].totalCost > p.totalCost {
      InsertBounded(p, s[1..], bound);
      var t := InsertByCost(p, s[1..]);
      assert InsertByCost(p, s) == [s[0]] + t;
    }
  }

  lemma {:induction false} InsertKeepsSorted(p: ProjectUsage, s: seq<ProjectUsage>)
    requires SortedByCostDesc(s)
    ensures SortedByCostDesc(InsertByCost(p, s))
  {
    if s != [] && s[0].totalCost > p.totalCost {
      var t := InsertByCost(p, s[1..]);
      var r := [s[0]] + t;
      assert InsertByCost(p, s) == r;
      InsertKeepsSorted(p, s[1..]);
      InsertBounded(p, s[1..], s[0].totalCost);
      assert forall j :: 1 <= j < |r| ==> r[j] == t[j - 1];
    }
  }

  lemma {:induction false} WithCostCons(x: ProjectUsage, t: seq<ProjectUsage>, c: real)
    ensures WithCost([x] + t, c) == (if x.totalCost == c then [x] else []) + WithCost(t, c)
  {
    assert ([x] + t)[0] == x;
    assert ([x] + t)[1..] == t;
  }

  lemma {:induction false} InsertWithCost(p: ProjectUsage, s: seq<ProjectUsage>, c: real)
    ensures WithCost(InsertByCost(p, s), c) == (if p.totalCost == c then [p] else []) + WithCost(s, c)
  {
    if s == [] || s[0].totalCost <= p.totalCost {
      assert InsertByCost(p, s) == [p] + s;
      WithCostCons(p, s, c);
    } else {
      var t := InsertByCost(p, s[1..]);
      assert InsertByCost(p, s) == [s[0]] + t;
      WithCostCons(s[0], t, c);
      InsertWithCost(p, s[1..], c);
      assert s == [s[0]] + s[1..];
      WithCostCons(s[0], s[1..], c);
      var rest := WithCost(s[1..], c);
      if s[0].totalCost == c {
        assert p.totalCost != c;
        assert WithCost(InsertByCost(p, s), c) == [s[0]] + rest;
      } else {
        assert WithCost(InsertByCost(p, s), c) == (if p.totalCost == c then [p] else []) + rest;
      }
    }
  }

  /**
   * The project ordering: a stable sort by total cost, highest first.
   * The result is ordered, is a permutation of the input, keeps every group
   * of equal-cost entries in input order, and keeps the cost sum.
   */
  function SortByCostDesc(s: seq<ProjectUsage>): (r: seq<ProjectUsage>)
    ensures SortedByCostDesc(r)
    ensures multiset(r) == multiset(s)
    ensures forall c :: WithCost(r, c) == WithCost(s, c)
    ensures SumCosts(r) == SumCosts(s)
  {
    if s == [] then []
    else
      assert s == [s[0]] + s[1..];
      var rest := SortByCostDesc(s[1..]);
      InsertKeepsSorted(s[0], rest);
      InsertAddsEntry(s[0], rest);
      assert forall c :: WithCost(InsertByCost(s[0], rest), c) == WithCost(s, c) by {
        forall c ensures WithCost(InsertByCost(s[0], rest), c) == WithCost(s, c) {
          InsertWithCost(s[0], rest, c);
        }
      }
      InsertByCost(s[0], rest)
  }

  lemma {:induction false} SumCostsAppend(a: seq<ProjectUsage>, b: seq<ProjectUsage>)
    ensures SumCosts(a + b) == SumCosts(a) + SumCosts(b)
  {
    if a != [] {
      assert (a + b)[1..] == a[1..] + b;
      SumCostsAppend(a[1..], b);
    } else {
      assert a + b == b;
    }
  }

  /** WithCost keeps exactly the entries of `s` that cost `c`. */
  lemma {:induction false} WithCostMembers(s: seq<ProjectUsage>, c: real)
    ensures forall p :: p in WithCost(s, c) <==> p in s && p.totalCost == c
  {
    if s != [] {
      WithCostMembers(s[1..], c);
      assert s == [s[0]] + s[1..];
    }
  }

  /** In a sequence of strictly increasing rank, the head ranks below everything after it. */
  lemma {:induction false} HeadRankBelow(s: seq<ProjectUsage>, rank: ProjectUsage -> int)
    requires s != []
    requires forall i, j :: 0 <= i < j < |s| ==> rank(s[i]) < rank(s[j])
    ensures forall x :: x in s[1..] ==> rank(s[0]) < rank(x)
    ensures forall i, j :: 0 <= i < j < |s[1..]| ==> rank(s[1..][i]) < rank(s[1..][j])
  {
    forall x | x in s[1..] ensures rank(s[0]) < rank(x) {
      var k :| 0 <= k < |s[1..]| && s[1..][k] == x;
      assert s[k + 1] == x;
    }
    forall i, j | 0 <= i < j < |s[1..]| ensures rank(s[1..][i]) < rank(s[1..][j]) {
      assert s[1..][i] == s[i + 1] && s[1..][j] == s[j + 1];
    }
  }

  /** Putting an entry that ranks below all of `t` in front of `t` keeps the rank strictly increasing. */
  lemma {:induction false} ConsKeepsRank(x: ProjectUsage, t: seq<ProjectUsage>, rank: ProjectUsage -> int)
    requires forall y :: y in t ==> rank(x) < rank(y)
    requires forall i, j :: 0 <= i < j < |t| ==> rank(t[i]) < rank(t[j])
    ensures forall i, j :: 0 <= i < j < |[x] + t| ==> rank(([x] + t)[i]) < rank(([x] + t)[j])
  {
    var r := [x] + t;
    forall i, j | 0 <= i < j < |r| ensures rank(r[i]) < rank(r[j]) {
      assert r[j] == t[j - 1] && t[j - 1] in t;
      if i != 0 {
        assert r[i] == t[i - 1];
      }
    }
  }

  /** Taking the entries of one cost keeps any strictly increasing ranking of the entries. */
  lemma {:induction false} WithCostKeepsRank(s: seq<ProjectUsage>, c: real, rank: ProjectUsage -> int)
    requires forall i, j :: 0 <= i < j < |s| ==> rank(s[i]) < rank(s[j])
    ensures forall a, b :: 0 <= a < b < |WithCost(s, c)| ==> rank(WithCost(s, c)[a]) < rank(WithCost(s, c)[b])
  {
    if s != [] {
      assert s == [s[0]] + s[1..];
      WithCostCons(s[0], s[1..], c);
      HeadRankBelow(s, rank);
      WithCostKeepsRank(s[1..], c, rank);
      if s[0].totalCost == c {
        WithCostMembers(s[1..], c);
        ConsKeepsRank(s[0], WithCost(s[1..], c), rank);
      }
    }
  }

  /**
   * When the entries of cost `c` come in increasing rank, any two entries of
   * `s` that both cost `c` are in increasing rank.
   */
  lemma {:induction false} TiesFollowRank(s: seq<ProjectUsage>, c: real, rank: ProjectUsage -> int)
    requires forall a, b :: 0 <= a < b < |WithCost(s, c)| ==> rank(WithCost(s, c)[a]) < rank(WithCost(s, c)[b])
    ensures forall i, j :: 0 <= i < j < |s| && s[i].totalCost == c && s[j].totalCost == c ==> rank(s[i]) < rank(s[j])
  {
    if s != [] {
      var w := WithCost(s, c);
      var rest := WithCost(s[1..], c);
      WithCostMembers(s[1..], c);
      if s[0].totalCost == c {
        assert w == [s[0]] + rest;
        assert forall a, b :: 0 <= a < b < |rest| ==> rank(rest[a]) < rank(rest[b]) by {
          forall a, b | 0 <= a < b < |rest| ensures rank(rest[a]) < rank(rest[b]) {
            assert rest[a] == w[a + 1] && rest[b] == w[b + 1];
            assert 0 <= a + 1 < b + 1 < |w|;
          }
        }
      } else {
        assert w == rest;
      }
      TiesFollowRank(s[1..], c, rank);
      forall i, j | 0 <= i < j < |s| && s[i].totalCost == c && s[j].totalCost == c
        ensures rank(s[i]) < rank(s[j])
      {
        assert s[j] == s[1..][j - 1];
        if i == 0 {
          assert s[j] in rest;
          var b :| 0 <= b < |rest| && rest[b] == s[j];
          assert w[0] == s[0] && w[b + 1] == s[j];
        } else {
          assert s[i] == s[1..][i - 1];
        }
      }
    }
  }
}
