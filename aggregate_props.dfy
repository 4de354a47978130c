/**
 * What the aggregation of fetchUsageData guarantees, stated against
 * reference definitions over the result lines: the total is the sum of all
 * result amounts, each project entry holds exactly the cost and tokens of
 * the lines under its key, the daily series has one point per line, and
 * the project list is a cost-ordered permutation whose costs add up to the
 * total.
 */
module AggregationProperties {
  import opened ApiTypes
  import opened Pricing
  import opened ProjectSort
  import opened UsageAggregation

  // ---------------------------------------------------------------------
  // Reference definitions
  // ---------------------------------------------------------------------

  /** The sum of the amounts of a bucket's results. */
  function ResultsCost(results: seq<CostResult>): real
  {
    if results == [] then 0.0 else ResultsCost(results[..|results| - 1]) + results[|results| - 1].amount.value
  }

  /** The sum of the amounts of all results of all buckets. */
  function BucketsCost(buckets: seq<CostBucket>): real
  {
    if buckets == [] then 0.0 else BucketsCost(buckets[..|buckets| - 1]) + ResultsCost(buckets[|buckets| - 1].results)
  }

  /** The sum of the lines' amounts. */
  function LinesCost(lines: seq<Line>): real
  {
    if lines == [] then 0.0 else LinesCost(lines[..|lines| - 1]) + lines[|lines| - 1].result.amount.value
  }

  /** The sum of the lines' token estimates. */
  function LinesTokens(lines: seq<Line>): int
  {
    if lines == [] then 0 else LinesTokens(lines[..|lines| - 1]) + LineTokens(lines[|lines| - 1].result.amount.value)
  }

  /** The sum of the amounts of the lines under `key`. */
  function KeyCost(lines: seq<Line>, key: string): real
  {
    if lines == [] then 0.0
    else
      var last := lines[|lines| - 1];
      KeyCost(lines[..|lines| - 1], key) + (if LineKey(last) == key then last.result.amount.value else 0.0)
  }

  /** The sum of the token estimates of the lines under `key`. */
  function KeyTokens(lines: seq<Line>, key: string): int
  {
    if lines == [] then 0
    else
      var last := lines[|lines| - 1];
      KeyTokens(lines[..|lines| - 1], key) + (if LineKey(last) == key then LineTokens(last.result.amount.value) else 0)
  }

  /** Some line falls under `key`. */
  predicate HasKey(lines: seq<Line>, key: string)
  {
    exists i :: 0 <= i < |lines| && LineKey(lines[i]) == key
  }

  /** The project id of the first line under `key`. */
  function FirstId(lines: seq<Line>, key: string): (id: Option<string>)
    requires HasKey(lines, key)
    ensures exists i :: && 0 <= i < |lines| && LineKey(lines[i]) == key && id == lines[i].result.project_id
                        && forall j :: 0 <= j < i ==> LineKey(lines[j]) != key
  {
    var init := lines[..|lines| - 1];
    if HasKey(init, key) then
      var id := FirstId(init, key);
      assert forall j :: 0 <= j < |init| ==> lines[j] == init[j];
      id
    else
      lines[|lines| - 1].result.project_id
  }

  /** The entry the lines under `key` should produce. */
  function ExpectedEntry(lines: seq<Line>, key: string): ProjectUsage
    requires HasKey(lines, key)
  {
    var id := FirstId(lines, key);
    ProjectUsage(id, ProjectName(id), KeyCost(lines, key), KeyTokens(lines, key))
  }

  /** `projectMap.get(key)`: the entry stored under `key`, if any. */
  function ProjectEntry(projects: seq<ProjectUsage>, key: string): Option<ProjectUsage>
  {
    var i := IndexOfKey(projects, key);
    if i < |projects| then Some(projects[i]) else None
  }

  function SumTokens(s: seq<ProjectUsage>): int
  {
    if s == [] then 0 else s[0].totalTokens + SumTokens(s[1..])
  }

  /** The position of the first line under `key`, or |lines| when no line is. */
  function FirstIndex(lines: seq<Line>, key: string): (i: nat)
    ensures i <= |lines|
    ensures i < |lines| ==> LineKey(lines[i]) == key
    ensures forall j :: 0 <= j < i ==> LineKey(lines[j]) != key
  {
    if lines == [] then 0
    else if LineKey(lines[0]) == key then 0
    else 1 + FirstIndex(lines[1..], key)
  }

  // ---------------------------------------------------------------------
  // One line
  // ---------------------------------------------------------------------

  lemma HasKeySnoc(lines: seq<Line>, key: string)
    requires lines != []
    ensures HasKey(lines, key) <==> HasKey(lines[..|lines| - 1], key) || LineKey(lines[|lines| - 1]) == key
  {
    var init := lines[..|lines| - 1];
    if HasKey(init, key) {
      var i :| 0 <= i < |init| && LineKey(init[i]) == key;
      assert lines[i] == init[i];
    }
    if HasKey(lines, key) && LineKey(lines[|lines| - 1]) != key {
      var i :| 0 <= i < |lines| && LineKey(lines[i]) == key;
      assert init[i] == lines[i];
    }
  }

  lemma {:induction false} AbsentKeyCostsNothing(lines: seq<Line>, key: string)
    requires !HasKey(lines, key)
    ensures KeyCost(lines, key) == 0.0 && KeyTokens(lines, key) == 0
  {
    if lines != [] {
      HasKeySnoc(lines, key);
      AbsentKeyCostsNothing(lines[..|lines| - 1], key);
    }
  }

  lemma {:induction false} SumCostsUpdate(s: seq<ProjectUsage>, i: nat, p: ProjectUsage)
    requires i < |s|
    ensures SumCosts(s[i := p]) == SumCosts(s) - s[i].totalCost + p.totalCost
    ensures SumTokens(s[i := p]) == SumTokens(s) - s[i].totalTokens + p.totalTokens
  {
    if i > 0 {
      assert s[i := p][1..] == s[1..][i - 1 := p];
      SumCostsUpdate(s[1..], i - 1, p);
    } else {
      assert s[i := p][1..] == s[1..];
    }
  }

  lemma {:induction false} SumTokensAppend(a: seq<ProjectUsage>, b: seq<ProjectUsage>)
    ensures SumTokens(a + b) == SumTokens(a) + SumTokens(b)
  {
    if a != [] {
      assert (a + b)[1..] == a[1..] + b;
      SumTokensAppend(a[1..], b);
    } else {
      assert a + b == b;
    }
  }

  /** With distinct keys, an entry is found at its own position. */
  lemma IndexOfOwnKey(projects: seq<ProjectUsage>, i: nat)
    requires DistinctKeys(projects) && i < |projects|
    ensures IndexOfKey(projects, EntryKey(projects[i])) == i
  {
  }

  /**
   * The Map operations for one line touch only the entry under the line's
   * key: they create it with the line's project id and name when absent,
   * and add the line's cost and tokens to it.
   */
  /** The Map operations for one line leave every other key's entry as it was. */
  lemma AddToProjectOthers(projects: seq<ProjectUsage>, id: Option<string>, cost: real)
    requires DistinctKeys(projects)
    ensures var after := AddToProject(projects, id, cost);
      && DistinctKeys(after)
      && IndexOfKey(after, ProjectKey(id)) == IndexOfKey(projects, ProjectKey(id))
      && (forall k :: k != ProjectKey(id) ==> ProjectEntry(after, k) == ProjectEntry(projects, k))
  {
    var key := ProjectKey(id);
    var i := IndexOfKey(projects, key);
    var after := AddToProject(projects, id, cost);
    var withEntry := if i == |projects| then projects + [ProjectUsage(id, ProjectName(id), 0.0, 0)] else projects;
    assert |after| == |withEntry| && after == withEntry[i := after[i]];
    assert forall j :: 0 <= j < |after| ==> EntryKey(after[j]) == EntryKey(withEntry[j]);
    assert forall j :: 0 <= j < |projects| ==> after[j] == projects[j] || j == i;
    assert EntryKey(after[i]) == key;
    assert DistinctKeys(after);
    IndexOfOwnKey(after, i);
    forall k | k != key ensures ProjectEntry(after, k) == ProjectEntry(projects, k) {
      var j := IndexOfKey(projects, k);
      if j < |projects| {
        assert after[j] == projects[j];
        IndexOfOwnKey(after, j);
      } else {
        assert forall m :: 0 <= m < |after| ==> EntryKey(after[m]) != k;
      }
    }
  }

  /** The Map operations for one line add the line's cost and tokens to the entries' sums. */
  lemma AddToProjectSums(projects: seq<ProjectUsage>, id: Option<string>, cost: real)
    ensures SumCosts(AddToProject(projects, id, cost)) == SumCosts(projects) + cost
    ensures SumTokens(AddToProject(projects, id, cost)) == SumTokens(projects) + LineTokens(cost)
  {
    var i := IndexOfKey(projects, ProjectKey(id));
    var after := AddToProject(projects, id, cost);
    var newEntry := ProjectUsage(id, ProjectName(id), 0.0, 0);
    if i == |projects| {
      var withEntry := projects + [newEntry];
      assert after == withEntry[i := after[i]];
      SumCostsUpdate(withEntry, i, after[i]);
      SumCostsAppend(projects, [newEntry]);
      SumTokensAppend(projects, [newEntry]);
      assert SumCosts([newEntry]) == 0.0;
      assert SumTokens([newEntry]) == 0;
    } else {
      assert after == projects[i := after[i]];
      SumCostsUpdate(projects, i, after[i]);
    }
  }

  /**
   * The Map operations for one line touch only the entry under the line's
   * key: they create it with the line's project id and name when absent,
   * and add the line's cost and tokens to it.
   */
  lemma AddToProjectEffect(projects: seq<ProjectUsage>, id: Option<string>, cost: real)
    requires DistinctKeys(projects)
    ensures var after := AddToProject(projects, id, cost);
      && DistinctKeys(after)
      && (forall k :: k != ProjectKey(id) ==> ProjectEntry(after, k) == ProjectEntry(projects, k))
      && ProjectEntry(after, ProjectKey(id)) ==
           Some(match ProjectEntry(projects, ProjectKey(id))
                case None => ProjectUsage(id, ProjectName(id), 0.0 + cost, 0 + LineTokens(cost))
                case Some(e) => e.(totalCost := e.totalCost + cost, totalTokens := e.totalTokens + LineTokens(cost)))
      && SumCosts(after) == SumCosts(projects) + cost
      && SumTokens(after) == SumTokens(projects) + LineTokens(cost)
  {
    AddToProjectOthers(projects, id, cost);
    AddToProjectSums(projects, id, cost);
    AddToProjectKeys(projects, id, cost);
  }

  // ---------------------------------------------------------------------
  // The fold
  // ---------------------------------------------------------------------

  /** The running totals: the total and the model entry are the sum of the lines' amounts. */
  lemma {:induction false} FoldTotals(lines: seq<Line>)
    ensures Fold(lines).total == LinesCost(lines)
    ensures Fold(lines).modelTotal == if lines == [] then None else Some(LinesCost(lines))
  {
    if lines != [] {
      FoldTotals(lines[..|lines| - 1]);
    }
  }

  lemma FoldLastDaily(lines: seq<Line>)
    requires lines != []
    ensures Fold(lines).daily == Fold(lines[..|lines| - 1]).daily + [DailyPoint(lines[|lines| - 1])]
  {
  }

  lemma FoldLastProjects(lines: seq<Line>)
    requires lines != []
    ensures var last := lines[|lines| - 1];
      Fold(lines).projects == AddToProject(Fold(lines[..|lines| - 1]).projects, last.result.project_id, last.result.amount.value)
  {
  }

  /** The daily series holds one point per line, in line order. */
  lemma {:induction false} FoldDaily(lines: seq<Line>)
    ensures |Fold(lines).daily| == |lines|
    ensures forall i :: 0 <= i < |lines| ==> Fold(lines).daily[i] == DailyPoint(lines[i])
  {
    if lines != [] {
      var init := lines[..|lines| - 1];
      FoldDaily(init);
      var daily := Fold(lines).daily;
      var prev := Fold(init).daily;
      FoldLastDaily(lines);
      assert daily == prev + [DailyPoint(lines[|lines| - 1])];
      forall i | 0 <= i < |lines| ensures daily[i] == DailyPoint(lines[i]) {
        if i < |init| {
          assert daily[i] == prev[i] && lines[i] == init[i];
        } else {
          assert daily[i] == DailyPoint(lines[|lines| - 1]);
        }
      }
    }
  }

  /** One more line keeps every key's entry equal to the expected entry of the longer list of lines. */
  lemma EntryStep(init: seq<Line>, line: Line, before: seq<ProjectUsage>, k: string)
    requires DistinctKeys(before)
    requires ProjectEntry(before, k) == if HasKey(init, k) then Some(ExpectedEntry(init, k)) else None
    ensures var after := AddToProject(before, line.result.project_id, line.result.amount.value);
      ProjectEntry(after, k) == if HasKey(init + [line], k) then Some(ExpectedEntry(init + [line], k)) else None
  {
    var lines := init + [line];
    var cost := line.result.amount.value;
    assert lines[..|lines| - 1] == init && lines[|lines| - 1] == line;
    AddToProjectEffect(before, line.result.project_id, cost);
    HasKeySnoc(lines, k);
    assert KeyCost(lines, k) == KeyCost(init, k) + (if LineKey(line) == k then cost else 0.0);
    assert KeyTokens(lines, k) == KeyTokens(init, k) + (if LineKey(line) == k then LineTokens(cost) else 0);
    if HasKey(init, k) {
      assert FirstId(lines, k) == FirstId(init, k);
    } else if k == LineKey(line) {
      AbsentKeyCostsNothing(init, k);
      assert FirstId(lines, k) == line.result.project_id;
    }
  }


  /**
   * The project entries: keys are distinct, there is an entry exactly for
   * the keys some line falls under, that entry is the expected one, and the
   * entries' costs and tokens add up to those of all lines.
   */
  lemma {:induction false} FoldProjects(lines: seq<Line>)
    ensures DistinctKeys(Fold(lines).projects)
    ensures forall k :: ProjectEntry(Fold(lines).projects, k) ==
                        if HasKey(lines, k) then Some(ExpectedEntry(lines, k)) else None
    ensures SumCosts(Fold(lines).projects) == LinesCost(lines)
    ensures SumTokens(Fold(lines).projects) == LinesTokens(lines)
  {
    if lines != [] {
      var init := lines[..|lines| - 1];
      var line := lines[|lines| - 1];
      var key := LineKey(line);
      FoldProjects(init);
      var before := Fold(init).projects;
      var after := Fold(lines).projects;
      var cost := line.result.amount.value;
      FoldLastProjects(lines);
      AddToProjectEffect(before, line.result.project_id, cost);
      assert lines == init + [line];
      forall k ensures ProjectEntry(after, k) == if HasKey(lines, k) then Some(ExpectedEntry(lines, k)) else None {
        EntryStep(init, line, before, k);
      }
    }
  }

  lemma HasKeyIffFirstIndex(lines: seq<Line>, key: string)
    ensures HasKey(lines, key) <==> FirstIndex(lines, key) < |lines|
  {
  }

  /** Where a key first occurs once one more line is appended. */
  lemma FirstIndexSnoc(init: seq<Line>, line: Line, key: string)
    ensures FirstIndex(init + [line], key) ==
              if FirstIndex(init, key) < |init| then FirstIndex(init, key)
              else if LineKey(line) == key then |init|
              else |init| + 1
  {
    var lines := init + [line];
    var f := FirstIndex(lines, key);
    var g := FirstIndex(init, key);
    assert forall j :: 0 <= j < |init| ==> lines[j] == init[j];
    assert lines[|init|] == line;
    if g < |init| {
      assert lines[g] == init[g];
    }
  }

  /** The keys of the entries are unchanged, and a new key is appended at the end. */
  lemma AddToProjectKeys(projects: seq<ProjectUsage>, id: Option<string>, cost: real)
    ensures var after := AddToProject(projects, id, cost);
      var isNew := IndexOfKey(projects, ProjectKey(id)) == |projects|;
      && |after| == (if isNew then |projects| + 1 else |projects|)
      && (forall j :: 0 <= j < |projects| ==> EntryKey(after[j]) == EntryKey(projects[j]))
      && (isNew ==> EntryKey(after[|projects|]) == ProjectKey(id))
  {
  }

  /**
   * Map insertion order: every entry's key occurs among the lines, and of
   * two entries the earlier one's key occurs first.
   */
  ghost predicate InFirstSeenOrder(projects: seq<ProjectUsage>, lines: seq<Line>)
  {
    && (forall i :: 0 <= i < |projects| ==> FirstIndex(lines, EntryKey(projects[i])) < |lines|)
    && (forall i, j :: 0 <= i < j < |projects| ==>
          FirstIndex(lines, EntryKey(projects[i])) < FirstIndex(lines, EntryKey(projects[j])))
  }

  /** One more line keeps the entries in first-seen order; a new key goes last. */
  lemma OrderStep(init: seq<Line>, line: Line, before: seq<ProjectUsage>)
    requires InFirstSeenOrder(before, init)
    requires IndexOfKey(before, LineKey(line)) == |before| ==> !HasKey(init, LineKey(line))
    ensures InFirstSeenOrder(AddToProject(before, line.result.project_id, line.result.amount.value), init + [line])
  {
    var lines := init + [line];
    var after := AddToProject(before, line.result.project_id, line.result.amount.value);
    AddToProjectKeys(before, line.result.project_id, line.result.amount.value);
    forall j | 0 <= j < |before| ensures FirstIndex(lines, EntryKey(after[j])) == FirstIndex(init, EntryKey(before[j])) {
      FirstIndexSnoc(init, line, EntryKey(before[j]));
    }
    if |after| > |before| {
      HasKeyIffFirstIndex(init, LineKey(line));
      FirstIndexSnoc(init, line, LineKey(line));
      assert FirstIndex(lines, EntryKey(after[|before|])) == |init|;
    }
  }

  /** A key with no entry in the project map is one no line falls under. */
  lemma FoldNewKeyUnseen(lines: seq<Line>, k: string)
    ensures IndexOfKey(Fold(lines).projects, k) == |Fold(lines).projects| ==> !HasKey(lines, k)
  {
    FoldProjects(lines);
    assert ProjectEntry(Fold(lines).projects, k).None? <==> !HasKey(lines, k);
  }

  /** The project map is in first-seen order. */
  lemma {:induction false} FoldFirstSeenOrder(lines: seq<Line>)
    ensures InFirstSeenOrder(Fold(lines).projects, lines)
  {
    if lines != [] {
      var init := lines[..|lines| - 1];
      var line := lines[|lines| - 1];
      FoldFirstSeenOrder(init);
      assert lines == init + [line];
      FoldNewKeyUnseen(init, LineKey(line));
      FoldLastProjects(lines);
      OrderStep(init, line, Fold(init).projects);
    }
  }

  /** Floor is superadditive on the estimates: the sum of estimates never exceeds the estimate of the sum. */
  lemma EstimateSuperadditive(a: real, b: real)
    ensures LineTokens(a) + LineTokens(b) <= LineTokens(a + b)
  {
    var x := a / DefaultRate * TokensPerMillion;
    var y := b / DefaultRate * TokensPerMillion;
    assert (a + b) / DefaultRate * TokensPerMillion == x + y;
  }

  lemma {:induction false} LinesTokensAtMost(lines: seq<Line>)
    ensures LinesTokens(lines) <= LineTokens(LinesCost(lines))
  {
    if lines != [] {
      var init := lines[..|lines| - 1];
      LinesTokensAtMost(init);
      var c := lines[|lines| - 1].result.amount.value;
      EstimateSuperadditive(LinesCost(init), c);
    }
  }

  // ---------------------------------------------------------------------
  // Buckets and lines
  // ---------------------------------------------------------------------

  lemma {:induction false} LinesCostAppend(a: seq<Line>, b: seq<Line>)
    ensures LinesCost(a + b) == LinesCost(a) + LinesCost(b)
    decreases |b|
  {
    if b == [] {
      assert a + b == a;
    } else {
      assert (a + b)[..|a + b| - 1] == a + b[..|b| - 1];
      LinesCostAppend(a, b[..|b| - 1]);
    }
  }

  lemma {:induction false} ResultLinesCost(results: seq<CostResult>, date: string)
    ensures LinesCost(ResultLines(results, date)) == ResultsCost(results)
  {
    if results != [] {
      var lines := ResultLines(results, date);
      assert lines[..|lines| - 1] == ResultLines(results[..|results| - 1], date);
      ResultLinesCost(results[..|results| - 1], date);
    }
  }

  /** The lines carry exactly the amounts of the buckets' results. */
  lemma {:induction false} LinesCostIsBucketsCost(buckets: seq<CostBucket>, dateOf: int -> string)
    ensures LinesCost(Lines(buckets, dateOf)) == BucketsCost(buckets)
  {
    if buckets != [] {
      var last := buckets[|buckets| - 1];
      LinesCostIsBucketsCost(buckets[..|buckets| - 1], dateOf);
      LinesCostAppend(Lines(buckets[..|buckets| - 1], dateOf), ResultLines(last.results, dateOf(last.start_time)));
      ResultLinesCost(last.results, dateOf(last.start_time));
    }
  }

  /** There are no lines exactly when every bucket is empty. */
  lemma {:induction false} NoLinesIffEmptyBuckets(buckets: seq<CostBucket>, dateOf: int -> string)
    ensures Lines(buckets, dateOf) == [] <==> forall b :: 0 <= b < |buckets| ==> buckets[b].results == []
  {
    if buckets != [] {
      var init := buckets[..|buckets| - 1];
      NoLinesIffEmptyBuckets(init, dateOf);
      assert forall b :: 0 <= b < |init| ==> buckets[b] == init[b];
    }
  }

  // ---------------------------------------------------------------------
  // The response
  // ---------------------------------------------------------------------

  /**
   * totalCost is the sum of every result amount; modelUsage is empty when no
   * bucket has a result, and otherwise the single "api-usage" entry holding
   * the total and the estimate for the total.
   */
  lemma AggregateTotals(buckets: seq<CostBucket>, dateOf: int -> string)
    ensures Aggregate(buckets, dateOf).totalCost == BucketsCost(buckets)
    ensures var usage := Aggregate(buckets, dateOf);
      if forall b :: 0 <= b < |buckets| ==> buckets[b].results == [] then usage.modelUsage == []
      else usage.modelUsage == [ModelUsage(ApiUsageModel, usage.totalCost, EstimateTokensFromCost(usage.totalCost, ApiUsageModel))]
  {
    var lines := Lines(buckets, dateOf);
    FoldTotals(lines);
    LinesCostIsBucketsCost(buckets, dateOf);
    NoLinesIffEmptyBuckets(buckets, dateOf);
    EstimateIsFallback(BucketsCost(buckets));
  }

  /** dailyUsage has one "api-usage" point per result line, dated by its bucket. */
  lemma AggregateDaily(buckets: seq<CostBucket>, dateOf: int -> string)
    ensures var lines := Lines(buckets, dateOf);
      var daily := Aggregate(buckets, dateOf).dailyUsage;
      && |daily| == |lines|
      && forall i :: 0 <= i < |lines| ==>
           && daily[i].model == ApiUsageModel
           && daily[i].cost == lines[i].result.amount.value
           && daily[i].tokens == EstimateTokensFromCost(lines[i].result.amount.value, ApiUsageModel)
           && daily[i].timestamp == lines[i].date
           && daily[i].project_id == lines[i].result.project_id
  {
    var lines := Lines(buckets, dateOf);
    FoldDaily(lines);
    forall i | 0 <= i < |lines| ensures LineTokens(lines[i].result.amount.value) ==
                                        EstimateTokensFromCost(lines[i].result.amount.value, ApiUsageModel) {
      EstimateIsFallback(lines[i].result.amount.value);
    }
  }

  /** Every entry of the project map is the expected entry of its own key. */
  lemma FoldEntriesExpected(lines: seq<Line>)
    ensures forall p :: p in Fold(lines).projects ==> HasKey(lines, EntryKey(p)) && p == ExpectedEntry(lines, EntryKey(p))
  {
    var projects := Fold(lines).projects;
    FoldProjects(lines);
    forall p | p in projects ensures HasKey(lines, EntryKey(p)) && p == ExpectedEntry(lines, EntryKey(p)) {
      var i :| 0 <= i < |projects| && projects[i] == p;
      IndexOfOwnKey(projects, i);
      assert ProjectEntry(projects, EntryKey(p)) == Some(p);
    }
  }

  /** Every key some line falls under has its expected entry in the project map. */
  lemma FoldKeysPresent(lines: seq<Line>)
    ensures forall k :: HasKey(lines, k) ==> ExpectedEntry(lines, k) in Fold(lines).projects
  {
    var projects := Fold(lines).projects;
    FoldProjects(lines);
    forall k | HasKey(lines, k) ensures ExpectedEntry(lines, k) in projects {
      assert ProjectEntry(projects, k) == Some(ExpectedEntry(lines, k));
    }
  }

  /** The stable sort keeps equal-cost entries in the order their keys first occur among the lines. */
  lemma SortedTiesFirstSeen(lines: seq<Line>)
    ensures var sorted := SortByCostDesc(Fold(lines).projects);
      forall i, j :: 0 <= i < j < |sorted| && sorted[i].totalCost == sorted[j].totalCost ==>
        FirstIndex(lines, EntryKey(sorted[i])) < FirstIndex(lines, EntryKey(sorted[j]))
  {
    var projects := Fold(lines).projects;
    var sorted := SortByCostDesc(projects);
    FoldFirstSeenOrder(lines);
    var rank := (p: ProjectUsage) => FirstIndex(lines, EntryKey(p)) as int;
    assert forall i, j :: 0 <= i < j < |projects| ==> rank(projects[i]) < rank(projects[j]);
    forall i, j | 0 <= i < j < |sorted| && sorted[i].totalCost == sorted[j].totalCost
      ensures FirstIndex(lines, EntryKey(sorted[i])) < FirstIndex(lines, EntryKey(sorted[j]))
    {
      var c := sorted[i].totalCost;
      WithCostKeepsRank(projects, c, rank);
      assert WithCost(sorted, c) == WithCost(projects, c);
      TiesFollowRank(sorted, c, rank);
      assert rank(sorted[i]) < rank(sorted[j]);
    }
  }

  /** The sorted project list holds exactly the expected entries of the keys that occur. */
  lemma SortedEntriesExpected(lines: seq<Line>)
    ensures var sorted := SortByCostDesc(Fold(lines).projects);
      && (forall p :: p in sorted ==> HasKey(lines, EntryKey(p)) && p == ExpectedEntry(lines, EntryKey(p)))
      && (forall k :: HasKey(lines, k) ==> ExpectedEntry(lines, k) in sorted)
  {
    var projects := Fold(lines).projects;
    var sorted := SortByCostDesc(projects);
    FoldEntriesExpected(lines);
    FoldKeysPresent(lines);
    assert forall p :: p in sorted <==> p in projects by {
      forall p ensures p in sorted <==> p in projects {
        assert p in sorted <==> p in multiset(sorted);
        assert p in projects <==> p in multiset(projects);
      }
    }
  }

  /**
   * projectUsage is ordered by cost, highest first, and keeps equal-cost
   * entries in the order their keys first occur among the results; every
   * entry is the expected entry of its key.
   * Every key some result falls under has an entry, and the entries' costs
   * add up to totalCost.
   */
  lemma AggregateProjects(buckets: seq<CostBucket>, dateOf: int -> string)
    ensures var lines := Lines(buckets, dateOf);
      var usage := Aggregate(buckets, dateOf);
      && SortedByCostDesc(usage.projectUsage)
      && multiset(usage.projectUsage) == multiset(Fold(lines).projects)
      && (forall c :: WithCost(usage.projectUsage, c) == WithCost(Fold(lines).projects, c))
      && (forall i, j :: 0 <= i < j < |usage.projectUsage| && usage.projectUsage[i].totalCost == usage.projectUsage[j].totalCost ==>
            FirstIndex(lines, EntryKey(usage.projectUsage[i])) < FirstIndex(lines, EntryKey(usage.projectUsage[j])))
      && (forall p :: p in usage.projectUsage ==> HasKey(lines, EntryKey(p)) && p == ExpectedEntry(lines, EntryKey(p)))
      && (forall k :: HasKey(lines, k) ==> ExpectedEntry(lines, k) in usage.projectUsage)
      && SumCosts(usage.projectUsage) == usage.totalCost
  {
    var lines := Lines(buckets, dateOf);
    FoldProjects(lines);
    FoldTotals(lines);
    SortedEntriesExpected(lines);
    SortedTiesFirstSeen(lines);
  }

  /**
   * A project's tokens are the sum of per-line estimates, each floored, so
   * the project token totals together never exceed the model entry's
   * estimate for the whole cost.
   */
  lemma ProjectTokensAtMostModelTokens(buckets: seq<CostBucket>, dateOf: int -> string)
    requires exists b :: 0 <= b < |buckets| && buckets[b].results != []
    ensures var usage := Aggregate(buckets, dateOf);
      |usage.modelUsage| == 1 && SumTokens(Fold(Lines(buckets, dateOf)).projects) <= usage.modelUsage[0].totalTokens
  {
    var lines := Lines(buckets, dateOf);
    FoldTotals(lines);
    FoldProjects(lines);
    NoLinesIffEmptyBuckets(buckets, dateOf);
    LinesTokensAtMost(lines);
  }
}
