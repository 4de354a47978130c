/**
 * The transformation inside fetchUsageData: every result line of every cost
 * bucket is added to a running total, to the single "api-usage" model entry,
 * to its project's entry (keyed by project id, unassigned lines under
 * "default"), and to the daily series; the project entries are then ordered
 * by cost, highest first.
 *
 * The specification is a left fold over the result lines (AddLine); the
 * method runs the source's nested loops and is proved to compute the fold.
 * `dateOf` is the conversion of a bucket's start time to its ISO date.
 */
module UsageAggregation {
  import opened ApiTypes
  import opened Pricing
  import opened ProjectSort

  /** The model name every cost line is attributed to. */
  const ApiUsageModel: string := "api-usage"
  /** The project key and the project name of lines without a project id. */
  const DefaultProjectKey: string := "default"
  const DefaultProjectName: string := "Default Project"

  /** One result line, with the date of its bucket. */
  datatype Line = Line(date: string, result: CostResult)

  /** The lines of one bucket's results, in order. */
  function ResultLines(results: seq<CostResult>, date: string): (lines: seq<Line>)
    ensures |lines| == |results|
    ensures forall j :: 0 <= j < |lines| ==> lines[j] == Line(date, results[j])
  {
    seq(|results|, j requires 0 <= j < |results| => Line(date, results[j]))
  }

  /** The lines of all buckets, bucket by bucket. */
  function Lines(buckets: seq<CostBucket>, dateOf: int -> string): seq<Line>
  {
    if buckets == [] then []
    else
      var last := buckets[|buckets| - 1];
      Lines(buckets[..|buckets| - 1], dateOf) + ResultLines(last.results, dateOf(last.start_time))
  }

  // ---------------------------------------------------------------------
  // Dates
  // ---------------------------------------------------------------------

  /**
   * The largest magnitude, in seconds, of a valid JavaScript date: a time
   * value beyond 8.64e15 ms is an invalid date, whose `toISOString()`
   * throws a RangeError.
   */
  const MaxDateSeconds: int := 8640000000000

  predicate Representable(t: int)
  {
    -MaxDateSeconds <= t <= MaxDateSeconds
  }

  /** Every bucket whose date is converted (one with results) has a representable start time. */
  predicate DatesRepresentable(buckets: seq<CostBucket>)
  {
    forall b :: 0 <= b < |buckets| && buckets[b].results != [] ==> Representable(buckets[b].start_time)
  }

  // ---------------------------------------------------------------------
  // Project keys
  // ---------------------------------------------------------------------

  /** `project_id || "default"`. */
  function ProjectKey(id: Option<string>): (key: string)
    ensures Truthy(id) ==> key == id.value
    ensures !Truthy(id) ==> key == DefaultProjectKey
  {
    if Truthy(id) then id.value else DefaultProjectKey
  }

  /** `project_id || "Default Project"`. */
  function ProjectName(id: Option<string>): (name: string)
    ensures Truthy(id) ==> name == id.value
    ensures !Truthy(id) ==> name == DefaultProjectName
  {
    if Truthy(id) then id.value else DefaultProjectName
  }

  function LineKey(line: Line): string
  {
    ProjectKey(line.result.project_id)
  }

  function EntryKey(p: ProjectUsage): string
  {
    ProjectKey(p.project_id)
  }

  /** The position of the entry for `key`, or |projects| when there is none (Map.has / Map.get). */
  function IndexOfKey(projects: seq<ProjectUsage>, key: string): (i: nat)
    ensures i <= |projects|
    ensures i < |projects| ==> EntryKey(projects[i]) == key
    ensures forall j :: 0 <= j < i ==> EntryKey(projects[j]) != key
  {
    if projects == [] then 0
    else if EntryKey(projects[0]) == key then 0
    else 1 + IndexOfKey(projects[1..], key)
  }

  /** No two entries share a key. */
  predicate DistinctKeys(projects: seq<ProjectUsage>)
  {
    forall i, j :: 0 <= i < j < |projects| ==> EntryKey(projects[i]) != EntryKey(projects[j])
  }

  // ---------------------------------------------------------------------
  // The fold
  // ---------------------------------------------------------------------

  /**
   * The tokens estimated for a cost attributed to "api-usage": that name is
   * not priced, so the estimate uses the fallback rate of one dollar per
   * million tokens (see EstimateIsFallback).
   */
  function LineTokens(cost: real): int
  {
    (cost / DefaultRate * TokensPerMillion).Floor
  }

  lemma EstimateIsFallback(cost: real)
    ensures LineTokens(cost) == EstimateTokensFromCost(cost, ApiUsageModel)
  {
    ApiUsageUsesFallbackRate(cost);
  }

  /** The running state of the loops: totalCost, modelMap, projectMap and dailyUsage. */
  datatype Acc = Acc(
    total: real,
    modelTotal: Option<real>,
    projects: seq<ProjectUsage>,
    daily: seq<UsageData>)

  const Empty: Acc := Acc(0.0, None, [], [])

  /**
   * The Map operations on projectMap for one line: an empty entry is set
   * under the line's key on first sight, then the entry's cost and tokens
   * are increased.
   */
  function AddToProject(projects: seq<ProjectUsage>, id: Option<string>, cost: real): seq<ProjectUsage>
  {
    var i := IndexOfKey(projects, ProjectKey(id));
    var withEntry := if i == |projects| then projects + [ProjectUsage(id, ProjectName(id), 0.0, 0)] else projects;
    withEntry[i := withEntry[i].(totalCost := withEntry[i].totalCost + cost,
                                 totalTokens := withEntry[i].totalTokens + LineTokens(cost))]
  }

  /** The daily point of one line. */
  function DailyPoint(line: Line): UsageData
  {
    var cost := line.result.amount.value;
    UsageData(ApiUsageModel, cost, LineTokens(cost), line.date, line.result.project_id)
  }

  /** One iteration of the inner loop. */
  function AddLine(acc: Acc, line: Line): Acc
  {
    var cost := line.result.amount.value;
    Acc(acc.total + cost,
        Some((if acc.modelTotal.Some? then acc.modelTotal.value else 0.0) + cost),
        AddToProject(acc.projects, line.result.project_id, cost),
        acc.daily + [DailyPoint(line)])
  }

  /** The state after the given lines, from the empty state. */
  function Fold(lines: seq<Line>): Acc
  {
    if lines == [] then Empty else AddLine(Fold(lines[..|lines| - 1]), lines[|lines| - 1])
  }

  /** Building the response from the final state. */
  function Summarize(acc: Acc): UsageResponse
  {
    UsageResponse(
      acc.total,
      if acc.modelTotal.Some?
        then [ModelUsage(ApiUsageModel, acc.modelTotal.value, LineTokens(acc.modelTotal.value))]
        else [],
      SortByCostDesc(acc.projects),
      acc.daily)
  }

  /** The usage view of a list of cost buckets. */
  function Aggregate(buckets: seq<CostBucket>, dateOf: int -> string): UsageResponse
  {
    Summarize(Fold(Lines(buckets, dateOf)))
  }

  // ---------------------------------------------------------------------
  // The loops
  // ---------------------------------------------------------------------

  lemma FoldAppend(lines: seq<Line>, line: Line)
    ensures Fold(lines + [line]) == AddLine(Fold(lines), line)
  {
    assert (lines + [line])[..|lines|] == lines;
  }

  lemma LinesAppend(buckets: seq<CostBucket>, b: nat, dateOf: int -> string)
    requires b < |buckets|
    ensures Lines(buckets[..b + 1], dateOf) == Lines(buckets[..b], dateOf) + ResultLines(buckets[b].results, dateOf(buckets[b].start_time))
  {
    assert buckets[..b + 1][..b] == buckets[..b];
  }

  /** The state after taking in `results`, all dated `date`, from `acc` on. */
  function AddResults(acc: Acc, results: seq<CostResult>, date: string): Acc
  {
    if results == [] then acc
    else AddLine(AddResults(acc, results[..|results| - 1], date), Line(date, results[|results| - 1]))
  }

  lemma ResultLinesSnoc(seen: seq<Line>, results: seq<CostResult>, date: string)
    requires results != []
    ensures seen + ResultLines(results, date) ==
              (seen + ResultLines(results[..|results| - 1], date)) + [Line(date, results[|results| - 1])]
  {
    assert ResultLines(results, date) == ResultLines(results[..|results| - 1], date) + [Line(date, results[|results| - 1])];
  }

  /** Taking in a bucket's results continues the fold over the bucket's lines. */
  lemma {:induction false} AddResultsIsFold(seen: seq<Line>, results: seq<CostResult>, date: string)
    ensures AddResults(Fold(seen), results, date) == Fold(seen + ResultLines(results, date))
  {
    if results == [] {
      assert seen + ResultLines(results, date) == seen;
    } else {
      var init := results[..|results| - 1];
      var last := Line(date, results[|results| - 1]);
      AddResultsIsFold(seen, init, date);
      ResultLinesSnoc(seen, results, date);
      FoldAppend(seen + ResultLines(init, date), last);
    }
  }

  /**
   * The body of the inner loop for one result: totalCost, the model entry,
   * the project entry and the daily series each take in the result.
   */
  method AddResult(totalCost: real, modelTotal: Option<real>, projects: seq<ProjectUsage>, dailyUsage: seq<UsageData>,
                   result: CostResult, date: string)
    returns (totalCost': real, modelTotal': Option<real>, projects': seq<ProjectUsage>, dailyUsage': seq<UsageData>)
    ensures Acc(totalCost', modelTotal', projects', dailyUsage') ==
              AddLine(Acc(totalCost, modelTotal, projects, dailyUsage), Line(date, result))
  {
    var cost := result.amount.value;
    totalCost' := totalCost + cost;
    modelTotal' := Some((if modelTotal.Some? then modelTotal.value else 0.0) + cost);
    projects' := AddToProject(projects, result.project_id, cost);
    dailyUsage' := dailyUsage + [DailyPoint(Line(date, result))];
  }

  /** The inner loop of fetchUsageData over the results of one bucket dated `date`. */
  method AddBucketResults(state: Acc, results: seq<CostResult>, date: string) returns (next: Acc)
    ensures next == AddResults(state, results, date)
  {
    var totalCost, modelTotal, projects, dailyUsage := state.total, state.modelTotal, state.projects, state.daily;
    var r := 0;
    while r < |results|
      invariant 0 <= r <= |results|
      invariant Acc(totalCost, modelTotal, projects, dailyUsage) == AddResults(state, results[..r], date)
    {
      assert results[..r + 1][..r] == results[..r];
      totalCost, modelTotal, projects, dailyUsage := AddResult(totalCost, modelTotal, projects, dailyUsage, results[r], date);
      r := r + 1;
    }
    assert results[..r] == results;
    next := Acc(totalCost, modelTotal, projects, dailyUsage);
  }

  /**
   * The transformation of fetchUsageData: the loop over the buckets, then
   * the final lists. None stands for the RangeError thrown by the date
   * conversion of a bucket with results whose start time is out of range.
   */
  method AggregateCosts(costBuckets: seq<CostBucket>, dateOf: int -> string) returns (usage: Option<UsageResponse>)
    ensures usage.Some? <==> DatesRepresentable(costBuckets)
    ensures usage.Some? ==> usage.value == Aggregate(costBuckets, dateOf)
  {
    var state := Empty;
    var b := 0;
    while b < |costBuckets|
      invariant 0 <= b <= |costBuckets|
      invariant forall j :: 0 <= j < b && costBuckets[j].results != [] ==> Representable(costBuckets[j].start_time)
      invariant state == Fold(Lines(costBuckets[..b], dateOf))
    {
      var bucket := costBuckets[b];
      LinesAppend(costBuckets, b, dateOf);
      if |bucket.results| == 0 {
        assert Lines(costBuckets[..b], dateOf) + [] == Lines(costBuckets[..b], dateOf);
        b := b + 1;
        continue;
      }
      if !Representable(bucket.start_time) {
        return None;
      }
      var date := dateOf(bucket.start_time);
      AddResultsIsFold(Lines(costBuckets[..b], dateOf), bucket.results, date);
      state := AddBucketResults(state, bucket.results, date);
      b := b + 1;
    }
    assert costBuckets[..b] == costBuckets;
    var modelUsage := if state.modelTotal.Some?
      then [ModelUsage(ApiUsageModel, state.modelTotal.value, LineTokens(state.modelTotal.value))]
      else [];
    usage := Some(UsageResponse(state.total, modelUsage, SortByCostDesc(state.projects), state.daily));
  }
}
