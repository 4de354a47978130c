/**
 * Synthetic data used when the real endpoint cannot be used: a costs page
 * with one bucket per day, and a complete usage response over three fixed
 * projects and two models. Every `Math.random()` value is an input drawn
 * from [0, 1); days are steps of 86400 seconds from the start time.
 */
module MockData {
  import opened ApiTypes
  import opened ProjectSort

  const SecondsPerDay: int := 86400

  /** A value of `Math.random()`. */
  type Unit = r: real | 0.0 <= r < 1.0

  // ---------------------------------------------------------------------
  // generateMockCostData
  // ---------------------------------------------------------------------

  /** The random values one day of the costs page uses: the "has costs" coin and the amount. */
  datatype CostDraw = CostDraw(coin: Unit, amount: Unit)

  /** How many day steps `date <= end` admits, starting from `startTime`. */
  function DayCount(startTime: int, endTime: int): (n: nat)
    ensures n > 0 ==> startTime + (n - 1) * SecondsPerDay <= endTime
    ensures startTime + n * SecondsPerDay > endTime
  {
    if startTime <= endTime then (endTime - startTime) / SecondsPerDay + 1 else 0
  }

  /** The bucket of the day starting at `startTime`: one result below $0.50 if the coin exceeds 0.3, else none. */
  function MockCostBucket(startTime: int, d: CostDraw): (b: CostBucket)
    ensures b == CostBucket("bucket", startTime, startTime + SecondsPerDay, b.results)
    ensures b.results != [] <==> d.coin > 0.3
    ensures b.results != [] ==>
      && b.results == [CostResult("organization.costs.result", CostAmount(b.results[0].amount.value, "usd"),
                                  None, None, "org-mock-123456")]
      && 0.0 <= b.results[0].amount.value < 0.5
  {
    CostBucket("bucket", startTime, startTime + SecondsPerDay,
      if d.coin > 0.3 then
        [CostResult("organization.costs.result", CostAmount(d.amount * 0.5, "usd"),
                    None, None, "org-mock-123456")]
      else [])
  }

  /** The first `n` daily buckets from `startTime`. */
  function MockCostBuckets(startTime: int, draw: nat -> CostDraw, n: nat): (buckets: seq<CostBucket>)
    ensures |buckets| == n
    ensures forall i :: 0 <= i < n ==> buckets[i] == MockCostBucket(startTime + i * SecondsPerDay, draw(i))
  {
    if n == 0 then [] else MockCostBuckets(startTime, draw, n - 1) + [MockCostBucket(startTime + (n - 1) * SecondsPerDay, draw(n - 1))]
  }

  /** The page generateMockCostData returns for [startTime, endTime]. */
  function MockCostPage(startTime: int, endTime: int, draw: nat -> CostDraw): CostsResponse
  {
    CostsResponse("page", false, None, MockCostBuckets(startTime, draw, DayCount(startTime, endTime)))
  }

  /** generateMockCostData: one bucket per day while the day start is not after the end. */
  method GenerateMockCostData(startTime: int, endTime: int, draw: nat -> CostDraw)
    returns (page: CostsResponse)
    ensures page == MockCostPage(startTime, endTime, draw)
  {
    var data: seq<CostBucket> := [];
    var date := startTime;
    var day: nat := 0;
    while date <= endTime
      invariant date == startTime + day * SecondsPerDay
      invariant day == 0 || startTime + (day - 1) * SecondsPerDay <= endTime
      invariant data == MockCostBuckets(startTime, draw, day)
      decreases endTime - date
    {
      MockCostBucketsStep(startTime, draw, day, date);
      data := data + [MockCostBucket(date, draw(day))];
      date := date + SecondsPerDay;
      day := day + 1;
    }
    DayCountUnique(startTime, endTime, day);
    page := CostsResponse("page", false, None, data);
  }

  lemma MockCostBucketsStep(startTime: int, draw: nat -> CostDraw, n: nat, date: int)
    requires date == startTime + n * SecondsPerDay
    ensures MockCostBuckets(startTime, draw, n + 1) == MockCostBuckets(startTime, draw, n) + [MockCostBucket(date, draw(n))]
  {
  }

  /** DayCount is the only count whose last day start is within the range and whose next is past it. */
  lemma DayCountUnique(startTime: int, endTime: int, n: nat)
    requires n == 0 || startTime + (n - 1) * SecondsPerDay <= endTime
    requires startTime + n * SecondsPerDay > endTime
    ensures n == DayCount(startTime, endTime)
  {
  }

  /**
   * The mock page is the last page (no more data, no token); its buckets are
   * consecutive whole days that cover [startTime, endTime], each with at most
   * one null-project result worth less than $0.50, present exactly when the
   * day's coin exceeds 0.3.
   */
  lemma MockCostPageShape(startTime: int, endTime: int, draw: nat -> CostDraw)
    ensures !MockCostPage(startTime, endTime, draw).has_more
    ensures MockCostPage(startTime, endTime, draw).next_page.None?
    ensures var data := MockCostPage(startTime, endTime, draw).data;
      && (startTime <= endTime <==> data != [])
      && (data != [] ==> data[0].start_time == startTime
                         && data[|data| - 1].start_time <= endTime < data[|data| - 1].end_time)
      && (forall i :: 0 <= i < |data| ==>
            && data[i].end_time - data[i].start_time == SecondsPerDay
            && |data[i].results| <= 1
            && (|data[i].results| == 1 <==> draw(i).coin > 0.3)
            && (forall r :: r in data[i].results ==>
                  0.0 <= r.amount.value < 0.5 && r.project_id.None? && r.amount.currency == "usd"))
      && (forall i :: 0 < i < |data| ==> data[i].start_time == data[i - 1].end_time)
  {
  }

  // ---------------------------------------------------------------------
  // generateMockUsageData
  // ---------------------------------------------------------------------

  const Gpt4o: string := "gpt-4o"
  const Gpt35Turbo: string := "gpt-3.5-turbo"

  /** The three synthetic projects, in iteration order; the last is the null project. */
  const MockProjects: seq<Option<string>> := [Some("proj_123456"), Some("proj_789012"), None]

  /** The projectNames lookup; a null id reads the key "null". */
  function MockProjectName(projectId: Option<string>): (name: string)
    ensures projectId == MockProjects[0] ==> name == "Production API"
    ensures projectId == MockProjects[1] ==> name == "Development API"
    ensures projectId == MockProjects[2] ==> name == "Default Project"
    ensures projectId !in MockProjects ==> name == "Unknown Project"
  {
    match projectId
    case None => "Default Project"
    case Some(id) =>
      if id == "proj_123456" then "Production API"
      else if id == "proj_789012" then "Development API"
      else "Unknown Project"
  }

  /** The four random values one (day, project) slot uses: presence, model coin, cost and tokens. */
  datatype UsageDraw = UsageDraw(present: Unit, modelCoin: Unit, cost: Unit, tokens: Unit)

  /** The point a present slot produces. */
  function MockUsagePoint(timestamp: string, projectId: Option<string>, d: UsageDraw): (u: UsageData)
    ensures u.timestamp == timestamp && u.project_id == projectId
    ensures u.model == Gpt4o || u.model == Gpt35Turbo
    ensures u.model == Gpt4o <==> d.modelCoin > 0.5
    ensures u.model == Gpt4o ==> 0.0 <= u.cost < 0.8 && 0 <= u.tokens < 8000
    ensures u.model == Gpt35Turbo ==> 0.0 <= u.cost < 0.3 && 0 <= u.tokens < 20000
  {
    var big := d.modelCoin > 0.5;
    UsageData(
      if big then Gpt4o else Gpt35Turbo,
      d.cost * (if big then 0.8 else 0.3),
      (d.tokens * (if big then 8000.0 else 20000.0)).Floor,
      timestamp,
      projectId)
  }

  /** The points of slot `3 * day + p`: one if its presence value exceeds 0.3. */
  function SlotPoints(timestamp: string, day: nat, p: nat, draw: nat -> UsageDraw): seq<UsageData>
    requires p < |MockProjects|
  {
    var d := draw(3 * day + p);
    if d.present > 0.3 then [MockUsagePoint(timestamp, MockProjects[p], d)] else []
  }

  /** The points of the first `k` projects on one day. */
  function DayPoints(timestamp: string, day: nat, k: nat, draw: nat -> UsageDraw): seq<UsageData>
    requires k <= |MockProjects|
  {
    if k == 0 then [] else DayPoints(timestamp, day, k - 1, draw) + SlotPoints(timestamp, day, k - 1, draw)
  }

  /** The daily series of the first `n` days from `startTime`. */
  function MockDaily(startTime: int, n: nat, dateOf: int -> string, draw: nat -> UsageDraw): seq<UsageData>
  {
    if n == 0 then []
    else MockDaily(startTime, n - 1, dateOf, draw)
         + DayPoints(dateOf(startTime + (n - 1) * SecondsPerDay), n - 1, |MockProjects|, draw)
  }

  /** The inner loop of generateMockUsageData: one day's projects, in order, appended to `daily`. */
  method AddDayPoints(daily: seq<UsageData>, timestamp: string, day: nat, draw: nat -> UsageDraw)
    returns (daily': seq<UsageData>)
    ensures daily' == daily + DayPoints(timestamp, day, |MockProjects|, draw)
  {
    daily' := daily;
    for p := 0 to |MockProjects|
      invariant daily' == daily + DayPoints(timestamp, day, p, draw)
    {
      var d := draw(3 * day + p);
      if d.present > 0.3 {
        daily' := daily' + [MockUsagePoint(timestamp, MockProjects[p], d)];
      }
      assert daily' == daily + DayPoints(timestamp, day, p, draw) + SlotPoints(timestamp, day, p, draw);
    }
  }

  lemma MockDailyStep(startTime: int, day: nat, dateOf: int -> string, draw: nat -> UsageDraw)
    ensures MockDaily(startTime, day + 1, dateOf, draw) ==
              MockDaily(startTime, day, dateOf, draw)
              + DayPoints(dateOf(startTime + day * SecondsPerDay), day, |MockProjects|, draw)
  {
  }

  /** The daily loop of generateMockUsageData: every day, every project, in order. */
  method GenerateMockUsageDaily(startTime: int, endTime: int, dateOf: int -> string, draw: nat -> UsageDraw)
    returns (daily: seq<UsageData>)
    ensures daily == MockDaily(startTime, DayCount(startTime, endTime), dateOf, draw)
  {
    daily := [];
    var date := startTime;
    var day: nat := 0;
    while date <= endTime
      invariant date == startTime + day * SecondsPerDay
      invariant day == 0 || startTime + (day - 1) * SecondsPerDay <= endTime
      invariant daily == MockDaily(startTime, day, dateOf, draw)
      decreases endTime - date
    {
      MockDailyStep(startTime, day, dateOf, draw);
      daily := AddDayPoints(daily, dateOf(date), day, draw);
      date := date + SecondsPerDay;
      day := day + 1;
    }
    DayCountUnique(startTime, endTime, day);
  }

  /** Every point names one of the two mock models and one of the three mock projects, with a cost in [0, 0.8). */
  ghost predicate WellFormedMockPoint(u: UsageData)
  {
    && (u.model == Gpt4o || u.model == Gpt35Turbo)
    && u.project_id in MockProjects
    && 0.0 <= u.cost < 0.8
    && u.tokens >= 0
  }

  lemma {:induction false} MockDailyWellFormed(startTime: int, n: nat, dateOf: int -> string, draw: nat -> UsageDraw)
    ensures forall u :: u in MockDaily(startTime, n, dateOf, draw) ==> WellFormedMockPoint(u)
  {
    if n > 0 {
      MockDailyWellFormed(startTime, n - 1, dateOf, draw);
      var timestamp := dateOf(startTime + (n - 1) * SecondsPerDay);
      DayPointsWellFormed(timestamp, n - 1, |MockProjects|, draw);
    }
  }

  lemma {:induction false} DayPointsWellFormed(timestamp: string, day: nat, k: nat, draw: nat -> UsageDraw)
    requires k <= |MockProjects|
    ensures forall u :: u in DayPoints(timestamp, day, k, draw) ==> WellFormedMockPoint(u)
  {
    if k > 0 {
      DayPointsWellFormed(timestamp, day, k - 1, draw);
      assert MockProjects[k - 1] in MockProjects;
    }
  }

  /** Sum of the costs of the points whose model is `model`. */
  function ModelCost(daily: seq<UsageData>, model: string): real
  {
    if daily == [] then 0.0
    else (if daily[0].model == model then daily[0].cost else 0.0) + ModelCost(daily[1..], model)
  }

  /** Sum of the token counts of the points whose model is `model`. */
  function ModelTokens(daily: seq<UsageData>, model: string): int
  {
    if daily == [] then 0
    else (if daily[0].model == model then daily[0].tokens else 0) + ModelTokens(daily[1..], model)
  }

  function ProjectCost(daily: seq<UsageData>, projectId: Option<string>): real
  {
    if daily == [] then 0.0
    else (if daily[0].project_id == projectId then daily[0].cost else 0.0) + ProjectCost(daily[1..], projectId)
  }

  function ProjectTokens(daily: seq<UsageData>, projectId: Option<string>): int
  {
    if daily == [] then 0
    else (if daily[0].project_id == projectId then daily[0].tokens else 0) + ProjectTokens(daily[1..], projectId)
  }

  /** Sum of every point's cost. */
  function DailyCost(daily: seq<UsageData>): real
  {
    if daily == [] then 0.0 else daily[0].cost + DailyCost(daily[1..])
  }

  /** One project's totals over the series. */
  function MockProjectUsage(daily: seq<UsageData>, projectId: Option<string>): ProjectUsage
  {
    ProjectUsage(projectId, MockProjectName(projectId), ProjectCost(daily, projectId), ProjectTokens(daily, projectId))
  }

  /** `.filter(project => project.totalCost > 0)`. */
  function WithPositiveCost(s: seq<ProjectUsage>): (r: seq<ProjectUsage>)
    ensures forall p :: p in r ==> p in s && p.totalCost > 0.0
    ensures forall p :: p in s && p.totalCost > 0.0 ==> p in r
    ensures |r| <= |s|
    ensures forall c :: WithCost(r, c) == if c > 0.0 then WithCost(s, c) else []
  {
    if s == [] then []
    else
      var rest := WithPositiveCost(s[1..]);
      if s[0].totalCost > 0.0 then
        var r := [s[0]] + rest;
        assert r[1..] == rest;
        r
      else rest
  }

  /** The breakdown generateMockUsageData computes from its daily series. */
  function MockUsageSummary(daily: seq<UsageData>): UsageResponse
  {
    var gpt4oCost := ModelCost(daily, Gpt4o);
    var gpt35Cost := ModelCost(daily, Gpt35Turbo);
    UsageResponse(
      gpt4oCost + gpt35Cost,
      [ModelUsage(Gpt4o, gpt4oCost, ModelTokens(daily, Gpt4o)),
       ModelUsage(Gpt35Turbo, gpt35Cost, ModelTokens(daily, Gpt35Turbo))],
      SortByCostDesc(WithPositiveCost(MockProjectList(daily))),
      daily)
  }

  /** `projectIds.map(...)`: the totals of the three mock projects, in project order. */
  function MockProjectList(daily: seq<UsageData>): seq<ProjectUsage>
  {
    [MockProjectUsage(daily, MockProjects[0]),
     MockProjectUsage(daily, MockProjects[1]),
     MockProjectUsage(daily, MockProjects[2])]
  }

  /** generateMockUsageData: the daily series over [startTime, endTime] and its breakdown. */
  method GenerateMockUsageData(startTime: int, endTime: int, dateOf: int -> string, draw: nat -> UsageDraw)
    returns (response: UsageResponse)
    ensures response == MockUsageSummary(MockDaily(startTime, DayCount(startTime, endTime), dateOf, draw))
  {
    var daily := GenerateMockUsageDaily(startTime, endTime, dateOf, draw);
    response := MockUsageSummary(daily);
  }

  lemma {:induction false} ModelCostsPartition(daily: seq<UsageData>)
    requires forall u :: u in daily ==> u.model == Gpt4o || u.model == Gpt35Turbo
    ensures ModelCost(daily, Gpt4o) + ModelCost(daily, Gpt35Turbo) == DailyCost(daily)
  {
    if daily != [] {
      assert forall u :: u in daily[1..] ==> u in daily;
      ModelCostsPartition(daily[1..]);
    }
  }

  lemma {:induction false} ProjectCostsPartition(daily: seq<UsageData>)
    requires forall u :: u in daily ==> u.project_id in MockProjects
    ensures ProjectCost(daily, MockProjects[0]) + ProjectCost(daily, MockProjects[1])
              + ProjectCost(daily, MockProjects[2]) == DailyCost(daily)
  {
    if daily != [] {
      assert forall u :: u in daily[1..] ==> u in daily;
      ProjectCostsPartition(daily[1..]);
    }
  }

  lemma {:induction false} ProjectCostNonNegative(daily: seq<UsageData>, projectId: Option<string>)
    requires forall u :: u in daily ==> u.cost >= 0.0
    ensures ProjectCost(daily, projectId) >= 0.0
  {
    if daily != [] {
      assert forall u :: u in daily[1..] ==> u in daily;
      ProjectCostNonNegative(daily[1..], projectId);
    }
  }

  lemma {:induction false} WithPositiveCostSum(s: seq<ProjectUsage>)
    requires forall p :: p in s ==> p.totalCost >= 0.0
    ensures SumCosts(WithPositiveCost(s)) == SumCosts(s)
  {
    if s != [] {
      assert forall p :: p in s[1..] ==> p in s;
      WithPositiveCostSum(s[1..]);
      var head := if s[0].totalCost > 0.0 then [s[0]] else [];
      SumCostsAppend(head, WithPositiveCost(s[1..]));
    }
  }

  /** Over a well-formed series the three project totals are non-negative and add up to the series cost. */
  lemma MockProjectListSum(daily: seq<UsageData>)
    requires forall u :: u in daily ==> WellFormedMockPoint(u)
    ensures forall p :: p in MockProjectList(daily) ==> p.totalCost >= 0.0 && p.project_id in MockProjects
    ensures SumCosts(MockProjectList(daily)) == DailyCost(daily)
  {
    var ps := MockProjectList(daily);
    ProjectCostsPartition(daily);
    ProjectCostNonNegative(daily, MockProjects[0]);
    ProjectCostNonNegative(daily, MockProjects[1]);
    ProjectCostNonNegative(daily, MockProjects[2]);
    var t1 := ps[1..];
    var t2 := t1[1..];
    assert t2[1..] == [];
    assert SumCosts(t2) == ps[2].totalCost;
    assert SumCosts(t1) == ps[1].totalCost + ps[2].totalCost;
    assert MockProjects[0] in MockProjects && MockProjects[1] in MockProjects && MockProjects[2] in MockProjects;
  }

  /**
   * Filtering to positive totals and sorting keeps exactly the mock
   * projects with a positive total, each carrying its own cost sum, token
   * sum and name, at most three, highest first, equal totals in project
   * order, and adding up to the series cost.
   */
  lemma MockProjectUsageShape(daily: seq<UsageData>)
    requires forall u :: u in daily ==> WellFormedMockPoint(u)
    ensures var r := SortByCostDesc(WithPositiveCost(MockProjectList(daily)));
      && |r| <= |MockProjects|
      && (forall p :: p in r <==> p in MockProjectList(daily) && p.totalCost > 0.0)
      && (forall p :: p in r ==> p.project_id in MockProjects && p == MockProjectUsage(daily, p.project_id))
      && SortedByCostDesc(r)
      && (forall c :: WithCost(r, c) == if c > 0.0 then WithCost(MockProjectList(daily), c) else [])
      && SumCosts(r) == DailyCost(daily)
  {
    var ps := MockProjectList(daily);
    MockProjectListSum(daily);
    WithPositiveCostSum(ps);
    var kept := WithPositiveCost(ps);
    var sorted := SortByCostDesc(kept);
    forall p ensures p in sorted <==> p in kept {
      assert p in sorted <==> p in multiset(sorted);
      assert p in kept <==> p in multiset(kept);
    }
    assert |sorted| == |kept| by {
      assert |multiset(sorted)| == |multiset(kept)|;
    }
  }

  /**
   * The mock usage response is consistent: its total is the sum of all
   * daily costs, the two model totals add up to it, the project list holds
   * only projects with a positive total, at most the three mock projects,
   * highest cost first, and the project totals also add up to the total.
   */
  lemma MockUsageConsistent(startTime: int, endTime: int, dateOf: int -> string, draw: nat -> UsageDraw)
    ensures var daily := MockDaily(startTime, DayCount(startTime, endTime), dateOf, draw);
      var r := MockUsageSummary(daily);
      && r.totalCost == DailyCost(daily)
      && r.totalCost == r.modelUsage[0].totalCost + r.modelUsage[1].totalCost
      && |r.projectUsage| <= |MockProjects|
      && (forall p :: p in r.projectUsage ==> p.totalCost > 0.0 && p.project_id in MockProjects)
      && SortedByCostDesc(r.projectUsage)
      && SumCosts(r.projectUsage) == r.totalCost
  {
    var daily := MockDaily(startTime, DayCount(startTime, endTime), dateOf, draw);
    MockDailyWellFormed(startTime, DayCount(startTime, endTime), dateOf, draw);
    ModelCostsPartition(daily);
    MockProjectUsageShape(daily);
  }
}
