/**
 * fetchUsageData, the entry point of the pipeline: it resolves the
 * credential, gathers every cost bucket through pagination, and aggregates
 * them into the usage view; when the aggregation throws (a bucket date out
 * of the JavaScript date range) it returns generated mock usage instead.
 *
 * Call number c of the single-page fetcher answers from `net(c)`,
 * `jitter(c)` and `draw(c)` (see Pagination.Responder); `usageDraw` holds
 * the random values of the mock usage fallback; `envKey` is the configured
 * fallback credential ("" when none is configured) and `dateOf` turns a
 * time into its ISO date.
 */
module UsagePipeline {
  import opened ApiTypes
  import opened Text
  import opened Backoff
  import opened MockData
  import opened CostFetcher
  import opened Pagination
  import opened UsageAggregation
  import opened AggregationProperties
  import opened ProjectSort

  /** What one fetchUsageData call ends with. */
  datatype UsageOutcome =
    | Usage(response: UsageResponse)   // the usage view of the gathered buckets
    | Raised(message: string)          // an exception escapes to the caller

  /** The buckets pagination gathers with the resolved key `keyToUse`. */
  function GatheredBuckets(keyToUse: string, envKey: string, startTime: int, endTime: int,
                           net: nat -> nat -> HttpResponse, jitter: nat -> nat -> Jitter,
                           draw: nat -> nat -> CostDraw): seq<CostBucket>
  {
    GatherFrom(Responder(keyToUse, envKey, startTime, endTime, net, jitter, draw), 0, None).buckets
  }

  /** The mock usage the catch of fetchUsageData falls back to. */
  function FallbackUsage(startTime: int, endTime: int, dateOf: int -> string, usageDraw: nat -> UsageDraw): UsageResponse
  {
    MockUsageSummary(MockDaily(startTime, DayCount(startTime, endTime), dateOf, usageDraw))
  }

  /** What fetchUsageData returns, as a function of its inputs and oracles. */
  function UsageSpec(apiKey: string, envKey: string, startTime: int, endTime: int, dateOf: int -> string,
                     net: nat -> nat -> HttpResponse, jitter: nat -> nat -> Jitter,
                     draw: nat -> nat -> CostDraw, usageDraw: nat -> UsageDraw): UsageOutcome
  {
    var keyToUse := ResolveKey(apiKey, envKey);
    if keyToUse == "" then Raised(KeyRequired)
    else
      var buckets := GatheredBuckets(keyToUse, envKey, startTime, endTime, net, jitter, draw);
      if DatesRepresentable(buckets) then Usage(Aggregate(buckets, dateOf))
      else Usage(FallbackUsage(startTime, endTime, dateOf, usageDraw))
  }

  /**
   * fetchUsageData: without a usable key it raises "API key is required";
   * otherwise it paginates with the resolved key and aggregates what was
   * gathered, or, when the aggregation throws, generates mock usage.
   */
  method FetchUsageData(apiKey: string, envKey: string, startTime: int, endTime: int, dateOf: int -> string,
                        net: nat -> nat -> HttpResponse, jitter: nat -> nat -> Jitter,
                        draw: nat -> nat -> CostDraw, usageDraw: nat -> UsageDraw)
    returns (outcome: UsageOutcome, pageDelays: seq<real>)
    ensures outcome == UsageSpec(apiKey, envKey, startTime, endTime, dateOf, net, jitter, draw, usageDraw)
    ensures outcome.Raised? ==> pageDelays == []
  {
    var keyToUse := ResolveKey(apiKey, envKey);
    if keyToUse == "" {
      return Raised(KeyRequired), [];
    }
    var respond := Responder(keyToUse, envKey, startTime, endTime, net, jitter, draw);
    var costBuckets, tokens;
    costBuckets, tokens, pageDelays := FetchAllOrganizationCosts(respond);
    var usage := AggregateCosts(costBuckets, dateOf);
    if usage.Some? {
      outcome := Usage(usage.value);
    } else {
      var mock := GenerateMockUsageData(startTime, endTime, dateOf, usageDraw);
      outcome := Usage(mock);
    }
  }

  // ---------------------------------------------------------------------
  // Properties
  // ---------------------------------------------------------------------

  /** A key that resolves to something usable still resolves to something usable when resolved again. */
  lemma ResolvedKeyStaysUsable(apiKey: string, envKey: string)
    requires ResolveKey(apiKey, envKey) != ""
    ensures ResolveKey(ResolveKey(apiKey, envKey), envKey) != ""
  {
    var t := Trim(apiKey);
    if t != "" {
      assert !IsSpace(t[0]);
    }
  }

  /**
   * With a usable key the caller always gets a usage view: no page call
   * throws (failures became mock pages inside the fetcher), so pagination
   * gathers every page it asks for. When every converted date is in range
   * the view's total is the sum of the amounts of those buckets; otherwise
   * the view is the mock usage.
   */
  lemma UsableKeyAlwaysYieldsUsage(apiKey: string, envKey: string, startTime: int, endTime: int,
                                   dateOf: int -> string, net: nat -> nat -> HttpResponse,
                                   jitter: nat -> nat -> Jitter, draw: nat -> nat -> CostDraw,
                                   usageDraw: nat -> UsageDraw)
    requires ResolveKey(apiKey, envKey) != ""
    ensures var keyToUse := ResolveKey(apiKey, envKey);
      var respond := Responder(keyToUse, envKey, startTime, endTime, net, jitter, draw);
      var buckets := GatheredBuckets(keyToUse, envKey, startTime, endTime, net, jitter, draw);
      var outcome := UsageSpec(apiKey, envKey, startTime, endTime, dateOf, net, jitter, draw, usageDraw);
      && outcome.Usage?
      && (forall c :: !respond(c).Threw?)
      && (DatesRepresentable(buckets) ==> outcome.response.totalCost == BucketsCost(buckets))
      && (!DatesRepresentable(buckets) ==> outcome.response == FallbackUsage(startTime, endTime, dateOf, usageDraw))
  {
    var keyToUse := ResolveKey(apiKey, envKey);
    ResolvedKeyStaysUsable(apiKey, envKey);
    forall c ensures !Responder(keyToUse, envKey, startTime, endTime, net, jitter, draw)(c).Threw? {
      UsableKeyNeverThrows(keyToUse, envKey, startTime, endTime, net, jitter, draw, c);
    }
    var buckets := GatheredBuckets(keyToUse, envKey, startTime, endTime, net, jitter, draw);
    if DatesRepresentable(buckets) {
      AggregateTotals(buckets, dateOf);
    }
  }

  /** A blank key with no configured fallback raises "API key is required". */
  lemma BlankKeyRaises(apiKey: string, startTime: int, endTime: int, dateOf: int -> string,
                       net: nat -> nat -> HttpResponse, jitter: nat -> nat -> Jitter,
                       draw: nat -> nat -> CostDraw, usageDraw: nat -> UsageDraw)
    requires forall i :: 0 <= i < |apiKey| ==> IsSpace(apiKey[i])
    ensures UsageSpec(apiKey, "", startTime, endTime, dateOf, net, jitter, draw, usageDraw) == Raised(KeyRequired)
  {
  }

  /** The lines of a single bucket are its results, dated by its start time. */
  lemma SingleBucketLines(bucket: CostBucket, dateOf: int -> string)
    ensures Lines([bucket], dateOf) == ResultLines(bucket.results, dateOf(bucket.start_time))
  {
    assert [bucket][..0] == [];
  }

  /** Folding one line of `cost` dollars without a project. */
  lemma FoldOneDefaultLine(line: Line, cost: real)
    requires line.result.project_id.None? && line.result.amount.value == cost
    ensures Fold([line]) == Acc(cost, Some(cost), [ProjectUsage(None, DefaultProjectName, cost, LineTokens(cost))],
                                [UsageData(ApiUsageModel, cost, LineTokens(cost), line.date, None)])
  {
    assert [line][..0] == [];
    assert IndexOfKey([], DefaultProjectKey) == 0;
  }

  /**
   * One bucket with one $2 result and no project: the total is 2, the only
   * project is "Default Project" with 2 dollars and 2000000 tokens, and the
   * only model is "api-usage" with 2 dollars and 2000000 tokens (the
   * placeholder model is not priced, so one dollar buys a million tokens).
   */
  lemma SingleDefaultResult(start: int, dateOf: int -> string)
    ensures var result := CostResult("organization.costs.result", CostAmount(2.0, "usd"), None, None, "org");
      var usage := Aggregate([CostBucket("bucket", start, start + SecondsPerDay, [result])], dateOf);
      && usage.totalCost == 2.0
      && usage.modelUsage == [ModelUsage(ApiUsageModel, 2.0, 2000000)]
      && usage.projectUsage == [ProjectUsage(None, DefaultProjectName, 2.0, 2000000)]
      && usage.dailyUsage == [UsageData(ApiUsageModel, 2.0, 2000000, dateOf(start), None)]
  {
    var result := CostResult("organization.costs.result", CostAmount(2.0, "usd"), None, None, "org");
    var bucket := CostBucket("bucket", start, start + SecondsPerDay, [result]);
    var line := Line(dateOf(start), result);
    SingleBucketLines(bucket, dateOf);
    assert ResultLines([result], dateOf(start)) == [line];
    FoldOneDefaultLine(line, 2.0);
    assert LineTokens(2.0) == 2000000;
    var p := ProjectUsage(None, DefaultProjectName, 2.0, 2000000);
    assert SortByCostDesc([p]) == [p] by {
      assert [p][1..] == [];
    }
  }
}
