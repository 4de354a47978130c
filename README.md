# OpenAI organization cost pipeline — a Dafny model

This project models the data pipeline of the OpenAI cost dashboard
(`src/utils/api.ts`). The pipeline has these parts:

- the static model price table and token estimation (`PRICING_DATA.models`,
  `estimateTokensFromCost`);
- the exponential backoff policy (`getBackoffDelay`);
- credential resolution and validation (`validateApiKey`);
- the single-page cost fetcher and its retry loop (`fetchOrganizationCosts`);
- the pagination driver (`fetchAllOrganizationCosts`);
- the aggregation in `fetchUsageData`;
- the two mock-data generators (`generateMockCostData`,
  `generateMockUsageData`).

The record shapes of `src/types/api.ts` are the datatypes of `types.dfy`.
Money is `real` and token counts are `int`.

Everything the code takes from outside the program becomes an input:

- The HTTP layer is an oracle. `net(k)` is what the k-th request of one
  fetcher call yields: a 429 with an optional retry-after (in seconds), a
  non-OK status with a parsed or unparsable body, an OK page, or a thrown
  error with its message.
- Each `Math.random()` value is an input in [0, 1). The backoff jitter is an
  input in [0, 1000).
- Timers are not slept. Each wait is appended to a trace of milliseconds.
- The `VITE_OPENAI_API_KEY` fallback is the parameter `envKey`. The empty
  string means that none is configured.
- Dates are Unix seconds, and one day is 86400 seconds. The ISO date of a
  bucket's start time is the function parameter `dateOf`.

Layout, one module per file:

- `types.dfy` (`ApiTypes`): the record shapes.
- `text.dfy` (`Text`): ASCII lower-casing, trim, `includes`, decimal rendering.
- `pricing.dfy` (`Pricing`): the price table and token estimation.
- `backoff.dfy` (`Backoff`): the backoff policy.
- `mock.dfy` (`MockData`): both mock generators.
- `fetcher.dfy` (`CostFetcher`): credentials, validation and the fetcher's retry loop.
- `pagination.dfy` (`Pagination`): the pagination driver.
- `sorting.dfy` (`ProjectSort`): the stable sort of project entries by cost, highest first.
- `aggregate.dfy` (`UsageAggregation`): the aggregation loops.
- `aggregate_props.dfy` (`AggregationProperties`): what the aggregation
  guarantees, stated against independent sums.
- `pipeline.dfy` (`UsagePipeline`): `fetchUsageData` end to end.

Each loop of the source is a method with a `while` or `for` loop. The method
is proved equal to a specification function. The properties are then proved
as lemmas about that function.

Notes on the code:

- The fetcher sends up to four requests: `retries` runs from 0 to 3.
- A non-OK response does not escape the fetcher. The error it throws is
  caught in the same loop. It is retried when `retries` is still below 3 and
  its message mentions "Rate limit" or lacks "Failed to fetch". Otherwise the
  fetcher falls back to the mock page.
- The backoff delay is `min(1000·2^n + jitter, 10000)`. So for 2^n ≥ 10 it is
  exactly 10000, which is less than `1000·2^n`.
- `fetchUsageData` converts the start time of every bucket that has results
  with `new Date(start_time * 1000).toISOString()`. Beyond 8.64e12 seconds
  either side of the epoch that date is invalid and the conversion throws a
  RangeError. The catch then returns `generateMockUsageData` instead.

## Model

| member | source | states |
|---|---|---|
| `Pricing.Lookup` | src/utils/api.ts:339-341 | the entry found has the model's name ignoring ASCII case; when none is found, no entry matches |
| `Pricing.EstimateTokensFromCost` | src/utils/api.ts:337-354 | the estimate is the floor of cost / rate × 1e6, and a non-negative cost gives a non-negative estimate |
| `Pricing.Gpt4oRate` | src/utils/api.ts:22-26 | any letter-case variant of "gpt-4o" matches the first entry, at rate (5 + 15) / 2 = 10 |
| `Pricing.Gpt4oMiniRate` | src/utils/api.ts:27-31 | any letter-case variant of "gpt-4o-mini" matches the second entry, at rate 2.75 |
| `Pricing.Gpt35TurboRate` | src/utils/api.ts:32-36 | any letter-case variant of "gpt-3.5-turbo" matches the third entry, at rate 1 |
| `Pricing.UnknownModelRate` | src/utils/api.ts:343-347 | a name matching none of the three entries uses the fallback rate 1.0 |
| `Pricing.ApiUsageUsesFallbackRate` | src/utils/api.ts:337-353 | "api-usage" is not in the table, so its estimate is floor(cost × 1e6) |
| `Pricing.EstimateMonotonic` | src/utils/api.ts:353 | for a fixed model, a larger cost never gives fewer tokens |
| `Pricing.EstimateDoubling` | src/utils/api.ts:353 | doubling the cost doubles the estimate, up to one token of floor rounding |
| `Backoff.GetBackoffDelay` | src/utils/api.ts:65-70 | the delay is at most 10000 ms and at least min(1000·2^n, 10000) |
| `Backoff.BackoffBounds` | src/utils/api.ts:65-70 | the delay is 1000·2^n + jitter when that is below 10000, and 10000 otherwise |
| `Backoff.BackoffMonotonic` | src/utils/api.ts:67-69 | with the same jitter, a later retry never waits less |
| `Backoff.BackoffSaturates` | src/utils/api.ts:69 | from retry 4 on, the delay is always the 10000 ms cap |
| `Backoff.BackoffWithinRetryBudget` | src/utils/api.ts:13-17 | for retries 1 to 3 the cap never applies: the delay is 2^n s + jitter, in [2000, 9000) |
| `CostFetcher.ResolveKey` | src/utils/api.ts:100 | the resolved key is blank exactly when the trimmed key and the fallback are both blank |
| `CostFetcher.ValidateApiKey` | src/utils/api.ts:72-90 | the key is valid if and only if it resolves to a usable key and the request came back OK |
| `CostFetcher.BlankKeyIsRejectedOffline` | src/utils/api.ts:73-77 | a blank key with no fallback is rejected, whatever the network would say |
| `CostFetcher.BuildRequest` | src/utils/api.ts:106-124 | the filters are sent only when non-empty, joined by commas; the page token is sent only when truthy |
| `CostFetcher.ErrorMessage` | src/utils/api.ts:153-156 | the thrown message is the body's message when truthy, else "Request failed with status: N", which is always retryable; an unparsable body gives "Failed to fetch cost data", which never is |
| `CostFetcher.Retryable` | src/utils/api.ts:164-165 | a message without "Failed to fetch" is retryable; one with it is retryable if and only if it also mentions "Rate limit" |
| `CostFetcher.Caught` | src/utils/api.ts:159-174 | the catch block retries if and only if retries < 3 and the message is retryable, waiting the backoff of retry retries + 1 |
| `CostFetcher.StepAt` | src/utils/api.ts:135-174 | an OK response returns its page and only an OK response does; a 429 is retried if and only if retries < 3, and otherwise gives up; a failed status or a thrown error goes to the catch rule with its message |
| `CostFetcher.FirstStop` | src/utils/api.ts:126-178 | the loop stops at the first retry count, at most 3, whose step does not retry; every earlier step retried |
| `CostFetcher.WaitsBefore` | src/utils/api.ts:126-169 | the wait trace holds exactly one wait per retrying iteration, in order |
| `CostFetcher.SendWithRetries` | src/utils/api.ts:126-178 | the while loop's outcome, waits and request count are those of the retry specification (first stopping step, one wait per retrying step) |
| `CostFetcher.FetchOrganizationCosts` | src/utils/api.ts:92-179 | the loop's outcome, waits and request count equal the specification; a request is built only for a usable key |
| `CostFetcher.FetchBounds` | src/utils/api.ts:100-178 | with a usable key: 1 to 4 requests, one wait fewer than requests, never an exception, and a fallback is the mock page; a blank key throws "API key is required" and sends nothing |
| `CostFetcher.RetryWait` | src/utils/api.ts:143-169 | a 429 with retry-after s waits s × 1000 ms; every other retry waits 2^(retries+1) s plus jitter |
| `CostFetcher.WaitsFollowResponses` | src/utils/api.ts:126-169 | the i-th wait is the wait of the i-th response's retrying step |
| `CostFetcher.UnparsableFailureFallsBack` | src/utils/api.ts:153-172 | a non-OK response whose body does not parse is never retried: the call falls back to the mock page |
| `CostFetcher.MessagelessFailureIsRetried` | src/utils/api.ts:153-169 | a non-OK response whose body parses without a message reports "Request failed with status: N" and is retried within the budget |
| `CostFetcher.RateLimitErrorIsNotRetried` | src/utils/api.ts:136-172 | the error thrown after the fourth 429 counts as retryable, yet the catch sees retries = 4 and falls back |
| `CostFetcher.FourthRateLimitFallsBack` | src/utils/api.ts:136-140 | a 429 on the fourth request falls back to the mock page |
| `CostFetcher.ThreeRateLimitsThenSuccess` | src/utils/api.ts:126-158 | three 429s and then a page: that page is returned after four requests and three backoff waits |
| `CostFetcher.FourRateLimitsFallBack` | src/utils/api.ts:126-178 | four 429s: the mock page is returned after four requests and three waits |
| `MockData.DayCount` | src/utils/api.ts:363 | the number of days is the number of day starts that are not after the end time |
| `MockData.MockCostBucket` | src/utils/api.ts:364-394 | the bucket spans one 86400 s day from its start; it holds one "usd" result with no project, no line item and an amount in [0, 0.5) if and only if the coin exceeds 0.3, and no result otherwise |
| `MockData.MockCostBuckets` | src/utils/api.ts:363-395 | bucket i is the bucket of day i, starting at start + i·86400 |
| `MockData.GenerateMockCostData` | src/utils/api.ts:357-402 | the loop builds the specified page: one bucket per day, with `has_more` false |
| `MockData.MockCostPageShape` | src/utils/api.ts:357-402 | the page is the last page; its buckets are consecutive 86400 s days covering the range; each holds one null-project result below $0.50 if and only if the day's coin exceeds 0.3 |
| `MockData.GenerateMockUsageDaily` | src/utils/api.ts:425-443 | the nested loops produce the daily series of the mock generator, day by day and project by project |
| `MockData.MockProjectName` | src/utils/api.ts:417-422 | the two mock ids get "Production API" and "Development API", the null project "Default Project", and any other id "Unknown Project" |
| `MockData.MockUsagePoint` | src/utils/api.ts:430-440 | the point is "gpt-4o" if and only if the model coin exceeds 0.5, with cost in [0, 0.8) and tokens in [0, 8000); otherwise "gpt-3.5-turbo" with cost in [0, 0.3) and tokens in [0, 20000); it carries the day's date and the slot's project |
| `MockData.AddDayPoints` | src/utils/api.ts:427-442 | the inner loop appends the points of the day's three project slots, in project order |
| `MockData.MockDailyWellFormed` | src/utils/api.ts:425-443 | every mock point names one of the two mock models and one of the three mock projects, with a cost in [0, 0.8) |
| `MockData.WithPositiveCost` | src/utils/api.ts:474 | the filter keeps exactly the projects with a positive total cost, in their order and with their multiplicity |
| `MockData.GenerateMockUsageData` | src/utils/api.ts:405-494 | the generator returns the breakdown of its daily series |
| `MockData.ModelCostsPartition` | src/utils/api.ts:446-478 | the two model totals add up to the sum of all daily costs |
| `MockData.MockProjectUsageShape` | src/utils/api.ts:463-475 | the project list holds exactly the mock projects with a positive total, each with its own cost sum, token sum and name; it is sorted highest first with ties in project order, and its totals add up to the series cost |
| `MockData.MockUsageConsistent` | src/utils/api.ts:445-494 | the mock total is the sum of all daily costs and of the two model totals; the project totals add up to it too |
| `Pagination.GatherFrom` | src/utils/api.ts:195-231 | from page p below 10 the loop makes between 1 and 10 − p calls, the first with the current token, and pauses at most once per call |
| `Pagination.FetchAllOrganizationCosts` | src/utils/api.ts:182-238 | the loop returns the buckets and page tokens of the specification, with one 200 ms pause per continuing page |
| `Pagination.GatherBounds` | src/utils/api.ts:193-225 | 1 to 10 calls, the first one without a token; one pause per call except after the last, unless the tenth page still continued |
| `Pagination.TokensChain` | src/utils/api.ts:204-214 | every call after the first passes the truthy next_page of the page before it, and that page reported has_more |
| `Pagination.GatherIsConcatenation` | src/utils/api.ts:196-231 | the buckets are the concatenation of the pages' data in arrival order; every call but the last continued; the last call threw, did not continue, or was the tenth |
| `Pagination.SinglePage` | src/utils/api.ts:196-219 | a first page that does not continue is the only page: its buckets, one call, no pause |
| `Pagination.AllPagesContinue` | src/utils/api.ts:193-225 | pages that always continue are cut off after exactly ten calls and ten pauses |
| `Pagination.MockPageEndsPagination` | src/utils/api.ts:213-217 | the mock page never continues, so a fallback ends pagination |
| `Pagination.BlankKeyGathersNothing` | src/utils/api.ts:226-229 | without a usable key the first call throws, and nothing is gathered |
| `Pagination.UsableKeyNeverThrows` | src/utils/api.ts:197-205 | with a usable key no page call throws |
| `ProjectSort.SortByCostDesc` | src/utils/api.ts:315-320 | the sorted list is ordered by cost, highest first; it is a permutation of the input; it keeps equal-cost entries in input order; it keeps the cost sum |
| `UsageAggregation.ProjectKey` | src/utils/api.ts:282 | the key is the project id when truthy, else "default" |
| `UsageAggregation.ProjectName` | src/utils/api.ts:283 | the name is the project id when truthy, else "Default Project" |
| `UsageAggregation.IndexOfKey` | src/utils/api.ts:285 | `Map.has`/`get`: the first entry under the key, or none |
| `UsageAggregation.AddResult` | src/utils/api.ts:266-303 | one result updates the total, the model entry, the project entry and the daily series as one fold step |
| `UsageAggregation.AddBucketResults` | src/utils/api.ts:265-304 | the inner loop takes in a bucket's results in order |
| `UsageAggregation.AggregateCosts` | src/utils/api.ts:252-327 | the loops throw if and only if a bucket with results has a start time outside the JavaScript date range; otherwise they compute the specified usage view |
| `UsageAggregation.EstimateIsFallback` | src/utils/api.ts:294 | every per-result estimate uses the fallback rate of one dollar per million tokens |
| `AggregationProperties.FoldProjects` | src/utils/api.ts:282-294 | project keys are distinct; a key has an entry if and only if some result falls under it; the entry holds the first-seen id, the name and exactly the cost and tokens of that key's results |
| `AggregationProperties.AddToProjectEffect` | src/utils/api.ts:282-294 | one result touches only its key's entry: it creates it on first sight and adds the cost and tokens |
| `AggregationProperties.AddToProjectKeys` | src/utils/api.ts:285-294 | the Map operations keep every entry's key in place, and a key seen for the first time is appended last |
| `AggregationProperties.FoldFirstSeenOrder` | src/utils/api.ts:258-294 | the project map is in insertion order: every entry's key occurs among the results, and an earlier entry's key occurs first |
| `AggregationProperties.SortedTiesFirstSeen` | src/utils/api.ts:315-320 | after the stable sort, of two entries with equal cost the earlier one's key occurs first among the results |
| `AggregationProperties.AggregateTotals` | src/utils/api.ts:255-312 | totalCost is the sum of every result amount; modelUsage is empty if and only if no bucket has a result, otherwise the single "api-usage" entry with the total and the estimate of the total |
| `AggregationProperties.AggregateDaily` | src/utils/api.ts:259-303 | dailyUsage has one "api-usage" point per result, in bucket-then-result order, with its cost, project id, bucket date and per-result estimate |
| `AggregationProperties.AggregateProjects` | src/utils/api.ts:282-320 | projectUsage is sorted by cost, highest first; equal-cost entries are in the order their keys first occur among the results; it holds exactly the expected entry of each key, and its costs add up to totalCost |
| `AggregationProperties.ProjectTokensAtMostModelTokens` | src/utils/api.ts:294-311 | the per-result estimates summed over projects never exceed the model entry's estimate of the total |
| `AggregationProperties.LinesCostIsBucketsCost` | src/utils/api.ts:258-273 | the result lines carry exactly the amounts of the buckets' results |
| `UsagePipeline.FetchUsageData` | src/utils/api.ts:240-334 | a blank key raises "API key is required"; otherwise the result is the aggregation of what pagination gathers with the resolved key, or the mock usage when a gathered date is out of range |
| `UsagePipeline.ResolvedKeyStaysUsable` | src/utils/api.ts:241-249 | the resolved key, resolved again by the fetcher, is still usable |
| `UsagePipeline.UsableKeyAlwaysYieldsUsage` | src/utils/api.ts:240-334 | with a usable key the caller always gets a usage view and no page call throws; with dates in range the total is the sum of the gathered amounts, otherwise the view is the mock usage |
| `UsagePipeline.BlankKeyRaises` | src/utils/api.ts:241-245 | a blank key with no fallback raises "API key is required" |
| `UsagePipeline.SingleDefaultResult` | src/utils/api.ts:255-327 | one $2 result without a project gives total 2, one "Default Project" entry and one "api-usage" entry, each with 2 dollars and 2000000 tokens |

## Left out

- HTTP transport (`fetch`, `response.json()`, headers, src/utils/api.ts:80-85, :129-158) is an oracle of outcomes. URL string building is a request record (`BuildRequest`), not a string.
- Retry-after parsing: the header is an optional already-parsed number of seconds. A header that `parseInt` turns into NaN (a zero-length wait in `setTimeout`) is not modelled.
- `delay`/`setTimeout`: waits are recorded as milliseconds, not slept. `toast` and `console` output is dropped.
- `Math.random`: every random value is an input. The model states no probabilities.
- IEEE-754 arithmetic: sums, products and divisions are exact over `real`, so float rounding and non-associativity are not modelled.
- Dates: `new Date(...)`, `toISOString().split('T')[0]` and the local-time `setDate` step are replaced by Unix seconds, a +86400 s step and the parameter `dateOf`. Time zones and DST are not modelled.
- Text: lower-casing and trimming treat ASCII only. Unicode case mapping and Unicode white space are not modelled.
- `PRICING_DATA.tools` (src/utils/api.ts:38-54): display data that no logic reads.
- Malformed JSON pages (a missing `data` or `results` field, a non-numeric amount) are not modelled: buckets are well-typed. So the only throw the catch of `fetchUsageData` (src/utils/api.ts:328-333) can see here is the out-of-range date. `toISOString` of a valid date past year 9999 does not throw; the model takes `dateOf` as given for any valid time.
- The page-limit warning (src/utils/api.ts:233-235) only logs.
- Presentation components (`src/App.tsx`, `src/components/*`) are not part of this model.
