/**
 * Record shapes exchanged by the cost pipeline: the pages the organization
 * costs endpoint returns, and the aggregated usage view handed to the UI.
 * Monetary values are `real` (no IEEE-754 rounding); token counts are `int`.
 */
module ApiTypes {

  datatype Option<+T> = None | Some(value: T)

  /** A monetary amount of one cost line. */
  datatype CostAmount = CostAmount(value: real, currency: string)

  /** One line item of a cost bucket; `project_id` and `line_item` may be null. */
  datatype CostResult = CostResult(
    object: string,
    amount: CostAmount,
    line_item: Option<string>,
    project_id: Option<string>,
    organization_id: string)

  /** A time interval [start_time, end_time) in Unix seconds and its line items. */
  datatype CostBucket = CostBucket(
    object: string,
    start_time: int,
    end_time: int,
    results: seq<CostResult>)

  /** One page of the organization costs endpoint. */
  datatype CostsResponse = CostsResponse(
    object: string,
    has_more: bool,
    next_page: Option<string>,
    data: seq<CostBucket>)

  /** One point of the daily series. */
  datatype UsageData = UsageData(
    model: string,
    cost: real,
    tokens: int,
    timestamp: string,
    project_id: Option<string>)

  datatype ModelUsage = ModelUsage(model: string, totalCost: real, totalTokens: int)

  datatype ProjectUsage = ProjectUsage(
    project_id: Option<string>,
    name: string,
    totalCost: real,
    totalTokens: int)

  /** The pipeline's output. */
  datatype UsageResponse = UsageResponse(
    totalCost: real,
    modelUsage: seq<ModelUsage>,
    projectUsage: seq<ProjectUsage>,
    dailyUsage: seq<UsageData>)

  /** Price of a model, in dollars per million tokens. */
  datatype ModelPricing = ModelPricing(
    name: string,
    input_per_1M_tokens: real,
    output_per_1M_tokens: real)

  /** A JavaScript truthiness test on an optional string: absent and "" are falsy. */
  predicate Truthy(s: Option<string>)
  {
    s.Some? && s.value != ""
  }
}
