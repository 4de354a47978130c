/**
 * fetchAllOrganizationCosts: calls the single-page fetcher repeatedly,
 * following next_page tokens, for at most ten pages, with a 200 ms pause
 * between pages, and concatenates the buckets of every page.
 *
 * Call number c of the loop answers from the oracles `net(c)`, `jitter(c)`
 * and `draw(c)`; the pauses are recorded instead of slept.
 */
module Pagination {
  import opened ApiTypes
  import opened Backoff
  import opened MockData
  import opened CostFetcher

  /** MAX_PAGES, the safety limit on the number of pages fetched. */
  const MaxPages: nat := 10
  /** The pause between two page requests, in milliseconds. */
  const PageDelayMs: real := 200.0

  /** A page after which the loop asks for another: more data and a usable token. */
  predicate Continues(page: CostsResponse)
  {
    page.has_more && Truthy(page.next_page)
  }

  /**
   * What pagination gathers: the buckets, the page token passed to each call
   * (one entry per call), and the number of 200 ms pauses.
   */
  datatype Gathered = Gathered(buckets: seq<CostBucket>, tokens: seq<Option<string>>, delays: nat)

  /**
   * The pagination loop from `pageCount` pages fetched so far and the token
   * `nextPage` on, when call number `pageCount` yields `respond(pageCount)`.
   * A thrown error stops the loop without counting the page; a page stops
   * it unless it continues, and a continuing page is followed by a pause.
   */
  function GatherFrom(respond: nat -> FetchOutcome, pageCount: nat, nextPage: Option<string>): (g: Gathered)
    requires pageCount <= MaxPages
    ensures pageCount < MaxPages ==> 1 <= |g.tokens| <= MaxPages - pageCount && g.tokens[0] == nextPage
    ensures g.delays <= |g.tokens|
    decreases MaxPages - pageCount
  {
    if pageCount == MaxPages then Gathered([], [], 0)
    else if respond(pageCount).Threw? then Gathered([], [nextPage], 0)
    else
      var page := respond(pageCount).page;
      if Continues(page) then
        var rest := GatherFrom(respond, pageCount + 1, page.next_page);
        Gathered(page.data + rest.buckets, [nextPage] + rest.tokens, rest.delays + 1)
      else Gathered(page.data, [nextPage], 0)
  }

  /** The outcome of call number c, as the single-page fetcher computes it. */
  function Responder(apiKey: string, envKey: string, startTime: int, endTime: int,
                     net: nat -> nat -> HttpResponse, jitter: nat -> nat -> Jitter,
                     draw: nat -> nat -> CostDraw): nat -> FetchOutcome
  {
    (c: nat) => FetchSpec(apiKey, envKey, startTime, endTime, net(c), jitter(c), draw(c)).outcome
  }

  /**
   * fetchAllOrganizationCosts, following the page tokens from the first page
   * on, where call number c of fetchOrganizationCosts yields `respond(c)`
   * (see Responder for the fetcher's own outcome).
   */
  method FetchAllOrganizationCosts(respond: nat -> FetchOutcome)
    returns (allBuckets: seq<CostBucket>, tokens: seq<Option<string>>, delays: seq<real>)
    ensures var g := GatherFrom(respond, 0, None);
      allBuckets == g.buckets && tokens == g.tokens && |delays| == g.delays
    ensures forall i :: 0 <= i < |delays| ==> delays[i] == PageDelayMs
  {
    ghost var whole := GatherFrom(respond, 0, None);
    allBuckets, tokens, delays := [], [], [];
    var nextPage: Option<string> := None;
    var hasMore := true;
    var pageCount: nat := 0;
    while hasMore && pageCount < MaxPages
      invariant pageCount <= MaxPages
      invariant forall i :: 0 <= i < |delays| ==> delays[i] == PageDelayMs
      invariant hasMore ==> whole == Prefixed(allBuckets, tokens, |delays|, GatherFrom(respond, pageCount, nextPage))
      invariant !hasMore ==> whole == Gathered(allBuckets, tokens, |delays|)
      decreases MaxPages - pageCount
    {
      var outcome := respond(pageCount);
      GatherStep(respond, pageCount, nextPage, allBuckets, tokens, |delays|);
      tokens := tokens + [nextPage];
      if outcome.Threw? {
        // The catch block: the error is logged and pagination stops.
        assert whole == Gathered(allBuckets, tokens, |delays|);
        break;
      }
      var response := outcome.page;
      pageCount := pageCount + 1;
      allBuckets := allBuckets + response.data;
      hasMore := response.has_more;
      nextPage := response.next_page;
      if !Truthy(nextPage) && hasMore {
        assert whole == Gathered(allBuckets, tokens, |delays|);
        break;
      }
      if hasMore {
        delays := delays + [PageDelayMs];
        assert whole == Prefixed(allBuckets, tokens, |delays|, GatherFrom(respond, pageCount, nextPage));
      } else {
        assert whole == Gathered(allBuckets, tokens, |delays|);
      }
    }
    if hasMore && pageCount == MaxPages {
      assert GatherFrom(respond, pageCount, nextPage) == Gathered([], [], 0);
      assert allBuckets + [] == allBuckets && tokens + [] == tokens;
    }
  }

  /** What has been gathered so far, followed by what the rest of the loop gathers. */
  function Prefixed(buckets: seq<CostBucket>, tokens: seq<Option<string>>, delays: nat, rest: Gathered): Gathered
  {
    Gathered(buckets + rest.buckets, tokens + rest.tokens, delays + rest.delays)
  }

  lemma ResponderAt(apiKey: string, envKey: string, startTime: int, endTime: int,
                    net: nat -> nat -> HttpResponse, jitter: nat -> nat -> Jitter,
                    draw: nat -> nat -> CostDraw, c: nat)
    ensures Responder(apiKey, envKey, startTime, endTime, net, jitter, draw)(c) ==
              FetchSpec(apiKey, envKey, startTime, endTime, net(c), jitter(c), draw(c)).outcome
  {
  }

  /** One iteration of the loop, seen from the whole run: how the prefix absorbs the next call. */
  lemma GatherStep(respond: nat -> FetchOutcome, pageCount: nat, nextPage: Option<string>,
                   buckets: seq<CostBucket>, tokens: seq<Option<string>>, delays: nat)
    requires pageCount < MaxPages
    ensures var before := Prefixed(buckets, tokens, delays, GatherFrom(respond, pageCount, nextPage));
      && (respond(pageCount).Threw? ==> before == Gathered(buckets, tokens + [nextPage], delays))
      && (!respond(pageCount).Threw? && !Continues(respond(pageCount).page) ==>
            before == Gathered(buckets + respond(pageCount).page.data, tokens + [nextPage], delays))
      && (!respond(pageCount).Threw? && Continues(respond(pageCount).page) ==>
            before == Prefixed(buckets + respond(pageCount).page.data, tokens + [nextPage], delays + 1,
                               GatherFrom(respond, pageCount + 1, respond(pageCount).page.next_page)))
  {
    if !respond(pageCount).Threw? {
      var page := respond(pageCount).page;
      if Continues(page) {
        var rest := GatherFrom(respond, pageCount + 1, page.next_page);
        assert buckets + (page.data + rest.buckets) == (buckets + page.data) + rest.buckets;
        assert tokens + ([nextPage] + rest.tokens) == (tokens + [nextPage]) + rest.tokens;
      }
    } else {
      assert buckets + [] == buckets;
    }
  }

  // ---------------------------------------------------------------------
  // Properties
  // ---------------------------------------------------------------------

  /**
   * The loop calls the fetcher at least once and at most ten times less the
   * pages already fetched, the first call passes the current token, and it
   * pauses once per call except after the last one, unless the last page
   * fetched was the tenth and still continued.
   */
  lemma {:induction false} GatherBounds(respond: nat -> FetchOutcome, pageCount: nat, nextPage: Option<string>)
    requires pageCount < MaxPages
    ensures var g := GatherFrom(respond, pageCount, nextPage);
      && 1 <= |g.tokens| <= MaxPages - pageCount
      && g.tokens[0] == nextPage
      && (g.delays == |g.tokens| - 1 || (g.delays == |g.tokens| && pageCount + |g.tokens| == MaxPages))
    decreases MaxPages - pageCount
  {
    var g := GatherFrom(respond, pageCount, nextPage);
    if !respond(pageCount).Threw? && Continues(respond(pageCount).page) && pageCount + 1 < MaxPages {
      GatherBounds(respond, pageCount + 1, respond(pageCount).page.next_page);
    }
  }

  /**
   * Token chaining: every call after the first passes the truthy next_page
   * token of the page before it, and that page reported has_more.
   */
  lemma {:induction false} TokensChain(respond: nat -> FetchOutcome, pageCount: nat, nextPage: Option<string>, i: nat)
    requires pageCount <= MaxPages
    requires i + 1 < |GatherFrom(respond, pageCount, nextPage).tokens|
    ensures pageCount + i + 1 < MaxPages
    ensures !respond(pageCount + i).Threw?
    ensures respond(pageCount + i).page.has_more
    ensures Truthy(GatherFrom(respond, pageCount, nextPage).tokens[i + 1])
    ensures GatherFrom(respond, pageCount, nextPage).tokens[i + 1] == respond(pageCount + i).page.next_page
    decreases i
  {
    var g := GatherFrom(respond, pageCount, nextPage);
    var page := respond(pageCount).page;
    assert pageCount < MaxPages && !respond(pageCount).Threw? && Continues(page);
    var rest := GatherFrom(respond, pageCount + 1, page.next_page);
    assert g.tokens == [nextPage] + rest.tokens;
    assert g.tokens[i + 1] == rest.tokens[i];
    if i > 0 {
      TokensChain(respond, pageCount + 1, page.next_page, i - 1);
      assert pageCount + 1 + (i - 1) == pageCount + i;
    } else {
      GatherBounds(respond, pageCount + 1, page.next_page);
    }
  }

  /** The buckets of calls `from` to `from + n - 1`, in call order; a call that threw contributes none. */
  function PagesData(respond: nat -> FetchOutcome, from: nat, n: nat): seq<CostBucket>
    decreases n
  {
    if n == 0 then []
    else (if respond(from).Threw? then [] else respond(from).page.data) + PagesData(respond, from + 1, n - 1)
  }

  /**
   * What the loop gathers is the concatenation of the pages of the calls it
   * made, in arrival order. Every call but the last returned a page that
   * continues (has_more and a truthy next_page); the last call threw, or
   * returned a page that does not continue, or was the tenth.
   */
  lemma {:induction false} GatherIsConcatenation(respond: nat -> FetchOutcome, pageCount: nat, nextPage: Option<string>)
    requires pageCount < MaxPages
    ensures var g := GatherFrom(respond, pageCount, nextPage);
      var n := |g.tokens|;
      && 1 <= n
      && g.buckets == PagesData(respond, pageCount, n)
      && (forall k :: pageCount <= k < pageCount + n - 1 ==> !respond(k).Threw? && Continues(respond(k).page))
      && (var last := respond(pageCount + n - 1);
            last.Threw? || !Continues(last.page) || pageCount + n == MaxPages)
  {
    var n := |GatherFrom(respond, pageCount, nextPage).tokens|;
    GatherBuckets(respond, pageCount, nextPage);
    LastCallStops(respond, pageCount, nextPage);
    forall k | pageCount <= k < pageCount + n - 1 ensures !respond(k).Threw? && Continues(respond(k).page) {
      ContinuesBeforeLast(respond, pageCount, nextPage, k);
    }
  }

  /** The gathered buckets are those of the calls made, in call order. */
  lemma {:induction false} GatherBuckets(respond: nat -> FetchOutcome, pageCount: nat, nextPage: Option<string>)
    requires pageCount < MaxPages
    ensures var g := GatherFrom(respond, pageCount, nextPage);
      g.buckets == PagesData(respond, pageCount, |g.tokens|)
    decreases MaxPages - pageCount
  {
    var r := respond(pageCount);
    if r.Threw? || !Continues(r.page) || pageCount + 1 == MaxPages {
      GatherFirstCall(respond, pageCount, nextPage);
    } else {
      GatherBuckets(respond, pageCount + 1, r.page.next_page);
      GatherContinues(respond, pageCount, nextPage);
    }
  }

  /** Every call but the last returned a continuing page. */
  lemma {:induction false} ContinuesBeforeLast(respond: nat -> FetchOutcome, pageCount: nat, nextPage: Option<string>, k: nat)
    requires pageCount <= k
    requires pageCount < MaxPages
    requires k < pageCount + |GatherFrom(respond, pageCount, nextPage).tokens| - 1
    ensures !respond(k).Threw? && Continues(respond(k).page)
    decreases k - pageCount
  {
    var r := respond(pageCount);
    assert !r.Threw? && Continues(r.page) && pageCount + 1 < MaxPages;
    if k > pageCount {
      GatherContinues(respond, pageCount, nextPage);
      ContinuesBeforeLast(respond, pageCount + 1, r.page.next_page, k);
    }
  }

  /** The last call threw, returned a page that does not continue, or was the tenth. */
  lemma {:induction false} LastCallStops(respond: nat -> FetchOutcome, pageCount: nat, nextPage: Option<string>)
    requires pageCount < MaxPages
    ensures var n := |GatherFrom(respond, pageCount, nextPage).tokens|;
      var last := respond(pageCount + n - 1);
      last.Threw? || !Continues(last.page) || pageCount + n == MaxPages
    decreases MaxPages - pageCount
  {
    var r := respond(pageCount);
    if r.Threw? || !Continues(r.page) || pageCount + 1 == MaxPages {
      GatherFirstCall(respond, pageCount, nextPage);
    } else {
      var rest := GatherFrom(respond, pageCount + 1, r.page.next_page);
      LastCallStops(respond, pageCount + 1, r.page.next_page);
      GatherContinues(respond, pageCount, nextPage);
      var n := |GatherFrom(respond, pageCount, nextPage).tokens|;
      assert n == 1 + |rest.tokens|;
      assert pageCount + n - 1 == (pageCount + 1) + |rest.tokens| - 1;
      assert pageCount + n == (pageCount + 1) + |rest.tokens|;
    }
  }

  lemma GatherFirstCall(respond: nat -> FetchOutcome, pageCount: nat, nextPage: Option<string>)
    requires pageCount < MaxPages
    requires var r := respond(pageCount); r.Threw? || !Continues(r.page) || pageCount + 1 == MaxPages
    ensures var g := GatherFrom(respond, pageCount, nextPage);
      |g.tokens| == 1 && g.buckets == PagesData(respond, pageCount, 1)
  {
    assert PagesData(respond, pageCount + 1, 0) == [];
    var r := respond(pageCount);
    if !r.Threw? && Continues(r.page) {
      assert GatherFrom(respond, pageCount + 1, r.page.next_page) == Gathered([], [], 0);
    }
  }

  /** A first call whose page continues, before the tenth, is followed by the rest of the loop. */
  lemma GatherContinues(respond: nat -> FetchOutcome, pageCount: nat, nextPage: Option<string>)
    requires pageCount + 1 < MaxPages
    requires !respond(pageCount).Threw? && Continues(respond(pageCount).page)
    ensures var g := GatherFrom(respond, pageCount, nextPage);
      var rest := GatherFrom(respond, pageCount + 1, respond(pageCount).page.next_page);
      && |g.tokens| == 1 + |rest.tokens|
      && (rest.buckets == PagesData(respond, pageCount + 1, |rest.tokens|) ==>
            g.buckets == PagesData(respond, pageCount, |g.tokens|))
  {
  }

  /** A first page that does not continue is the only page: its buckets, one call, no pause. */
  lemma SinglePage(respond: nat -> FetchOutcome)
    requires !respond(0).Threw? && !Continues(respond(0).page)
    ensures GatherFrom(respond, 0, None) == Gathered(respond(0).page.data, [None], 0)
  {
  }

  /** Pages that always continue are cut off at ten calls, each followed by a pause. */
  lemma {:induction false} AllPagesContinue(respond: nat -> FetchOutcome, pageCount: nat, nextPage: Option<string>)
    requires pageCount <= MaxPages
    requires forall k :: pageCount <= k < MaxPages ==> !respond(k).Threw? && Continues(respond(k).page)
    ensures |GatherFrom(respond, pageCount, nextPage).tokens| == MaxPages - pageCount
    ensures GatherFrom(respond, pageCount, nextPage).delays == MaxPages - pageCount
    decreases MaxPages - pageCount
  {
    if pageCount < MaxPages {
      AllPagesContinue(respond, pageCount + 1, respond(pageCount).page.next_page);
    }
  }

  /** The mock page that replaces a failed call never continues, so it ends pagination. */
  lemma MockPageEndsPagination(startTime: int, endTime: int, draw: nat -> CostDraw)
    ensures !Continues(MockCostPage(startTime, endTime, draw))
  {
  }

  /** Without a usable key the first call throws: nothing is gathered and nothing more is asked. */
  lemma BlankKeyGathersNothing(apiKey: string, envKey: string, startTime: int, endTime: int,
                               net: nat -> nat -> HttpResponse, jitter: nat -> nat -> Jitter,
                               draw: nat -> nat -> CostDraw)
    requires ResolveKey(apiKey, envKey) == ""
    ensures GatherFrom(Responder(apiKey, envKey, startTime, endTime, net, jitter, draw), 0, None) ==
              Gathered([], [None], 0)
  {
    ResponderAt(apiKey, envKey, startTime, endTime, net, jitter, draw, 0);
  }

  /** With a usable key no call throws, so every call contributes a page. */
  lemma UsableKeyNeverThrows(apiKey: string, envKey: string, startTime: int, endTime: int,
                             net: nat -> nat -> HttpResponse, jitter: nat -> nat -> Jitter,
                             draw: nat -> nat -> CostDraw, c: nat)
    requires ResolveKey(apiKey, envKey) != ""
    ensures !Responder(apiKey, envKey, startTime, endTime, net, jitter, draw)(c).Threw?
  {
    ResponderAt(apiKey, envKey, startTime, endTime, net, jitter, draw, c);
    FetchBounds(apiKey, envKey, startTime, endTime, net(c), jitter(c), draw(c));
  }
}
