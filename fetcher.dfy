/**
 * The retrying, paginating fetcher (src/shopify/fetcher.ts).
 *
 * The GraphQL transport is a script: the i-th transport call made during a
 * run answers with the i-th outcome of the script. A call made after the
 * script is used up never answers, and the run is `Hung` (the source has no
 * request timeout). Every `sleep` is recorded, in order, as its delay in
 * milliseconds.
 *
 * Each loop is a method proved against a recursive function that states the
 * same run step by step (Retry, Paginate); the lemmas state what the source
 * promises about those runs.
 */
module Fetcher {
  import opened Wrappers
  import opened ShopTypes

  const RateLimitStatus: int := 429
  const MaxRetriesPerPage: nat := 3
  const TransientBackoffMs: nat := 1000
  const PageDelayMs: nat := 500
  const DefaultLimit: int := 50

  /** A thrown transport error: its HTTP status, if any, and its message. */
  datatype Failure = Failure(status: Option<int>, message: string)

  /** What one transport call does: answer with a page, or throw. */
  datatype Outcome = Ok(response: ProductsResponse) | Err(failure: Failure)

  /** How a call of the fetcher ends: a value, a thrown error, or waiting forever. */
  datatype Settled<T> = Returned(value: T) | Threw(failure: Failure) | Hung

  /** The error thrown once the attempt budget is spent. */
  const Exhausted := Failure(None, "Failed to fetch after all retries")

  /** The GraphQL variables of one page request. */
  datatype Variables = Variables(cursor: Option<string>, limit: int)

  datatype FetchResult = FetchResult(products: seq<Product>, totalCount: int)

  // ---------------------------------------------------------------------------
  // Classifying failures
  // ---------------------------------------------------------------------------

  /** `t` occurs in `s` at position `i`. */
  ghost predicate OccursAt(s: string, t: string, i: nat)
  {
    i + |t| <= |s| && s[i..i + |t|] == t
  }

  /** `String.prototype.includes`. */
  predicate Contains(s: string, t: string)
    decreases |s|
  {
    |t| <= |s| && (s[..|t|] == t || Contains(s[1..], t))
  }

  lemma {:induction false} ContainsIff(s: string, t: string)
    ensures Contains(s, t) <==> exists i: nat :: OccursAt(s, t, i)
    decreases |s|
  {
    if |t| <= |s| && s[..|t|] == t {
      assert OccursAt(s, t, 0);
    } else if |t| <= |s| {
      ContainsIff(s[1..], t);
      if exists i: nat :: OccursAt(s[1..], t, i) {
        var i: nat :| OccursAt(s[1..], t, i);
        assert s[1..][i..i + |t|] == s[i + 1..i + 1 + |t|];
        assert OccursAt(s, t, i + 1);
      }
      if exists i: nat :: OccursAt(s, t, i) {
        var i: nat :| OccursAt(s, t, i);
        assert i > 0;
        assert s[1..][i - 1..i - 1 + |t|] == s[i..i + |t|];
        assert OccursAt(s[1..], t, i - 1);
      }
    }
  }

  /** A failure is a rate limit when its status is 429 or its message mentions 429. */
  predicate IsRateLimit(f: Failure)
  {
    f.status == Some(RateLimitStatus) || Contains(f.message, "429")
  }

  lemma RateLimitIff(f: Failure)
    ensures IsRateLimit(f) <==> f.status == Some(429) || exists i: nat :: OccursAt(f.message, "429", i)
  {
    ContainsIff(f.message, "429");
  }

  // ---------------------------------------------------------------------------
  // fetchWithRetry
  // ---------------------------------------------------------------------------

  /** `Math.pow(2, n)`. */
  function Pow2(n: nat): (p: nat)
    ensures p >= 1
  {
    if n == 0 then 1 else 2 * Pow2(n - 1)
  }

  /** The sleep that follows a failed attempt that is retried or rate-limited. */
  function Backoff(attempt: nat, f: Failure): nat
  {
    if IsRateLimit(f) then Pow2(attempt) * 1000 else TransientBackoffMs
  }

  /** One run of the retry loop: how it ended, how many transport calls it made, its sleeps. */
  datatype RetryRun = RetryRun(result: Settled<ProductsResponse>, calls: nat, delays: seq<nat>)

  /**
   * The retry loop from attempt `attempt` on, the transport answering with
   * `script`. Rate-limited failures back off exponentially (even after the
   * last attempt), other failures back off 1000 ms, except on the last
   * attempt, where they are re-thrown.
   */
  function Retry(script: seq<Outcome>, attempt: nat, maxRetries: nat): (run: RetryRun)
    requires 1 <= attempt <= maxRetries + 1
    ensures run.calls <= |script| && run.calls <= maxRetries + 1 - attempt
    ensures run.result.Returned? ==> run.calls >= 1
    decreases maxRetries + 1 - attempt
  {
    if attempt > maxRetries then RetryRun(Threw(Exhausted), 0, [])
    else if script == [] then RetryRun(Hung, 0, [])
    else
      match script[0]
      case Ok(response) => RetryRun(Returned(response), 1, [])
      case Err(f) =>
        if !IsRateLimit(f) && attempt == maxRetries then RetryRun(Threw(f), 1, [])
        else
          var rest := Retry(script[1..], attempt + 1, maxRetries);
          RetryRun(rest.result, rest.calls + 1, [Backoff(attempt, f)] + rest.delays)
  }

  /** A run that first made `calls` calls and slept `delays`, then went on as `rest`. */
  function AfterRetries(calls: nat, delays: seq<nat>, rest: RetryRun): RetryRun
  {
    RetryRun(rest.result, calls + rest.calls, delays + rest.delays)
  }

  /** A failed call that is retried: one more call, and its sleep, before the next attempt. */
  lemma RetriedCall(script: seq<Outcome>, calls: nat, delays: seq<nat>, attempt: nat, maxRetries: nat, delays': seq<nat>)
    requires 1 <= attempt <= maxRetries && calls < |script| && script[calls].Err?
    requires IsRateLimit(script[calls].failure) || attempt < maxRetries
    requires delays' == delays + [Backoff(attempt, script[calls].failure)]
    ensures AfterRetries(calls, delays, Retry(script[calls..], attempt, maxRetries))
         == AfterRetries(calls + 1, delays', Retry(script[calls + 1..], attempt + 1, maxRetries))
  {
    assert script[calls..][1..] == script[calls + 1..];
    var rest := Retry(script[calls + 1..], attempt + 1, maxRetries);
    assert delays + ([Backoff(attempt, script[calls].failure)] + rest.delays) == delays' + rest.delays;
  }

  /**
   * `fetchWithRetry`: at most `maxRetries` transport calls; the first answer
   * is returned at once.
   */
  method FetchWithRetry(script: seq<Outcome>, maxRetries: nat) returns (result: Settled<ProductsResponse>, calls: nat, delays: seq<nat>)
    ensures RetryRun(result, calls, delays) == Retry(script, 1, maxRetries)
  {
    calls, delays := 0, [];
    var attempt := 1;
    while attempt <= maxRetries
      invariant 1 <= attempt <= maxRetries + 1
      invariant calls == attempt - 1 && calls <= |script|
      invariant Retry(script, 1, maxRetries) == AfterRetries(calls, delays, Retry(script[calls..], attempt, maxRetries))
      decreases maxRetries + 1 - attempt
    {
      if calls == |script| {
        result := Hung;
        return;
      }
      var outcome := script[calls];
      assert script[calls..][1..] == script[calls + 1..];
      calls := calls + 1;
      match outcome {
        case Ok(response) =>
          result := Returned(response);
          return;
        case Err(error) =>
          ghost var delays0 := delays;
          if IsRateLimit(error) {
            delays := delays + [Pow2(attempt) * 1000];
          } else if attempt == maxRetries {
            result := Threw(error);
            return;
          } else {
            delays := delays + [TransientBackoffMs];
          }
          RetriedCall(script, calls - 1, delays0, attempt, maxRetries, delays);
      }
      attempt := attempt + 1;
    }
    result := Threw(Exhausted);
  }

  /**
   * The first answer ends the loop: every call before the last one failed,
   * and a returned page is the answer of the last call.
   */
  lemma {:induction false} RetryReturnsFirstAnswer(script: seq<Outcome>, attempt: nat, maxRetries: nat)
    requires 1 <= attempt <= maxRetries + 1
    ensures var run := Retry(script, attempt, maxRetries);
      && (forall i :: 0 <= i < run.calls - 1 ==> script[i].Err?)
      && (run.result.Returned? ==> script[run.calls - 1] == Ok(run.result.value))
      && (!run.result.Returned? ==> forall i :: 0 <= i < run.calls ==> script[i].Err?)
    decreases maxRetries + 1 - attempt
  {
    if attempt <= maxRetries && script != [] && script[0].Err? {
      if IsRateLimit(script[0].failure) || attempt < maxRetries {
        RetryReturnsFirstAnswer(script[1..], attempt + 1, maxRetries);
      }
    }
  }

  /**
   * Conversely, an answer at position `k` within the budget, after only
   * failures, is returned after exactly `k + 1` calls.
   */
  lemma {:induction false} RetryFindsAnswer(script: seq<Outcome>, attempt: nat, maxRetries: nat, k: nat)
    requires 1 <= attempt <= maxRetries + 1
    requires k < |script| && attempt + k <= maxRetries
    requires script[k].Ok? && forall i :: 0 <= i < k ==> script[i].Err?
    ensures Retry(script, attempt, maxRetries).result == Returned(script[k].response)
    ensures Retry(script, attempt, maxRetries).calls == k + 1
    decreases k
  {
    if k > 0 {
      RetryFindsAnswer(script[1..], attempt + 1, maxRetries, k - 1);
    }
  }

  /**
   * The sleeps: every call but possibly the last is followed by one; the
   * i-th follows the i-th call, which failed, and lasts `2^attempt * 1000`
   * ms after a rate limit and 1000 ms otherwise.
   */
  lemma {:induction false} RetryBackoffSchedule(script: seq<Outcome>, attempt: nat, maxRetries: nat)
    requires 1 <= attempt <= maxRetries + 1
    ensures var run := Retry(script, attempt, maxRetries);
      && |run.delays| <= run.calls <= |run.delays| + 1
      && (forall i :: 0 <= i < |run.delays| ==>
            script[i].Err? && run.delays[i] == Backoff(attempt + i, script[i].failure))
    decreases maxRetries + 1 - attempt
  {
    if attempt <= maxRetries && script != [] && script[0].Err? {
      var f := script[0].failure;
      if IsRateLimit(f) || attempt < maxRetries {
        RetryBackoffSchedule(script[1..], attempt + 1, maxRetries);
        var rest := Retry(script[1..], attempt + 1, maxRetries);
        var run := Retry(script, attempt, maxRetries);
        assert run.delays == [Backoff(attempt, f)] + rest.delays;
        forall i | 0 <= i < |rest.delays| + 1
          ensures ([Backoff(attempt, f)] + rest.delays)[i] == Backoff(attempt + i, script[i].failure)
        {
          if i > 0 { assert script[i] == script[1..][i - 1]; }
        }
      }
    }
  }

  /**
   * Every call is followed by a sleep exactly when the run hung, or gave up
   * after a rate-limited last call (or without any call at all).
   */
  lemma {:induction false} RetryLastCallSleeps(script: seq<Outcome>, attempt: nat, maxRetries: nat)
    requires 1 <= attempt <= maxRetries + 1
    ensures var run := Retry(script, attempt, maxRetries);
      (|run.delays| == run.calls <==> run.result.Hung? || (run.result.Threw? && (run.calls == 0 || (script[run.calls - 1].Err? && IsRateLimit(script[run.calls - 1].failure)))))
    decreases maxRetries + 1 - attempt
  {
    if attempt <= maxRetries && script != [] && script[0].Err? {
      var f := script[0].failure;
      if IsRateLimit(f) || attempt < maxRetries {
        RetryLastCallSleeps(script[1..], attempt + 1, maxRetries);
        var rest := Retry(script[1..], attempt + 1, maxRetries);
        var run := Retry(script, attempt, maxRetries);
        assert run == RetryRun(rest.result, rest.calls + 1, [Backoff(attempt, f)] + rest.delays);
        if rest.calls > 0 {
          assert script[rest.calls] == script[1..][rest.calls - 1];
        }
      }
    }
  }

  /**
   * How the loop fails. A throw comes only once the whole budget is spent:
   * a non-rate-limited last attempt is re-thrown as it is; a rate-limited
   * last attempt (or an empty budget) ends in the generic error. A hang
   * happens only when the script runs out first.
   */
  lemma {:induction false} RetryFailures(script: seq<Outcome>, attempt: nat, maxRetries: nat)
    requires 1 <= attempt <= maxRetries + 1
    ensures var run := Retry(script, attempt, maxRetries);
      && (run.result.Threw? ==> run.calls == maxRetries + 1 - attempt)
      && (run.result.Threw? && run.calls > 0 ==> script[run.calls - 1].Err?)
      && (run.result.Threw? && run.calls > 0 && !IsRateLimit(script[run.calls - 1].failure) ==>
            run.result.failure == script[run.calls - 1].failure)
      && (run.result.Threw? && (run.calls == 0 || IsRateLimit(script[run.calls - 1].failure)) ==>
            run.result.failure == Exhausted)
      && (run.result.Hung? <==> run.calls == |script| < maxRetries + 1 - attempt && forall i :: 0 <= i < |script| ==> script[i].Err?)
    decreases maxRetries + 1 - attempt
  {
    RetryReturnsFirstAnswer(script, attempt, maxRetries);
    if attempt <= maxRetries && script != [] && script[0].Err? {
      var f := script[0].failure;
      if IsRateLimit(f) || attempt < maxRetries {
        RetryFailures(script[1..], attempt + 1, maxRetries);
        var rest := Retry(script[1..], attempt + 1, maxRetries);
        if rest.calls > 0 {
          assert script[rest.calls] == script[1..][rest.calls - 1];
        }
        forall i | 1 <= i < |script| ensures script[i] == script[1..][i - 1] { }
      }
    }
  }

  /** Every sleep of the retry loop lasts at least 1000 ms. */
  lemma {:induction false} RetryDelaysAtLeast(script: seq<Outcome>, attempt: nat, maxRetries: nat)
    requires 1 <= attempt <= maxRetries + 1
    ensures forall d :: d in Retry(script, attempt, maxRetries).delays ==> d >= TransientBackoffMs
    decreases maxRetries + 1 - attempt
  {
    if attempt <= maxRetries && script != [] && script[0].Err? {
      if IsRateLimit(script[0].failure) || attempt < maxRetries {
        RetryDelaysAtLeast(script[1..], attempt + 1, maxRetries);
      }
    }
  }

  /** Two rate limits, then an answer: three calls, sleeping 2000 then 4000 ms. */
  lemma TwoRateLimitsThenAnswer(f1: Failure, f2: Failure, response: ProductsResponse, rest: seq<Outcome>)
    requires IsRateLimit(f1) && IsRateLimit(f2)
    ensures Retry([Err(f1), Err(f2), Ok(response)] + rest, 1, 3) == RetryRun(Returned(response), 3, [2000, 4000])
  {
    var script := [Err(f1), Err(f2), Ok(response)] + rest;
    assert script[1..][1..] == [Ok(response)] + rest;
  }

  /** Three non-rate-limit failures: three calls, two 1000 ms sleeps, the third error re-thrown. */
  lemma PersistentFailureRethrown(f1: Failure, f2: Failure, f3: Failure, rest: seq<Outcome>)
    requires !IsRateLimit(f1) && !IsRateLimit(f2) && !IsRateLimit(f3)
    ensures Retry([Err(f1), Err(f2), Err(f3)] + rest, 1, 3) == RetryRun(Threw(f3), 3, [1000, 1000])
  {
    var script := [Err(f1), Err(f2), Err(f3)] + rest;
    assert script[1..][1..] == [Err(f3)] + rest;
  }

  /** Three rate limits: a sleep after each, the last one included, then the generic error. */
  lemma RateLimitedThroughout(f1: Failure, f2: Failure, f3: Failure, rest: seq<Outcome>)
    requires IsRateLimit(f1) && IsRateLimit(f2) && IsRateLimit(f3)
    ensures Retry([Err(f1), Err(f2), Err(f3)] + rest, 1, 3) == RetryRun(Threw(Exhausted), 3, [2000, 4000, 8000])
  {
    var script := [Err(f1), Err(f2), Err(f3)] + rest;
    assert script[1..][1..] == [Err(f3)] + rest;
  }

  // ---------------------------------------------------------------------------
  // fetchAllProducts
  // ---------------------------------------------------------------------------

  /** `options.cursor || null`: an empty cursor counts as none. */
  function FirstCursor(cursor: Option<string>): Option<string>
  {
    if cursor.Some? && cursor.value != "" then cursor else None
  }

  /** `options.limit || 50`. */
  function EffectiveLimit(limit: Option<int>): int
  {
    if limit.None? || limit.value == 0 then DefaultLimit else limit.value
  }

  /** `!maxProducts || count < maxProducts`: an absent or zero cap is no cap. */
  predicate UnderCap(count: nat, maxProducts: Option<int>)
  {
    maxProducts.None? || maxProducts.value == 0 || count < maxProducts.value
  }

  /** The products of a page, in order. */
  function Nodes(edges: seq<ProductEdge>): (products: seq<Product>)
    ensures |products| == |edges|
  {
    if edges == [] then [] else [edges[0].node] + Nodes(edges[1..])
  }

  /** The i-th product of a page is the node of its i-th edge. */
  lemma {:induction false} NodesInOrder(edges: seq<ProductEdge>)
    ensures forall i :: 0 <= i < |edges| ==> Nodes(edges)[i] == edges[i].node
  {
    if edges != [] {
      NodesInOrder(edges[1..]);
      forall i | 1 <= i < |edges| ensures Nodes(edges)[i] == edges[i].node {
        assert Nodes(edges)[i] == Nodes(edges[1..])[i - 1];
      }
    }
  }

  /** The pages the transport answered with, in order. */
  function Answers(script: seq<Outcome>): seq<ProductsResponse>
  {
    if script == [] then []
    else (if script[0].Ok? then [script[0].response] else []) + Answers(script[1..])
  }

  /** The products of the pages, concatenated in order. */
  function Batches(pages: seq<ProductsResponse>): seq<Product>
  {
    if pages == [] then [] else Nodes(pages[0].edges) + Batches(pages[1..])
  }

  /** How many pages announce another page. */
  function PagesWithNext(pages: seq<ProductsResponse>): nat
  {
    if pages == [] then 0
    else (if pages[0].pageInfo.hasNextPage then 1 else 0) + PagesWithNext(pages[1..])
  }

  /** How many times `x` occurs in `s`. */
  function Occurrences(s: seq<nat>, x: nat): nat
  {
    if s == [] then 0 else (if s[0] == x then 1 else 0) + Occurrences(s[1..], x)
  }

  /**
   * One run of the pagination loop: its outcome, the transport calls it
   * made, its sleeps and the variables of each page request.
   */
  datatype FetchRun = FetchRun(result: Settled<FetchResult>, calls: nat, delays: seq<nat>, requests: seq<Variables>)

  /** Fetching one page: a run of the retry loop over what is left of the script. */
  type PageFetch = seq<Outcome> -> RetryRun

  /**
   * What the pagination loop itself relies on in a page fetch: it uses only
   * the script it is given, and it returns a page only after a call.
   */
  ghost predicate ConsumesScript(fetch: PageFetch)
  {
    forall s: seq<Outcome> {:trigger fetch(s)} ::
      && fetch(s).calls <= |s|
      && (fetch(s).result.Returned? ==> fetch(s).calls >= 1)
  }

  /**
   * What a page fetch over `s` reports: it hangs only once `s` is used up,
   * the page it returns is the only answer among its calls, and each of
   * its sleeps lasts 1000 ms or more.
   */
  ghost predicate Reports(fetch: PageFetch, s: seq<Outcome>)
  {
    && fetch(s).calls <= |s|
    && (fetch(s).result.Hung? ==> fetch(s).calls == |s|)
    && Answers(s[..fetch(s).calls]) == (if fetch(s).result.Returned? then [fetch(s).result.value] else [])
    && (forall d :: d in fetch(s).delays ==> d >= TransientBackoffMs)
  }

  /** A page fetch that behaves as the retry loop does, on every script. */
  ghost predicate PageFetcher(fetch: PageFetch)
  {
    ConsumesScript(fetch) && forall s: seq<Outcome> {:trigger Reports(fetch, s)} :: Reports(fetch, s)
  }

  /**
   * The pagination loop from the state (`cursor`, `products`,
   * `hasNextPage`) on. Each page goes through `fetch`; a failure ends the
   * loop, as a success carrying what was gathered when anything was, and
   * as that failure otherwise.
   */
  function Paginate(fetch: PageFetch, script: seq<Outcome>, cursor: Option<string>, limit: int,
                    maxProducts: Option<int>, products: seq<Product>, hasNextPage: bool): (run: FetchRun)
    requires ConsumesScript(fetch)
    ensures run.calls <= |script|
    ensures run.result.Returned? ==> run.result.value.totalCount == |run.result.value.products|
    decreases |script|
  {
    if !(hasNextPage && UnderCap(|products|, maxProducts)) then
      FetchRun(Returned(FetchResult(products, |products|)), 0, [], [])
    else
      var vars := Variables(cursor, limit);
      var page := fetch(script);
      match page.result
      case Hung => FetchRun(Hung, page.calls, page.delays, [vars])
      case Threw(f) =>
        if |products| > 0 then FetchRun(Returned(FetchResult(products, |products|)), page.calls, page.delays, [vars])
        else FetchRun(Threw(f), page.calls, page.delays, [vars])
      case Returned(response) =>
        var batch := Nodes(response.edges);
        var rest := Paginate(fetch, script[page.calls..], response.pageInfo.endCursor, limit, maxProducts,
                             products + batch, response.pageInfo.hasNextPage);
        FetchRun(rest.result, page.calls + rest.calls, page.delays + Pause(response) + rest.delays, [vars] + rest.requests)
  }

  /** A run that first made `calls` calls, slept `delays` and sent `requests`, then went on as `rest`. */
  function AfterPages(calls: nat, delays: seq<nat>, requests: seq<Variables>, rest: FetchRun): FetchRun
  {
    FetchRun(rest.result, calls + rest.calls, delays + rest.delays, requests + rest.requests)
  }

  /** The courtesy sleep after a page: only when another page remains. */
  function Pause(response: ProductsResponse): seq<nat>
  {
    if response.pageInfo.hasNextPage then [PageDelayMs] else []
  }

  lemma AfterPagesThen(calls: nat, delays: seq<nat>, requests: seq<Variables>,
                       calls': nat, delays': seq<nat>, requests': seq<Variables>, rest: FetchRun)
    ensures AfterPages(calls, delays, requests, AfterPages(calls', delays', requests', rest))
         == AfterPages(calls + calls', delays + delays', requests + requests', rest)
  {
    assert delays + (delays' + rest.delays) == delays + delays' + rest.delays;
    assert requests + (requests' + rest.requests) == requests + requests' + rest.requests;
  }

  /** Paginate once the loop condition fails: what was gathered, with no further calls. */
  lemma UnfoldStopped(fetch: PageFetch, script: seq<Outcome>, cursor: Option<string>, limit: int,
                      maxProducts: Option<int>, products: seq<Product>, hasNextPage: bool)
    requires ConsumesScript(fetch) && !(hasNextPage && UnderCap(|products|, maxProducts))
    ensures Paginate(fetch, script, cursor, limit, maxProducts, products, hasNextPage)
         == FetchRun(Returned(FetchResult(products, |products|)), 0, [], [])
  {
  }

  /** Paginate, unfolded once for a page request that failed or hung. */
  lemma UnfoldUnanswered(fetch: PageFetch, script: seq<Outcome>, cursor: Option<string>, limit: int,
                         maxProducts: Option<int>, products: seq<Product>)
    requires ConsumesScript(fetch) && UnderCap(|products|, maxProducts) && !fetch(script).result.Returned?
    ensures var page := fetch(script);
            (Paginate(fetch, script, cursor, limit, maxProducts, products, true)
             == FetchRun(if page.result.Hung? then Hung
                         else if |products| > 0 then Returned(FetchResult(products, |products|))
                         else Threw(page.result.failure),
                         page.calls, page.delays, [Variables(cursor, limit)]))
  {
  }

  /** Paginate, unfolded once for a page request that was answered. */
  lemma UnfoldAnswered(fetch: PageFetch, script: seq<Outcome>, cursor: Option<string>, limit: int,
                       maxProducts: Option<int>, products: seq<Product>)
    requires ConsumesScript(fetch) && UnderCap(|products|, maxProducts) && fetch(script).result.Returned?
    ensures var page := fetch(script);
            var response := page.result.value;
            && page.calls <= |script|
            && (Paginate(fetch, script, cursor, limit, maxProducts, products, true)
                == AfterPages(page.calls, page.delays + Pause(response), [Variables(cursor, limit)],
                              Paginate(fetch, script[page.calls..], response.pageInfo.endCursor, limit, maxProducts,
                                       products + Nodes(response.edges), response.pageInfo.hasNextPage)))
  {
  }

  // ---------------------------------------------------------------------------
  // What a pagination run does
  // ---------------------------------------------------------------------------

  lemma {:induction false} AnswersAppend(a: seq<Outcome>, b: seq<Outcome>)
    ensures Answers(a + b) == Answers(a) + Answers(b)
  {
    if a != [] {
      assert (a + b)[1..] == a[1..] + b;
      AnswersAppend(a[1..], b);
    } else {
      assert a + b == b;
    }
  }

  lemma {:induction false} AnswersOfFailures(s: seq<Outcome>)
    requires forall i :: 0 <= i < |s| ==> s[i].Err?
    ensures Answers(s) == []
  {
    if s != [] {
      AnswersOfFailures(s[1..]);
    }
  }

  /** The answers among the first `a + b` calls: those among the first `a`, then those among the next `b`. */
  lemma AnswersSplit(script: seq<Outcome>, a: nat, b: nat)
    requires a + b <= |script|
    ensures Answers(script[..a + b]) == Answers(script[..a]) + Answers(script[a..][..b])
  {
    assert script[..a + b] == script[..a] + script[a..][..b];
    AnswersAppend(script[..a], script[a..][..b]);
  }

  lemma {:induction false} BatchesAppend(a: seq<ProductsResponse>, b: seq<ProductsResponse>)
    ensures Batches(a + b) == Batches(a) + Batches(b)
  {
    if a != [] {
      assert (a + b)[1..] == a[1..] + b;
      BatchesAppend(a[1..], b);
    } else {
      assert a + b == b;
    }
  }

  lemma BatchesCons(response: ProductsResponse, rest: seq<ProductsResponse>)
    ensures Batches([response] + rest) == Nodes(response.edges) + Batches(rest)
  {
    assert ([response] + rest)[1..] == rest;
  }

  lemma BatchesAfterFirst(response: ProductsResponse, rest: seq<ProductsResponse>, i: nat)
    requires 0 < i <= |rest| + 1
    ensures Batches(([response] + rest)[..i]) == Nodes(response.edges) + Batches(rest[..i - 1])
  {
    assert ([response] + rest)[..i] == [response] + rest[..i - 1];
    BatchesCons(response, rest[..i - 1]);
  }

  lemma {:induction false} OccurrencesAppend(a: seq<nat>, b: seq<nat>, x: nat)
    ensures Occurrences(a + b, x) == Occurrences(a, x) + Occurrences(b, x)
  {
    if a != [] {
      assert (a + b)[1..] == a[1..] + b;
      OccurrencesAppend(a[1..], b, x);
    } else {
      assert a + b == b;
    }
  }

  lemma {:induction false} OccurrencesAbsent(s: seq<nat>, x: nat)
    requires x !in s
    ensures Occurrences(s, x) == 0
  {
    if s != [] {
      OccurrencesAbsent(s[1..], x);
    }
  }

  /**
   * What a run returns: what it started with followed by the products of
   * every page it was answered with, in order; it throws only when that is
   * nothing.
   */
  ghost predicate Gathered(run: FetchRun, pages: seq<ProductsResponse>, products: seq<Product>)
  {
    && (run.result.Returned? ==> run.result.value.products == products + Batches(pages))
    && (run.result.Threw? ==> products + Batches(pages) == [])
  }

  /**
   * Requests and the pages answering them: every request has the run's
   * limit; the first has the starting cursor and each later one the end
   * cursor of the page before; a request is made only while the page before
   * (or the start) announced a next page and the products gathered so far
   * are under the cap. At most the last request goes unanswered.
   */
  ghost predicate RequestsFollowPages(run: FetchRun, pages: seq<ProductsResponse>, cursor: Option<string>, limit: int,
                                      maxProducts: Option<int>, products: seq<Product>, hasNextPage: bool)
  {
    && |pages| <= |run.requests| <= |pages| + 1
    && (forall i :: 0 <= i < |run.requests| ==> run.requests[i].limit == limit)
    && (|run.requests| > 0 ==> run.requests[0].cursor == cursor && hasNextPage && UnderCap(|products|, maxProducts))
    && (forall i :: 0 < i < |run.requests| ==>
          run.requests[i].cursor == pages[i - 1].pageInfo.endCursor
          && pages[i - 1].pageInfo.hasNextPage
          && UnderCap(|products + Batches(pages[..i])|, maxProducts))
  }

  /**
   * A run whose every request was answered ended because the loop condition
   * failed: the last page (or the start) announced no next page, or the cap
   * was reached; it returns what it gathered.
   */
  ghost predicate EndedAnswered(run: FetchRun, pages: seq<ProductsResponse>, products: seq<Product>,
                                hasNextPage: bool, maxProducts: Option<int>)
  {
    var gathered := products + Batches(pages);
    |run.requests| == |pages| ==>
      && run.result == Returned(FetchResult(gathered, |gathered|))
      && !((if pages == [] then hasNextPage else pages[|pages| - 1].pageInfo.hasNextPage)
           && UnderCap(|gathered|, maxProducts))
  }

  /**
   * A run that ended on an unanswered request hung, threw with nothing
   * gathered, or returned the products gathered before it.
   */
  ghost predicate EndedUnanswered(run: FetchRun, pages: seq<ProductsResponse>, products: seq<Product>)
  {
    var gathered := products + Batches(pages);
    |run.requests| == |pages| + 1 ==>
      || run.result.Hung?
      || (run.result.Threw? && gathered == [])
      || (run.result == Returned(FetchResult(gathered, |gathered|)) && gathered != [])
  }

  /**
   * There are as many 500 ms sleeps as pages announcing a next page. (Where
   * each pause falls in the trace is stated by FollowsFetches.)
   */
  ghost predicate PausesFollowPages(run: FetchRun, pages: seq<ProductsResponse>)
  {
    Occurrences(run.delays, PageDelayMs) == PagesWithNext(pages)
  }

  /**
   * The page fetches of `n` requests made back to back: each one starts at
   * the call after the last call of the one before.
   */
  function Chain(fetch: PageFetch, script: seq<Outcome>, n: nat): (runs: seq<RetryRun>)
    requires ConsumesScript(fetch)
    ensures |runs| == n
    decreases n
  {
    if n == 0 then [] else [fetch(script)] + Chain(fetch, script[fetch(script).calls..], n - 1)
  }

  /** The transport calls of a sequence of page fetches. */
  function CallsOf(runs: seq<RetryRun>): nat
  {
    if runs == [] then 0 else runs[0].calls + CallsOf(runs[1..])
  }

  /** The pause after a page fetch: only after a page that announces another. */
  function PauseAfter(page: RetryRun): seq<nat>
  {
    if page.result.Returned? then Pause(page.result.value) else []
  }

  /** The sleeps of a sequence of page fetches, each fetch's own followed by its pause. */
  function Sleeps(runs: seq<RetryRun>): seq<nat>
  {
    if runs == [] then [] else runs[0].delays + PauseAfter(runs[0]) + Sleeps(runs[1..])
  }

  /**
   * A run is its requests' page fetches made back to back: its calls are
   * theirs; its sleeps are, request by request, that fetch's sleeps and
   * then the page's pause; the answered requests returned the pages, in
   * order. It hangs only once the script is used up. An unanswered last
   * request decides the outcome: its hang is the run's hang, and its
   * failure is re-thrown when nothing was gathered, while what was gathered
   * is returned otherwise.
   */
  ghost predicate FollowsFetches(fetch: PageFetch, script: seq<Outcome>, run: FetchRun,
                                 pages: seq<ProductsResponse>, products: seq<Product>)
    requires ConsumesScript(fetch)
  {
    var runs := Chain(fetch, script, |run.requests|);
    var gathered := products + Batches(pages);
    && run.calls == CallsOf(runs)
    && run.delays == Sleeps(runs)
    && |pages| <= |runs|
    && (forall j :: 0 <= j < |pages| ==> runs[j].result == Returned(pages[j]))
    && (run.result.Hung? ==> run.calls == |script|)
    && (|runs| == |pages| + 1 ==>
          && !runs[|pages|].result.Returned?
          && run.result == (if runs[|pages|].result.Hung? then Hung
                            else if gathered == [] then Threw(runs[|pages|].result.failure)
                            else Returned(FetchResult(gathered, |gathered|))))
  }

  // Each property carries over from the rest of a run to the run whose first request was answered with `response`.

  lemma GatheredAfterPage(run: FetchRun, rest: FetchRun, calls: nat, delays: seq<nat>, vars: Variables,
                          response: ProductsResponse, restPages: seq<ProductsResponse>, products: seq<Product>)
    requires run == AfterPages(calls, delays, [vars], rest)
    requires Gathered(rest, restPages, products + Nodes(response.edges))
    ensures Gathered(run, [response] + restPages, products)
  {
    BatchesCons(response, restPages);
    assert products + Batches([response] + restPages) == products + Nodes(response.edges) + Batches(restPages);
  }

  lemma RequestsAfterPage(run: FetchRun, rest: FetchRun, calls: nat, delays: seq<nat>,
                          cursor: Option<string>, limit: int, maxProducts: Option<int>,
                          response: ProductsResponse, restPages: seq<ProductsResponse>, products: seq<Product>)
    requires UnderCap(|products|, maxProducts)
    requires run == AfterPages(calls, delays, [Variables(cursor, limit)], rest)
    requires RequestsFollowPages(rest, restPages, response.pageInfo.endCursor, limit, maxProducts,
                                 products + Nodes(response.edges), response.pageInfo.hasNextPage)
    ensures RequestsFollowPages(run, [response] + restPages, cursor, limit, maxProducts, products, true)
  {
    var pages := [response] + restPages;
    assert run.requests == [Variables(cursor, limit)] + rest.requests;
    forall i | 0 < i < |run.requests|
      ensures run.requests[i].cursor == pages[i - 1].pageInfo.endCursor
              && pages[i - 1].pageInfo.hasNextPage
              && UnderCap(|products + Batches(pages[..i])|, maxProducts)
    {
      assert run.requests[i] == rest.requests[i - 1];
      BatchesAfterFirst(response, restPages, i);
      assert products + Batches(pages[..i]) == products + Nodes(response.edges) + Batches(restPages[..i - 1]);
      if i > 1 {
        assert pages[i - 1] == restPages[i - 2];
      }
    }
  }

  lemma EndedAfterPage(run: FetchRun, rest: FetchRun, calls: nat, delays: seq<nat>, vars: Variables,
                       response: ProductsResponse, restPages: seq<ProductsResponse>,
                       products: seq<Product>, maxProducts: Option<int>)
    requires run == AfterPages(calls, delays, [vars], rest)
    requires EndedAnswered(rest, restPages, products + Nodes(response.edges), response.pageInfo.hasNextPage, maxProducts)
    requires EndedUnanswered(rest, restPages, products + Nodes(response.edges))
    ensures EndedAnswered(run, [response] + restPages, products, true, maxProducts)
    ensures EndedUnanswered(run, [response] + restPages, products)
  {
    var pages := [response] + restPages;
    BatchesCons(response, restPages);
    assert products + Batches(pages) == products + Nodes(response.edges) + Batches(restPages);
    if restPages != [] {
      assert pages[|pages| - 1] == restPages[|restPages| - 1];
    }
  }

  lemma PausesAfterPage(run: FetchRun, rest: FetchRun, calls: nat, pageDelays: seq<nat>, vars: Variables,
                        response: ProductsResponse, restPages: seq<ProductsResponse>)
    requires run == AfterPages(calls, pageDelays + Pause(response), [vars], rest)
    requires forall d :: d in pageDelays ==> d >= TransientBackoffMs
    requires PausesFollowPages(rest, restPages)
    ensures PausesFollowPages(run, [response] + restPages)
  {
    OccurrencesAbsent(pageDelays, PageDelayMs);
    OccurrencesAppend(pageDelays + Pause(response), rest.delays, PageDelayMs);
    OccurrencesAppend(pageDelays, Pause(response), PageDelayMs);
    assert ([response] + restPages)[1..] == restPages;
  }

  lemma FollowsAfterPage(fetch: PageFetch, script: seq<Outcome>, run: FetchRun, rest: FetchRun, vars: Variables,
                         response: ProductsResponse, restPages: seq<ProductsResponse>, products: seq<Product>)
    requires ConsumesScript(fetch) && Reports(fetch, script) && fetch(script).result == Returned(response)
    requires run == AfterPages(fetch(script).calls, fetch(script).delays + Pause(response), [vars], rest)
    requires FollowsFetches(fetch, script[fetch(script).calls..], rest, restPages, products + Nodes(response.edges))
    ensures FollowsFetches(fetch, script, run, [response] + restPages, products)
  {
    var page := fetch(script);
    var pages := [response] + restPages;
    var restRuns := Chain(fetch, script[page.calls..], |rest.requests|);
    var runs := Chain(fetch, script, |run.requests|);
    assert runs == [page] + restRuns;
    assert runs[1..] == restRuns;
    BatchesCons(response, restPages);
    assert products + Batches(pages) == products + Nodes(response.edges) + Batches(restPages);
    forall j | 0 <= j < |pages| ensures runs[j].result == Returned(pages[j]) {
      if j > 0 {
        assert runs[j] == restRuns[j - 1] && pages[j] == restPages[j - 1];
      }
    }
    if |runs| == |pages| + 1 {
      assert runs[|pages|] == restRuns[|restPages|];
    }
  }

  /** A run whose first request was answered: that page, then the pages of the rest of the run. */
  lemma PagesAnswered(fetch: PageFetch, script: seq<Outcome>, cursor: Option<string>, limit: int,
                      maxProducts: Option<int>, products: seq<Product>)
    requires ConsumesScript(fetch) && Reports(fetch, script)
    requires UnderCap(|products|, maxProducts) && fetch(script).result.Returned?
    ensures var page := fetch(script);
            var response := page.result.value;
            var rest := Paginate(fetch, script[page.calls..], response.pageInfo.endCursor, limit, maxProducts,
                                 products + Nodes(response.edges), response.pageInfo.hasNextPage);
            Answers(script[..page.calls + rest.calls]) == [response] + Answers(script[page.calls..][..rest.calls])
  {
    var page := fetch(script);
    var response := page.result.value;
    var rest := Paginate(fetch, script[page.calls..], response.pageInfo.endCursor, limit, maxProducts,
                         products + Nodes(response.edges), response.pageInfo.hasNextPage);
    AnswersSplit(script, page.calls, rest.calls);
  }

  /** Gathered holds of every run. */
  lemma {:induction false} PaginateGathers(fetch: PageFetch, script: seq<Outcome>, cursor: Option<string>, limit: int,
                                           maxProducts: Option<int>, products: seq<Product>, hasNextPage: bool)
    requires PageFetcher(fetch)
    ensures var run := Paginate(fetch, script, cursor, limit, maxProducts, products, hasNextPage);
            Gathered(run, Answers(script[..run.calls]), products)
    decreases |script|
  {
    if hasNextPage && UnderCap(|products|, maxProducts) {
      var page := fetch(script);
      if !page.result.Returned? {
        GathersUnanswered(fetch, script, cursor, limit, maxProducts, products);
      } else {
        var response := page.result.value;
        PaginateGathers(fetch, script[page.calls..], response.pageInfo.endCursor, limit, maxProducts,
                        products + Nodes(response.edges), response.pageInfo.hasNextPage);
        GathersAnswered(fetch, script, cursor, limit, maxProducts, products);
      }
    } else {
      UnfoldStopped(fetch, script, cursor, limit, maxProducts, products, hasNextPage);
      assert script[..0] == [];
      assert products + Batches([]) == products;
    }
  }

  /** Gathered, for a run whose first request failed or hung. */
  lemma GathersUnanswered(fetch: PageFetch, script: seq<Outcome>, cursor: Option<string>, limit: int,
                          maxProducts: Option<int>, products: seq<Product>)
    requires ConsumesScript(fetch) && Reports(fetch, script)
    requires UnderCap(|products|, maxProducts) && !fetch(script).result.Returned?
    ensures var run := Paginate(fetch, script, cursor, limit, maxProducts, products, true);
            Gathered(run, Answers(script[..run.calls]), products)
  {
    UnfoldUnanswered(fetch, script, cursor, limit, maxProducts, products);
    assert Answers(script[..fetch(script).calls]) == [];
    assert products + Batches([]) == products;
  }

  /** Gathered, for a run whose first request was answered, from Gathered of the rest of the run. */
  lemma GathersAnswered(fetch: PageFetch, script: seq<Outcome>, cursor: Option<string>, limit: int,
                        maxProducts: Option<int>, products: seq<Product>)
    requires ConsumesScript(fetch) && Reports(fetch, script)
    requires UnderCap(|products|, maxProducts) && fetch(script).result.Returned?
    requires var page := fetch(script);
             var response := page.result.value;
             var rest := Paginate(fetch, script[page.calls..], response.pageInfo.endCursor, limit, maxProducts,
                                  products + Nodes(response.edges), response.pageInfo.hasNextPage);
             Gathered(rest, Answers(script[page.calls..][..rest.calls]), products + Nodes(response.edges))
    ensures var run := Paginate(fetch, script, cursor, limit, maxProducts, products, true);
            Gathered(run, Answers(script[..run.calls]), products)
  {
    var page := fetch(script);
    var response := page.result.value;
    var rest := Paginate(fetch, script[page.calls..], response.pageInfo.endCursor, limit, maxProducts,
                         products + Nodes(response.edges), response.pageInfo.hasNextPage);
    UnfoldAnswered(fetch, script, cursor, limit, maxProducts, products);
    PagesAnswered(fetch, script, cursor, limit, maxProducts, products);
    var run := Paginate(fetch, script, cursor, limit, maxProducts, products, true);
    GatheredAfterPage(run, rest, page.calls, page.delays + Pause(response), Variables(cursor, limit),
                      response, Answers(script[page.calls..][..rest.calls]), products);
  }

  /** RequestsFollowPages holds of every run. */
  lemma {:induction false} PaginateRequests(fetch: PageFetch, script: seq<Outcome>, cursor: Option<string>, limit: int,
                                            maxProducts: Option<int>, products: seq<Product>, hasNextPage: bool)
    requires PageFetcher(fetch)
    ensures var run := Paginate(fetch, script, cursor, limit, maxProducts, products, hasNextPage);
            RequestsFollowPages(run, Answers(script[..run.calls]), cursor, limit, maxProducts, products, hasNextPage)
    decreases |script|
  {
    if hasNextPage && UnderCap(|products|, maxProducts) {
      var page := fetch(script);
      if !page.result.Returned? {
        RequestsUnanswered(fetch, script, cursor, limit, maxProducts, products);
      } else {
        var response := page.result.value;
        PaginateRequests(fetch, script[page.calls..], response.pageInfo.endCursor, limit, maxProducts,
                         products + Nodes(response.edges), response.pageInfo.hasNextPage);
        RequestsAnswered(fetch, script, cursor, limit, maxProducts, products);
      }
    } else {
      UnfoldStopped(fetch, script, cursor, limit, maxProducts, products, hasNextPage);
      assert script[..0] == [];
    }
  }

  /** RequestsFollowPages, for a run whose first request failed or hung. */
  lemma RequestsUnanswered(fetch: PageFetch, script: seq<Outcome>, cursor: Option<string>, limit: int,
                           maxProducts: Option<int>, products: seq<Product>)
    requires ConsumesScript(fetch) && Reports(fetch, script)
    requires UnderCap(|products|, maxProducts) && !fetch(script).result.Returned?
    ensures var run := Paginate(fetch, script, cursor, limit, maxProducts, products, true);
            RequestsFollowPages(run, Answers(script[..run.calls]), cursor, limit, maxProducts, products, true)
  {
    UnfoldUnanswered(fetch, script, cursor, limit, maxProducts, products);
    assert Answers(script[..fetch(script).calls]) == [];
  }

  /** RequestsFollowPages, for a run whose first request was answered, from the rest of the run. */
  lemma RequestsAnswered(fetch: PageFetch, script: seq<Outcome>, cursor: Option<string>, limit: int,
                         maxProducts: Option<int>, products: seq<Product>)
    requires ConsumesScript(fetch) && Reports(fetch, script)
    requires UnderCap(|products|, maxProducts) && fetch(script).result.Returned?
    requires var page := fetch(script);
             var response := page.result.value;
             var rest := Paginate(fetch, script[page.calls..], response.pageInfo.endCursor, limit, maxProducts,
                                  products + Nodes(response.edges), response.pageInfo.hasNextPage);
             RequestsFollowPages(rest, Answers(script[page.calls..][..rest.calls]), response.pageInfo.endCursor, limit, maxProducts,
                                 products + Nodes(response.edges), response.pageInfo.hasNextPage)
    ensures var run := Paginate(fetch, script, cursor, limit, maxProducts, products, true);
            RequestsFollowPages(run, Answers(script[..run.calls]), cursor, limit, maxProducts, products, true)
  {
    var page := fetch(script);
    var response := page.result.value;
    var rest := Paginate(fetch, script[page.calls..], response.pageInfo.endCursor, limit, maxProducts,
                         products + Nodes(response.edges), response.pageInfo.hasNextPage);
    UnfoldAnswered(fetch, script, cursor, limit, maxProducts, products);
    PagesAnswered(fetch, script, cursor, limit, maxProducts, products);
    var run := Paginate(fetch, script, cursor, limit, maxProducts, products, true);
    RequestsAfterPage(run, rest, page.calls, page.delays + Pause(response), cursor, limit, maxProducts,
                      response, Answers(script[page.calls..][..rest.calls]), products);
  }

  /** Why a run ended: EndedAnswered and EndedUnanswered hold of every run. */
  lemma {:induction false} PaginateStops(fetch: PageFetch, script: seq<Outcome>, cursor: Option<string>, limit: int,
                                         maxProducts: Option<int>, products: seq<Product>, hasNextPage: bool)
    requires PageFetcher(fetch)
    ensures var run := Paginate(fetch, script, cursor, limit, maxProducts, products, hasNextPage);
            var pages := Answers(script[..run.calls]);
            EndedAnswered(run, pages, products, hasNextPage, maxProducts) && EndedUnanswered(run, pages, products)
    decreases |script|
  {
    if hasNextPage && UnderCap(|products|, maxProducts) {
      var page := fetch(script);
      if !page.result.Returned? {
        StopsUnanswered(fetch, script, cursor, limit, maxProducts, products);
      } else {
        var response := page.result.value;
        PaginateStops(fetch, script[page.calls..], response.pageInfo.endCursor, limit, maxProducts,
                      products + Nodes(response.edges), response.pageInfo.hasNextPage);
        StopsAnswered(fetch, script, cursor, limit, maxProducts, products);
      }
    } else {
      UnfoldStopped(fetch, script, cursor, limit, maxProducts, products, hasNextPage);
      assert script[..0] == [];
      assert products + Batches([]) == products;
    }
  }

  /** EndedAnswered and EndedUnanswered, for a run whose first request failed or hung. */
  lemma StopsUnanswered(fetch: PageFetch, script: seq<Outcome>, cursor: Option<string>, limit: int,
                        maxProducts: Option<int>, products: seq<Product>)
    requires ConsumesScript(fetch) && Reports(fetch, script)
    requires UnderCap(|products|, maxProducts) && !fetch(script).result.Returned?
    ensures var run := Paginate(fetch, script, cursor, limit, maxProducts, products, true);
            EndedAnswered(run, Answers(script[..run.calls]), products, true, maxProducts) && EndedUnanswered(run, Answers(script[..run.calls]), products)
  {
    UnfoldUnanswered(fetch, script, cursor, limit, maxProducts, products);
    assert Answers(script[..fetch(script).calls]) == [];
    assert products + Batches([]) == products;
  }

  /** EndedAnswered and EndedUnanswered, for a run whose first request was answered, from the rest of the run. */
  lemma StopsAnswered(fetch: PageFetch, script: seq<Outcome>, cursor: Option<string>, limit: int,
                      maxProducts: Option<int>, products: seq<Product>)
    requires ConsumesScript(fetch) && Reports(fetch, script)
    requires UnderCap(|products|, maxProducts) && fetch(script).result.Returned?
    requires var page := fetch(script);
             var response := page.result.value;
             var rest := Paginate(fetch, script[page.calls..], response.pageInfo.endCursor, limit, maxProducts,
                                  products + Nodes(response.edges), response.pageInfo.hasNextPage);
             EndedAnswered(rest, Answers(script[page.calls..][..rest.calls]), products + Nodes(response.edges), response.pageInfo.hasNextPage, maxProducts)
             && EndedUnanswered(rest, Answers(script[page.calls..][..rest.calls]), products + Nodes(response.edges))
    ensures var run := Paginate(fetch, script, cursor, limit, maxProducts, products, true);
            EndedAnswered(run, Answers(script[..run.calls]), products, true, maxProducts) && EndedUnanswered(run, Answers(script[..run.calls]), products)
  {
    var page := fetch(script);
    var response := page.result.value;
    var rest := Paginate(fetch, script[page.calls..], response.pageInfo.endCursor, limit, maxProducts,
                         products + Nodes(response.edges), response.pageInfo.hasNextPage);
    UnfoldAnswered(fetch, script, cursor, limit, maxProducts, products);
    PagesAnswered(fetch, script, cursor, limit, maxProducts, products);
    var run := Paginate(fetch, script, cursor, limit, maxProducts, products, true);
    EndedAfterPage(run, rest, page.calls, page.delays + Pause(response), Variables(cursor, limit),
                   response, Answers(script[page.calls..][..rest.calls]), products, maxProducts);
  }

  /** PausesFollowPages holds of every run. */
  lemma {:induction false} PaginatePauses(fetch: PageFetch, script: seq<Outcome>, cursor: Option<string>, limit: int,
                                          maxProducts: Option<int>, products: seq<Product>, hasNextPage: bool)
    requires PageFetcher(fetch)
    ensures var run := Paginate(fetch, script, cursor, limit, maxProducts, products, hasNextPage);
            PausesFollowPages(run, Answers(script[..run.calls]))
    decreases |script|
  {
    if hasNextPage && UnderCap(|products|, maxProducts) {
      var page := fetch(script);
      if !page.result.Returned? {
        PausesUnanswered(fetch, script, cursor, limit, maxProducts, products);
      } else {
        var response := page.result.value;
        PaginatePauses(fetch, script[page.calls..], response.pageInfo.endCursor, limit, maxProducts,
                       products + Nodes(response.edges), response.pageInfo.hasNextPage);
        PausesAnswered(fetch, script, cursor, limit, maxProducts, products);
      }
    } else {
      UnfoldStopped(fetch, script, cursor, limit, maxProducts, products, hasNextPage);
      assert script[..0] == [];
    }
  }

  /** PausesFollowPages, for a run whose first request failed or hung. */
  lemma PausesUnanswered(fetch: PageFetch, script: seq<Outcome>, cursor: Option<string>, limit: int,
                         maxProducts: Option<int>, products: seq<Product>)
    requires ConsumesScript(fetch) && Reports(fetch, script)
    requires UnderCap(|products|, maxProducts) && !fetch(script).result.Returned?
    ensures var run := Paginate(fetch, script, cursor, limit, maxProducts, products, true);
            PausesFollowPages(run, Answers(script[..run.calls]))
  {
    UnfoldUnanswered(fetch, script, cursor, limit, maxProducts, products);
    assert Answers(script[..fetch(script).calls]) == [];
    OccurrencesAbsent(fetch(script).delays, PageDelayMs);
  }

  /** PausesFollowPages, for a run whose first request was answered, from the rest of the run. */
  lemma PausesAnswered(fetch: PageFetch, script: seq<Outcome>, cursor: Option<string>, limit: int,
                       maxProducts: Option<int>, products: seq<Product>)
    requires ConsumesScript(fetch) && Reports(fetch, script)
    requires UnderCap(|products|, maxProducts) && fetch(script).result.Returned?
    requires var page := fetch(script);
             var response := page.result.value;
             var rest := Paginate(fetch, script[page.calls..], response.pageInfo.endCursor, limit, maxProducts,
                                  products + Nodes(response.edges), response.pageInfo.hasNextPage);
             PausesFollowPages(rest, Answers(script[page.calls..][..rest.calls]))
    ensures var run := Paginate(fetch, script, cursor, limit, maxProducts, products, true);
            PausesFollowPages(run, Answers(script[..run.calls]))
  {
    var page := fetch(script);
    var response := page.result.value;
    var rest := Paginate(fetch, script[page.calls..], response.pageInfo.endCursor, limit, maxProducts,
                         products + Nodes(response.edges), response.pageInfo.hasNextPage);
    UnfoldAnswered(fetch, script, cursor, limit, maxProducts, products);
    PagesAnswered(fetch, script, cursor, limit, maxProducts, products);
    var run := Paginate(fetch, script, cursor, limit, maxProducts, products, true);
    PausesAfterPage(run, rest, page.calls, page.delays, Variables(cursor, limit),
                    response, Answers(script[page.calls..][..rest.calls]));
  }

  /** FollowsFetches holds of every run. */
  lemma {:induction false} PaginateFollowsFetches(fetch: PageFetch, script: seq<Outcome>, cursor: Option<string>, limit: int,
                                                  maxProducts: Option<int>, products: seq<Product>, hasNextPage: bool)
    requires PageFetcher(fetch)
    ensures var run := Paginate(fetch, script, cursor, limit, maxProducts, products, hasNextPage);
            FollowsFetches(fetch, script, run, Answers(script[..run.calls]), products)
    decreases |script|
  {
    if hasNextPage && UnderCap(|products|, maxProducts) {
      var page := fetch(script);
      if !page.result.Returned? {
        FollowsUnanswered(fetch, script, cursor, limit, maxProducts, products);
      } else {
        var response := page.result.value;
        PaginateFollowsFetches(fetch, script[page.calls..], response.pageInfo.endCursor, limit, maxProducts,
                               products + Nodes(response.edges), response.pageInfo.hasNextPage);
        FollowsAnswered(fetch, script, cursor, limit, maxProducts, products);
      }
    } else {
      UnfoldStopped(fetch, script, cursor, limit, maxProducts, products, hasNextPage);
      assert script[..0] == [];
    }
  }

  /** FollowsFetches, for a run whose first request failed or hung. */
  lemma FollowsUnanswered(fetch: PageFetch, script: seq<Outcome>, cursor: Option<string>, limit: int,
                          maxProducts: Option<int>, products: seq<Product>)
    requires ConsumesScript(fetch) && Reports(fetch, script)
    requires UnderCap(|products|, maxProducts) && !fetch(script).result.Returned?
    ensures var run := Paginate(fetch, script, cursor, limit, maxProducts, products, true);
            FollowsFetches(fetch, script, run, Answers(script[..run.calls]), products)
  {
    UnfoldUnanswered(fetch, script, cursor, limit, maxProducts, products);
    var page := fetch(script);
    assert Answers(script[..page.calls]) == [];
    assert products + Batches([]) == products;
    assert Chain(fetch, script, 1) == [page];
    assert Sleeps([page]) == page.delays;
  }

  /** FollowsFetches, for a run whose first request was answered, from the rest of the run. */
  lemma FollowsAnswered(fetch: PageFetch, script: seq<Outcome>, cursor: Option<string>, limit: int,
                        maxProducts: Option<int>, products: seq<Product>)
    requires ConsumesScript(fetch) && Reports(fetch, script)
    requires UnderCap(|products|, maxProducts) && fetch(script).result.Returned?
    requires var page := fetch(script);
             var response := page.result.value;
             var rest := Paginate(fetch, script[page.calls..], response.pageInfo.endCursor, limit, maxProducts,
                                  products + Nodes(response.edges), response.pageInfo.hasNextPage);
             FollowsFetches(fetch, script[page.calls..], rest, Answers(script[page.calls..][..rest.calls]),
                            products + Nodes(response.edges))
    ensures var run := Paginate(fetch, script, cursor, limit, maxProducts, products, true);
            FollowsFetches(fetch, script, run, Answers(script[..run.calls]), products)
  {
    var page := fetch(script);
    var response := page.result.value;
    var rest := Paginate(fetch, script[page.calls..], response.pageInfo.endCursor, limit, maxProducts,
                         products + Nodes(response.edges), response.pageInfo.hasNextPage);
    UnfoldAnswered(fetch, script, cursor, limit, maxProducts, products);
    PagesAnswered(fetch, script, cursor, limit, maxProducts, products);
    var run := Paginate(fetch, script, cursor, limit, maxProducts, products, true);
    FollowsAfterPage(fetch, script, run, rest, Variables(cursor, limit), response,
                     Answers(script[page.calls..][..rest.calls]), products);
  }

  lemma {:induction false} CallsOfAppend(a: seq<RetryRun>, b: seq<RetryRun>)
    ensures CallsOf(a + b) == CallsOf(a) + CallsOf(b)
  {
    if a == [] {
      assert a + b == b;
    } else {
      assert (a + b)[1..] == a[1..] + b;
      CallsOfAppend(a[1..], b);
    }
  }

  /** The j-th fetch of a chain starts right after the calls of the fetches before it. */
  lemma {:induction false} ChainStarts(fetch: PageFetch, script: seq<Outcome>, n: nat, j: nat)
    requires ConsumesScript(fetch) && j < n
    ensures var runs := Chain(fetch, script, n);
            CallsOf(runs[..j]) <= |script| && runs[j] == fetch(script[CallsOf(runs[..j])..])
    decreases j
  {
    var runs := Chain(fetch, script, n);
    if j == 0 {
      assert runs[..0] == [];
    } else {
      var c := fetch(script).calls;
      var rest := Chain(fetch, script[c..], n - 1);
      assert runs == [fetch(script)] + rest;
      ChainStarts(fetch, script[c..], n - 1, j - 1);
      assert runs[..j] == [fetch(script)] + rest[..j - 1];
      assert runs[..j][1..] == rest[..j - 1];
      assert script[c..][CallsOf(rest[..j - 1])..] == script[c + CallsOf(rest[..j - 1])..];
    }
  }

  /** The last fetch of a chain starts after the calls of the others and ends the chain's calls. */
  lemma ChainLast(fetch: PageFetch, script: seq<Outcome>, n: nat)
    requires ConsumesScript(fetch)
    ensures var runs := Chain(fetch, script, n + 1);
            var k := CallsOf(runs[..n]);
            && k <= |script|
            && runs[n] == fetch(script[k..])
            && k + runs[n].calls == CallsOf(runs)
  {
    var runs := Chain(fetch, script, n + 1);
    ChainStarts(fetch, script, n + 1, n);
    assert runs == runs[..n] + [runs[n]];
    CallsOfAppend(runs[..n], [runs[n]]);
  }

  // ---------------------------------------------------------------------------
  // fetchAllProducts: pagination over the retry loop
  // ---------------------------------------------------------------------------

  /** The only answer among the calls of one retry run is the one it returns. */
  lemma RetryAnswers(script: seq<Outcome>)
    ensures var page := Retry(script, 1, MaxRetriesPerPage);
            Answers(script[..page.calls]) == if page.result.Returned? then [page.result.value] else []
  {
    var page := Retry(script, 1, MaxRetriesPerPage);
    RetryReturnsFirstAnswer(script, 1, MaxRetriesPerPage);
    if page.result.Returned? {
      var c := page.calls;
      assert script[..c] == script[..c - 1] + [script[c - 1]];
      AnswersOfFailures(script[..c - 1]);
      AnswersAppend(script[..c - 1], [script[c - 1]]);
    } else {
      AnswersOfFailures(script[..page.calls]);
    }
  }

  /** The page fetch of `fetchAllProducts`: `fetchWithRetry` with three attempts. */
  const RetryPage: PageFetch := s => Retry(s, 1, MaxRetriesPerPage)

  /** The retry loop is a page fetch pagination can rely on. */
  lemma RetryPageFetcher()
    ensures PageFetcher(RetryPage)
  {
    forall s: seq<Outcome>
      ensures RetryPage(s).calls <= |s| && (RetryPage(s).result.Returned? ==> RetryPage(s).calls >= 1)
      ensures Reports(RetryPage, s)
    {
      RetryAnswers(s);
      RetryFailures(s, 1, MaxRetriesPerPage);
      RetryDelaysAtLeast(s, 1, MaxRetriesPerPage);
    }
  }

  /** What `fetchAllProducts` does with `options` when the transport answers with `script`. */
  function FetchAll(script: seq<Outcome>, options: FetchOptions): FetchRun
  {
    RetryPageFetcher();
    Paginate(RetryPage, script, FirstCursor(options.cursor), EffectiveLimit(options.limit), options.maxProducts, [], true)
  }

  /**
   * `fetchAllProducts` gathers the products of the pages it is answered
   * with, requests them cursor after cursor, stops as the loop condition
   * and the failure policy say, and pauses once after each page that
   * announces another.
   */
  lemma FetchAllFollowsPages(script: seq<Outcome>, options: FetchOptions)
    ensures var run := FetchAll(script, options);
            var pages := Answers(script[..run.calls]);
            && Gathered(run, pages, [])
            && RequestsFollowPages(run, pages, FirstCursor(options.cursor), EffectiveLimit(options.limit),
                                   options.maxProducts, [], true)
            && EndedAnswered(run, pages, [], true, options.maxProducts)
            && EndedUnanswered(run, pages, [])
            && PausesFollowPages(run, pages)
            && FollowsFetches(RetryPage, script, run, pages, [])
  {
    RetryPageFetcher();
    var cursor, limit := FirstCursor(options.cursor), EffectiveLimit(options.limit);
    PaginateGathers(RetryPage, script, cursor, limit, options.maxProducts, [], true);
    PaginateRequests(RetryPage, script, cursor, limit, options.maxProducts, [], true);
    PaginateStops(RetryPage, script, cursor, limit, options.maxProducts, [], true);
    PaginatePauses(RetryPage, script, cursor, limit, options.maxProducts, [], true);
    PaginateFollowsFetches(RetryPage, script, cursor, limit, options.maxProducts, [], true);
  }

  /**
   * How `fetchAllProducts` ends on a page that is not answered. It hangs
   * only once the transport script is used up. Otherwise that request is
   * one retry run, started right after the calls of the answered requests,
   * which threw; the run returns the products gathered before it, or
   * re-throws that failure when there are none.
   */
  lemma FetchAllFailures(script: seq<Outcome>, options: FetchOptions)
    ensures var run := FetchAll(script, options);
            var pages := Answers(script[..run.calls]);
            var gathered := Batches(pages);
            var runs := Chain(RetryPage, script, |run.requests|);
            && (run.result.Hung? ==> run.calls == |script|)
            && (|run.requests| == |pages| + 1 && run.calls < |script| ==>
                  var k := CallsOf(runs[..|pages|]);
                  && k <= |script|
                  && runs[|pages|] == Retry(script[k..], 1, MaxRetriesPerPage)
                  && k + runs[|pages|].calls == run.calls
                  && runs[|pages|].result.Threw?
                  && run.result == (if gathered == [] then Threw(runs[|pages|].result.failure)
                                    else Returned(FetchResult(gathered, |gathered|))))
  {
    var run := FetchAll(script, options);
    var pages := Answers(script[..run.calls]);
    var runs := Chain(RetryPage, script, |run.requests|);
    RetryPageFetcher();
    PaginateFollowsFetches(RetryPage, script, FirstCursor(options.cursor), EffectiveLimit(options.limit),
                           options.maxProducts, [], true);
    assert [] + Batches(pages) == Batches(pages);
    if |run.requests| == |pages| + 1 {
      ChainLast(RetryPage, script, |pages|);
    }
  }

  /** An empty starting cursor is no cursor: the run is the same as without one. */
  lemma FetchAllEmptyCursor(script: seq<Outcome>, limit: Option<int>, maxProducts: Option<int>)
    ensures FetchAll(script, FetchOptions(Some(""), limit, maxProducts)) == FetchAll(script, FetchOptions(None, limit, maxProducts))
  {
  }

  /**
   * An absent or zero limit is the default: the two runs are the same, and
   * every request asks for 50 products.
   */
  lemma FetchAllDefaultLimit(script: seq<Outcome>, cursor: Option<string>, maxProducts: Option<int>)
    ensures FetchAll(script, FetchOptions(cursor, Some(0), maxProducts)) == FetchAll(script, FetchOptions(cursor, None, maxProducts))
    ensures forall r :: r in FetchAll(script, FetchOptions(cursor, None, maxProducts)).requests ==> r.limit == DefaultLimit
  {
    FetchAllFollowsPages(script, FetchOptions(cursor, None, maxProducts));
  }

  /** A zero cap, like an absent one, never stops the loop, whatever fetches the pages. */
  lemma {:induction false} PaginateZeroCap(fetch: PageFetch, script: seq<Outcome>, cursor: Option<string>, limit: int,
                                           products: seq<Product>, hasNextPage: bool)
    requires ConsumesScript(fetch)
    ensures Paginate(fetch, script, cursor, limit, Some(0), products, hasNextPage)
         == Paginate(fetch, script, cursor, limit, None, products, hasNextPage)
    decreases |script|
  {
    if hasNextPage {
      var page := fetch(script);
      if page.result.Returned? {
        var response := page.result.value;
        PaginateZeroCap(fetch, script[page.calls..], response.pageInfo.endCursor, limit,
                        products + Nodes(response.edges), response.pageInfo.hasNextPage);
      }
    }
  }

  /** `maxProducts: 0` means no cap: the run is the same as without one. */
  lemma FetchAllZeroCap(script: seq<Outcome>, cursor: Option<string>, limit: Option<int>)
    ensures FetchAll(script, FetchOptions(cursor, limit, Some(0))) == FetchAll(script, FetchOptions(cursor, limit, None))
  {
    RetryPageFetcher();
    PaginateZeroCap(RetryPage, script, FirstCursor(cursor), EffectiveLimit(limit), [], true);
  }

  /** A negative cap is already reached: no request is made and nothing is returned. */
  lemma FetchAllNegativeCap(script: seq<Outcome>, options: FetchOptions)
    requires options.maxProducts.Some? && options.maxProducts.value < 0
    ensures FetchAll(script, options) == FetchRun(Returned(FetchResult([], 0)), 0, [], [])
  {
  }

  /**
   * The cap is checked before each page only, so a capped run returns fewer
   * than `maxProducts` products plus the last page's.
   */
  lemma CapOvershoot(script: seq<Outcome>, options: FetchOptions, m: int)
    requires options.maxProducts == Some(m) && m > 0
    ensures var run := FetchAll(script, options);
            var pages := Answers(script[..run.calls]);
            run.result.Returned? && pages != [] ==>
              |run.result.value.products| < m + |Nodes(pages[|pages| - 1].edges)|
  {
    RetryPageFetcher();
    var cursor, limit := FirstCursor(options.cursor), EffectiveLimit(options.limit);
    var run := FetchAll(script, options);
    var pages := Answers(script[..run.calls]);
    PaginateGathers(RetryPage, script, cursor, limit, options.maxProducts, [], true);
    PaginateRequests(RetryPage, script, cursor, limit, options.maxProducts, [], true);
    if run.result.Returned? && pages != [] {
      var n := |pages|;
      if n > 1 {
        assert UnderCap(|[] + Batches(pages[..n - 1])|, options.maxProducts);
      } else {
        assert pages[..0] == [];
      }
      LastBatch(pages, m);
    }
  }

  /** When the pages before the last gathered fewer than `m` products, all of them gathered fewer than `m` plus the last page's. */
  lemma LastBatch(pages: seq<ProductsResponse>, m: int)
    requires pages != [] && UnderCap(|[] + Batches(pages[..|pages| - 1])|, Some(m)) && m > 0
    ensures |[] + Batches(pages)| < m + |Nodes(pages[|pages| - 1].edges)|
  {
    var n := |pages|;
    assert pages == pages[..n - 1] + [pages[n - 1]];
    BatchesAppend(pages[..n - 1], [pages[n - 1]]);
    assert Batches([pages[n - 1]]) == Nodes(pages[n - 1].edges);
  }

  /**
   * A first page of products, then a page that fails three times without a
   * rate limit: the first page's products come back as a success.
   */
  lemma PartialFailureKeepsFirstPage(first: ProductsResponse, f1: Failure, f2: Failure, f3: Failure, options: FetchOptions)
    requires |first.edges| > 0 && first.pageInfo.hasNextPage
    requires !IsRateLimit(f1) && !IsRateLimit(f2) && !IsRateLimit(f3)
    requires UnderCap(0, options.maxProducts) && UnderCap(|first.edges|, options.maxProducts)
    ensures FetchAll([Ok(first), Err(f1), Err(f2), Err(f3)], options)
         == FetchRun(Returned(FetchResult(Nodes(first.edges), |first.edges|)), 4, [500, 1000, 1000],
                     [Variables(FirstCursor(options.cursor), EffectiveLimit(options.limit)),
                      Variables(first.pageInfo.endCursor, EffectiveLimit(options.limit))])
  {
    RetryPageFetcher();
    var script := [Ok(first), Err(f1), Err(f2), Err(f3)];
    var cursor := FirstCursor(options.cursor);
    var limit := EffectiveLimit(options.limit);
    var products := [] + Nodes(first.edges);
    assert products == Nodes(first.edges);
    assert script[1..] == [Err(f1), Err(f2), Err(f3)] + [];
    PersistentFailureRethrown(f1, f2, f3, []);
    assert RetryPage(script) == RetryRun(Returned(first), 1, []);
    assert RetryPage(script[1..]) == RetryRun(Threw(f3), 3, [1000, 1000]);
    UnfoldAnswered(RetryPage, script, cursor, limit, options.maxProducts, []);
    UnfoldUnanswered(RetryPage, script[1..], first.pageInfo.endCursor, limit, options.maxProducts, products);
    assert Paginate(RetryPage, script[1..], first.pageInfo.endCursor, limit, options.maxProducts, products, true)
        == FetchRun(Returned(FetchResult(products, |products|)), 3, [1000, 1000], [Variables(first.pageInfo.endCursor, limit)]);
    assert [] + Pause(first) + [1000, 1000] == [500, 1000, 1000];
  }

  /** One answered page request, after `calls` earlier calls. */
  lemma AnsweredPage(fetch: PageFetch, script: seq<Outcome>, calls: nat, delays: seq<nat>, requests: seq<Variables>,
                     cursor: Option<string>, limit: int, maxProducts: Option<int>,
                     products: seq<Product>, response: ProductsResponse, pageCalls: nat, pageDelays: seq<nat>,
                     calls': nat, delays': seq<nat>, requests': seq<Variables>, products': seq<Product>)
    requires ConsumesScript(fetch)
    requires calls <= |script| && UnderCap(|products|, maxProducts)
    requires fetch(script[calls..]) == RetryRun(Returned(response), pageCalls, pageDelays)
    requires calls' == calls + pageCalls && requests' == requests + [Variables(cursor, limit)]
    requires products' == products + Nodes(response.edges)
    requires delays' == if response.pageInfo.hasNextPage then delays + pageDelays + [PageDelayMs] else delays + pageDelays
    ensures calls' <= |script|
    ensures AfterPages(calls, delays, requests, Paginate(fetch, script[calls..], cursor, limit, maxProducts, products, true))
         == AfterPages(calls', delays', requests',
                       Paginate(fetch, script[calls'..], response.pageInfo.endCursor, limit, maxProducts,
                                products', response.pageInfo.hasNextPage))
  {
    UnfoldAnswered(fetch, script[calls..], cursor, limit, maxProducts, products);
    assert script[calls..][pageCalls..] == script[calls'..];
    AfterPagesThen(calls, delays, requests, pageCalls, pageDelays + Pause(response), [Variables(cursor, limit)],
                   Paginate(fetch, script[calls'..], response.pageInfo.endCursor, limit, maxProducts,
                            products', response.pageInfo.hasNextPage));
    if response.pageInfo.hasNextPage {
      assert delays + (pageDelays + [PageDelayMs]) == delays';
    } else {
      assert pageDelays + [] == pageDelays;
    }
  }

  /** A page request that failed or hung ends the run, after `calls` earlier calls. */
  lemma UnansweredPage(script: seq<Outcome>, calls: nat, delays: seq<nat>, requests: seq<Variables>,
                       cursor: Option<string>, limit: int, maxProducts: Option<int>,
                       products: seq<Product>, page: RetryRun)
    requires ConsumesScript(RetryPage)
    requires calls <= |script| && UnderCap(|products|, maxProducts)
    requires Retry(script[calls..], 1, MaxRetriesPerPage) == page && !page.result.Returned?
    ensures AfterPages(calls, delays, requests, Paginate(RetryPage, script[calls..], cursor, limit, maxProducts, products, true))
         == FetchRun(if page.result.Hung? then Hung
                     else if |products| > 0 then Returned(FetchResult(products, |products|))
                     else Threw(page.result.failure),
                     calls + page.calls, delays + page.delays, requests + [Variables(cursor, limit)])
  {
    assert RetryPage(script[calls..]) == page;
    UnfoldUnanswered(RetryPage, script[calls..], cursor, limit, maxProducts, products);
  }

  /** Once the loop condition fails, the run returns what it gathered, after `calls` earlier calls. */
  lemma StoppedPage(script: seq<Outcome>, calls: nat, delays: seq<nat>, requests: seq<Variables>,
                    cursor: Option<string>, limit: int, maxProducts: Option<int>,
                    products: seq<Product>, hasNextPage: bool)
    requires ConsumesScript(RetryPage)
    requires calls <= |script| && !(hasNextPage && UnderCap(|products|, maxProducts))
    ensures AfterPages(calls, delays, requests, Paginate(RetryPage, script[calls..], cursor, limit, maxProducts, products, hasNextPage))
         == FetchRun(Returned(FetchResult(products, |products|)), calls, delays, requests)
  {
    UnfoldStopped(RetryPage, script[calls..], cursor, limit, maxProducts, products, hasNextPage);
    assert delays + [] == delays && requests + [] == requests;
  }

  /**
   * `fetchAllProducts`: pages are requested while the last one announced a
   * next page and the cap is not reached; each page's products are appended.
   */
  method FetchAllProducts(script: seq<Outcome>, options: FetchOptions)
    returns (result: Settled<FetchResult>, calls: nat, delays: seq<nat>, requests: seq<Variables>)
    ensures FetchRun(result, calls, delays, requests) == FetchAll(script, options)
  {
    RetryPageFetcher();
    var products: seq<Product> := [];
    var hasNextPage := true;
    var cursor := FirstCursor(options.cursor);
    var limit := EffectiveLimit(options.limit);
    var maxProducts := options.maxProducts;
    calls, delays, requests := 0, [], [];
    ghost var whole := FetchAll(script, options);
    assert script[0..] == script;

    while hasNextPage && UnderCap(|products|, maxProducts)
      invariant calls <= |script|
      invariant whole == AfterPages(calls, delays, requests, Paginate(RetryPage, script[calls..], cursor, limit, maxProducts, products, hasNextPage))
      decreases |script| - calls
    {
      var vars := Variables(cursor, limit);
      var pageResult, pageCalls, pageDelays := FetchWithRetry(script[calls..], MaxRetriesPerPage);
      match pageResult {
        case Hung =>
          UnansweredPage(script, calls, delays, requests, cursor, limit, maxProducts, products,
                         RetryRun(pageResult, pageCalls, pageDelays));
          result, calls, delays, requests := Hung, calls + pageCalls, delays + pageDelays, requests + [vars];
          return;
        case Threw(error) =>
          UnansweredPage(script, calls, delays, requests, cursor, limit, maxProducts, products,
                         RetryRun(pageResult, pageCalls, pageDelays));
          calls, delays, requests := calls + pageCalls, delays + pageDelays, requests + [vars];
          if |products| > 0 {
            result := Returned(FetchResult(products, |products|));
          } else {
            result := Threw(error);
          }
          return;
        case Returned(response) =>
          ghost var calls0, delays0, requests0, products0 := calls, delays, requests, products;
          var batch := Nodes(response.edges);
          products := products + batch;
          hasNextPage := response.pageInfo.hasNextPage;
          calls, requests := calls + pageCalls, requests + [vars];
          delays := delays + pageDelays;
          if hasNextPage {
            delays := delays + [PageDelayMs];
          }
          assert RetryPage(script[calls0..]) == Retry(script[calls0..], 1, MaxRetriesPerPage);
          AnsweredPage(RetryPage, script, calls0, delays0, requests0, cursor, limit, maxProducts, products0, response,
                       pageCalls, pageDelays, calls, delays, requests, products);
          cursor := response.pageInfo.endCursor;
      }
    }
    StoppedPage(script, calls, delays, requests, cursor, limit, maxProducts, products, hasNextPage);
    result := Returned(FetchResult(products, |products|));
  }
}
