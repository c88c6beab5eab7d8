# Shop-API product fetcher and transformer, in Dafny

This project models the two core pieces of the Shop-API service:

- **`fetchAllProducts`** (`src/shopify/fetcher.ts`), which pages through the
  Shopify Admin GraphQL `products` connection cursor by cursor.
  - Each page request goes through **`fetchWithRetry`**. That loop gives up to
    three attempts per page.
  - After a rate limit (status 429, or "429" in the message) it sleeps
    `2^attempt * 1000` ms.
  - After any other failure it sleeps 1000 ms, except on the last attempt,
    where it re-throws that failure.
  - When the budget is spent on a last attempt that was rate-limited (or the
    budget is zero), it throws `Failed to fetch after all retries`.
  - Pagination appends each page's product nodes. It stops when a page
    announces no next page, or when the optional `maxProducts` cap is
    reached; the cap is checked before each request.
  - It pauses 500 ms after every page that announces another.
  - A failed page ends the run. If anything was gathered, the run returns it;
    otherwise the failure is re-thrown.
- **`transformProducts`** (`src/utils/transformer.ts`), which flattens the
  raw products.
  - Global ids such as `gid://shopify/Product/123` shrink to their last
    segment.
  - Metafield edges fold into a map keyed by `namespace.key`. JSON-typed values
    are parsed when they parse and kept as raw text otherwise.
  - Variants and images are mapped in order.

How the model represents the environment:

- **The transport is a script.** The i-th GraphQL call of a run answers with
  the i-th `Outcome` of a `seq<Outcome>`: a page, or a thrown `Failure`. A
  call made after the script is used up never answers, and the run is
  `Hung`.
- **Sleeps are recorded, not performed.** Every `sleep` becomes a delay in an
  output sequence, and every page request's GraphQL variables are recorded.
- **`JSON.parse` is a parameter.** It is a function that answers `None` where
  the real parser throws.

How the proofs are organised:

- **`fetchWithRetry`** is an imperative method proved equal to a recursive
  function, `Retry`. The lemmas about `Retry` state the retry policy.
- **`fetchAllProducts`** is likewise a method proved equal to `FetchAll`.
  - `FetchAll` is an instance of `Paginate`, with the retry loop as its page
    fetch.
  - `Paginate` is written for any page fetch that obeys the contract
    `PageFetcher`. `RetryPageFetcher` proves that the retry loop obeys it.
- **`transformMetafields`** is a loop method proved equal to the fold
  `Flatten`.
- **The rest of the transformer** is pure functions.

## Model

| member | source | states |
|---|---|---|
| Transformer.Split | src/utils/transformer.ts:12 | `split('/')` yields at least one part, no part contains the separator, and joining the parts with it gives the input back |
| Transformer.ExtractId | src/utils/transformer.ts:10-14 | the id is the suffix of the gid after its last `/`: it has no `/`, it ends the gid, it is preceded by a `/` when shorter than the gid, and it is the whole gid when the gid has no `/` |
| Transformer.ExtractIdUnique | src/utils/transformer.ts:10-14 | those facts determine the id: any string with them is ExtractId's result |
| Transformer.ExtractIdOfProductGid | src/utils/transformer.ts:11 | `gid://shopify/Product/123` gives `123` |
| Transformer.StoredValue | src/utils/transformer.ts:24-33 | a value is parsed only for the `json` and `list.metaobject_reference` types and only when it parses, and it is then the parser's result; otherwise it is the raw string |
| Transformer.Flatten | src/utils/transformer.ts:17-37 | the map has exactly one key per distinct `namespace.key` of the edges |
| Transformer.FlattenLastWins | src/utils/transformer.ts:20-34 | the entry of a key is the stored value of the last edge producing that key |
| Transformer.DottedKeysCollide | src/utils/transformer.ts:22 | `a.b`+`c` and `a`+`b.c` produce the same key, and the later edge's value is the one kept |
| Transformer.TransformMetafields | src/utils/transformer.ts:17-37 | the loop's result is the fold Flatten of the edges |
| Transformer.TransformVariant | src/utils/transformer.ts:40-49 | title, sku, price and inventory are copied; the id goes through ExtractId; the metafield map is the fold Flatten of the variant's edges (so each key holds its last edge's stored value), with one key per distinct `namespace.key` |
| Transformer.TransformImage | src/utils/transformer.ts:61-67 | url, alt text, width and height are copied; the id goes through ExtractId |
| Transformer.TransformVariants | src/utils/transformer.ts:69 | one variant per edge, in order, each the transform of its node |
| Transformer.TransformImages | src/utils/transformer.ts:61-67 | one image per edge, in order, each the transform of its node |
| Transformer.TransformProduct | src/utils/transformer.ts:52-71 | scalar fields are copied, the id goes through ExtractId, the metafield map is the fold Flatten of the product's edges, with one key per distinct `namespace.key`, variants and images are mapped index by index, and an absent image connection gives no images |
| Transformer.TransformProducts | src/utils/transformer.ts:74-76 | one output per product, in order, each TransformProduct of its input |
| Transformer.TransformProductsAppend | src/utils/transformer.ts:74-76 | transforming concatenated pages equals concatenating their transforms |
| Transformer.TransformProductAsWritten | src/utils/transformer.ts:61 | reading `product.images.edges` fails exactly when the product has no images field; otherwise the result equals TransformProduct |
| Transformer.TransformProductsAsWritten | src/utils/transformer.ts:74-76 | the mapping as written fails exactly when some product lacks an images field; otherwise it equals TransformProducts |
| Transformer.QueriedProductsBreakTransform | src/utils/transformer.ts:61 | for any non-empty list of products without images, which is what the products query returns, the transform as written fails, while the corrected one maps every product |
| Fetcher.ContainsIff | src/shopify/fetcher.ts:22 | `includes` holds exactly when the text occurs at some position of the message |
| Fetcher.RateLimitIff | src/shopify/fetcher.ts:22 | a failure is a rate limit exactly when its status is 429 or `429` occurs in its message |
| Fetcher.Retry | src/shopify/fetcher.ts:9-39 | a retry run makes no more calls than the script holds or the attempts left allow, and returns a page only after a call |
| Fetcher.FetchWithRetry | src/shopify/fetcher.ts:9-39 | the loop's result, call count and sleeps are those of Retry from attempt 1 |
| Fetcher.RetryReturnsFirstAnswer | src/shopify/fetcher.ts:14-20 | every call before the last failed, a returned page is the last call's answer, and a run that does not return saw only failures |
| Fetcher.RetryFindsAnswer | src/shopify/fetcher.ts:14-20 | an answer at position k, after only failures and within the budget, is returned after exactly k + 1 calls |
| Fetcher.RetryBackoffSchedule | src/shopify/fetcher.ts:21-34 | every call except possibly the last is followed by a sleep, and there are never more sleeps than calls; the i-th sleep follows the failed i-th call and lasts `2^(attempt+i) * 1000` ms after a rate limit and 1000 ms otherwise |
| Fetcher.RetryLastCallSleeps | src/shopify/fetcher.ts:23-33 | every call is followed by a sleep exactly when the run hung, or threw after a rate-limited last call or with no call at all |
| Fetcher.RetryFailures | src/shopify/fetcher.ts:27-38 | a throw comes only after the whole budget is used; a non-rate-limited last failure is re-thrown as is, and a rate-limited one ends in the generic error; a hang happens exactly when the script runs out first, having held only failures |
| Fetcher.RetryDelaysAtLeast | src/shopify/fetcher.ts:23-34 | every sleep of the retry loop lasts at least 1000 ms |
| Fetcher.TwoRateLimitsThenAnswer | src/shopify/fetcher.ts:23-26 | two rate limits, then an answer: three calls, with sleeps of 2000 and 4000 ms |
| Fetcher.PersistentFailureRethrown | src/shopify/fetcher.ts:27-33 | three ordinary failures: three calls, two 1000 ms sleeps, and the third error re-thrown |
| Fetcher.RateLimitedThroughout | src/shopify/fetcher.ts:23-38 | three rate limits: sleeps of 2000, 4000 and 8000 ms, then the generic error |
| Fetcher.Nodes | src/shopify/fetcher.ts:69 | a page yields one product per edge |
| Fetcher.NodesInOrder | src/shopify/fetcher.ts:69 | the i-th product of a page is the node of its i-th edge |
| Fetcher.Paginate | src/shopify/fetcher.ts:59-97 | a pagination run uses no more calls than the script holds, and a returned result's `totalCount` is its number of products |
| Fetcher.PaginateGathers | src/shopify/fetcher.ts:69-70 | a returned run holds the starting products followed by those of every answered page, in order; a throw happens only when that is nothing |
| Fetcher.PaginateRequests | src/shopify/fetcher.ts:59-74 | every request carries the limit; the first carries the starting cursor and each later one the end cursor of the page before; a request is sent only while the page before announced a next page and the gathered products are under the cap; at most the last request goes unanswered |
| Fetcher.PaginateStops | src/shopify/fetcher.ts:86-104 | a run whose every request was answered returns what it gathered, and ended because the last page announced no next page or the cap was reached; a run ending on an unanswered request hung, threw with nothing gathered, or returned the products gathered before it |
| Fetcher.PaginatePauses | src/shopify/fetcher.ts:83-85 | the number of 500 ms pauses equals the number of answered pages that announce a next page |
| Fetcher.ChainStarts | src/shopify/fetcher.ts:59-66 | in a chain of page fetches made one after another, the j-th fetch starts on the call right after the calls of the fetches before it |
| Fetcher.ChainLast | src/shopify/fetcher.ts:59-66 | the last fetch of a chain starts after the calls of the others, and the chain's calls end with it |
| Fetcher.PaginateFollowsFetches | src/shopify/fetcher.ts:59-97 | a run is its requests' page fetches made back to back: its calls are theirs; its sleeps are, request by request, that fetch's sleeps followed by the page's 500 ms pause when the page announces another; the answered requests returned the pages in order; it hangs only once the script is used up; an unanswered last request's hang is the run's hang, and its failure is re-thrown when nothing was gathered, while what was gathered is returned otherwise |
| Fetcher.RetryAnswers | src/shopify/fetcher.ts:14-20 | the only page among the calls of one retry run is the page it returns |
| Fetcher.RetryPageFetcher | src/shopify/fetcher.ts:62-66 | `fetchWithRetry` with three attempts is a page fetch pagination can rely on: it uses only its script, returns only after a call, returns the only answer it saw, and sleeps at least 1000 ms each time |
| Fetcher.FetchAllFollowsPages | src/shopify/fetcher.ts:42-105 | `fetchAllProducts` gathers, requests, stops, pauses and follows its page fetches as the five properties above say |
| Fetcher.FetchAllFailures | src/shopify/fetcher.ts:86-95 | `fetchAllProducts` hangs only once the transport script is used up; otherwise, when its last request went unanswered, that request is one retry run from attempt 1, started right after the calls of the answered requests, which threw; the run then returns the products gathered before it, or re-throws that run's failure when there are none |
| Fetcher.FetchAllEmptyCursor | src/shopify/fetcher.ts:48 | an empty starting cursor counts as none: the run is the same as with no cursor |
| Fetcher.FetchAllDefaultLimit | src/shopify/fetcher.ts:50 | an absent or zero limit is the default: the two runs are the same, and every request asks for 50 products |
| Fetcher.PaginateZeroCap | src/shopify/fetcher.ts:59 | for any page fetch, a zero cap never stops the loop: the run is the same as with no cap |
| Fetcher.FetchAllZeroCap | src/shopify/fetcher.ts:51-59 | `maxProducts: 0` means no cap: the run is the same as with no cap |
| Fetcher.FetchAllNegativeCap | src/shopify/fetcher.ts:59 | a negative cap is already reached: no request is made, there are no calls or sleeps, and an empty result is returned |
| Fetcher.CapOvershoot | src/shopify/fetcher.ts:59-70 | with a cap m, a returned run holds fewer than m products plus those of its last page: the cap may be exceeded, by less than one page |
| Fetcher.PartialFailureKeepsFirstPage | src/shopify/fetcher.ts:86-95 | a first page, then three ordinary failures, returns the first page's products, after four calls, a 500 ms pause and two 1000 ms sleeps, and two requests |
| Fetcher.FetchAllProducts | src/shopify/fetcher.ts:42-105 | the loop's result, call count, sleeps and requests are those of FetchAll |

## Left out

- The Express HTTP handler in `src/index.ts` is not modelled. It calls the two core functions and formats the reply.
- The GraphQL client in `src/shopify/client.ts` is not part of this model: its configuration, credentials and HTTP. The transport is the script of outcomes.
- The query text in `src/shopify/queries.ts` is not modelled. Only one fact about it is used: it selects no `images`, so queried products carry none.
- Console output and the `pageCount` counter are left out. They only feed log lines.
- Real time and asynchrony are left out. Sleeps are recorded as delays and never awaited.
- A transport call that never settles is modelled only as running past the end of the script (`Hung`).
- Non-termination of the loop itself is not modelled. If the server always announces a next page, the `while` loop of `fetchAllProducts` has no guard and runs forever. The model sees only finite prefixes of such a run: each one ends `Hung` once the script is used up. So `Hung` also stands for this endless paging, not only for a call that never answers.
- `JSON.parse` is an uninterpreted parameter. JSON syntax is not modelled.
- Malformed responses are left out. Every answer is a well-formed products page; a response without `data.products` would throw inside the `try` of `fetchAllProducts`.
- An error without a message is modelled as one with an empty message. An error without a status has status `None`.
- JavaScript numbers are unbounded integers here. `NaN` or fractional `limit`/`maxProducts` options are not modelled. Delays are exact, since `2^attempt * 1000` is small for three attempts.
- The query and variables passed to `fetchWithRetry` are not given to the transport, whose answers do not depend on them. The variables of each request are recorded by the pagination loop instead.
- The model follows `src/utils/transformer.ts` as it stands: ids are shortened and images are included.
- Fetcher.Paginate: written for any page fetch meeting `PageFetcher`. It is instantiated only with the retry loop (`FetchAll`), which is the only page fetch the source uses.

## Findings

| source | as written | input that shows it | evidently intended | confidence | as-written member | corrected member |
|---|---|---|---|---|---|---|
| src/utils/transformer.ts:61 | `transformProduct` reads `product.images.edges`. The products query (`src/shopify/queries.ts:7-58`) selects no `images`, and the `Product` type declares none, so `product.images` is undefined and the read throws a TypeError | any non-empty page returned by the products query, e.g. one product with no `images` field | products without an image connection transform with an empty image list (or the query selects images) | not executed | Transformer.TransformProductsAsWritten | Transformer.TransformProduct |
