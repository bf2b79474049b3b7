# PageDAO hub API — a Dafny model of the Netlify function handlers

The PageDAO hub API is a set of Netlify functions. They resolve on-chain
content (books, authors, collections, NFTs) across several chains. They list
curated contracts, serve price history and metrics, and acknowledge
Farcaster Frame webhooks. This project models what the handlers decide:

- which content type or adapter answers first;
- how records from several adapters are merged;
- how lists are gathered, sorted and cut into pages;
- how the bounded price-history buffer evolves;
- how requests are validated and routed;
- how results and thrown errors become HTTP responses.

The chain itself is reached through the `@pagedao/core` package. Every call
into it is an oracle that either answers a value or throws (`Core.Result`).
A content tracker is the record of what each of its calls answers
(`Core.Tracker`). The tracker factory and the adapter registry are functions
(`Core.Factory`, `Core.Adapters`).

## Modules

| file | module | models |
|---|---|---|
| json.dfy | `Json` | JavaScript values after decoding: truthiness, `\|\|`, property access, spread, `split`, `parseInt` |
| core.dfy | `Core` | thrown errors `{code, message, statusCode}`, and the `@pagedao/core` oracles |
| netlify.dfy | `Netlify` | events, responses, the clock and `CACHE_DURATION` as a context, `limit`/`offset` parsing |
| response_formatter.dfy | `ResponseFormatter` | `createResponse` |
| error_handler.dfy | `ErrorHandler` | `handleError` |
| frame_detection.dfy | `FrameDetection` | `isFrameRequest`, `optimizeForFrame` |
| handler_flow.dfy | `HandlerFlow` | the shared handler skeleton: adapter initialisation, rate limit, route, envelope or error |
| sorting.dfy | `Sorting` | `Array.prototype.sort` with a comparator: a stable sort, specified by a total preorder |
| pagination.dfy | `Pagination` | `slice(offset, offset + limit)` and the `{items, pagination}` envelope |
| tracker_sweep.dfy | `TrackerSweep` | the chain × registered-type sweep of the collections and authors lists |
| books.dfy | `Books` | functions/books/index.js |
| authors.dfy | `Authors` | functions/authors/index.js |
| collections.dfy | `Collections` | functions/collections/index.js |
| blockchain.dfy | `Blockchain` | functions/blockchain/index.js |
| registry.dfy | `Registry` | contracts/registry.js |
| historical_data.dfy | `HistoricalData` | functions/historical-data/index.js; the module-level buffer is the class `History` |
| nft.dfy | `Nft` | functions/nft/index.js |
| metrics.dfy | `Metrics` | functions/metrics/index.js: routing, the historical endpoint and the mock series |
| frame_webhooks.dfy | `FrameWebhooks` | functions/frame-webhooks/index.js |

### Form of the model

Code that loops and mutates is modelled by a `method`: the loops and pushes
of `getBookDetails`, `getBooksList`, `getFeaturedBooks`, `getAuthorDetails`,
`getAuthorPublications`, the list sweeps, `getCollectionDetails`,
`getCollectionItems`, `processBlockchainRequest` and
`generateMockHistoricalData`. Each such method has a `while` loop with
invariants, and its `ensures` ties the result to a specification function.
The lemmas then prove the source's promises about that function. The
module-level `historicalData` array is a field of the class
`HistoricalData.History`, and its methods state the new buffer. The pure
parts are functions and lemmas: the registry, the nft handler, the frame
webhooks, the utilities, routing and validation.

### Behaviour of the code worth knowing

- **Books list.** `getBookDetails` catches every failure of a contract type
  and returns `null` when no type answers. While every rejection the
  adapters raise is an object, nothing reaches the catch of `getBooksList`
  (functions/books/index.js:121-130), so its placeholder
  `{address, chain, error, _fetchFailed: true}` is never pushed and a
  failing address is dropped from the list and from the total.
  `Books.CollectedAreBooks` proves that every listed entry is a resolved
  book. A rejection with `null` or `undefined` would make `error.message`
  at functions/books/index.js:197 throw and reach that placeholder; the
  model does not represent such rejections (see "Left out").
- **Sort order.** Books sort by title only (functions/books/index.js:136-137).
- **No registry lookup.** No function under functions/ calls `getContracts`;
  the handlers resolve a contract by trying content types in turn, from a
  fixed list or from the tracker factory's registered types.

## Model

| member | source | states |
|---|---|---|
| `Json.Split` | functions/books/index.js:38-39 | `split(',')` yields at least one piece; no piece holds the separator; there is exactly one piece iff the string has no separator |
| `Json.JoinSplit` | functions/books/index.js:70-71 | joining the pieces of a split with the separator gives back the original string |
| `Json.SplitJoin` | functions/books/index.js:70-71 | splitting a join of separator-free pieces gives back the pieces |
| `Json.DigitRun` | functions/books/index.js:26-27 | the digit prefix `parseInt` reads is all digits, within the string, and maximal |
| `Json.ParseIntOr` | functions/books/index.js:26-27 | `parseInt(s) \|\| d`: the parsed value when it is a non-zero number, and the default for NaN or 0 |
| `Json.ParseDecimal` | functions/books/index.js:26-27 | `parseInt` reads back the decimal rendering of every natural number |
| `Netlify.LimitParam` | functions/books/index.js:26 | the page size is never 0, and it is 20 when `limit` is absent |
| `Netlify.OffsetParam` | functions/books/index.js:27 | the offset is 0 when `offset` is absent |
| `ResponseFormatter.CreateResponse` | functions/utils/responseFormatter.js:9-29 | status as given; `success` iff 200 ≤ status < 300; `data` nested unchanged; extra headers override the CORS and `Cache-Control` defaults, which otherwise stay; `max-age` is `CACHE_DURATION` |
| `ResponseFormatter.CreateResponseDefaults` | functions/utils/responseFormatter.js:9 | with no arguments but data: status 200, `success: true`, exactly the default headers |
| `ResponseFormatter.FrameFlagIgnored` | functions/utils/responseFormatter.js:9-29 | the response is the same whatever the `isFrame` argument |
| `ResponseFormatter.DefaultCacheLifetime` | functions/utils/responseFormatter.js:11 | with no configured duration, `Cache-Control` is `public, max-age=60` |
| `ErrorHandler.HandleError` | functions/utils/errorHandler.js:7-48 | NOT_FOUND → 404 "Resource not found"; INVALID_PARAM → 400 "Invalid request parameters"; otherwise the error's own status and message when it has a status, else 500 with the generic message; `success: false`; a frame body holds only the message, a non-frame body also holds `code`, default SERVER_ERROR; CORS headers |
| `ErrorHandler.HandlerCodesAreServerErrors` | functions/utils/errorHandler.js:10-23 | MISSING_PARAM, CONTRACT_ERROR, INVALID_METHOD, INVALID_PATH, INVALID_REQUEST, INVALID_PAYLOAD and UNSUPPORTED_ACTION all become 500 with the generic message |
| `ErrorHandler.CodeBeatsStatus` | functions/utils/errorHandler.js:14-23 | for NOT_FOUND and INVALID_PARAM, the error's own `statusCode` does not change the status |
| `FrameDetection.IsFrameRequest` | functions/utils/frameDetection.js:6-15 | false without an event or without headers; otherwise true iff the user agent contains "Farcaster", `fc-frame` is "true", or the query's `frame` is "true"; absent headers read as "" |
| `FrameDetection.OptimizeForFrame` | functions/utils/frameDetection.js:23-43 | unchanged for non-frames; for frames the same status and body, and the same headers plus `X-Frame-Optimized: true` |
| `FrameDetection.QueryFlagNeedsHeaders` | functions/utils/frameDetection.js:7 | `?frame=true` alone is not a frame request when the event has no headers |
| `FrameDetection.FarcasterAgentIsFrame` | functions/utils/frameDetection.js:12 | any user agent containing "Farcaster" makes a frame request |
| `HandlerFlow.Conclude` | functions/books/index.js:85-92 | a value becomes a 200 `success: true` envelope holding it, marked for frames exactly when `isFrame`; a thrown error becomes `handleError` with the same frame flag |
| `HandlerFlow.Serve` | functions/books/index.js:8-18 | a throw of `initializeContentAdapters()` goes to `handleError` before the rate limiter is asked, even for a request it would have limited; otherwise a rate-limit answer is returned as it is, and otherwise the route's outcome is concluded with the event's frame flag |
| `Sorting.SortBy` | functions/books/index.js:137 | sorting is a permutation of its input (same multiset, same length) |
| `Sorting.SortBySorted` | functions/authors/index.js:175 | under a total-preorder comparator, the sorted sequence is in order |
| `Sorting.InsertSorted` | functions/books/index.js:137 | inserting into an ordered sequence keeps it ordered |
| `Sorting.ByKeyPreorder` | functions/books/index.js:137 | comparing by a key under a total preorder is a total preorder |
| `Pagination.Slice` | functions/books/index.js:141 | `slice(from, to)` has the clamped length, and element k is `s[from + k]` |
| `Pagination.Paginate` | functions/books/index.js:140-148 | `total` is the full count; items are `all[offset, offset + limit)`, at most `limit` of them; `hasMore` iff `total > offset + limit` |
| `Pagination.AdjacentPages` | functions/authors/index.js:178-192 | two adjacent pages concatenated are the page spanning both |
| `Pagination.HasMoreMeansNextPage` | functions/books/index.js:146 | `hasMore` holds iff the next page, of any positive size, is non-empty |
| `Pagination.PagesCover` | functions/books/index.js:140-148 | following `hasMore` page by page from an offset yields every remaining item, once each and in order |
| `Pagination.PageItems` | functions/books/index.js:140-148 | a page cut inside the list is `all[offset, offset + limit)` followed, when `hasMore`, by the pages after it, and otherwise is the rest of the list |
| `TrackerSweep.SweepChain` | functions/collections/index.js:75-91 | the inner loop over registered types on one chain yields what every (chain, type) pair lists, in type order |
| `TrackerSweep.Sweep` | functions/collections/index.js:74-92 | the nested loop yields the pairs' listings over chains base, ethereum, optimism, zora, polygon, in that order |
| `TrackerSweep.ConcatMember` | functions/collections/index.js:74-92 | appending each key's part in turn loses nothing and invents nothing: an item is in the result iff some key's part holds it |
| `TrackerSweep.SweepRowMember` | functions/collections/index.js:74-92 | an item is in the sweep iff some visited chain's row holds it |
| `TrackerSweep.RowMember` | functions/collections/index.js:75-91 | an item is in a chain's row iff some type on that chain listed it |
| `TrackerSweep.SweepMember` | functions/authors/index.js:74-93 | an item is in the sweep iff some visited (chain, type) pair listed it: nothing is invented or lost |
| `TrackerSweep.SkippedPairs` | functions/collections/index.js:77-90 | a pair with no configured contract, whose tracker cannot be built, or whose tracker lacks the listing adds nothing |
| `Books.ChainAt` | functions/books/index.js:43-45 | an address's chain is `chains[i]` if non-empty, else `chains[0]` if non-empty, else "ethereum", and never empty |
| `Books.MapChains` | functions/books/index.js:42-45 | the `forEach` builds the address → chain map, each write overriding earlier ones |
| `Books.EveryAddressMapped` | functions/books/index.js:59-62 | the map's keys are exactly the listed addresses |
| `Books.LastPositionWins` | functions/books/index.js:43-44 | an address listed more than once takes the chain of its last position |
| `Books.GetBookDetails` | functions/books/index.js:160-208 | the loop over content types returns the first book a type yields, or null |
| `Books.BookTypeOrder` | functions/books/index.js:165-203 | 'book' is tried first; 'alexandria_book' is used only when 'book' fails; null iff both fail |
| `Books.BookFields` | functions/books/index.js:175-195 | `address`, `chain` and `type` override everything; with a token, `tokenId` is the first token and metadata fields override collection-info fields; without one, every other field comes from the collection info |
| `Books.GetBooksList` | functions/books/index.js:102-153 | the loop collects the resolved books in address order, sorts them by title and cuts one page |
| `Books.CollectedAreBooks` | functions/books/index.js:110-134 | an entry is listed iff it is the resolved book of some listed address, so no failure placeholder ever appears |
| `Books.CollectedBound` | functions/books/index.js:110-134 | there are at most as many entries as addresses |
| `Books.BooksListShape` | functions/books/index.js:137-148 | the total is at most the address count; `hasMore` iff total > offset + limit; items are in title order; each item is a resolved book |
| `Books.GetFeaturedBooks` | functions/books/index.js:216-232 | the featured page is the list from offset 0 with each item re-spread with `featured: true` |
| `Books.FeaturedShape` | functions/books/index.js:219-227 | offset 0, same total, limit and `hasMore` as the plain list; every item is marked featured and keeps its other fields |
| `Books.Route` | functions/books/index.js:32-86 | the routing of `/books`, `/books/featured` and `/books/:id` computes the route outcome |
| `Books.FeaturedMarks` | functions/books/index.js:222-227 | marking a page keeps its pagination and item count, sets `featured: true` on every item and keeps each item's other fields |
| `Books.ColonIdResolves` | functions/books/index.js:70-71 | `/books/chain:address` reads that address on that chain; a null book is NOT_FOUND |
| `Books.BareIdNeedsChain` | functions/books/index.js:72-78 | a bare address without a `chain` query throws MISSING_PARAM |
| `Authors.GetAuthorsList` | functions/authors/index.js:61-100 | a failure of `getRegisteredTypes` propagates; otherwise the result is the sweep over `getAuthors` |
| `Authors.GetAuthorDetails` | functions/authors/index.js:106-150 | the loop over adapters folds each truthy record into the details, and the result is null when none is truthy |
| `Authors.FoundMember` | functions/authors/index.js:121-126 | a record is merged iff some adapter knows the author and answered it |
| `Authors.NullIffUnknown` | functions/authors/index.js:118-145 | the details are null iff no adapter returned a truthy record; adapters that throw are skipped |
| `Authors.MergeSplits` | functions/authors/index.js:128-138 | merging runs of records appends their `chains` in order and adds their publication counts |
| `Authors.MergeOne` | functions/authors/index.js:128-138 | one record contributes its `chain` and its `publicationCount` (missing counts as 0) |
| `Authors.FirstTruthyWins` | functions/authors/index.js:131-135 | a profile field is the first truthy value across the records; later records never overwrite it |
| `Authors.AllFalsyKeepsLast` | functions/authors/index.js:131-135 | with no truthy value a profile field stays falsy: the last record's value, or absent with no record |
| `Authors.GetAuthorPublications` | functions/authors/index.js:158-197 | the loop gathers every adapter's list, then the result is the sorted list's page, or the sort's TypeError |
| `Authors.Defined` | functions/authors/index.js:175 | the entries the sort passes to the comparator are exactly the gathered ones that are not `undefined` |
| `Authors.SetAside` | functions/authors/index.js:175 | the entries the sort places last without comparing are all `undefined` |
| `Authors.DefinedSplit` | functions/authors/index.js:175 | the compared and the set-aside entries together are the gathered list, as multisets |
| `Authors.DefinedNewestFirst` | functions/authors/index.js:175 | the compared entries come out in non-increasing order of the date `new Date(publishedAt \|\| 0)` denotes, numbers as milliseconds and date strings as parsed |
| `Authors.SortedPublicationsOrder` | functions/authors/index.js:175 | a sort that does not throw permutes the list, orders it newest first and puts the `undefined` entries after all others |
| `Authors.NullPublicationThrows` | functions/authors/index.js:175-196 | the request fails, with the TypeError of reading `publishedAt` of `null`, iff some gathered entry is `null` and at least two are not `undefined` |
| `Authors.PublicationsPageShape` | functions/authors/index.js:175-192 | when the request succeeds: `total` and `publicationCount` are both the gathered count; `hasMore` iff count > offset + limit; the items are newest first with `undefined` entries last, and all gathered |
| `Authors.UndatedLast` | functions/authors/index.js:175 | a publication without a date sorts after every one dated after the epoch, whether that date is a number or a date string |
| `Authors.GatheredMember` | functions/authors/index.js:165-172 | a publication is gathered iff some adapter that did not throw listed it |
| `Authors.Route` | functions/authors/index.js:32-47 | the routing of `/authors`, `/authors/:id` and `/authors/:id/publications` computes the route outcome |
| `Authors.PublicationsDefaults` | functions/authors/index.js:26-27 | without `limit` and `offset`, publications come 20 at a time from offset 0, and the route fails exactly when that request fails |
| `Authors.UnknownAuthor` | functions/authors/index.js:42-45 | an author no adapter knows throws NOT_FOUND |
| `Collections.FirstHit` | functions/collections/index.js:119-132 | the first adapter that knows the address: every earlier adapter does not; None iff no adapter does |
| `Collections.GetCollectionsList` | functions/collections/index.js:60-99 | a failure of `getRegisteredTypes` propagates; otherwise the result is the sweep over `getCollections` |
| `Collections.GetCollectionDetails` | functions/collections/index.js:106-137 | a named chain asks its adapter; otherwise the search loop stops at the first truthy collection |
| `Collections.DetailsOnNamedChain` | functions/collections/index.js:110-116 | an unknown chain throws INVALID_PARAM; a known chain's answer is returned as it is, even null |
| `Collections.DetailsOnAllChains` | functions/collections/index.js:117-132 | for 'all' or no chain: the first truthy collection in adapter order, skipping adapters that throw; null iff none |
| `Collections.GetCollectionItems` | functions/collections/index.js:146-196 | the discovery loop sets the chain from the first adapter that knows the address, then reads one page of items |
| `Collections.ItemsEnvelope` | functions/collections/index.js:177-191 | `total` is the page length; `hasMore` iff the page is full; the reported chain is truthy and not 'all' |
| `Collections.DiscoveryUsesFirstHit` | functions/collections/index.js:151-169 | discovery takes the chain of the first known collection; no collection, or a first one without a usable chain, throws NOT_FOUND |
| `Collections.Route` | functions/collections/index.js:18-45 | the routing of `/collections`, `/collections/:address` and `/collections/:address/items` computes the route outcome |
| `Collections.ListIgnoresQuery` | functions/collections/index.js:30-33 | the list's outcome is the same for every query |
| `Collections.UnknownCollection` | functions/collections/index.js:25-43 | with no chain query every adapter is searched, and an address none knows throws NOT_FOUND |
| `Collections.ItemsDefaults` | functions/collections/index.js:23-25 | without a query the items route searches every chain and reads 20 items from offset 0 |
| `Blockchain.Dispatch` | functions/blockchain/index.js:92-132 | `info` is the collection info overridden by address, chain and type; metadata, ownership, rights and ownerTokens need a parameter or throw MISSING_PARAM; `tokens` returns `getAllTokens` as an array; anything else throws INVALID_METHOD |
| `Blockchain.ProcessBlockchainRequest` | functions/blockchain/index.js:53-133 | the hint, then the loop over registered types, select the tracker the method is dispatched to |
| `Blockchain.FirstValidatingWins` | functions/blockchain/index.js:70-84 | without a usable hint, the first registered type whose tracker answers `getCollectionInfo` is used |
| `Blockchain.LastConstructedKept` | functions/blockchain/index.js:75-77 | when no type validates, the last tracker constructed stays assigned and is used |
| `Blockchain.NoneConstructedKeepsCurrent` | functions/blockchain/index.js:70-85 | when no type constructs a tracker, the loop leaves the tracker as it was |
| `Blockchain.SelectedWasConstructed` | functions/blockchain/index.js:70-85 | the loop leaves a tracker iff some type constructed one |
| `Blockchain.SomeStaysSome` | functions/blockchain/index.js:70-85 | once assigned, a tracker is never unassigned by the loop |
| `Blockchain.HintAcceptedUnchecked` | functions/blockchain/index.js:60-67 | a hinted type is used as soon as its tracker is constructed, without validation |
| `Blockchain.ContractErrorIffNoneConstructed` | functions/blockchain/index.js:87-89 | CONTRACT_ERROR is thrown iff neither the hint nor any registered type constructed a tracker |
| `Blockchain.UnvalidatedTrackerFailsInfo` | functions/blockchain/index.js:75-99 | a kept tracker whose info failed makes `info` fail with that same error |
| `Blockchain.Route` | functions/blockchain/index.js:24-41 | the path checks and the call of `processBlockchainRequest` compute the route outcome |
| `Blockchain.PathShape` | functions/blockchain/index.js:24-38 | fewer than two segments throws INVALID_PATH; an empty chain or address throws MISSING_PARAM; the method defaults to 'info'; the parameters are the segments from index 3 |
| `Registry.WithChain` | contracts/registry.js:42-45 | one listed record per stored record |
| `Registry.WithChainSetsChain` | contracts/registry.js:42-45 | each listed record is the stored one at the same place, with `chain` set |
| `Registry.GetContracts` | contracts/registry.js:37-58 | `getContracts(chain)`: 'all' gathers every key, an own key lists its records with `chain` set, an inherited name throws a TypeError, any other name lists nothing; stated by `AllIsConcatenation`, `KnownChain`, `PrototypeNameThrows` and `UnknownChain` |
| `Registry.GetAllContracts` | contracts/registry.js:37-47 | `getContracts()` takes the default 'all' and lists the ethereum, base, optimism, polygon and zora lists, each with `chain` set, in that order |
| `Registry.GatherSnoc` | contracts/registry.js:39-46 | each step of the reduce appends the next entry's records, with `chain` set, after those gathered so far |
| `Registry.GatherFirstTwo` | contracts/registry.js:39-46 | after the ethereum and base entries the reduce holds the ethereum list then the base list |
| `Registry.GatherFirstFour` | contracts/registry.js:39-46 | after the first four entries the reduce holds the ethereum, base, optimism and polygon lists in that order |
| `Registry.AllIsConcatenation` | contracts/registry.js:24-47 | 'all' is the ethereum, base, optimism, polygon and zora lists, concatenated in that order |
| `Registry.AllCount` | contracts/registry.js:40-47 | the 'all' list's length is the sum of the five list lengths |
| `Registry.AllRecordsCarryTheirChain` | contracts/registry.js:42-45 | every record 'all' lists is a stored record with `chain` set to its registry key |
| `Registry.GatherMember` | contracts/registry.js:40-47 | every record the `reduce` gathers comes from one of the visited keys, with that key as `chain` |
| `Registry.KnownChain` | contracts/registry.js:48-53 | a known chain lists its own records, same count and order, each with `chain` set to that chain |
| `Registry.UnknownChain` | contracts/registry.js:48-57 | a name that is neither a chain, 'all' nor inherited from `Object.prototype` lists nothing |
| `Registry.PrototypeNameThrows` | contracts/registry.js:48-50 | a name inherited from `Object.prototype` (`constructor`, `toString`, `__proto__`, …) is truthy in the registry but has no `map`, so `getContracts` throws a TypeError |
| `Registry.LoadedFileListed` | contracts/registry.js:12-21 | a chain whose file loaded lists that file's records, in order, each with `chain` set |
| `Registry.FailedFileContributesNothing` | contracts/registry.js:12-58 | a chain whose file fails to load lists nothing, and no record 'all' lists carries that chain |
| `HistoricalData.Latest` | functions/historical-data/index.js:7 | at most 144 points, and a buffer within the cap is kept whole |
| `HistoricalData.AppendKeepsLatest` | functions/historical-data/index.js:10-15 | adding to a buffer within the cap appends the point as the last element, drops exactly the oldest point when it was full, and keeps the newest 144 |
| `HistoricalData.FeedKeepsLatest` | functions/historical-data/index.js:10-52 | after any sequence of additions the buffer holds the newest 144 points ever added, oldest first |
| `HistoricalData.Recent` | functions/historical-data/index.js:70-76 | the filter keeps exactly the points newer than the bound |
| `HistoricalData.RecentIsSuffix` | functions/historical-data/index.js:70-76 | on a chronological buffer, a period keeps a suffix, in order |
| `HistoricalData.AllRecent` | functions/historical-data/index.js:70-76 | when every point is within the window, nothing is filtered out |
| `HistoricalData.FilteredShape` | functions/historical-data/index.js:66-81 | an unknown period or an empty window gives the whole buffer; otherwise only points within the window; a non-empty buffer is never served empty |
| `HistoricalData.BodyShape` | functions/historical-data/index.js:62-108 | chain defaults to 'all' and period to '24h'; `chain` is present iff not 'all'; one served point per kept snapshot, a single chain's as `{timestamp, price: dp[chain]}` |
| `HistoricalData.ChainNameUnchecked` | functions/historical-data/index.js:103-106 | the chain name is not validated: asking for 'timestamp' serves each point's timestamp as its price |
| `HistoricalData.History.constructor` | functions/historical-data/index.js:6 | the buffer starts empty |
| `HistoricalData.History.AddDataPoint` | functions/historical-data/index.js:10-15 | the new buffer is the push followed by a shift when over 144, and the cap is kept |
| `HistoricalData.Snapshot` | functions/historical-data/index.js:20-33 | a fetch yields a snapshot taken now of the five prices exactly when it neither rejects nor answers `null` or `undefined`, whose property read throws inside the same `try` |
| `HistoricalData.History.InitializeHistoricalData` | functions/historical-data/index.js:18-34 | only an empty buffer takes a first snapshot; a fetch that rejects or answers `null`/`undefined` leaves it empty |
| `HistoricalData.History.Refresh` | functions/historical-data/index.js:37-52 | each fetch that yields a snapshot adds it; a rejection or a `null`/`undefined` answer changes nothing |
| `HistoricalData.History.Handle` | functions/historical-data/index.js:54-120 | the cold-start snapshot when the buffer is empty and the fetch yields one, then a 200 with the 60-second cache header and the filtered, projected body |
| `Nft.NftResponse` | functions/nft/index.js:7-187 | a rate-limit answer is returned as it is; otherwise the handler answers `createResponse` of the route's status and data, `success` holds iff the status is 2xx, and no `X-Frame-Optimized` header is added |
| `Nft.NftAnswer` | functions/nft/index.js:24-182 | `/batch` takes the batch route before any other check, every other path the single-contract routes; stated by `BatchNeedsContract` and the lemmas below |
| `Nft.BatchAnswer` | functions/nft/index.js:26-77 | the batch route: 400 without a contract or ids, otherwise at most 20 fetches answered together or a 500; stated by `BatchLimits` and `BatchFailsAsWhole` |
| `Nft.SingleAnswer` | functions/nft/index.js:79-182 | the contract, chain and asset-type defaults, then collection info, owner, ownership check, single token or 400; stated by `SingleTokenDefaults`, `CollectionInfoDefaults`, `NullCollectionMetadata`, `TokenIdRequired`, `OwnerWithoutAddress`, `OwnerRoute` and `CheckOwnershipNeedsAddress` |
| `Nft.CollectionInfoData` | functions/nft/index.js:102-118 | the collection-info object and its `||` defaults; stated by `CollectionInfoDefaults` and `EmptyMetadataDefaults` |
| `Nft.BatchResults` | functions/nft/index.js:47-57 | on success, one result per id in id order, each the fetch of that id; on failure, the error of the first failing id; success iff every fetch succeeds |
| `Nft.Limited` | functions/nft/index.js:41-42 | the first min(n, 20) ids, in order |
| `Nft.BatchLimits` | functions/nft/index.js:41-69 | a successful batch processes min(n, 20) ids: `count` and `processed` equal that, `requested` is n, item k is the metadata of id k |
| `Nft.BatchFailsAsWhole` | functions/nft/index.js:47-76 | a batch answers 500 iff one of its first 20 ids fails to fetch |
| `Nft.BatchNeedsContract` | functions/nft/index.js:26-33 | the batch route comes first, and without a contract it answers 400 |
| `Nft.SingleTokenDefaults` | functions/nft/index.js:21-171 | a single token is fetched on 'ethereum' as an 'nft', without ownership, and answered as it is |
| `Nft.CollectionInfoDefaults` | functions/nft/index.js:84-118 | collection info reads token '1' and defaults to 'Unknown Collection', an empty description and the 'nft' format |
| `Nft.EmptyMetadataDefaults` | functions/nft/index.js:95-113 | metadata with no fields is described as "Unknown Collection", with an empty description, the 'nft' format and representative token '1' |
| `Nft.NullCollectionMetadata` | functions/nft/index.js:102-125 | null metadata for the representative token answers 500 |
| `Nft.TokenIdRequired` | functions/nft/index.js:160-182 | without a token id, the answer is 400 "Token ID is required" |
| `Nft.OwnerWithoutAddress` | functions/nft/index.js:129-171 | `/{contract}/{chain}/owner` with no owner segment fetches the token whose id is 'owner' |
| `Nft.OwnerRoute` | functions/nft/index.js:129-141 | the owner route answers 200 with the owner's tokens iff the lookup succeeds, else 500 with the failure's message |
| `Nft.CheckOwnershipNeedsAddress` | functions/nft/index.js:144-171 | without `address`, a check-ownership path fetches the token 'check-ownership'; with it, it answers `{owned}` |
| `Metrics.MetricTypeOf` | functions/metrics/index.js:18-41 | each of the four named types is chosen iff the first segment names it |
| `Metrics.UnknownTypeIsSummary` | functions/metrics/index.js:37-40 | a missing or unknown type is the summary |
| `Metrics.Interval` | functions/metrics/index.js:333-349 | the interval between points is positive |
| `Metrics.PeriodShapes` | functions/metrics/index.js:333-349 | 24h has 24 hourly points; 7d and 30d have 7 and 30 daily points |
| `Metrics.PriceKey` | functions/metrics/index.js:369-372 | a single chain draws around its own base price for ethereum, optimism and base, and around osmosis's otherwise |
| `Metrics.GenerateMockHistoricalData` | functions/metrics/index.js:327-381 | the loop and the sort produce the generated points sorted by timestamp |
| `Metrics.GeneratedDescending` | functions/metrics/index.js:352-353 | point i is taken at `now - i * interval`, so the pushed points strictly descend in time |
| `Metrics.SortDescending` | functions/metrics/index.js:378 | the stable ascending sort of strictly descending points reverses them |
| `Metrics.SeriesReversed` | functions/metrics/index.js:352-378 | the served series is exactly the pushed points in reverse order |
| `Metrics.ReversedAt` | functions/metrics/index.js:352-374 | read newest last, point k is the one pushed at step `n-1-k`, taken `n-1-k` intervals before now |
| `Metrics.ReversedTimestamp` | functions/metrics/index.js:352-355 | read newest last, point k is taken `n-1-k` intervals before now |
| `Metrics.ReversedPoints` | functions/metrics/index.js:352-374 | the pushed points read newest last are one per step, each the point pushed at step `n-1-k`, carrying every chain iff the chain is 'all' |
| `Metrics.ReversedAscending` | functions/metrics/index.js:352-355 | the pushed points read newest last are strictly ascending in time |
| `Metrics.SeriesShape` | functions/metrics/index.js:352-378 | the series has the period's count of points, strictly ascending in time; point k is the one taken `n-1-k` intervals before now, so the last is at now; every point carries all chains iff the chain is 'all' |
| `Metrics.SeriesValues` | functions/metrics/index.js:367-373 | a single chain's served points hold only `timestamp` and `price` |
| `Metrics.HistoricalAnswer` | functions/metrics/index.js:196-226 | the historical endpoint: defaults 'all' and '24h', INVALID_PARAM for an unknown chain or period, otherwise the mock series with a five-minute cache header; stated by `Validate`, `HistoricalDefaults` and `SeriesShape` |
| `Metrics.Validate` | functions/metrics/index.js:203-212 | valid iff the chain and the period are in their lists; failures are INVALID_PARAM; the chain is reported first |
| `Metrics.HistoricalDefaults` | functions/metrics/index.js:197-223 | without parameters, 24 points for all chains are served and `chain` is left out |
| `Metrics.InvalidParamsAre400` | functions/metrics/index.js:203-212 | a bad chain or period answers 400 "Invalid request parameters", and a bad chain is the one reported |
| `Metrics.Handle` | functions/metrics/index.js:7-48 | the handler, running the series loop, answers what the metrics routing specifies |
| `FrameWebhooks.WebhookResponse` | functions/frame-webhooks/index.js:5-61 | 405 for any method but POST, then the rate-limit answer, then the processed payload or `handleError`; stated by `OnlyPost`, `FailuresAreServerErrors` and `AcceptedIffValid` |
| `FrameWebhooks.Process` | functions/frame-webhooks/index.js:28-57 | an unparsable body is INVALID_REQUEST, an incomplete payload INVALID_PAYLOAD, an unknown action UNSUPPORTED_ACTION; stated by `SupportedActions` and `ProcessFailures` |
| `FrameWebhooks.CheckPayload` | functions/frame-webhooks/index.js:37-42 | valid iff `frameAction`, `trustedData` and `trustedData.messageBytes` are truthy; a null payload raises a TypeError; otherwise INVALID_PAYLOAD |
| `FrameWebhooks.OnlyPost` | functions/frame-webhooks/index.js:7-21 | a method other than POST answers 405 with `Allow: POST`, before rate limiting |
| `FrameWebhooks.SupportedActions` | functions/frame-webhooks/index.js:45-57 | a valid payload is acknowledged iff its action is buttonClick, textInput or urlUpload, else UNSUPPORTED_ACTION; the acknowledgement names the action |
| `FrameWebhooks.Acknowledge` | functions/frame-webhooks/index.js:67-140 | the three action handlers' 200 acknowledgements, each naming its action; stated by `SupportedActions` and `ButtonClickEcho` |
| `FrameWebhooks.ButtonClickEcho` | functions/frame-webhooks/index.js:84-89 | a button click echoes `buttonIndex` with `action: 'buttonClick'` |
| `FrameWebhooks.ProcessFailures` | functions/frame-webhooks/index.js:29-57 | whatever the handler throws carries no status and is neither NOT_FOUND nor INVALID_PARAM: a TypeError, INVALID_REQUEST, INVALID_PAYLOAD or UNSUPPORTED_ACTION |
| `FrameWebhooks.FailuresAreServerErrors` | functions/frame-webhooks/index.js:29-60 | every failure is a 500 with the generic message and the thrown code; an unparsable body is INVALID_REQUEST |
| `FrameWebhooks.AcceptedIffValid` | functions/frame-webhooks/index.js:23-57 | a POST that is not rate limited answers 200 iff the payload is valid and its action supported |

## Left out

- Rate limiting (functions/utils/rateLimiter.js): a wrapper over a library. Its answer is an input (`rateLimit`) that short-circuits the handler. The rate limiter's catch block reads `clientIP` outside its scope; that is not modelled.
- CORS preflight (functions/utils/corsHandler.js): a constant header table. Only the constant headers the formatters add are modelled (`Netlify.CorsHeaders`).
- The price, network-comparison, TVL and summary endpoints of functions/metrics/index.js, and functions/token-prices and functions/network-comparison: floating-point arithmetic over remote prices. Their data, or what they throw, enter as `priced(metricType)`.
- `Math.random` in the mock series is the input `draw(key, i)`. `Date.now()` is `Context.now`, or an explicit time argument. `process.env` values are inputs: `CACHE_DURATION` is `Context.cacheDuration`, and the `<CHAIN>_<TYPE>_CONTRACT` variables are `contractFor`.
- The ten-minute `setInterval` timer of the historical data: its body is `HistoricalData.History.Refresh`. Timing and concurrency between timer and handler are not modelled.
- HistoricalData.RecentIsSuffix: assumes the buffer's timestamps never decrease. This is true when the clock is monotonic, but the class does not check it.
- The historical-data handler's 500 branch (functions/historical-data/index.js:121-137): nothing in the modelled body can throw, so the model has no such branch.
- Nft.BatchResults: `Promise.all` rejects with the first rejection in time. The model reports the first failure in token order, and a batch fails as a whole either way.
- Nft.NullCollectionMetadata: the engine's TypeError wording is not modelled. Its message is the fixed `Core.TypeErrorMessage`.
- `checkTokenOwnership` (functions/nft/index.js:189-216): it is defined but never called by the handler.
- `@pagedao/core` internals (`ContentTrackerFactory`, adapters, `fetchNFTMetadata`, `isOwnedBy`, `getTokensForOwner`, `fetchPagePrices`, `initializeContentAdapters`): foreign code. Each is an oracle that answers or throws. How `initializeContentAdapters()` ended is the input `init` of `HandlerFlow.Serve`.
- Reading and parsing the registry files (`fs`, `JSON.parse`): `Registry.LoadJsonFile` receives what loading gave. A file that parses to something other than an array is not modelled.
- Registry.UnknownChain: holds only for names not inherited from `Object.prototype`; the twelve inherited names are `Registry.PrototypeNames`, and `Registry.PrototypeNameThrows` covers them. Properties added to `Object.prototype` at run time are not modelled.
- Thrown values are modelled as error objects (`Core.Thrown`). A foreign call that rejects with `null`, `undefined` or a primitive is not representable, so the books placeholder branch (functions/books/index.js:121-130), which only such a rejection reaches, has no counterpart in the model.
- Json.Spread: spreading a string or an array copies no keys in the model, whereas JavaScript copies its index keys. The spreads modelled apply to metadata objects.
- `JSON.stringify` and `JSON.parse` of bodies, and the `path.replace(regex).split('/')` prefix stripping: events carry the split path and the decoded body. Dropping `undefined` fields on serialisation is not modelled; such fields stay `Undefined` in the value.
- Json.ParseIntOr: `parseInt` with leading blanks or a sign, and its negative results, are not modelled. `limit` and `offset` are naturals, and JavaScript's negative-index `slice` does not arise.
- `localeCompare` is an abstract total preorder on titles (`titleLe`). A falsy title compares as the empty string, as in the code. A truthy title that is not a string is read as the empty string in the model. In the code it has no `localeCompare`: once the sort passes it as the first argument, a TypeError is thrown and the whole list request fails through `handleError`. As the second argument it is compared as its string form. Neither is modelled, because book metadata titles are strings.
- Authors.PublishedAt: `new Date(p.publishedAt || 0)` is an integer timestamp. A falsy date is the epoch, a number is itself, and any other value is read by the input `dateOf`, which stands for `Date`'s parsing. A date that `Date` cannot parse gives NaN in the code, and the comparator then answers NaN, leaving the order up to the engine. That case is not modelled, because `dateOf` always yields an integer.
- Authors.MergeOne: a `publicationCount` that is not a number adds 0 rather than being concatenated or giving NaN.
- Json.Show: a non-string value inside a template literal (the UNSUPPORTED_ACTION message) renders as the empty string.
- The development-only `details: error.stack` of `handleError` is not modelled.
- Object keys from the JavaScript prototype (`dp['constructor']` and similar) are not modelled; such keys read as absent.
- Numbers are integers throughout; only counts, limits, offsets and timestamps are computed on.
