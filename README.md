# Scryfall set import, modelled in Dafny

This project models the card-import pipeline of `lib/services/scryfall.ts`. The pipeline imports one set of a trading-card game from the Scryfall catalog into the `cards` table of a Supabase store. Its steps, in order:

1. fetch the set's metadata;
2. follow the card search's `next_page` links, one throttled GET per page;
3. compare the set's declared `card_count` with the number of cards fetched;
4. map every catalog card to a table row;
5. optionally write a five-card sample file;
6. unless it is a dry run, upsert the rows in batches of 1000, keyed on `scryfall_id`.

Modules, one per file:

- `Scryfall` (`scryfall.dfy`): the catalog records the importer reads, plus `Option`, `Result` and `Outcome`. It also defines `Falsy`, which is JavaScript truthiness for an optional string.
- `Transform` (`transform.dfy`): the row type and the card transformer.
- `RateLimit` (`rate_limit.dfy`): the request throttle. Its one piece of state, `lastRequestTime`, is a field of a class; clock readings are parameters.
- `Catalog` (`catalog.dfy`): the paginated search and the count check.
  - A GET is abstract. The search is given the sequence of responses its successive requests receive; each response is a page or the catalog's error.
  - The search is a loop method. It is proved equal to a closed-form function, and also yields the URLs it requested.
- `Upload` (`upload.dfy`): the batch uploader against a `CardStore` class, whose `rows` map is keyed on `scryfall_id`.
  - The store's answer to each upsert call is an input: the batch numbers it refuses, each with its error message.
  - The upload loop is proved equal to the function `UploadCards`.
- `Pipeline` (`pipeline.dfy`): `importSet`, proved equal to the function `Import`.
  - Everything the pipeline receives from outside is one `World` value.
  - Everything it does to the outside is recorded as a trace of effects: GETs, the sample write and upsert calls.

Three behaviours of the code a reader might not expect, all modelled as the code has them:

- A missing store configuration is detected only when the upload starts, after every catalog GET and after the sample file is written (`Pipeline.MissingConfigFailsAfterCatalog`).
- Besides absent values, the empty string is also mapped to null for `mana_cost`, `power`, `toughness` and `collector_number`.
- An empty `colors` list stays an empty list.

## Model

| member | source | states |
|---|---|---|
| Transform.StringOrNull | lib/services/scryfall.ts:231-240 | `s \|\| null` on an optional string is null exactly when the value is absent or empty, and otherwise the value itself |
| Transform.Join | lib/services/scryfall.ts:241 | `join(", ")` of no parts is the empty string and of one part is that part; otherwise the length is the parts' total length plus one separator between each two neighbours |
| Transform.JoinSnoc | lib/services/scryfall.ts:241 | appending a part to a joined list adds one separator and that part |
| Transform.TransformCardForDatabase | lib/services/scryfall.ts:227-244 | `id`, `name`, `cmc`, `type_line`, `rarity` and `set` are copied verbatim. The four optional text fields are null iff absent or "", otherwise copied, so no row holds an empty nullable text. `colors` is null iff absent, so an empty list stays empty. `color_identity` and `image_uris` are copied. Keywords are the list joined with ", ", and "" for no keywords |
| Transform.TransformCardsForDatabase | lib/services/scryfall.ts:249-251 | the result has the input's length, and row i is the transform of card i |
| Transform.TransformDistributes | lib/services/scryfall.ts:249-251 | transforming a concatenation is concatenating the transforms, so the mapping does not depend on how the cards were paged |
| RateLimit.DelayBefore | lib/services/scryfall.ts:143-149 | no wait iff at least 100 ms passed since the last request started; otherwise the wait is exactly the deficit; either way the request starts no earlier than 100 ms after the previous one, and, when the clock has not gone back since the previous request, the wait never exceeds 100 ms |
| RateLimit.RateLimiter.constructor | lib/services/scryfall.ts:141 | the last request time starts at 0 |
| RateLimit.RateLimiter.Acquire | lib/services/scryfall.ts:143-151 | the wait is `DelayBefore` of the stored time; the stored time becomes the clock reading taken after the wait; if the wait really elapsed, two request starts are at least 100 ms apart |
| RateLimit.RequestsSpreadOut | lib/services/scryfall.ts:138-151 | over n request starts whose neighbours are at least 100 ms apart, the first and last are at least 100·(n-1) ms apart |
| RateLimit.ThrottledStartsSpreadOut | lib/services/scryfall.ts:143-151 | when every request start is the clock reading taken after waiting the throttle's `DelayBefore` (as `Acquire` records it), n successive starts span at least 100·(n-1) ms |
| Catalog.LastFetched | lib/services/scryfall.ts:183-188 | the loop stops at the first response that is an error or has no next page; no earlier response stops it |
| Catalog.RequestedUrls | lib/services/scryfall.ts:181-188 | there is one request per fetched page; the first goes to the search URL and each later one to the previous page's `next_page` |
| Catalog.SearchCardsInSet | lib/services/scryfall.ts:179-198 | the loop returns `Paginate`: the first error met, or every fetched page's `data` concatenated in fetch order. It requests exactly `RequestedUrls` |
| Catalog.PaginateCount | lib/services/scryfall.ts:187 | a successful search holds exactly as many cards as the fetched pages carry together |
| Catalog.PaginateStopsAtEnd | lib/services/scryfall.ts:183 | responses after the one that ends the search do not affect the result |
| Catalog.PaginateUnfold | lib/services/scryfall.ts:183-188 | a page with a next link puts its cards in front of what the rest of the chain yields, and an error later in the chain is the result |
| Catalog.ValidateSetImport | lib/services/scryfall.ts:203-217 | a failed metadata request propagates its error; otherwise the result is true iff `card_count` equals the number of fetched cards |
| Upload.UpsertAll | lib/services/scryfall.ts:348-353 | an upsert on `scryfall_id` stores every key of the batch and keeps every other stored row unchanged |
| Upload.UpsertLastWins | lib/services/scryfall.ts:348-353 | the row stored under a key is the last row in the batch with that key |
| Upload.UpsertIsOverlay | lib/services/scryfall.ts:348-353 | an upsert overlays the batch's rows on the table |
| Upload.UpsertAppend | lib/services/scryfall.ts:341-353 | upserting two batches in turn equals upserting their concatenation |
| Upload.UpsertIdempotent | lib/services/scryfall.ts:348-353 | upserting the same rows a second time changes nothing |
| Upload.NumBatches | lib/services/scryfall.ts:344 | `Math.ceil(n / size)` is the least count of size-long slices covering n rows |
| Upload.CeilingUnique | lib/services/scryfall.ts:344 | exactly one count meets the ceiling's two bounds |
| Upload.BatchesPartition | lib/services/scryfall.ts:341-342 | every batch is non-empty and at most `batchSize` long, all but the last are exactly `batchSize` long, and the batches concatenated are the input |
| Upload.BatchCount | lib/services/scryfall.ts:341-344 | there are `Math.ceil(n / batchSize)` batches |
| Upload.BatchAt | lib/services/scryfall.ts:341-342 | batch k (from 1) is `cards.slice((k-1)*batchSize, k*batchSize)`, cut short at n, and starts before n |
| Upload.BatchesPrefix | lib/services/scryfall.ts:341-342 | the first k batches together are the first min(k·batchSize, n) rows |
| Upload.LoopStep | lib/services/scryfall.ts:341-342 | at the loop's k-th iteration, `i` is inside the rows, the slice taken is batch k+1, and another iteration follows iff another batch exists |
| Upload.OffsetQuotient | lib/services/scryfall.ts:343 | at the k-th iteration, `Math.floor(i / batchSize)` is k, so the batch number is k+1 |
| Upload.FirstRejected | lib/services/scryfall.ts:355-358 | the first refused batch number in a range, or none; no lower number in the range is refused |
| Upload.UploadAccepted | lib/services/scryfall.ts:341-360 | when the store refuses no batch, the upload passes, sends every batch and upserts every row |
| Upload.UploadRefused | lib/services/scryfall.ts:341-358 | when batch k+1 is the first refused, the upload fails with that number and the store's message, having sent batches 1..k+1 and applied batches 1..k |
| Upload.CardStore.Upsert | lib/services/scryfall.ts:348-353 | an accepted upsert call replaces the rows by `UpsertAll` of the old rows and the batch |
| Upload.UploadCardsToDatabase | lib/services/scryfall.ts:335-362 | the loop's outcome, the batches it sent and the table it leaves are those of `UploadCards`. Without configuration it fails before sending anything. Otherwise it sends batches in order until the first refused one, which fails the upload with its number; earlier batches stay applied, later ones are never sent |
| Upload.FailedUploadKeepsEarlierBatches | lib/services/scryfall.ts:341-358 | when batch k fails, 1 ≤ k ≤ ceil(n/batchSize), exactly the first k batches were sent, and the table holds the first (k-1)·batchSize rows upserted over its old rows |
| Upload.MissingConfigSendsNothing | lib/services/scryfall.ts:263-267 | a missing URL or key fails the upload before any batch is sent and leaves the table alone |
| Upload.UploadTwiceIsIdempotent | lib/services/scryfall.ts:348-353 | when both uploads succeed, a second upload of the same rows leaves the table as the first left it |
| Upload.ThreeBatchesOf2500 | lib/services/scryfall.ts:341-358 | 2500 rows in batches of 1000 make three upsert calls of 1000, 1000 and 500 rows. If the store refuses the second, the upload fails at batch 2 and the third is never sent |
| Pipeline.WithDefault | lib/services/scryfall.ts:382 | an option's default replaces only an absent value |
| Pipeline.DatePart | lib/services/scryfall.ts:286 | `split('T')[0]` is the longest prefix without a 'T' |
| Pipeline.SaveCardsToFile | lib/services/scryfall.ts:281-303 | the sample file goes to the output directory under `<set>-cards-<date>.json`. It records the set code, the clock reading and the full count n, and carries the first min(5, n) rows |
| Pipeline.ImportSet | lib/services/scryfall.ts:369-451 | the steps in order produce exactly the result, table and effect trace of `Import` |
| Pipeline.ImportedCountIsFetchedCount | lib/services/scryfall.ts:440-445 | on success, the metadata is the first request's answer, `cardsImported` is the number of fetched cards, and `validationPassed` says whether the declared count matched it |
| Pipeline.ImportSucceedsIff | lib/services/scryfall.ts:386-450 | an import succeeds iff every catalog request succeeds, a requested sample write succeeds, and a real run's upload passes. The count check's verdict plays no part |
| Pipeline.ImportUploads | lib/services/scryfall.ts:433-436 | an import that reaches the upload leaves the table as the upload of the transformed cards does, and fails exactly with the upload's error |
| Pipeline.ImportWithoutUpload | lib/services/scryfall.ts:386-432 | an import that stops before the upload or skips it leaves the table unchanged, makes no upsert call and cannot fail in the upload |
| Pipeline.MissingConfigFailsAfterCatalog | lib/services/scryfall.ts:389-435 | a real run without configuration fails only at the upload, after the metadata and search requests, with the table untouched |
| Pipeline.DryRunUploadsNothing | lib/services/scryfall.ts:430-432 | a dry run leaves the table unchanged, makes no upsert call, and its result does not depend on the environment |
| Pipeline.SavedToFileIffRequested | lib/services/scryfall.ts:421-427 | on success, `savedToFile` is set iff a file was requested. The trace then holds the write of that path in the output directory, carrying the full count and the first min(5, n) rows |
| Pipeline.CatalogFailureChangesNothing | lib/services/scryfall.ts:387-399 | a failing catalog request leaves the table unchanged, and the run made only GET requests |
| Pipeline.UploadFailureKeepsEarlierBatches | lib/services/scryfall.ts:433-436 | when the store refuses batch k, the table keeps the first (k-1)·1000 transformed rows upserted over its old rows |
| Pipeline.ReimportIsIdempotent | lib/services/scryfall.ts:348-353 | a second import of the same set that also succeeds, with the same catalog answers, leaves the table as the first successful import left it |

## Left out

- HTTP, headers, JSON parsing, and the text of error and log messages. A GET is a given response, either a page or the catalog's `{code, status, details}` error. A body that fails to parse is not modelled.
- The `has_more` progress log and every other `console` call.
- Real time and `setTimeout`. Clock readings are parameters, and the throttle's wait is returned rather than slept.
- The throttle is modelled on its own. It is not threaded through the GETs of the search and the pipeline, whose traces list the requests but not their timing.
- The Supabase client itself. Its creation is reduced to the two environment values it checks, and each upsert call's answer is an input: the refused batch numbers with their messages.
- The store rejecting a batch that carries the same `scryfall_id` twice. `Upload.UpsertAll` lets the last row win, and a refusal of such a batch can only come from the refusals input.
- `path.join` normalisation. The saved path is kept as its directory and file name.
- The file-system write. It is reduced to whether it succeeds, and a single clock reading serves both the file name's date and `exportedAt`.
- The sample file's fixed `fullDataMessage` text.
- `saveCompleteCardsToFile`, whose size report is floating-point formatting. It is not called by the pipeline.
- async/Promise machinery. Execution is sequential and is modelled as ordinary calls.
- `scripts/import-set.ts` and `scripts/import-set-dry.ts` (command-line glue), `lib/types/database.ts` and `app/types.ts` (type declarations only).
- The row's store-managed id, its timestamps, `scryfall_uri` and `card_object_uri`. The transformer never sets them.
- Catalog record fields the importer never reads (prices, legalities, links, ...). `cmc` is a `real`, copied verbatim.
- Catalog.SearchCardsInSet: requires that some response ends the search; a catalog whose `next_page` links never end would make the source loop forever.
- Upload.UploadCardsToDatabase: requires `batchSize > 0`. With 0 or a negative size the source loop never ends on non-empty input. Fractional sizes are not modelled; the pipeline always uses 1000.
