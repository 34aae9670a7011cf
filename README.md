# quranapi cache-aside service, modelled in Dafny

The program `main.go` fetches the chapters ("surahs") of the Quran from a paginated
REST API and keeps them in a bolt key-value database, so that later reads are served
from the local cache before the network. This project models its `QuranService`:

- the records `ChapterSummary`, `Chapter`, `Pages` and an opaque `Verse` (`records.dfy`);
- the bucket's keys: `"chapters_summary"` and `strconv.Itoa(id)` for each chapter, with
  `Itoa` written out and proved injective and disjoint from the summary key (`keys.dfy`);
- the gob codec as a tagged blob whose round trip holds by construction (`codec.dfy`);
- the remote API as the answers it gives: the summary list, the metadata of each id, and
  for each id a finite list of verse-page answers, any of which may be an error (`remote.dfy`);
- the verse pagination protocol: its stop rule, the requests it sends and what it collects
  (`pagination.dfy`);
- the cached index lookup of `getChapterSummary`, as written and corrected (`summary_index.dfy`);
- the store's reads and the remote assembly of a chapter as functions of the bucket and the
  remote (`cache.dfy`);
- the class `QuranService`, whose `bucket: map<string, Blob>` field is the bolt bucket, with
  the store writes, the pagination loop and the two read-through operations (`service.dfy`).

Every remote-facing operation returns a `Fetched` value: its result and the exact list of
requests it sent, so "no remote call" reads as `requests == []`. A store write takes a
`storeFails` flag that stands for a failed bolt `Update`. On that path the transaction is
rolled back and the bucket stays as it was.

## Model

| member | source | states |
|---|---|---|
| Records.AssembleIsFieldCopy | main.go:251-272 | the assembled chapter copies id, number, bismillah flag, revelation order and place, the three names and the translated name from the summary; it sets `Pages.Start/End` to the summary's `Pages[0]/[1]` (`startPage`/`endPage`, main.go:70-76); it keeps the verses as given; and it is the only chapter that does all of this |
| Keys.Itoa | main.go:313 | the decimal key of an id is non-empty, starts with '-' exactly for negative ids, and otherwise holds only digits |
| Keys.AtoiOfItoa | main.go:313 | reading the decimal key back gives the id again |
| Keys.ItoaInjective | main.go:321 | two ids have the same decimal key only if the ids are equal |
| Keys.ChapterKey | main.go:334 | a chapter key never equals the summary key `"chapters_summary"` (main.go:307) |
| Keys.ChapterKeyInjective | main.go:334 | two chapters share a store key exactly when they share an id |
| Codec.DecodeChapter | main.go:364-372 | decoding succeeds exactly on a blob that encodes a chapter, and gives back that chapter; a missing key (nil bytes) fails |
| Codec.DecodeSummaries | main.go:364-372 | decoding succeeds exactly on a blob that encodes a summary list, and gives back that list; a missing key fails |
| Pagination.LastPage | main.go:244-246 | the page that ends the loop is the first page that is not full (an error, or fewer than 50 verses), and every earlier page was full |
| Pagination.Requests | main.go:233-236 | the loop sends one request per full page plus one more |
| Pagination.RequestsAdvance | main.go:247-248 | successive requests advance `page` by one and `offset` by the size of the page just received; the first request has offset 0 |
| Pagination.OffsetCoversFullPages | main.go:247-248 | before the request for page j, at least 50·j verses have been received |
| Pagination.ReceivedPrefix | main.go:243 | verses are only appended: what was received before a page is a prefix of what is received later |
| Pagination.StopRule | main.go:229-249 | request count = full pages + 1; the loop succeeds exactly when the last page is not an error; its verses are then the in-order concatenation of every page, the last being shorter than 50 |
| Pagination.EmptyPageStops | main.go:244 | an empty page always ends the loop |
| Pagination.ThreePages | main.go:229-249 | pages of 50, 50 and 23 verses take exactly three requests (offsets 0, 50, 100, limit 50) and give 123 verses in order |
| SummaryIndex.AsWrittenPanics | main.go:203-204 | the guard as written indexes `chapters[id-1]` out of range exactly when id ≤ 0 or id = len+1 |
| SummaryIndex.AsWrittenPanicsOnEmptyCache | main.go:345-346 | with an unusable summary cache (nil, length 0), id 1 passes the guard and indexes `chapters[0]` |
| SummaryIndex.AsWrittenPanicsPastFullCache | main.go:203-204 | with a complete cache of 114, id 115 passes the guard and indexes one past the end |
| SummaryIndex.Corrected | main.go:203-204 | the corrected lookup never goes out of range: it takes index `id-1` exactly when 1 ≤ id ≤ len |
| SummaryIndex.CorrectedAgreesWhereSafe | main.go:203-205 | the corrected lookup does what the written one does wherever the written one does not panic, and falls back to the remote where it would |
| Cache.CachedSummaries | main.go:338-350 | the cached collection is usable exactly when it decodes and has 114 entries; it is then the list stored under `"chapters_summary"`; otherwise the error is "no chapter summaries found" |
| Cache.CachedChapter | main.go:317-324 | a chapter read succeeds exactly when the key `Itoa(id)` holds a chapter blob, and returns the chapter encoded there |
| Cache.ResolveSummary | main.go:201-219 | with a usable cache and 1 ≤ id ≤ 114, the summary is `chapters[id-1]` with no request; otherwise it is the remote metadata answer for `id` (its error included) after exactly one request for `/chapters/{id}` |
| Cache.AssembleFromRemote | main.go:221-273 | a summary error is returned with its requests; a negative `VerseCount` makes the allocation at main.go:227 panic before any verse request; otherwise the verse requests follow, a page error is returned, and on success the chapter describes the summary and holds the collected verses |
| Cache.SummariesWriteThenRead | main.go:352-362 | a complete list written under the summary key is read back unchanged, so a valid cache stays valid |
| Cache.IncompleteSummariesIgnored | main.go:345-347 | a written list of any size other than 114 (113 after a partial write, say) is not trusted |
| Cache.ChapterWriteThenRead | main.go:326-336 | a chapter written back is read back unchanged under its own id |
| Cache.ChapterWriteIsolated | main.go:334 | writing a chapter changes neither the reads of any other id nor the summary cache |
| Cache.DeleteEvicts | main.go:310-315 | after deleting a chapter's key its read misses; other ids and the summary cache read as before |
| Cache.WriteBackKey | main.go:334 | the assembled chapter is keyed by the id of the summary it was built from, which gives the requested key exactly when that summary carries the requested id |
| Cache.DenseSummariesWriteBackUnderRequestedKey | main.go:203-204 | when cached entry i has id i+1, a chapter assembled from the cache is written back under the requested key |
| Cache.MisplacedSummaryMissesAgain | main.go:334 | when the picked summary carries another id, the write-back leaves the requested key as it was, so the next read misses again |
| Service.QuranService.constructor | main.go:170-181 | a service over the given remote and bucket contents |
| Service.QuranService.DeleteChapterDB | main.go:310-315 | removes the chapter's key and nothing else; a later read of that id misses; a failed transaction changes nothing |
| Service.QuranService.SetChapterDB | main.go:326-336 | stores the chapter under the key of its own id and nothing else; the summary cache is unaffected; a failed transaction changes nothing |
| Service.QuranService.SetSummaryDB | main.go:352-362 | stores the list under `"chapters_summary"` and nothing else; no chapter read changes; a failed transaction changes nothing |
| Service.QuranService.FetchVerses | main.go:227-249 | the pagination loop's result and requests are those of the protocol: pages 0..n with running offsets and limit 50, stopping after the first page that is not full |
| Service.QuranService.FetchChapter | main.go:221-273 | getChapter's result and requests are those of the remote assembly |
| Service.QuranService.GetChapter | main.go:183-199 | a cache hit returns the stored chapter with no request and no write; a miss returns the remote assembly; an error writes nothing; a success writes the chapter under `Itoa(chapter.ID)`, or nothing if the write fails, and is returned either way |
| Service.QuranService.ChaptersSummary | main.go:275-291 | a usable cache is returned with no request and no write; otherwise one request to `/chapters`; a remote error writes nothing; a fetched list is written under `"chapters_summary"`, or nothing if the write fails, and is returned either way |
| Service.EvictedChapterIsRefetched | main.go:183-189 | deleting a chapter and then reading it takes the miss path and sends at least one request, unless the allocation of the verse slice panics first |
| Service.SummariesCachedAfterFetch | main.go:275-279 | after a remote list of 114 has been fetched and written back, the next call returns the same list with no request |

## Left out

- `main` (main.go:19-51) is process glue and is not modelled: opening the database, the loop of deletions, the loop over all chapters, and the logging.
- The constructor models `NewQuranService` (main.go:170-181) over a bucket that already exists. It leaves out `initDB`'s bucket creation (main.go:382-397) and the error return at main.go:176-178. Bolt's transactions, atomicity and durability are the library's guarantees.
- The HTTP transport, the httpc builder, the status check and JSON decoding (main.go:207-218, 230-239, 293-302) are not modelled. Each remote answer is already a record or an error, and `getSummaryAPI` is the field `remote.summaries`.
- The remote's verse answers are indexed by the request's page number. Nothing models how a real server weighs `page` against `offset`. The requests still carry both values together with the limit.
- A server that keeps returning full pages forever is not modelled. Each chapter's answers form a finite list, and past its end the server answers with an empty page.
- gob (main.go:364-380) is not modelled. A blob records the value it encodes, and other bytes are `Corrupt`. Encoding never fails, and a write can only fail through `storeFails`.
- A partly successful gob decode is not modelled. In the source, a failed decode could leave a partly filled slice, which `getSummaryDB` might still return with its error.
- The fields of `Verse` and `Word` beyond a verse's identifiers are left out, because the logic never inspects them. `Word` is left out entirely.
- Cache.AssembleFromRemote: `VerseCount` is the capacity of the verse slice (main.go:227). A negative value panics, and the model returns `Err(CapacityPanic)` for it; a value too large to allocate also panics in the source, and the model does not capture that case.
- That a chapter's verse count equals its `verses_count` depends on the server, so it is not proved.
- `context`, timeouts and logging are not modelled. A failed write-back is only logged in the source, and in the model its status is dropped.
- Go's 64-bit `int` is modelled as an unbounded integer. The overflow of `id - 1`, `page++` and `offset +=` at the limits of int64 is not modelled.
- Cache.ResolveSummary: uses the corrected lookup of the finding below. Where the source panics, it falls back to the remote instead, and so does `GetChapter` through it.

## Findings

| source | as written | input that shows it | evidently intended | confidence | as-written member | corrected member |
|---|---|---|---|---|---|---|
| main.go:203-204 | the cached lookup is guarded by `len(chapters) >= id-1`, then reads `chapters[id-1]`; the error of `getSummaryDB` is ignored | an unusable summary cache (nil slice of length 0) with id 1 reads `chapters[0]`; a complete cache with id 115 reads `chapters[114]`; id 0 reads `chapters[-1]`; each is an index-out-of-range panic | take the cached entry only when `0 <= id-1 < len(chapters)`, and otherwise fetch `/chapters/{id}` | not executed | SummaryIndex.AsWrittenPanics | SummaryIndex.CorrectedAgreesWhereSafe |

The corrected lookup is the one `Cache.ResolveSummary` uses, and through it `GetChapter`.
Two further facts about the code bear on the model:

- The guard at main.go:203 does not check that `id-1` is a valid index into the cached collection, hence the finding.
- A deletion followed by a read sends one request per verse page, plus one metadata request when the summary cache is unusable, so `Service.EvictedChapterIsRefetched` states that at least one request is sent.
