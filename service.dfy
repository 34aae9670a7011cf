/** QuranService: the cache-aside orchestrator over one bucket and one remote source. */
module Service {
  import opened Results
  import opened Records
  import opened Keys
  import opened Codec
  import opened Remote
  import opened Pagination
  import opened Cache

  class QuranService {
    /** The contents of the "chapters" bucket. */
    var bucket: map<string, Blob>
    /** The remote API the service reads from. */
    const remote: Source

    constructor (remote: Source, bucket: map<string, Blob>)
      ensures this.remote == remote && this.bucket == bucket
    {
      this.remote := remote;
      this.bucket := bucket;
    }

    /** deleteChapterDB: removes the key of chapter `id`, and nothing else. A failed write
        transaction (`storeFails`) is rolled back. Deleting an absent key succeeds. */
    method DeleteChapterDB(id: int, storeFails: bool) returns (status: Status)
      modifies this
      ensures status == if storeFails then Aborted(WriteFailed) else Committed
      ensures bucket == if storeFails then old(bucket) else old(bucket) - {ChapterKey(id)}
      ensures !storeFails ==> CachedChapter(bucket, id).Err?
      ensures CachedSummaries(bucket) == old(CachedSummaries(bucket))
      ensures forall other: int :: other != id ==> CachedChapter(bucket, other) == old(CachedChapter(bucket, other))
    {
      if storeFails {
        status := Aborted(WriteFailed);
        return;
      }
      forall other: int | other != id
        ensures CachedChapter(bucket - {ChapterKey(id)}, other) == CachedChapter(bucket, other)
      {
        DeleteEvicts(bucket, id, other);
      }
      DeleteEvicts(bucket, id, id + 1);
      bucket := bucket - {ChapterKey(id)};
      status := Committed;
    }

    /** setChapterDB: stores `chapter` under the key of its own id, and nothing else. */
    method SetChapterDB(chapter: Chapter, storeFails: bool) returns (status: Status)
      modifies this
      ensures status == if storeFails then Aborted(WriteFailed) else Committed
      ensures bucket == if storeFails then old(bucket)
                        else old(bucket)[ChapterKey(chapter.id) := EncodeChapter(chapter)]
      ensures !storeFails ==> CachedChapter(bucket, chapter.id) == Ok(chapter)
      ensures CachedSummaries(bucket) == old(CachedSummaries(bucket))
    {
      if storeFails {
        status := Aborted(WriteFailed);
        return;
      }
      ChapterWriteIsolated(bucket, chapter, chapter.id + 1);
      bucket := bucket[ChapterKey(chapter.id) := EncodeChapter(chapter)];
      status := Committed;
    }

    /** setSummaryDB: stores the collection under the summary key, and nothing else. */
    method SetSummaryDB(chapters: seq<ChapterSummary>, storeFails: bool) returns (status: Status)
      modifies this
      ensures status == if storeFails then Aborted(WriteFailed) else Committed
      ensures bucket == if storeFails then old(bucket)
                        else old(bucket)[SummaryKey := EncodeSummaries(chapters)]
      ensures forall id: int :: CachedChapter(bucket, id) == old(CachedChapter(bucket, id))
    {
      if storeFails {
        status := Aborted(WriteFailed);
        return;
      }
      forall id: int ensures CachedChapter(bucket[SummaryKey := EncodeSummaries(chapters)], id) == CachedChapter(bucket, id) {
        assert Get(bucket[SummaryKey := EncodeSummaries(chapters)], ChapterKey(id)) == Get(bucket, ChapterKey(id));
      }
      bucket := bucket[SummaryKey := EncodeSummaries(chapters)];
      status := Committed;
    }

    /** The verse loop of getChapter: request page after page of chapter `id`, each with
        the running verse count as offset and limit PageLimit, append the verses, and stop
        after the first page with fewer than PageLimit verses; a failed page ends it with
        its error. */
    method FetchVerses(id: int) returns (f: Fetched<seq<Verse>>)
      ensures f == Paginate(id, remote.verses(id))
    {
      var pages := remote.verses(id);
      ghost var n := LastPage(pages);
      var verses: seq<Verse> := [];
      var requests: seq<Request> := [];
      var page: nat, offset: nat := 0, 0;
      while true
        invariant page <= n
        invariant verses == Received(pages, page)
        invariant offset == |verses|
        invariant requests == Requests(id, pages)[..page]
        decreases n - page
      {
        var response := PageAt(pages, page);
        requests := requests + [VersesRequest(id, page, offset, PageLimit)];
        assert requests == Requests(id, pages)[..page + 1];
        if response.Err? {
          return Fetched(Err(response.error), requests);
        }
        verses := verses + response.value;
        if |response.value| < PageLimit {
          return Fetched(Ok(verses), requests);
        }
        page := page + 1;
        offset := offset + |response.value|;
      }
    }

    /** getChapter: the summary of `id`, then its verses, then the assembled record. */
    method FetchChapter(id: int) returns (f: Fetched<Chapter>)
      ensures f == AssembleFromRemote(bucket, remote, id)
    {
      var summary := ResolveSummary(bucket, remote, id);
      if summary.result.Err? {
        return Fetched(Err(summary.result.error), summary.requests);
      }
      if summary.result.value.verseCount < 0 {
        // make([]Verse, 0, chapter.VerseCount) panics on a negative capacity
        return Fetched(Err(CapacityPanic), summary.requests);
      }
      var verses := FetchVerses(id);
      if verses.result.Err? {
        return Fetched(Err(verses.result.error), summary.requests + verses.requests);
      }
      f := Fetched(Ok(Assemble(summary.result.value, verses.result.value)), summary.requests + verses.requests);
    }

    /** GetChapter: a chapter that decodes from the store is returned as it is, with no
        request and no write. Otherwise the chapter is assembled from the remote; a
        remote error is returned with nothing written; on success it is written back
        (best effort) under the key of its own id, and returned whether or not the
        write succeeded. */
    method GetChapter(id: int, storeFails: bool) returns (f: Fetched<Chapter>)
      modifies this
      ensures old(CachedChapter(bucket, id)).Ok? ==>
        f == Fetched(old(CachedChapter(bucket, id)), []) && bucket == old(bucket)
      ensures old(CachedChapter(bucket, id)).Err? ==> f == old(AssembleFromRemote(bucket, remote, id))
      ensures f.result.Err? ==> bucket == old(bucket)
      ensures old(CachedChapter(bucket, id)).Err? && f.result.Ok? ==>
        bucket == if storeFails then old(bucket)
                  else old(bucket)[ChapterKey(f.result.value.id) := EncodeChapter(f.result.value)]
    {
      var cached := CachedChapter(bucket, id);
      if cached.Ok? {
        return Fetched(cached, []);
      }
      f := FetchChapter(id);
      if f.result.Err? {
        return;
      }
      var _ := SetChapterDB(f.result.value, storeFails);
    }

    /** ChaptersSummary: a cached collection is returned only when it decodes and is
        complete. Otherwise the list is fetched; a remote error is returned with nothing
        written; on success the list is written back (best effort) under the summary key
        and returned whether or not the write succeeded. */
    method ChaptersSummary(storeFails: bool) returns (f: Fetched<seq<ChapterSummary>>)
      modifies this
      ensures old(CachedSummaries(bucket)).Ok? ==>
        f == Fetched(old(CachedSummaries(bucket)), []) && bucket == old(bucket)
      ensures old(CachedSummaries(bucket)).Err? ==> f == Fetched(remote.summaries, [SummariesRequest])
      ensures old(CachedSummaries(bucket)).Err? ==>
        bucket == if remote.summaries.Err? || storeFails then old(bucket)
                  else old(bucket)[SummaryKey := EncodeSummaries(remote.summaries.value)]
    {
      var cached := CachedSummaries(bucket);
      if cached.Ok? {
        return Fetched(cached, []);
      }
      f := Fetched(remote.summaries, [SummariesRequest]);
      if f.result.Err? {
        return;
      }
      var _ := SetSummaryDB(f.result.value, storeFails);
    }
  }

  /** Deleting a chapter and then reading it goes to the remote: the read takes the miss
      path, assembles from the store as the delete left it, and sends at least one request,
      unless the summary's negative verse count panics first. */
  method EvictedChapterIsRefetched(svc: QuranService, id: int, storeFails: bool) returns (f: Fetched<Chapter>)
    modifies svc
    ensures f == old(AssembleFromRemote(svc.bucket - {ChapterKey(id)}, svc.remote, id))
    ensures f.result != Err(CapacityPanic) ==> f.requests != []
  {
    var _ := svc.DeleteChapterDB(id, false);
    f := svc.GetChapter(id, storeFails);
  }

  /** After the first call, whether it hit the store or fetched a complete list and wrote it
      back, the next call is served from the store with no request and returns the same list. */
  method SummariesCachedAfterFetch(svc: QuranService) returns (first: Fetched<seq<ChapterSummary>>, second: Fetched<seq<ChapterSummary>>)
    modifies svc
    requires svc.remote.summaries.Ok? && |svc.remote.summaries.value| == SummaryCount
    ensures first.requests != [] ==> first.result == svc.remote.summaries
    ensures second == Fetched(first.result, [])
  {
    first := svc.ChaptersSummary(false);
    if first.requests != [] {
      SummariesWriteThenRead(old(svc.bucket), svc.remote.summaries.value);
    }
    second := svc.ChaptersSummary(false);
  }
}
