/** The store's read side and the remote assembly of a chapter, as functions of the
    bucket's contents and the remote source, with the properties the cache-aside
    decisions rely on. */
module Cache {
  import opened Results
  import opened Records
  import opened Keys
  import opened Codec
  import opened Remote
  import opened Pagination
  import opened SummaryIndex

  /** The size of the complete summary collection; a cached collection of any other size is not trusted. */
  const SummaryCount: nat := 114

  /** getSummaryDB: the cached collection when it decodes and is complete. */
  function CachedSummaries(bucket: map<string, Blob>): (r: Result<seq<ChapterSummary>>)
    ensures r.Ok? <==>
      && DecodeSummaries(Get(bucket, SummaryKey)).Ok?
      && |DecodeSummaries(Get(bucket, SummaryKey)).value| == SummaryCount
    ensures r.Ok? ==> bucket[SummaryKey] == EncodeSummaries(r.value) && |r.value| == SummaryCount
    ensures r.Err? ==> r.error == NoSummaries
  {
    var decoded := DecodeSummaries(Get(bucket, SummaryKey));
    if decoded.Err? || |decoded.value| != SummaryCount then Err(NoSummaries) else decoded
  }

  /** getChapterDB: the chapter stored under the key of `id`, when it decodes. */
  function CachedChapter(bucket: map<string, Blob>, id: int): (r: Result<Chapter>)
    ensures r.Ok? <==> ChapterKey(id) in bucket && bucket[ChapterKey(id)].ChapterBlob?
    ensures r.Ok? ==> bucket[ChapterKey(id)] == EncodeChapter(r.value)
  {
    DecodeChapter(Get(bucket, ChapterKey(id)))
  }

  /** getChapterSummary (with the bounds check corrected): element `id-1` of a usable
      cached collection, else the remote metadata of `id`. An unusable cache reads as
      an empty collection, and its error is not looked at. */
  function ResolveSummary(bucket: map<string, Blob>, remote: Source, id: int): (f: Fetched<ChapterSummary>)
    ensures f.requests == [] <==> CachedSummaries(bucket).Ok? && 1 <= id <= SummaryCount
    ensures f.requests == [] ==> f.result == Ok(CachedSummaries(bucket).value[id - 1])
    ensures f.requests != [] ==> f == Fetched(remote.chapter(id), [ChapterRequest(id)])
  {
    var cached := CachedSummaries(bucket);
    var chapters := if cached.Ok? then cached.value else [];
    match Corrected(|chapters|, id)
    case Take(i) => Fetched(Ok(chapters[i]), [])
    case _ => Fetched(remote.chapter(id), [ChapterRequest(id)])
  }

  /** getChapter: resolve the summary, page through the verses of `id`, build the chapter.
      The first error ends it. A negative verse count makes the allocation of the verse
      slice panic before any verse is requested. */
  function AssembleFromRemote(bucket: map<string, Blob>, remote: Source, id: int): (f: Fetched<Chapter>)
    ensures var s := ResolveSummary(bucket, remote, id);
      && (s.result.Err? ==> f == Fetched(Err(s.result.error), s.requests))
      && (s.result.Ok? && s.result.value.verseCount < 0 ==> f == Fetched(Err(CapacityPanic), s.requests))
      && (s.result.Ok? && s.result.value.verseCount >= 0 ==>
            && f.requests == s.requests + Requests(id, remote.verses(id))
            && (f.result.Ok? <==> Collected(remote.verses(id)).Ok?)
            && (f.result.Err? ==> f.result.error == Collected(remote.verses(id)).error)
            && (f.result.Ok? ==>
                  && Describes(f.result.value, s.result.value)
                  && f.result.value.verses == Collected(remote.verses(id)).value))
  {
    var s := ResolveSummary(bucket, remote, id);
    if s.result.Err? then Fetched(Err(s.result.error), s.requests)
    else if s.result.value.verseCount < 0 then Fetched(Err(CapacityPanic), s.requests)
    else
      var v := Paginate(id, remote.verses(id));
      var chapter := if v.result.Err? then Err(v.result.error) else Ok(Assemble(s.result.value, v.result.value));
      AssembleIsFieldCopy(s.result.value, if v.result.Ok? then v.result.value else [], Assemble(s.result.value, []));
      Fetched(chapter, s.requests + v.requests)
  }

  /** A complete collection written under the summary key is read back as it was:
      a valid cache stays valid. */
  lemma SummariesWriteThenRead(bucket: map<string, Blob>, s: seq<ChapterSummary>)
    requires |s| == SummaryCount
    ensures CachedSummaries(bucket[SummaryKey := EncodeSummaries(s)]) == Ok(s)
  {
  }

  /** A collection of any other size (a partial write of 113, say) is ignored. */
  lemma IncompleteSummariesIgnored(bucket: map<string, Blob>, s: seq<ChapterSummary>)
    requires |s| != SummaryCount
    ensures CachedSummaries(bucket[SummaryKey := EncodeSummaries(s)]).Err?
  {
  }

  /** A written chapter is read back under its own id. */
  lemma ChapterWriteThenRead(bucket: map<string, Blob>, c: Chapter)
    ensures CachedChapter(bucket[ChapterKey(c.id) := EncodeChapter(c)], c.id) == Ok(c)
  {
  }

  /** Writing one chapter leaves the reads of every other id, and the summary cache, unchanged. */
  lemma ChapterWriteIsolated(bucket: map<string, Blob>, c: Chapter, id: int)
    requires id != c.id
    ensures CachedChapter(bucket[ChapterKey(c.id) := EncodeChapter(c)], id) == CachedChapter(bucket, id)
    ensures CachedSummaries(bucket[ChapterKey(c.id) := EncodeChapter(c)]) == CachedSummaries(bucket)
  {
    ChapterKeyInjective(id, c.id);
    assert Get(bucket[ChapterKey(c.id) := EncodeChapter(c)], ChapterKey(id)) == Get(bucket, ChapterKey(id));
  }

  /** Deleting a chapter's key makes its next read miss, and leaves other ids and the summary cache alone. */
  lemma DeleteEvicts(bucket: map<string, Blob>, id: int, other: int)
    requires other != id
    ensures CachedChapter(bucket - {ChapterKey(id)}, id).Err?
    ensures CachedChapter(bucket - {ChapterKey(id)}, other) == CachedChapter(bucket, other)
    ensures CachedSummaries(bucket - {ChapterKey(id)}) == CachedSummaries(bucket)
  {
    ChapterKeyInjective(id, other);
    assert Get(bucket - {ChapterKey(id)}, ChapterKey(other)) == Get(bucket, ChapterKey(other));
  }

  /** The assembled chapter is keyed by the id of the summary it was built from, which is
      the requested id exactly when that summary carries it. */
  lemma WriteBackKey(bucket: map<string, Blob>, remote: Source, id: int)
    requires AssembleFromRemote(bucket, remote, id).result.Ok?
    ensures var c := AssembleFromRemote(bucket, remote, id).result.value;
      ChapterKey(c.id) == ChapterKey(id) <==> ResolveSummary(bucket, remote, id).result.value.id == id
  {
    var c := AssembleFromRemote(bucket, remote, id).result.value;
    ChapterKeyInjective(c.id, id);
  }

  /** When the cached collection is dense and ascending (element i has id i+1), a chapter
      assembled from it is written back under the requested key. */
  lemma DenseSummariesWriteBackUnderRequestedKey(bucket: map<string, Blob>, remote: Source, id: int)
    requires CachedSummaries(bucket).Ok?
    requires forall i :: 0 <= i < |CachedSummaries(bucket).value| ==> CachedSummaries(bucket).value[i].id == i + 1
    requires 1 <= id <= SummaryCount
    requires AssembleFromRemote(bucket, remote, id).result.Ok?
    ensures ChapterKey(AssembleFromRemote(bucket, remote, id).result.value.id) == ChapterKey(id)
  {
    WriteBackKey(bucket, remote, id);
  }

  /** When the summary picked for `id` carries another id, the write-back goes to another
      key and the next read of `id` misses again. */
  lemma MisplacedSummaryMissesAgain(bucket: map<string, Blob>, remote: Source, id: int)
    requires AssembleFromRemote(bucket, remote, id).result.Ok?
    requires ResolveSummary(bucket, remote, id).result.value.id != id
    ensures var c := AssembleFromRemote(bucket, remote, id).result.value;
      CachedChapter(bucket[ChapterKey(c.id) := EncodeChapter(c)], id) == CachedChapter(bucket, id)
  {
    var c := AssembleFromRemote(bucket, remote, id).result.value;
    ChapterWriteIsolated(bucket, c, id);
  }
}
