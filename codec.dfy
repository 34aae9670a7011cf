/** The blob codec of the store. The byte format (gob) is not modelled: a blob
    remembers which record it encodes, so that decoding what was encoded gives the
    record back, and any other bytes are `Corrupt`. */
module Codec {
  import opened Results
  import opened Records

  datatype Blob =
    | ChapterBlob(chapter: Chapter)
    | SummariesBlob(summaries: seq<ChapterSummary>)
    | Corrupt(bytes: seq<bv8>)

  function EncodeChapter(c: Chapter): Blob { ChapterBlob(c) }

  function EncodeSummaries(s: seq<ChapterSummary>): Blob { SummariesBlob(s) }

  /** Decodes the value found under a key; a missing key (nil bytes) fails as gob's EOF does. */
  function DecodeChapter(stored: Option<Blob>): (r: Result<Chapter>)
    ensures r.Ok? <==> stored.Some? && stored.value.ChapterBlob?
    ensures r.Ok? ==> stored == Some(EncodeChapter(r.value))
    ensures r.Err? ==> r.error == DecodeFailed
  {
    if stored.Some? && stored.value.ChapterBlob? then Ok(stored.value.chapter) else Err(DecodeFailed)
  }

  function DecodeSummaries(stored: Option<Blob>): (r: Result<seq<ChapterSummary>>)
    ensures r.Ok? <==> stored.Some? && stored.value.SummariesBlob?
    ensures r.Ok? ==> stored == Some(EncodeSummaries(r.value))
    ensures r.Err? ==> r.error == DecodeFailed
  {
    if stored.Some? && stored.value.SummariesBlob? then Ok(stored.value.summaries) else Err(DecodeFailed)
  }

  /** What bolt's `Get` returns for `key`. */
  function Get(bucket: map<string, Blob>, key: string): (r: Option<Blob>)
    ensures r.Some? <==> key in bucket
    ensures r.Some? ==> r.value == bucket[key]
  {
    if key in bucket then Some(bucket[key]) else None
  }
}
