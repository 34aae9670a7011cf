/** The remote API, as the answers it gives. The HTTP transport, the status check and the
    JSON decoding are not modelled: each answer is already a record or an error. */
module Remote {
  import opened Results
  import opened Records

  /** A request the service sends, as it appears on the wire (the query values of a verse page). */
  datatype Request =
    | SummariesRequest                                       // GET /chapters
    | ChapterRequest(id: int)                                // GET /chapters/{id}
    | VersesRequest(id: int, page: nat, offset: nat, limit: nat) // GET /chapters/{id}/verses?page&offset&limit

  /** The answer to one verse-page request. */
  type PageResult = Result<seq<Verse>>

  /** A remote source: the summary list, the metadata of each id, and for each id the
      answers to its verse pages 0, 1, 2, ... (a finite list; past its end the server
      answers with an empty page). */
  datatype Source = Source(
    summaries: Result<seq<ChapterSummary>>,
    chapter: int -> Result<ChapterSummary>,
    verses: int -> seq<PageResult>)

  /** A result together with the requests it took, in order. */
  datatype Fetched<T> = Fetched(result: Result<T>, requests: seq<Request>)
}
