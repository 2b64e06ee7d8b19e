/**
 * The extraction payload held by the session, typed. In the application it is
 * whatever `JSON.parse` returned for the recognition service's answer.
 */
module Payload {
  import opened Wrappers

  /**
   * One recognised unit. `page` may be missing and `reading` may be missing or
   * empty; `kind` is the payload's `type` field. `language`, `kind` and
   * `confidence` are emitted verbatim, so they are kept as opaque text.
   */
  datatype Block = Block(
    id: string,
    original: string,
    reading: Option<string>,
    language: string,
    kind: string,
    page: Option<int>,
    confidence: string)

  datatype PageSummary = PageSummary(page: int, sentences: seq<string>, vocabulary: seq<string>)

  datatype AggregatedSet = AggregatedSet(sentences: seq<string>, vocabulary: seq<string>)

  datatype Summary = Summary(totalBlocks: int, pageCount: int)

  datatype Payload = Payload(
    results: seq<Block>,
    pageSummaries: seq<PageSummary>,
    aggregatedSet: AggregatedSet,
    summary: Summary)

  /** The three tabs: 'page', 'page-summary' and 'set'. */
  datatype View = PageView | PageSummaryView | SetView

  /** A document handed over by the file picker or a drop. */
  datatype File = File(name: string, mediaType: string, size: nat)

  const SupportedTypes: seq<string> := ["application/pdf", "image/jpeg", "image/png", "image/webp"]

  /** `validTypes.includes(file.type)`: exact comparison against the whitelist. */
  predicate IsSupportedType(mediaType: string)
  {
    mediaType in SupportedTypes
  }

  /** `page || 1`: a missing page and page 0 (both falsy) print as 1; any other value as itself. */
  function DisplayPage(page: Option<int>): (r: int)
    ensures r != 0
    ensures r == 1 <==> page == None || page == Some(0) || page == Some(1)
    ensures page.Some? && page.value != 0 ==> r == page.value
  {
    match page
    case None => 1
    case Some(p) => if p == 0 then 1 else p
  }

  /** A reading JavaScript treats as false: missing, or the empty string. */
  predicate IsFalsy(reading: Option<string>)
  {
    reading == None || reading == Some("")
  }

  /** `reading || fallback`. */
  function ReadingOr(reading: Option<string>, fallback: string): (r: string)
    ensures IsFalsy(reading) ==> r == fallback
    ensures !IsFalsy(reading) ==> r == reading.value && r != ""
  {
    if IsFalsy(reading) then fallback else reading.value
  }
}
