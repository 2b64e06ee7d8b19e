/**
 * The plain-text digest the "copy all" button puts on the clipboard; its
 * shape depends on the active tab.
 */
module Digest {
  import opened Text
  import opened Payload

  /** One line of the page view: `[Page p] original (reading)`, with "N/A" for a falsy reading. */
  function PageLine(b: Block): string
  {
    "[Page " + IntToString(DisplayPage(b.page)) + "] " + b.original + " (" + ReadingOr(b.reading, "N/A") + ")"
  }

  function PageLines(rs: seq<Block>): seq<string>
  {
    seq(|rs|, i requires 0 <= i < |rs| => PageLine(rs[i]))
  }

  /** Page view: one line per block, in payload order. */
  function PageDigest(rs: seq<Block>): string
  {
    Join(PageLines(rs), "\n")
  }

  function PageHeader(page: int): string
  {
    "=== PAGE " + IntToString(page) + " ==="
  }

  /**
   * Page-summary view, one page: `=== PAGE p ===`, `Sentences:`, the sentences,
   * `Vocabulary:`, the vocabulary, each on its own line.
   */
  function SummaryBlock(s: PageSummary): string
  {
    PageHeader(s.page) + "\n" + ("Sentences:" + "\n" + (Join(s.sentences, "\n")
      + "\n" + ("Vocabulary:" + "\n" + Join(s.vocabulary, "\n"))))
  }

  function SummaryBlocks(ps: seq<PageSummary>): seq<string>
  {
    seq(|ps|, i requires 0 <= i < |ps| => SummaryBlock(ps[i]))
  }

  /** Page-summary view: the page blocks in payload order, separated by a blank line. */
  function SummaryDigest(ps: seq<PageSummary>): string
  {
    Join(SummaryBlocks(ps), "\n\n")
  }

  const SentencesHeader := "=== GLOBAL UNIQUE SENTENCES ==="
  const VocabularyHeader := "=== GLOBAL UNIQUE VOCABULARY ==="

  /**
   * Set view: the sentences header, the sentences, a blank line, the vocabulary
   * header and the vocabulary, whether or not a list has items.
   */
  function SetDigest(a: AggregatedSet): string
  {
    SentencesHeader + "\n" + (Join(a.sentences, "\n") + "\n" + ("\n" + (VocabularyHeader + "\n"
      + Join(a.vocabulary, "\n"))))
  }

  /** The digest of the tab that is active. */
  function ForView(v: View, p: Payload): string
  {
    match v
    case PageView => PageDigest(p.results)
    case PageSummaryView => SummaryDigest(p.pageSummaries)
    case SetView => SetDigest(p.aggregatedSet)
  }

  /** The text fields of a block that end up in its page-view line fit on one line. */
  predicate BlockSingleLine(b: Block)
  {
    '\n' !in b.original && (b.reading.Some? ==> '\n' !in b.reading.value)
  }

  predicate SummarySingleLine(s: PageSummary)
  {
    Avoids(s.sentences, '\n') && Avoids(s.vocabulary, '\n')
  }

  /** The lines a reader sees for one page of the page-summary view. */
  function BlockLines(s: PageSummary): seq<string>
  {
    [PageHeader(s.page)] + (["Sentences:"] + (LinesOf(s.sentences)
      + (["Vocabulary:"] + LinesOf(s.vocabulary))))
  }

  /** The lines of the whole page-summary view: page after page, a blank line between two. */
  function SummaryLines(ps: seq<PageSummary>): seq<string>
    decreases |ps|
  {
    if |ps| == 0 then [""]
    else if |ps| == 1 then BlockLines(ps[0])
    else BlockLines(ps[0]) + ([""] + SummaryLines(ps[1..]))
  }

  lemma PageLineSingle(b: Block)
    requires BlockSingleLine(b)
    ensures '\n' !in PageLine(b)
  {
  }

  /**
   * The page view has exactly one line per block, the i-th line describing the
   * i-th block; with no blocks the digest is empty.
   */
  lemma PageDigestLines(rs: seq<Block>)
    requires forall i :: 0 <= i < |rs| ==> BlockSingleLine(rs[i])
    ensures |rs| == 0 ==> PageDigest(rs) == ""
    ensures |rs| > 0 ==> |Split(PageDigest(rs), '\n')| == |rs|
    ensures forall i :: 0 <= i < |rs| ==> Split(PageDigest(rs), '\n')[i] == PageLine(rs[i])
  {
    forall i | 0 <= i < |rs| ensures '\n' !in PageLines(rs)[i] {
      PageLineSingle(rs[i]);
    }
    SplitJoin(PageLines(rs), '\n');
  }

  /** One page of the page-summary view splits into its header, labels and items. */
  lemma SummaryBlockLines(s: PageSummary)
    requires SummarySingleLine(s)
    ensures Split(SummaryBlock(s), '\n') == BlockLines(s)
  {
    var js, jv := Join(s.sentences, "\n"), Join(s.vocabulary, "\n");
    var p3 := "Vocabulary:" + "\n" + jv;
    var p2 := js + "\n" + p3;
    SplitHead(PageHeader(s.page), "Sentences:" + "\n" + p2, '\n');
    SplitHead("Sentences:", p2, '\n');
    SplitConcat(js, p3, '\n');
    SplitJoin(s.sentences, '\n');
    SplitHead("Vocabulary:", jv, '\n');
    SplitJoin(s.vocabulary, '\n');
  }

  lemma SummaryDigestCons(ps: seq<PageSummary>)
    requires |ps| > 1
    ensures SummaryDigest(ps) == SummaryBlock(ps[0]) + "\n" + ("\n" + SummaryDigest(ps[1..]))
  {
    assert SummaryBlocks(ps)[1..] == SummaryBlocks(ps[1..]);
  }

  /** The page-summary view is its pages' lines, in payload order, a blank line between pages. */
  lemma {:induction false} SummaryDigestLines(ps: seq<PageSummary>)
    requires forall i :: 0 <= i < |ps| ==> SummarySingleLine(ps[i])
    ensures Split(SummaryDigest(ps), '\n') == SummaryLines(ps)
    decreases |ps|
  {
    if |ps| == 1 {
      SummaryBlockLines(ps[0]);
    } else if |ps| > 1 {
      SummaryDigestCons(ps);
      SplitGap(SummaryBlock(ps[0]), SummaryDigest(ps[1..]), '\n');
      SummaryBlockLines(ps[0]);
      var tail := ps[1..];
      assert forall i :: 0 <= i < |tail| ==> SummarySingleLine(tail[i]) by {
        forall i | 0 <= i < |tail| ensures SummarySingleLine(tail[i]) { assert tail[i] == ps[i + 1]; }
      }
      SummaryDigestLines(tail);
    }
  }

  /**
   * The set view always shows both headers, each followed by its items (one
   * empty line for an empty list) and a blank line between the two sections.
   */
  lemma SetDigestLines(a: AggregatedSet)
    requires Avoids(a.sentences, '\n') && Avoids(a.vocabulary, '\n')
    ensures Split(SetDigest(a), '\n') ==
      [SentencesHeader] + (LinesOf(a.sentences) + ([""] + ([VocabularyHeader] + LinesOf(a.vocabulary))))
  {
    var js, jv := Join(a.sentences, "\n"), Join(a.vocabulary, "\n");
    var p3 := VocabularyHeader + "\n" + jv;
    SplitHead(SentencesHeader, js + "\n" + ("\n" + p3), '\n');
    SplitGap(js, p3, '\n');
    SplitJoin(a.sentences, '\n');
    SplitHead(VocabularyHeader, jv, '\n');
    SplitJoin(a.vocabulary, '\n');
  }
}
