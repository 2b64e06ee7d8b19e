/** What the page-summary and global-set tabs show, apart from markup. */
module Views {
  import opened Payload

  /** The COUNT badge of one page-summary card. */
  function PageItemCount(s: PageSummary): (n: nat)
  {
    |s.sentences| + |s.vocabulary|
  }

  const SentencesTitle := "Global Unique Sentences"
  const VocabularyTitle := "Global Unique Vocabulary"

  /** One rendered section of the global-set tab: its title and its items, in order. */
  datatype Section = Section(title: string, items: seq<string>)

  /** The sections of the global-set tab: a list is rendered only when it has an item. */
  function SetSections(a: AggregatedSet): (r: seq<Section>)
    ensures forall i :: 0 <= i < |r| ==> |r[i].items| > 0
    ensures Section(SentencesTitle, a.sentences) in r <==> |a.sentences| > 0
    ensures Section(VocabularyTitle, a.vocabulary) in r <==> |a.vocabulary| > 0
    ensures |r| == (if |a.sentences| > 0 then 1 else 0) + (if |a.vocabulary| > 0 then 1 else 0)
    ensures |r| == 2 ==> r[0].title == SentencesTitle && r[1].title == VocabularyTitle
  {
    (if |a.sentences| > 0 then [Section(SentencesTitle, a.sentences)] else [])
    + (if |a.vocabulary| > 0 then [Section(VocabularyTitle, a.vocabulary)] else [])
  }
}
