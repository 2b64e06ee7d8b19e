/**
 * Facts that relate the exports to each other and to the views: the page
 * number both exports print, the two renderings of a missing reading, and the
 * export of sections the set view leaves out.
 */
module Exports {
  import opened Wrappers
  import opened Text
  import opened Payload
  import opened Views
  import Digest
  import Csv

  predicate EndsWith(s: string, suffix: string)
  {
    |suffix| <= |s| && s[|s| - |suffix|..] == suffix
  }

  lemma PageLineParts(b: Block)
    ensures var n := IntToString(DisplayPage(b.page));
      var line := Digest.PageLine(b);
      && |line| > 6 + |n|
      && line[..6] == "[Page "
      && line[6..6 + |n|] == n
      && line[6 + |n|] == ']'
  {
    var n := IntToString(DisplayPage(b.page));
    var rest := "] " + b.original + " (" + ReadingOr(b.reading, "N/A") + ")";
    assert Digest.PageLine(b) == "[Page " + n + rest;
  }

  /**
   * The text line and the CSV row of a block carry the same page number, and
   * it reads back as the block's page, or 1 when the page is missing or 0.
   */
  lemma PageNumberAgreement(b: Block)
    ensures var n := if b.page == None || b.page == Some(0) then 1 else b.page.value;
      var cell := Csv.BlockRow(b)[0];
      var line := Digest.PageLine(b);
      && ParseInt(cell) == Some(n)
      && |line| > 6 + |cell|
      && line[..6] == "[Page "
      && line[6..6 + |cell|] == cell
      && line[6 + |cell|] == ']'
  {
    IntRoundTrip(DisplayPage(b.page));
    PageLineParts(b);
  }

  lemma PageLineSuffix(b: Block)
    ensures EndsWith(Digest.PageLine(b), " (" + ReadingOr(b.reading, "N/A") + ")")
  {
    var head := "[Page " + IntToString(DisplayPage(b.page)) + "] " + b.original;
    var tail := " (" + ReadingOr(b.reading, "N/A") + ")";
    assert Digest.PageLine(b) == head + tail;
  }

  /**
   * A missing or empty reading prints as "N/A" in the text digest but as an
   * empty quoted cell in the CSV; any other reading appears in both.
   */
  lemma ReadingAsymmetry(b: Block)
    ensures IsFalsy(b.reading) ==>
      Csv.BlockRow(b)[3] == "\"\"" && EndsWith(Digest.PageLine(b), " (N/A)")
    ensures !IsFalsy(b.reading) ==>
      Csv.Unquote(Csv.BlockRow(b)[3]) == Some(b.reading.value)
      && EndsWith(Digest.PageLine(b), " (" + b.reading.value + ")")
  {
    PageLineSuffix(b);
    Csv.BlockCellsRoundTrip(b);
  }

  /** The COUNT badge of a page card and its block in the text digest agree on the number of items. */
  lemma SummaryCountLines(s: PageSummary)
    requires Digest.SummarySingleLine(s)
    ensures |Split(Digest.SummaryBlock(s), '\n')|
      == PageItemCount(s) + 3 + (if |s.sentences| == 0 then 1 else 0) + (if |s.vocabulary| == 0 then 1 else 0)
  {
    Digest.SummaryBlockLines(s);
  }

  /**
   * The set view shows a section only for a non-empty list, while the text
   * digest always has both headers and the CSV always has both count rows.
   */
  lemma ExportsKeepEmptySections(p: Payload)
    ensures var a, r := p.aggregatedSet, |p.results|;
      var d := Digest.SetDigest(a);
      var k := |Digest.SentencesHeader| + 1 + |Join(a.sentences, "\n")|;
      && |d| >= k + |Digest.VocabularyHeader| + 3
      && d[..|Digest.SentencesHeader| + 1] == Digest.SentencesHeader + "\n"
      && d[k..k + |Digest.VocabularyHeader| + 3] == "\n\n" + Digest.VocabularyHeader + "\n"
      && Csv.Records(p)[2 + r] == Csv.CountRow("Sentences", |a.sentences|)
      && Csv.Records(p)[3 + r + |a.sentences|] == Csv.CountRow("Vocabulary", |a.vocabulary|)
      && (|a.sentences| == 0 ==> forall i :: 0 <= i < |SetSections(a)| ==> SetSections(a)[i].title != SentencesTitle)
      && (|a.vocabulary| == 0 ==> forall i :: 0 <= i < |SetSections(a)| ==> SetSections(a)[i].title != VocabularyTitle)
  {
    Csv.RecordsAt(p);
  }

  /** The one-block payload used by the scenarios below. */
  function ExampleBlock(): Block
  {
    Block("b1", "你好", Some("nǐ hǎo"), "zh", "sentence", Some(1), "0.97")
  }

  function ExamplePayload(): Payload
  {
    Payload([ExampleBlock()], [PageSummary(1, ["你好"], [])], AggregatedSet(["你好"], []), Summary(1, 1))
  }

  /** Page view digest of the example payload. */
  lemma ScenarioPageDigest()
    ensures Digest.ForView(PageView, ExamplePayload()) == "[Page 1] 你好 (nǐ hǎo)"
  {
  }

  /**
   * The example block's CSV row (by RecordsAt, the first data row of the
   * example payload): `1,sentence,"你好","nǐ hǎo",zh,0.97`, cell by cell.
   */
  lemma ScenarioCsvRow()
    ensures var row := Csv.BlockRow(ExampleBlock());
      && row[0] == "1" && row[1] == "sentence"
      && Csv.Unquote(row[2]) == Some("你好") && Csv.Unquote(row[3]) == Some("nǐ hǎo")
      && row[4] == "zh" && row[5] == "0.97"
  {
    var b := ExampleBlock();
    assert ReadingOr(b.reading, "") == "nǐ hǎo";
    assert IntToString(DisplayPage(b.page)) == "1";
    Csv.BlockCellsRoundTrip(b);
  }

  /** Only the vocabulary section is shown, but the CSV still counts zero sentences. */
  lemma ScenarioEmptySentences()
    ensures var a := AggregatedSet([], ["水"]);
      var p := Payload([], [], a, Summary(0, 1));
      && SetSections(a) == [Section(VocabularyTitle, ["水"])]
      && Csv.RowText(Csv.Records(p)[2]) == "GLOBAL_SET,Sentences,0,,,"
  {
    var a := AggregatedSet([], ["水"]);
    var p := Payload([], [], a, Summary(0, 1));
    Csv.RecordsAt(p);
    var cells := ["GLOBAL_SET", "Sentences", "0", "", "", ""];
    assert Csv.Records(p)[2] == cells;
    JoinCons(cells[0], cells[1..], ",");
    JoinCons(cells[1], cells[2..], ",");
    JoinCons(cells[2], cells[3..], ",");
    JoinCons(cells[3], cells[4..], ",");
    JoinCons(cells[4], cells[5..], ",");
  }
}
