/**
 * The CSV table of the "download CSV" button: a header, one row per block,
 * a separator row, then the aggregated sentences and vocabulary, each list
 * preceded by a row carrying its length.
 */
module Csv {
  import opened Wrappers
  import opened Text
  import opened Payload

  /** `s.replace(/"/g, '""')`: every double quote doubled, nothing else touched. */
  function Escape(s: string): (r: string)
    ensures |s| <= |r| <= 2 * |s|
    ensures '"' !in s ==> r == s
    ensures forall i :: 0 <= i < |r| ==> r[i] == '"' || r[i] in s
    decreases |s|
  {
    if |s| == 0 then ""
    else (if s[0] == '"' then "\"\"" else [s[0]]) + Escape(s[1..])
  }

  /** Reads back escaped text: a doubled quote stands for one quote; a lone quote is malformed. */
  function Unescape(t: string): Option<string>
    decreases |t|
  {
    if |t| == 0 then Some("")
    else if t[0] == '"' then
      if |t| >= 2 && t[1] == '"' then
        match Unescape(t[2..])
        case Some(rest) => Some("\"" + rest)
        case None => None
      else None
    else
      match Unescape(t[1..])
      case Some(rest) => Some([t[0]] + rest)
      case None => None
  }

  /** A field as the exporter writes `original`, `reading` and the aggregated items. */
  function Quote(s: string): string
  {
    "\"" + Escape(s) + "\""
  }

  function Unquote(f: string): Option<string>
  {
    if |f| >= 2 && f[0] == '"' && f[|f| - 1] == '"' then Unescape(f[1..|f| - 1]) else None
  }

  lemma {:induction false} UnescapeEscape(s: string)
    ensures Unescape(Escape(s)) == Some(s)
    decreases |s|
  {
    if |s| > 0 {
      UnescapeEscape(s[1..]);
      var t := Escape(s);
      if s[0] == '"' {
        assert t[2..] == Escape(s[1..]);
      } else {
        assert t[1..] == Escape(s[1..]);
      }
      assert s == [s[0]] + s[1..];
    }
  }

  /** A quoted field reads back as the text it was made from. */
  lemma UnquoteQuote(s: string)
    ensures Unquote(Quote(s)) == Some(s)
  {
    assert Quote(s)[1..|Quote(s)| - 1] == Escape(s);
    UnescapeEscape(s);
  }

  lemma QuoteAvoids(s: string, c: char)
    requires c != '"' && c !in s
    ensures c !in Quote(s)
  {
  }

  const Header: seq<string> := ["Page", "Type", "Original", "Reading", "Language", "Confidence"]
  const Separator: seq<string> := ["---", "---", "---", "---", "---", "---"]

  /** One block: page (`page || 1`), type, quoted original, quoted reading (`reading || ''`), language, confidence. */
  function BlockRow(b: Block): seq<string>
  {
    [IntToString(DisplayPage(b.page)), b.kind, Quote(b.original), Quote(ReadingOr(b.reading, "")), b.language, b.confidence]
  }

  /** `GLOBAL_SET,<tag>,<n>,,,` */
  function CountRow(tag: string, n: nat): seq<string>
  {
    ["GLOBAL_SET", tag, IntToString(n), "", "", ""]
  }

  /** `GLOBAL_DATA,<tag>,"<text>",,,` */
  function DataRow(tag: string, text: string): seq<string>
  {
    ["GLOBAL_DATA", tag, Quote(text), "", "", ""]
  }

  function BlockRows(rs: seq<Block>): seq<seq<string>>
  {
    seq(|rs|, i requires 0 <= i < |rs| => BlockRow(rs[i]))
  }

  function DataRows(tag: string, xs: seq<string>): seq<seq<string>>
  {
    seq(|xs|, i requires 0 <= i < |xs| => DataRow(tag, xs[i]))
  }

  /** Every record of the table, header first, as lists of cells. */
  function Records(p: Payload): seq<seq<string>>
  {
    var a := p.aggregatedSet;
    [Header] + BlockRows(p.results)
      + [Separator, CountRow("Sentences", |a.sentences|)] + DataRows("Sentence", a.sentences)
      + [CountRow("Vocabulary", |a.vocabulary|)] + DataRows("Word", a.vocabulary)
  }

  /** `row.join(',')` */
  function RowText(row: seq<string>): string
  {
    Join(row, ",")
  }

  function RecordLines(records: seq<seq<string>>): seq<string>
  {
    seq(|records|, i requires 0 <= i < |records| => RowText(records[i]))
  }

  /** The byte-order mark written in front of the table. */
  const Bom: char := '\U{FEFF}'

  /** The file's content: the byte-order mark, then the records, one per line. */
  function Document(p: Payload): string
  {
    [Bom] + Join(RecordLines(Records(p)), "\n")
  }

  /**
   * The records in order: header, one per block in payload order, separator,
   * sentence count and sentences, vocabulary count and words.
   */
  lemma RecordsAt(p: Payload)
    ensures var r, s, v := |p.results|, |p.aggregatedSet.sentences|, |p.aggregatedSet.vocabulary|;
      && |Records(p)| == 1 + r + 1 + 1 + s + 1 + v
      && Records(p)[0] == Header
      && (forall i :: 0 <= i < r ==> Records(p)[1 + i] == BlockRow(p.results[i]))
      && Records(p)[1 + r] == Separator
      && Records(p)[2 + r] == CountRow("Sentences", s)
      && (forall j :: 0 <= j < s ==> Records(p)[3 + r + j] == DataRow("Sentence", p.aggregatedSet.sentences[j]))
      && Records(p)[3 + r + s] == CountRow("Vocabulary", v)
      && (forall k :: 0 <= k < v ==> Records(p)[4 + r + s + k] == DataRow("Word", p.aggregatedSet.vocabulary[k]))
  {
  }

  /** `xs.forEach(x => rows.push(DataRow(tag, x)))`: appends one row per item, in order. */
  method PushDataRows(rows0: seq<seq<string>>, tag: string, xs: seq<string>) returns (rows: seq<seq<string>>)
    ensures rows == rows0 + DataRows(tag, xs)
  {
    rows := rows0;
    var i := 0;
    while i < |xs|
      invariant 0 <= i <= |xs| && |rows| == |rows0| + i
      invariant rows[..|rows0|] == rows0
      invariant forall k :: 0 <= k < i ==> rows[|rows0| + k] == DataRow(tag, xs[k])
    {
      rows := rows + [DataRow(tag, xs[i])];
      i := i + 1;
    }
  }

  lemma RecordLinesCons(first: seq<string>, rows: seq<seq<string>>)
    ensures RecordLines([first] + rows) == [RowText(first)] + RecordLines(rows)
  {
  }

  /**
   * Builds the table as the button handler does: the block rows, then the
   * separator and the two lists pushed one row after another; then every row
   * joined by commas under the header line, the lines joined by newlines,
   * behind the byte-order mark.
   */
  method Build(p: Payload) returns (content: string)
    ensures content == Document(p)
  {
    var sentences, vocabulary := p.aggregatedSet.sentences, p.aggregatedSet.vocabulary;
    var rows := BlockRows(p.results);
    rows := rows + [Separator];
    rows := rows + [CountRow("Sentences", |sentences|)];
    rows := PushDataRows(rows, "Sentence", sentences);
    rows := rows + [CountRow("Vocabulary", |vocabulary|)];
    rows := PushDataRows(rows, "Word", vocabulary);
    assert [Header] + rows == Records(p);
    RecordLinesCons(Header, rows);
    content := [Bom] + Join([RowText(Header)] + RecordLines(rows), "\n");
  }

  /** A block row's quoted cells read back as the block's original and reading ("" when falsy). */
  lemma BlockCellsRoundTrip(b: Block)
    ensures Unquote(BlockRow(b)[2]) == Some(b.original)
    ensures Unquote(BlockRow(b)[3]) == Some(ReadingOr(b.reading, ""))
  {
    UnquoteQuote(b.original);
    UnquoteQuote(ReadingOr(b.reading, ""));
  }

  /** In the table, every block row's quoted cells read back as that block's texts. */
  lemma BlockRowsRoundTrip(p: Payload)
    ensures forall i :: 0 <= i < |p.results| ==>
      Unquote(Records(p)[1 + i][2]) == Some(p.results[i].original)
      && Unquote(Records(p)[1 + i][3]) == Some(ReadingOr(p.results[i].reading, ""))
  {
    RecordsAt(p);
    forall i | 0 <= i < |p.results|
      ensures Unquote(Records(p)[1 + i][2]) == Some(p.results[i].original)
      ensures Unquote(Records(p)[1 + i][3]) == Some(ReadingOr(p.results[i].reading, ""))
    {
      BlockCellsRoundTrip(p.results[i]);
    }
  }

  lemma DataCellRoundTrip(tag: string, text: string)
    ensures Unquote(DataRow(tag, text)[2]) == Some(text)
  {
    UnquoteQuote(text);
  }

  /** In the table, every aggregated sentence reads back from its quoted cell. */
  lemma SentenceRowsRoundTrip(p: Payload)
    ensures forall j :: 0 <= j < |p.aggregatedSet.sentences| ==>
      Unquote(Records(p)[3 + |p.results| + j][2]) == Some(p.aggregatedSet.sentences[j])
  {
    RecordsAt(p);
    var xs := p.aggregatedSet.sentences;
    forall j | 0 <= j < |xs|
      ensures Unquote(Records(p)[3 + |p.results| + j][2]) == Some(xs[j])
    {
      assert Records(p)[3 + |p.results| + j] == DataRow("Sentence", xs[j]);
      DataCellRoundTrip("Sentence", xs[j]);
    }
  }

  /** In the table, every aggregated vocabulary item reads back from its quoted cell. */
  lemma WordRowsRoundTrip(p: Payload)
    ensures var base := 4 + |p.results| + |p.aggregatedSet.sentences|;
      forall k :: 0 <= k < |p.aggregatedSet.vocabulary| ==>
        Unquote(Records(p)[base + k][2]) == Some(p.aggregatedSet.vocabulary[k])
  {
    RecordsAt(p);
    var base := 4 + |p.results| + |p.aggregatedSet.sentences|;
    var xs := p.aggregatedSet.vocabulary;
    forall k | 0 <= k < |xs|
      ensures Unquote(Records(p)[base + k][2]) == Some(xs[k])
    {
      assert Records(p)[base + k] == DataRow("Word", xs[k]);
      DataCellRoundTrip("Word", xs[k]);
    }
  }

  /** The two count rows carry the lengths of the lists, zero included. */
  lemma CountRowsCarryLengths(p: Payload)
    ensures var r, s, v := |p.results|, |p.aggregatedSet.sentences|, |p.aggregatedSet.vocabulary|;
      && Records(p)[2 + r][..2] == ["GLOBAL_SET", "Sentences"]
      && ParseInt(Records(p)[2 + r][2]) == Some(s)
      && Records(p)[3 + r + s][..2] == ["GLOBAL_SET", "Vocabulary"]
      && ParseInt(Records(p)[3 + r + s][2]) == Some(v)
  {
    RecordsAt(p);
    IntRoundTrip(|p.aggregatedSet.sentences|);
    IntRoundTrip(|p.aggregatedSet.vocabulary|);
  }

  lemma RecordsHead(p: Payload)
    ensures |Records(p)| >= 4 && Records(p)[0] == Header
  {
  }

  /** Behind a one-character mark, the first of several joined lines is followed by a line break. */
  lemma MarkedFirstLine(mark: char, lines: seq<string>)
    requires |lines| > 1
    ensures var d, h := [mark] + Join(lines, "\n"), lines[0];
      |d| > |h| + 1 && d[0] == mark && d[1..|h| + 1] == h && d[|h| + 1] == '\n'
  {
    JoinFirst(lines, "\n");
  }

  /**
   * Whatever the payload holds, the table starts with the mark and then the
   * header cells joined by commas, ended by a line break.
   */
  lemma DocumentStartsWithHeader(p: Payload)
    ensures var h := RowText(Header);
      && |Document(p)| > |h| + 1
      && Document(p)[0] == Bom
      && Document(p)[1..|h| + 1] == h
      && Document(p)[|h| + 1] == '\n'
  {
    RecordsHead(p);
    MarkedFirstLine(Bom, RecordLines(Records(p)));
  }

  /** No text of the block that reaches its CSV row contains a line break. */
  predicate BlockCellsSingleLine(b: Block)
  {
    && '\n' !in b.original && (b.reading.Some? ==> '\n' !in b.reading.value)
    && '\n' !in b.kind && '\n' !in b.language && '\n' !in b.confidence
  }

  predicate TableSingleLine(p: Payload)
  {
    && (forall i :: 0 <= i < |p.results| ==> BlockCellsSingleLine(p.results[i]))
    && Avoids(p.aggregatedSet.sentences, '\n') && Avoids(p.aggregatedSet.vocabulary, '\n')
  }

  lemma RowTextSingleLine(row: seq<string>)
    requires Avoids(row, '\n')
    ensures '\n' !in RowText(row)
  {
    JoinWithout(row, ",", '\n');
  }

  lemma BlockRowSingleLine(b: Block)
    requires BlockCellsSingleLine(b)
    ensures Avoids(BlockRow(b), '\n')
  {
    QuoteAvoids(b.original, '\n');
    QuoteAvoids(ReadingOr(b.reading, ""), '\n');
  }

  lemma DataRowSingleLine(tag: string, text: string)
    requires '\n' !in tag && '\n' !in text
    ensures Avoids(DataRow(tag, text), '\n')
  {
    QuoteAvoids(text, '\n');
  }

  /** No cell of any of the rows contains a line break. */
  predicate RowsSingleLine(rows: seq<seq<string>>)
  {
    forall i :: 0 <= i < |rows| ==> Avoids(rows[i], '\n')
  }

  lemma RowsSingleLineConcat(a: seq<seq<string>>, b: seq<seq<string>>)
    requires RowsSingleLine(a) && RowsSingleLine(b)
    ensures RowsSingleLine(a + b)
  {
  }

  lemma BlockRowsSingleLine(rs: seq<Block>)
    requires forall i :: 0 <= i < |rs| ==> BlockCellsSingleLine(rs[i])
    ensures RowsSingleLine(BlockRows(rs))
  {
    forall i | 0 <= i < |rs| ensures Avoids(BlockRows(rs)[i], '\n') {
      BlockRowSingleLine(rs[i]);
    }
  }

  lemma DataRowsSingleLine(tag: string, xs: seq<string>)
    requires '\n' !in tag && Avoids(xs, '\n')
    ensures RowsSingleLine(DataRows(tag, xs))
  {
    forall i | 0 <= i < |xs| ensures Avoids(DataRows(tag, xs)[i], '\n') {
      DataRowSingleLine(tag, xs[i]);
    }
  }

  lemma FixedRowsSingleLine(s: nat, v: nat)
    ensures RowsSingleLine([Header])
    ensures RowsSingleLine([Separator, CountRow("Sentences", s)])
    ensures RowsSingleLine([CountRow("Vocabulary", v)])
  {
  }

  lemma RecordsSingleLine(p: Payload)
    requires TableSingleLine(p)
    ensures RowsSingleLine(Records(p))
  {
    var a := p.aggregatedSet;
    var fixed1: seq<seq<string>> := [Separator, CountRow("Sentences", |a.sentences|)];
    var fixed2: seq<seq<string>> := [CountRow("Vocabulary", |a.vocabulary|)];
    var blocks := BlockRows(p.results);
    var sents := DataRows("Sentence", a.sentences);
    var words := DataRows("Word", a.vocabulary);
    BlockRowsSingleLine(p.results);
    DataRowsSingleLine("Sentence", a.sentences);
    DataRowsSingleLine("Word", a.vocabulary);
    FixedRowsSingleLine(|a.sentences|, |a.vocabulary|);
    RowsSingleLineConcat([Header], blocks);
    RowsSingleLineConcat([Header] + blocks, fixed1);
    RowsSingleLineConcat([Header] + blocks + fixed1, sents);
    RowsSingleLineConcat([Header] + blocks + fixed1 + sents, fixed2);
    RowsSingleLineConcat([Header] + blocks + fixed1 + sents + fixed2, words);
  }

  lemma RecordLinesSingleLine(p: Payload)
    requires TableSingleLine(p)
    ensures Avoids(RecordLines(Records(p)), '\n')
  {
    RecordsSingleLine(p);
    var recs := Records(p);
    forall i | 0 <= i < |recs| ensures '\n' !in RecordLines(recs)[i] {
      RowTextSingleLine(recs[i]);
    }
  }

  /**
   * When no cell text contains a line break, the table after the mark has
   * exactly 1 + |results| + 1 + 1 + |sentences| + 1 + |vocabulary| lines, the
   * records in order.
   */
  lemma DocumentLines(p: Payload)
    requires TableSingleLine(p)
    ensures Split(Document(p)[1..], '\n') == RecordLines(Records(p))
    ensures |Split(Document(p)[1..], '\n')|
      == 1 + |p.results| + 1 + 1 + |p.aggregatedSet.sentences| + 1 + |p.aggregatedSet.vocabulary|
  {
    RecordsAt(p);
    RecordLinesSingleLine(p);
    assert Document(p)[1..] == Join(RecordLines(Records(p)), "\n");
    SplitJoin(RecordLines(Records(p)), '\n');
  }
}
