# CJK OCR scanner: session and exports

This project models the browser side of a small CJK (Chinese, Japanese, Korean) OCR page in Dafny. A user picks a PDF or an image,
sends it to a recognition service, and gets back an *extraction payload*. The payload has three parts:

- per-block results: the page, the type, the original text, the reading, the language and the confidence;
- per-page summaries: the sentences and vocabulary of each page;
- an aggregated set: the unique sentences and vocabulary of the whole document.

The page shows the payload under three tabs: page, page summary and set. It exports the payload in three ways:

- a plain-text digest of the active tab ("copy all");
- a JSON snapshot;
- a CSV table with a byte-order mark.

The model has these modules:

- `Wrappers`: `Option`.
- `Text`: JavaScript's `Array.prototype.join` as `Text.Join` (index.tsx:359, 362, 413), one-character `String.prototype.split` as `Text.Split`, decimal rendering of integers as `Text.IntToString` (the `${n}` at index.tsx:358, 397, 407, 410), its parser `Text.ParseInt`, and the split/join inverse laws.
- `Payload`: the payload records, the three views, the accepted media types with their test `Payload.IsSupportedType` (index.tsx:49-50), and the `||` defaults the exports apply. These are `r.page || 1` as `Payload.DisplayPage` and `r.reading || 'N/A'` / `r.reading || ''` as `Payload.ReadingOr`.
- `Views`: how many items a page summary counts, `Views.PageItemCount` (index.tsx:284), and which sections the set tab shows, `Views.SetSections` (index.tsx:335-336).
- `Digest`: the three "copy all" texts, and what splitting each of them at newlines gives back. The texts are computed as follows:
  - `Digest.PageLine` and `Digest.PageDigest` compute the page-tab text (index.tsx:357-359).
  - `Digest.SummaryBlock` and `Digest.SummaryDigest` compute the page-summary text (index.tsx:361-363).
  - `Digest.SetDigest` computes the set text (index.tsx:365-368).
  - `Digest.ForView` chooses among them by the active tab (index.tsx:356-369).
  - Their properties are the `Digest` and `Exports` lemmas in the table.
- `Csv`: cell quoting and its inverse, and the table as a list of rows. It also has the imperative builder, proved to produce exactly that table, and the round trips from the table back to the payload. The table is computed as follows:
  - `Csv.Escape` and `Csv.Quote` compute a quoted cell (index.tsx:399-400).
  - `Csv.BlockRow` computes a result row (index.tsx:396-403).
  - `Csv.CountRow` and `Csv.DataRow` compute the aggregated-set rows (index.tsx:407-411).
  - `Csv.Records` computes the whole table, and `Csv.Document` the downloaded text (index.tsx:395-414).
- `Exports`: the properties that tie the text digest and the CSV table together, and the worked examples.
- `Session`: the page's three shared variables, modelled as the fields of the class `State` (`currentFile`, `extractionData`, `currentView`). Each handler that reads or writes them is a method, and every handler keeps the invariant `Valid()`: a payload is only held together with a file, and a held file has an accepted media type. The payload part of the invariant holds because extraction is modelled as one atomic step; see "## Left out". Two client methods work through the session as examples:
  - `Session.RejectsPlainText`: a `text/plain` file is refused with the unsupported-format message, and the session stays empty.
  - `Session.FailureKeepsFile`: a `timeout` failure keeps the file and returns the service's message. A later success stores the payload, the set tab copies its set digest, and after a reset nothing is copied.

## Model

| member | source | states |
|---|---|---|
| Payload.DisplayPage | index.tsx:358 | The page shown (the page, defaulting to 1) is never 0. It is 1 exactly when the page is missing, 0 or 1. Any other page is kept unchanged. |
| Payload.ReadingOr | index.tsx:358 | A missing or empty reading gives the fallback. Any other reading is kept and is non-empty. |
| Text.IntToString | index.tsx:397 | The decimal rendering of a number has no newline, comma or quote. |
| Text.NatToString | index.tsx:397 | The decimal rendering of a non-negative number is non-empty, all digits, and has no leading zero. |
| Text.IntRoundTrip | index.tsx:397 | Parsing the rendered number gives the number back. |
| Text.DigitsRoundTrip | index.tsx:397 | Reading the digits of a rendered non-negative number gives the number back. |
| Text.Split | index.tsx:362 | Splitting a string at a character always gives at least one piece. |
| Text.SplitJoin | index.tsx:359 | If no item holds the separator character, splitting the joined list gives the list back. An empty list gives one empty line. |
| Text.SplitConcat | index.tsx:362 | Splitting `a + c + b` at `c` gives the pieces of `a` followed by the pieces of `b`. |
| Text.JoinWithout | index.tsx:359 | A character that neither the items nor the separator hold is not in the joined text. |
| Views.SetSections | index.tsx:335-336 | Each section shows a non-empty list. Each of "Global Unique Sentences" and "Global Unique Vocabulary" is present exactly when its list is non-empty. The number of sections is the number of non-empty lists. When both are present, sentences come first. |
| Digest.PageLineSingle | index.tsx:357-358 | A page-tab line has no newline when the block's text and reading have none. |
| Digest.PageDigestLines | index.tsx:357-359 | With no results the page digest is empty. Otherwise splitting it at newlines gives one line per result, in order, each being that result's `[Page n] original (reading)` line. |
| Digest.SummaryBlockLines | index.tsx:361-362 | A page summary's block splits into the page header, "Sentences:", its sentences (one empty line if none), "Vocabulary:", and its vocabulary (one empty line if none). |
| Digest.SummaryDigestLines | index.tsx:361-363 | The summary digest splits into the lines of each page's block in order, with one empty line between blocks. |
| Digest.SetDigestLines | index.tsx:365-368 | The set digest splits into its sentences header, the sentences, one empty line, its vocabulary header and the vocabulary. An empty list leaves one empty line. |
| Exports.PageLineParts | index.tsx:358 | A page-tab line starts with "[Page ", then the page number, then "]". |
| Exports.PageNumberAgreement | index.tsx:397 | The CSV page cell (line 397) parses to the page, or to 1 if the page is missing or 0. The page-tab line carries the same cell between "[Page " and "]". |
| Exports.PageLineSuffix | index.tsx:358 | A page-tab line ends with " (reading)". A missing or empty reading shows as "N/A". |
| Exports.ReadingAsymmetry | index.tsx:400 | Comparing the CSV reading cell (line 400) with the page-tab text (line 358): a missing or empty reading gives the CSV cell `""`, but the text "(N/A)". Any other reading is recovered from the CSV cell unchanged and shows in the text in parentheses. |
| Exports.SummaryCountLines | index.tsx:362 | The number of lines in a page's summary block is the count shown at line 284 (sentences plus vocabulary) plus three header lines, plus one for each empty list. |
| Exports.ExportsKeepEmptySections | index.tsx:365-368 | For every payload, whatever its items hold: the set tab (lines 335-336) drops an empty list's section. The set digest still starts with the sentences header and a newline, and still has a blank line, the vocabulary header and a newline right after the joined sentences. The CSV still prints both count rows (lines 407-410). |
| Exports.ScenarioPageDigest | index.tsx:357-359 | One block on page 1 reading "你好 (nǐ hǎo)" copies as `[Page 1] 你好 (nǐ hǎo)`. |
| Exports.ScenarioCsvRow | index.tsx:396-403 | The same block's CSV row holds page 1, its type, its quoted text and reading, its language and its confidence. |
| Exports.ScenarioEmptySentences | index.tsx:335-336 | With no sentences, the set tab shows only the vocabulary section, and the CSV sentence count row reads `GLOBAL_SET,Sentences,0,,,`. |
| Csv.Escape | index.tsx:399 | Doubling quotes at most doubles the length. It changes nothing in a text without quotes, and it adds no character other than a quote. |
| Csv.UnescapeEscape | index.tsx:399-400 | Undoubling the quotes gives the original text back. |
| Csv.UnquoteQuote | index.tsx:399-400 | A quoted cell gives its text back. |
| Csv.QuoteAvoids | index.tsx:399-400 | Quoting adds no character other than quotes. |
| Csv.RecordsAt | index.tsx:395-411 | Row by row, the table has the header, one row per result, the separator, the sentence count, one row per sentence, the vocabulary count, and one row per word. |
| Csv.PushDataRows | index.tsx:408-411 | The row-appending loop appends exactly one data row per item, in order, after the rows already present. |
| Csv.Build | index.tsx:395-414 | The imperative builder produces exactly the byte-order mark followed by the table's rows joined by newlines. |
| Csv.RecordLinesCons | index.tsx:413 | Rendering rows turns each row into its comma-joined line, in order. |
| Csv.BlockCellsRoundTrip | index.tsx:396-403 | A result row's text and reading cells unquote to the text and to the reading, or to the empty text when the reading is missing or empty. |
| Csv.BlockRowsRoundTrip | index.tsx:396-403 | Every result row of the table gives back its result's text and reading. |
| Csv.DataCellRoundTrip | index.tsx:408-411 | A data row's third cell unquotes to its text. |
| Csv.SentenceRowsRoundTrip | index.tsx:408 | The sentence rows of the table give back the aggregated sentences, in order. |
| Csv.WordRowsRoundTrip | index.tsx:411 | The word rows of the table give back the aggregated vocabulary, in order. |
| Csv.CountRowsCarryLengths | index.tsx:407-410 | The two count rows are tagged `GLOBAL_SET` with `Sentences` or `Vocabulary`, and their third cells parse to the list lengths. |
| Csv.RecordsHead | index.tsx:395-413 | The table has at least four rows and starts with the header. |
| Csv.DocumentStartsWithHeader | index.tsx:413-414 | The document starts with the byte-order mark, then the header line `Page,Type,Original,Reading,Language,Confidence`, then a newline. |
| Csv.RecordsSingleLine | index.tsx:396-411 | When no field holds a newline, no cell of the table does. |
| Csv.DocumentLines | index.tsx:395-414 | When no field holds a newline, the text after the byte-order mark splits back into exactly the table's rendered rows. There is one line per row, `4 + results + sentences + vocabulary` in all. |
| Session.FailureMessage | index.tsx:240 | The shown error message is never empty, and is the error's own message when that is non-empty. |
| Session.State.constructor | index.tsx:6-8 | The page starts with no file, no payload and the page tab, which satisfies the invariant. |
| Session.State.HandleFile | index.tsx:47-55 | No file: nothing happens. An unsupported media type: nothing changes and the unsupported-format message is returned. Otherwise the file is held. The payload and the tab never change. The invariant is kept. |
| Session.State.SoftReset | index.tsx:75-97 | Reset drops the file and the payload and returns to the page tab. The invariant is kept. |
| Session.State.SwitchTab | index.tsx:101-102 | Selecting a tab sets the view and changes nothing else. |
| Session.State.ProcessOcr | index.tsx:141-240 | Without a file or an API key nothing changes. A payload replaces the held one. A failure keeps the held payload and returns the message to show. The file and the tab never change, and the invariant is kept. |
| Session.State.CopyAll | index.tsx:352-369 | Without a payload there is nothing to copy. Otherwise the copied text is the digest of the active tab. |
| Session.State.CopyJson | index.tsx:382-384 | Without a payload there is nothing to export. Otherwise the whole payload is exported, whatever the tab. |
| Session.State.DownloadCsv | index.tsx:393-414 | Without a payload there is nothing to download. Otherwise the document is the CSV table of the whole payload, whatever the tab. |

## Left out

- `Session.State.ProcessOcr`:
  - The recognition service call (model, prompt, response schema), the file's base64 encoding and the `await`s are not modelled. Their result is the `ExtractionOutcome` parameter, and the whole handler is one atomic step.
  - `process.env.API_KEY` becomes a parameter.
  - The loading indicator and the `finally` block are not modelled, because they only touch the DOM.
  - Interleaving is not modelled. The source does not disable the reset button while the awaits at index.tsx:149 and 174 are pending; `toggleLoading` (index.tsx:339-343) only hides the action bar. A reset during those awaits would let index.tsx:235 store a payload while no file is held. That state breaks `Session.State.Valid()`, and the model cannot reach it.
  - A payload whose rendering throws after it was stored is not modelled. The page would keep that payload and also show an error; the model treats the payload as stored without an error.
- `JSON.parse` of the service's text is not modelled. The payload is typed rather than the source's `any`, so a payload with missing fields or fields of another type is outside the model. `Payload.Block.page` and `Payload.Block.reading` are `Option`s, because the source's `||` defaults handle their absence.
- `Session.State.CopyJson`: `JSON.stringify` with two-space indentation is not modelled. The export is the payload itself.
- The clipboard write, the "COPIED!" feedback timer, the Blob and object-URL downloads and the `Date.now()` file names are not modelled. They are I/O and clock.
- `renderResults`, `renderPageSummary` and `renderSetView` build DOM nodes and are not modelled. What they decide is modelled: the page-count rule as `Views.PageItemCount`, and the section-presence rule as `Views.SetSections`.
- The page summary's `|| []` defaults are not modelled. The lists are always present in the typed payload.
- The file-size and file-subtype display, the image preview and the drag-and-drop wiring are not modelled. They are presentation only.
- Errors are returned from the handlers instead of being shown. `showError` and `toggleLoading` change only the DOM.
- `Text.IntToString`: pages and counts are treated as exact integers and printed with every digit. JavaScript's number printing is not modelled: its exponent form for magnitudes of 10^21 and above (`String(1e21)` is `"1e+21"`), and its loss of precision beyond 2^53. So `Exports.PageNumberAgreement`, `Text.IntRoundTrip` and `Csv.CountRowsCarryLengths` describe the source only for pages and lengths below 2^53.
- Confidence is a number in the source and is kept as its already-rendered decimal text. JavaScript's floating-point formatting is not modelled.
- The aggregated set's uniqueness is not modelled: nothing in the page enforces it, and the service is only asked for it.
- `Digest.PageDigestLines`, `Digest.SummaryDigestLines`, `Digest.SetDigestLines`, `Exports.SummaryCountLines` and `Csv.DocumentLines` hold only when no field contains a newline. With embedded newlines the source's output is still what the model computes, but the line structure no longer matches the records.
