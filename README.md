# ABA direct-entry batch codec — a verified Dafny model

This project models the core of the `aba` Ruby gem. The gem writes and reads the
ABA (CEMTEX) direct-entry file format. That format is a fixed-width, line-oriented
text of 120-character records, each ended by CR LF:

- a descriptive record (record type `0`) opens a batch;
- one detail record (record type `1`) follows per payment instruction;
- a file total record (record type `7`) closes the batch with its net, credit and
  debit totals and its count of transactions.

The model has three parts.

- **Record codecs** (`fields.dfy`, `headers.dfy`, `transaction.dfy`, `summary.dfy`).
  - Each record is a pure function from its fields to its text, laid out column by column.
  - Each record has a decoder that reads the fields back from fixed columns.
  - Lemmas state the column layout and the 120-character length.
  - Lemmas state the round trips: a decoded record renders to the same text, and a
    decoded file total record gives back its totals and count.
- **The batch** (`batch.dfy`). `Batches.Batch` is a class.
  - Its fields are the headers, the append-only transaction list and the running
    `creditTotalAmount` and `debitTotalAmount`.
  - `Valid()` ties each running total to the sum over the current transactions.
  - `AddTransaction` keeps that invariant.
  - Rendering is a function of the batch's value. An empty batch fails with
    `NoTransactions`, and invalid headers fail with `Invalid`.
- **The parser** (`parser.dfy`, `parser_lemmas.dfy`, `parser_scenarios.dfy`).
  - `Parser.Run` and `Parser.Step` are the specification: a state machine over a
    sequence of lines. Its state is the closed batches plus an optional open batch.
  - `Parser.ParseStream` and `Parser.ParseText` (its `each` loop is `Parser.HandleLines`)
    are the imperative loops of the source. They run over batch objects, and each is
    proved equal to the specification.
  - The lemmas cover the following:
    - line breaks are ignored;
    - blank lines are skipped;
    - the output only grows, in the order batches were closed;
    - a batch left open at end of input is dropped;
    - stream mode and text mode agree;
    - every misuse gets its own error;
    - the text a batch renders parses back to one batch that renders the same text.

The input of `parse` is `Parser.Input`, with three cases:

- `Stream(lines)`: the lines `gets` returns, in order. The end of the sequence is
  `gets` returning nil.
- `Text(text)`: a single string.
- `Other`: any other value.

Errors are the kinds in `AbaErrors`, one per message the source raises.

## Model

| member | source | states |
|---|---|---|
| `Parser.Parse` | lib/aba/parser.rb:10-18 | A stream is parsed line by line and a text is split on LF. Any other input fails with CouldNotParse. The batch objects returned have exactly the values the line-level specification gives. |
| `Parser.ParsedInput` | lib/aba/parser.rb:10-17 | An input that is neither stream nor text fails with CouldNotParse. |
| `ParserProperties.CouldNotParseCause` | lib/aba/parser.rb:23-31 | CouldNotParse comes only from an input that is neither stream nor text, or from a line whose record type is not 0, 1 or 7. |
| `Parser.RemoveLineBreaks` | lib/aba/parser.rb:21 | The cleaned line holds no CR and no LF. Every character it holds comes from the line. A line without breaks is unchanged. |
| `Parser.ParseLine` | lib/aba/parser.rb:20-32 | After CR and LF are removed, a line is a header exactly when it starts with `0`, a detail exactly when it starts with `1`, and a summary exactly when it starts with `7`. Any other line fails with CouldNotParse. |
| `ParserProperties.LineBreaksIgnored` | spec/lib/aba/parser_spec.rb:60-74 | A line parses exactly as the same line with its CR and LF characters removed. |
| `ParserProperties.CleanTerminated` | lib/aba/parser.rb:21 | Removing the line breaks from a record followed by "", CR, LF or CR LF gives back the record. |
| `Parser.HandleBatch` | lib/aba/parser.rb:89-97 | With no open batch, a header opens an empty batch and the collection is unchanged. With a batch open, it fails with PreviousBatchUnfinished. |
| `Parser.HandleTransaction` | lib/aba/parser.rb:99-107 | With a batch open, the transaction is appended to it, and the headers and collection are unchanged. With no batch open, it fails with TransactionOutsideBatch. |
| `Parser.HandleSummary` | lib/aba/parser.rb:109-120 | With no batch open, it fails with SummaryWithoutBatch. A summary that reconciles pushes the open batch onto the end of the collection and clears it. Otherwise it fails with SummaryMismatch. Both directions are stated. |
| `ParserProperties.CompatibleExactly` | lib/aba/parser.rb:122-147 | A summary reconciles with a batch exactly when, apart from its BSB, it equals what the batch's own file total record decodes to. That holds when net, credit and debit equal the absolute totals and the count equals the number of transactions. |
| `Parser.HandleBatchOn` | lib/aba/parser.rb:89-97 | On objects, a new Batch is opened from the headers, or the call fails as `HandleBatch` does. |
| `Parser.HandleTransactionOn` | lib/aba/parser.rb:99-107 | On objects, the open Batch is extended in place through `AddTransaction`, exactly as `HandleTransaction` extends its value. |
| `Parser.HandleSummaryOn` | lib/aba/parser.rb:109-120 | On objects, the summary is checked against the running totals, and the open Batch is pushed onto the collection. Both steps match `HandleSummary`. |
| `Parser.HandleLineOn` | lib/aba/parser.rb:70-87 | Parse the line, then dispatch on what it yields (`collect_results`). The new collection and open batch are the specification's. |
| `Parser.StepOn` | lib/aba/parser.rb:39-46 | A blank line leaves the collection and the open batch as they are. Any other line is handled. |
| `Parser.ParseStream` | lib/aba/parser.rb:34-49 | The loop over the lines `gets` returns gives the collection of the specification's run, or its first error. |
| `Parser.ParseText` | lib/aba/parser.rb:51-62 | Splitting the text on LF and handling each piece gives the collection of the specification's run over the split lines, or its first error. |
| `Parser.HandleLines` | lib/aba/parser.rb:52-61 | The `each` loop over the split lines: blank lines skipped, every other line handled in order; it ends with the collection of the specification's run, or stops at its first error. |
| `Parser.RunAppend` | lib/aba/parser.rb:34-62 | Running two line sequences in a row is running the first, then the second from where the first ended. An error ends the run. |
| `Parser.RunFailurePersists` | lib/aba/parser.rb:44 | An error raised on a prefix of the lines is the error of the whole parse. |
| `ParserProperties.BlankLineSkipped` | lib/aba/parser.rb:40-43 | A whitespace-only line anywhere in the input changes neither the collection nor the open batch. |
| `ParserProperties.StepEffect` | lib/aba/parser.rb:77-120 | A line either leaves the collection as it is, or it is a reconciling summary that appends the open batch and clears it. |
| `ParserProperties.CollectionGrows` | lib/aba/parser.rb:109-116 | Closed batches are never changed or reordered. A run only appends to the collection. |
| `ParserProperties.DanglingBatchDropped` | lib/aba/parser.rb:34-48 | Lines with no summary after the last closed batch add nothing to the output, so a batch still open at end of input is not returned. |
| `ParserProperties.StreamTextAgree` | lib/aba/parser.rb:34-62 | Reading a text with `gets` (each line keeping its LF) and splitting it on LF give the same result. |
| `ParserProperties.StepIgnoresFeed` | lib/aba/parser.rb:40-44 | A line followed by a LF is handled exactly as the line alone. |
| `ParserProperties.ParseHeaderRecord` | spec/lib/aba/parser_spec.rb:76-99 | A rendered descriptive record, with any terminator, parses as a header of its decoded fields. |
| `ParserProperties.ParseDetailRecord` | spec/lib/aba/parser_spec.rb:101-123 | A rendered detail record, with any terminator, parses as its decoded transaction. |
| `ParserProperties.ParseSummaryRecord` | spec/lib/aba/parser_spec.rb:125-137 | A rendered file total record, with any terminator, parses as the summary of its totals and count. |
| `ParserProperties.RenderedSummaryCloses` | lib/aba/parser.rb:109-120 | The file total record a batch renders, once decoded, closes that batch. |
| `ParserProperties.SumsOfDecoded` | spec/lib/aba/parser_spec.rb:198-232 | Reading detail records back keeps every code and amount, and so both totals. |
| `ParserProperties.RunRendered` | spec/lib/aba/parser_spec.rb:198-232 | A batch's records, each with the same terminator, run to exactly one closed batch and no open batch, when every field and number fits its slot. |
| `ParserProperties.RenderReparsed` | spec/lib/aba/parser_spec.rb:198-232 | The batch read back from a batch's records renders the same text as the original, when every field and number fits its slot. |
| `ParserProperties.ParseRenderedText` | spec/lib/aba/parser_spec.rb:280-310 | The text a batch renders, given as text, parses to exactly one batch: the batch read back from its records. |
| `ParserProperties.ParseRenderedStream` | spec/lib/aba/parser_spec.rb:198-232 | The same text read with `gets` parses to the same single batch. |
| `ParserProperties.TwoHeadersRefused` | lib/aba/parser.rb:89-97 | Any two header lines in a row fail with PreviousBatchUnfinished. |
| `ParserProperties.LoneDetailRefused` | lib/aba/parser.rb:99-107 | A detail line with no batch open fails with TransactionOutsideBatch. |
| `ParserProperties.LoneSummaryRefused` | lib/aba/parser.rb:109-111 | A summary line with no batch open fails with SummaryWithoutBatch. |
| `ParserProperties.UnreconciledRefused` | lib/aba/parser.rb:112-119 | A header, any detail lines, then a summary that does not reconcile, fail with SummaryMismatch. |
| `ParserScenarios.TestBatchLineLiteral` | spec/lib/aba/parser_spec.rb:7 | The descriptive line the scenarios use is the test's `batch_line` literal, slot by slot. |
| `ParserScenarios.TestTransactionLineLiteral` | spec/lib/aba/parser_spec.rb:8 | The detail line the scenarios use is the test's `transaction_line` literal, slot by slot. |
| `ParserScenarios.TestSummaryLineLiteral` | spec/lib/aba/parser_spec.rb:9 | The file total line the scenarios use is the test's `summary_line` literal, slot by slot. |
| `ParserScenarios.TwoBatches` | spec/lib/aba/parser_spec.rb:149-158 | The test's header line twice fails with PreviousBatchUnfinished, both as a stream and as LF-joined text. |
| `ParserScenarios.HeaderTwiceRefused` | spec/lib/aba/parser_spec.rb:237-245 | Any header line twice fails with PreviousBatchUnfinished, both as a stream and as text. |
| `ParserScenarios.TransactionWithoutBatch` | spec/lib/aba/parser_spec.rb:160-169 | The test's detail line alone fails with TransactionOutsideBatch, both as a stream and as text. |
| `ParserScenarios.DetailAloneRefused` | spec/lib/aba/parser_spec.rb:247-255 | Any detail line alone fails with TransactionOutsideBatch, both as a stream and as text. |
| `ParserScenarios.SummaryWithoutAnyBatch` | spec/lib/aba/parser_spec.rb:171-180 | The test's summary line alone fails with SummaryWithoutBatch, both as a stream and as text. |
| `ParserScenarios.SummaryAloneRefused` | spec/lib/aba/parser_spec.rb:257-265 | Any summary line alone fails with SummaryWithoutBatch, both as a stream and as text. |
| `ParserScenarios.DoubledDetailRefused` | spec/lib/aba/parser_spec.rb:182-195 | A header, the same detail twice, then a summary that counts one transaction, fail with SummaryMismatch. |
| `ParserScenarios.SummaryMismatchesBatch` | spec/lib/aba/parser_spec.rb:182-195 | The test's four mismatching lines, as a stream, fail with SummaryMismatch. |
| `ParserScenarios.SummaryMismatchesBatchText` | spec/lib/aba/parser_spec.rb:267-277 | The same four lines joined by LF fail with SummaryMismatch. |
| `ParserScenarios.TextAsStream` | spec/lib/aba/parser_spec.rb:237-310 | Lines joined by LF parse as text exactly as they parse as a stream. |
| `ParserScenarios.OneBatchParses` | spec/lib/aba/parser_spec.rb:198-232 | A header, one detail and a reconciling summary parse to exactly the one batch they read as. |
| `ParserScenarios.GoodStream` | spec/lib/aba/parser_spec.rb:198-232 | The test's three lines, as a stream, parse to one batch: the test's batch read back. |
| `ParserScenarios.GoodText` | spec/lib/aba/parser_spec.rb:280-310 | The same lines joined by LF parse to that same batch. |
| `ParserScenarios.GoodRendersAlike` | spec/lib/aba/parser_spec.rb:228-231 | The parsed batch renders the same text as the batch the test builds. |
| `Batches.Batch.constructor` | spec/lib/aba/batch_spec.rb:35-45 | A new batch has the given headers, no transactions, both totals zero, and holds `Valid()`. |
| `Batches.Batch.FromAttributes` | spec/lib/aba/batch_spec.rb:15-32 | `Batch.new(attributes)` builds its headers from the attributes and keeps them, with no transactions, both totals zero, and `Valid()` held. |
| `Batches.Batch.AddTransaction` | spec/lib/aba/batch_spec.rb:111-177 | It appends the argument, or the Transaction built from a mapping, and returns what it appended. The headers are unchanged. The credit total rises by the amount of a credit and the debit total by the amount of a debit. `Valid()` is kept. |
| `Batches.TransactionOf` | spec/lib/aba/batch_spec.rb:141-176 | A Transaction argument is appended as it is. A mapping is first built into a Transaction. |
| `Batches.SumsAppend` | spec/lib/aba/batch_spec.rb:121-139 | Appending a transaction adds its amount to the credit total if it is a credit and to the debit total if it is a debit, and nothing otherwise. |
| `Batches.SumsConcat` | spec/lib/aba/batch_spec.rb:68-84 | The totals of two transaction lists in a row are the sums of their totals. |
| `Batches.Batch.Count` | spec/lib/aba/batch_spec.rb:235-241 | `count` is the number of stored transactions. |
| `Batches.Batch.NetTotalAmount` | lib/aba/parser.rb:133-135 | The net total from the running totals equals credits less debits over the current transactions. |
| `Batches.Batch.TransactionsValid` | spec/lib/aba/batch_spec.rb:179-221 | True exactly when every contained transaction is valid. |
| `Batches.AllValid` | spec/lib/aba/batch_spec.rb:179-221 | True exactly when every transaction of the list is valid. |
| `Batches.Batch.ToS` | spec/lib/aba/batch_spec.rb:48-108 | `to_s` computed from the running totals gives the same result as rendering the batch's value. |
| `Batches.Render` | spec/lib/aba/batch_spec.rb:48-53 | An empty batch fails with NoTransactions. Otherwise invalid headers fail with Invalid. Otherwise the output is the descriptive record, each detail record in insertion order, and the file total record, each ended by CR LF. |
| `Batches.Lines` | spec/lib/aba/batch_spec.rb:86-106 | The records of a batch, in order: the descriptive record, then one detail record per transaction in insertion order, then the file total record. |
| `Batches.DetailLines` | spec/lib/aba/batch_spec.rb:92-99 | Detail record i is the record of transaction i. |
| `Batches.FileTotalDecodes` | spec/lib/aba/parser/summary_spec.rb:18-31 | A batch's file total record decodes to the sentinel BSB, the absolute net total, the credit and debit totals and the count. |
| `Batches.BuildScenario` | spec/lib/aba/batch_spec.rb:68-84 | Adding credits 40 and 30, then debits 20 and 10, builds the scenario batch with `Valid()` held. |
| `Batches.ScenarioTotals` | spec/lib/aba/batch_spec.rb:101-106 | The scenario has credit total 70, debit total 30, net total 40 and count 4. |
| `Batches.ScenarioCreditRecords` | spec/lib/aba/batch_spec.rb:94-95 | The two credit detail records are exactly the expected lines. |
| `Batches.ScenarioDebitRecords` | spec/lib/aba/batch_spec.rb:96-97 | The two debit detail records are exactly the expected lines. |
| `Batches.ScenarioFileTotal` | spec/lib/aba/batch_spec.rb:104 | The scenario's file total record carries net `0000000040`, credit `0000000070`, debit `0000000030` and count `000004` (the corrected net, see Findings). |
| `Batches.ScenarioFileTotalAsWritten` | spec/lib/aba/batch_spec.rb:104 | The record the test expects carries `0000000100`, the credit plus the debit total, in the net slot. |
| `Batches.AsWrittenAgreement` | spec/lib/aba/batch_spec.rb:104 | The expected record and the corrected record agree exactly when the batch has no credits or no debits. |
| `Batches.ScenarioAsWrittenDiffers` | spec/lib/aba/batch_spec.rb:104 | On the scenario, the expected record differs from the corrected one. |
| `ParserProperties.AsWrittenSummaryRefused` | lib/aba/parser.rb:133-135 | Once a batch has both credits and debits, the parser refuses the record the test expects with SummaryMismatch. |
| `ParserProperties.ScenarioSummaries` | spec/lib/aba/batch_spec.rb:104 | On the scenario batch, the expected record is refused and the corrected one closes the batch. |
| `BatchHeaders.New` | spec/lib/aba/batch/headers_spec.rb:17-29 | Every given attribute is stored unchanged, and an absent BSB stays absent. |
| `BatchHeaders.Validate` | spec/lib/aba/batch/headers_spec.rb:31-39 | `validate!` fails with Invalid exactly when the headers are not valid. |
| `BatchHeaders.ToS` | spec/lib/aba/batch/headers_spec.rb:42-46 | `to_s` fails with Invalid exactly when validation fails. Otherwise it gives the 120-character descriptive record. |
| `BatchHeaders.RecordLength` | spec/lib/aba/batch/headers_spec.rb:56-62 | The descriptive record is exactly 120 characters. |
| `BatchHeaders.ColumnsFixed` | spec/lib/aba/batch/headers_spec.rb:56-62 | Column 1 is `0` and columns 19-20 are `01`. Columns 9-18, 24-30 and 81-120 are blank. |
| `BatchHeaders.ColumnBsb` | spec/lib/aba/batch/headers_spec.rb:56-62 | Columns 2-8 hold the BSB slot. |
| `BatchHeaders.ColumnFi` | spec/lib/aba/batch/headers_spec.rb:56-62 | Columns 21-23 hold the financial institution, left-justified. |
| `BatchHeaders.ColumnUserName` | spec/lib/aba/batch/headers_spec.rb:56-62 | Columns 31-56 hold the user name, left-justified and space-padded. |
| `BatchHeaders.ColumnUserId` | spec/lib/aba/batch/headers_spec.rb:56-62 | Columns 57-62 hold the user id. |
| `BatchHeaders.ColumnDescription` | spec/lib/aba/batch/headers_spec.rb:56-62 | Columns 63-74 hold the description, left-justified and space-padded. |
| `BatchHeaders.ColumnProcessAt` | spec/lib/aba/batch/headers_spec.rb:56-62 | Columns 75-80 hold the processing date. |
| `BatchHeaders.BsbOnlyInColumns2To8` | spec/lib/aba/batch/headers_spec.rb:48-62 | Setting `bsb` changes columns 2-8 and leaves the rest of the 120 characters unchanged. |
| `BatchHeaders.NoBsbIsBlank` | spec/lib/aba/batch/headers_spec.rb:48-54 | With no BSB, columns 2-8 are blank. |
| `BatchHeaders.BsbVerbatim` | spec/lib/aba/batch/headers_spec.rb:56-62 | A BSB that matches the pattern stands verbatim in columns 2-8. |
| `BatchHeaders.RenderedWithoutBsb` | spec/lib/aba/batch/headers_spec.rb:48-54 | The test's headers without a BSB render exactly the expected line. |
| `BatchHeaders.RenderedWithBsb` | spec/lib/aba/batch/headers_spec.rb:56-62 | The test's headers with BSB `123-456` render exactly the expected line. |
| `BatchHeaders.DecodeRecord` | spec/lib/aba/parser_spec.rb:76-99 | A descriptive record, decoded, renders to the same record. |
| `BatchHeaders.DecodeKeepsValid` | spec/lib/aba/parser_spec.rb:76-99 | Valid headers decode from their record to valid headers. |
| `BatchHeaders.DecodeInverse` | spec/lib/aba/parser_spec.rb:76-99 | Decoding inverts rendering on valid headers whose text fields carry no trailing blank. A blank BSB comes back as no BSB. |
| `DetailRecord.New` | spec/lib/aba/batch_spec.rb:56-65 | Every given field is stored: BSB, account number, indicator, code, amount, account name, lodgement reference, trace BSB, trace account number, remitter and withholding amount. An absent amount or withholding amount is 0. An absent code is 0, neither credit nor debit. An absent indicator is a blank. |
| `DetailRecord.ClassificationExclusive` | spec/lib/aba/batch_spec.rb:121-139 | A valid transaction is a credit exactly when it is not a debit. |
| `DetailRecord.RecordColumns` | spec/lib/aba/batch_spec.rb:94-97 | The detail record is 120 characters, laid out in columns: 1 `1`; 2-8 BSB; 9-17 account number, right-justified; 18 indicator; 19-20 code; 21-30 amount, zero-padded; 31-62 account name; 63-80 lodgement reference; 81-87 trace BSB; 88-96 trace account; 97-112 remitter; 113-120 withholding. |
| `DetailRecord.RecordNoBreak` | spec/lib/aba/batch_spec.rb:94-97 | A detail record whose fields hold no line break is one 120-character line that starts with `1`. |
| `DetailRecord.ExampleRecord` | spec/lib/aba/batch_spec.rb:94-97 | The test transaction renders, for any code and amount, the expected line. |
| `DetailRecord.DecodeRecord` | spec/lib/aba/parser_spec.rb:101-123 | A detail record, decoded, gives the same code and amounts and renders to the same record. |
| `DetailRecord.DecodeInverse` | spec/lib/aba/parser_spec.rb:101-123 | Decoding gives back a valid transaction whose amounts fit and whose free-text fields end in no blank. |
| `FileTotal.RecordTypeOf` | spec/lib/aba/parser/summary_spec.rb:8-16 | The record type is `7`, and `record_type` returns it. |
| `FileTotal.RecordColumns` | spec/lib/aba/batch_spec.rb:104 | The file total record is 120 characters: column 1 `7`, columns 2-8 `999-999`, net, credit and debit in columns 21-30, 31-40 and 41-50, count in columns 75-80. |
| `FileTotal.RecordBlanks` | spec/lib/aba/batch_spec.rb:104 | Columns 9-20, 51-74 and 81-120 of the file total record are blank. |
| `FileTotal.DecodeRecord` | spec/lib/aba/parser/summary_spec.rb:18-31 | Decoding a rendered file total record gives back the sentinel BSB, its totals and its count. |
| `FileTotal.RecordInjective` | spec/lib/aba/parser/summary_spec.rb:18-31 | Two file total records of fitting totals are equal only when their totals and counts are. |
| `FileTotal.ExampleDecode` | spec/lib/aba/parser/summary_spec.rb:20-29 | The test's line decodes to BSB `999-999`, net 12345, credit 67890, debit 80235, count 12. |
| `Fields.ReadZeroPad` | spec/lib/aba/parser/summary_spec.rb:20-29 | Reading a zero-padded slot back gives the number written into it, with leading zeros dropped. |
| `Fields.Delete` | lib/aba/parser.rb:21 | `gsub(c, "")` leaves no `c`, is never longer than its input and holds only characters of it. A string without `c` is unchanged. |
| `Fields.DeleteAppend` | lib/aba/parser.rb:21 | `gsub(c, "")` works piece by piece: on a concatenation it is the concatenation of the two results, so the kept characters stay in their order. |
| `Fields.DeleteCounts` | lib/aba/parser.rb:21 | `gsub(c, "")` keeps every other character, each as often as it occurs: the multiset of the result is that of the input with `c` taken out. |
| `Fields.SplitLines` | lib/aba/parser.rb:55 | `split("\n")` gives pieces that hold no LF, and trailing empty pieces are dropped. |

## Findings

| source | as written | input that shows it | evidently intended | confidence | as-written member | corrected member |
|---|---|---|---|---|---|---|
| spec/lib/aba/batch_spec.rb:104 | The file total record expected of the batch puts `0000000100`, the credit total plus the debit total, in the net slot (columns 21-30). | Credits 40 and 30 and debits 20 and 10 give credit 70 and debit 30, and the expected net slot reads 100. | The net slot holds the absolute value of credits less debits, `0000000040`. That is the value the parser's reconciliation (lib/aba/parser.rb:133-135) compares against, so with the expected record the parser would refuse every batch that has both credits and debits. | medium, not executed | `ParserProperties.AsWrittenSummaryRefused` | `ParserProperties.RenderedSummaryCloses` |

`lib/aba/batch.rb` is not part of this model, so the finding rests on the expected line of
the batch test. The rest of the model renders the corrected net total (`Batches.FileTotalRecord`).

## Left out

- `lib/aba.rb` (`Aba.batch`, `Aba.parse`) only delegates and is not modelled.
- Ruby duck typing (`respond_to?(:gets)`, `is_a?(String)`) becomes the `Parser.Input`
  datatype. A stream is the sequence of lines `gets` returns. No I/O is modelled.
- `lib/aba/batch.rb`, `lib/aba/transaction.rb`, the validation facility and the line
  decoders under `lib/aba/parser/` are not part of this model.
  - Their behaviour is taken from the tests and from the record layouts.
  - Each decoder reads its fixed columns back, strips the pad on the padded side, and
    reads numbers as unsigned digit runs after leading white space (`Fields.ReadNumber`).
  - The tests pin only the file total decoder's columns. The header and detail decoders
    are chosen as inverses of the rendered layout.
- Field validity follows the documented widths and patterns (`BatchHeaders.Valid`,
  `DetailRecord.Valid`). Error lists (`errors`, including `Batch#errors`) are not
  modelled. Only their yes/no outcome is.
- A transaction's `to_s` is not shown to validate, so `DetailRecord.Record` renders any
  transaction. The header record validates first, as the headers test requires.
- Defaults of `Transaction.new` for absent keys are assumptions: empty text, zero numbers
  and a blank indicator.
- Only transaction codes 50 (credit) and 13 (debit) are known. Other codes are neither,
  and the full code table is not reproduced.
- Error messages become the error kinds of `AbaErrors`.
- RSpec mocking (doubles and `receive` expectations on call structure) is not modelled.
  The observable outcomes are: `to_s` validates first, `parse_line` decodes with the
  decoder of the record type, and `Batch.new` builds its headers from the attributes
  (`Batches.Batch.FromAttributes`).
- Character encoding is not modelled. Strings are sequences of single-width characters.
- Numbers wider than their zero-padded slot overflow it (`Fields.ZeroPad` never cuts).
  The layout lemmas therefore require every amount to fit its slot (`Fits`).
- `Fields.LeftJustify` and `Fields.RightJustify` cut text longer than its slot to the slot
  width, which keeps every record at 120 columns. Ruby's `ljust` and `rjust` pad but never
  cut, so the model agrees with the renderers only on fields that fit. The round-trip lemmas
  (`ParserProperties.RoundTrippable`) therefore require every text field to fit its slot
  (`BatchHeaders.SlotsFit`, `DetailRecord.SlotsFit`). Valid transactions always do
  (`DetailRecord.ValidSlotsFit`).
- `Fields.ReadNumber`: reads unsigned digits only. Ruby's `String#to_i` also accepts a
  leading sign and underscores between digits (`"-5".to_i` is -5, `"1_0".to_i` is 10); here
  a sign or an underscore ends the number (`Fields.ReadNumberUnsigned`). Rendered slots
  hold only digits, so the round trips are unaffected.
- `BatchHeaders.DecodeInverse`: header text fields that end in blanks come back without
  them, and a blank BSB comes back as no BSB. The rendered text still round-trips
  (`BatchHeaders.DecodeRecord`).
- `DetailRecord.DecodeInverse`: detail text fields that end in blanks come back without
  them. The rendered text still round-trips (`DetailRecord.DecodeRecord`).
- The parser's `parse_line` returns a `Batch` built from the decoded header. The model
  returns the decoded headers, and `Parser.HandleBatchOn` builds the `Batch`.
